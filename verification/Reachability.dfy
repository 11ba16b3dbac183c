/** Building runs action by action. */
module Reachability {
  import opened MasterFile
  import opened Volumes
  import opened Protocol

  ghost predicate Reaches(H: Block -> Digest, from: Sys, sys: Sys) {
    exists run, acts :: IsRun(H, run, acts) && run[0] == from && run[|acts|] == sys
  }

  lemma Start(H: Block -> Digest, sys: Sys)
    ensures Reaches(H, sys, sys)
  {
    assert IsRun(H, [sys], []);
  }

  lemma Extend(H: Block -> Digest, from: Sys, sys: Sys, a: Action)
    requires Reaches(H, from, sys) && Enabled(sys, a)
    ensures Reaches(H, from, Apply(H, sys, a))
  {
    hide Enabled, Apply;
    var run, acts :| IsRun(H, run, acts) && run[0] == from && run[|acts|] == sys;
    var run', acts' := run + [Apply(H, sys, a)], acts + [a];
    forall i | 0 <= i < |acts'| ensures Enabled(run'[i], acts'[i]) && run'[i + 1] == Apply(H, run'[i], acts'[i]) {
      if i < |acts| {
        assert run'[i] == run[i] && run'[i + 1] == run[i + 1] && acts'[i] == acts[i];
      }
    }
    assert IsRun(H, run', acts');
    assert run'[|acts'|] == Apply(H, sys, a);
  }

  function Two(v: Volume, t0: Thread, t1: Thread): Sys { Sys(v, map[0 := t0, 1 := t1]) }

  lemma PutTwo(v: Volume, t0: Thread, t1: Thread, v': Volume, th: Thread)
    ensures Put(Two(v, t0, t1), 0, v', th) == Two(v', th, t1)
    ensures Put(Two(v, t0, t1), 1, v', th) == Two(v', t0, th)
  {
  }
}
