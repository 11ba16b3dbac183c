/** A request that runs alone is a run of the protocol with one thread, so whatever
    holds of every run holds of it. */
module Solo {
  import opened MasterFile
  import opened Volumes
  import opened Protocol
  import opened Invariant
  import opened Publication
  import opened Safety
  import opened Refinement
  import opened Requests

  function Alone(v: Volume, th: Thread): Sys { Sys(v, map[0 := th]) }

  /** The invariant between requests. */
  ghost predicate Valid(H: Block -> Digest, U: iset<Block>, v: Volume) {
    Good(H, U, Alone(v, IDLE))
  }

  /** Infos published in v0 and still allocated in v are still published there and
      store the same bytes. */
  ghost predicate Extends(v0: Volume, v: Volume) {
    && v0.nextRef <= v.nextRef
    && forall r: Ref :: Indexed(v0, r) && r < v0.nextRef && r in v.infos ==>
         Indexed(v, r) && v.infos[r].slot == v0.infos[r].slot && Content(v, r) == Content(v0, r)
  }

  ghost predicate Follows(H: Block -> Digest, U: iset<Block>, v0: Volume, v: Volume, th: Thread) {
    Good(H, U, Alone(v, th)) && Extends(v0, v)
  }

  lemma StepKeys(H: Block -> Digest, sys: Sys, a: Action)
    requires Enabled(sys, a)
    ensures sys.v.nextRef <= Apply(H, sys, a).v.nextRef
    ensures Apply(H, sys, a).v.infos.Keys <= sys.v.infos.Keys + {sys.v.nextRef}
  {
    hide SkipHits, RunEnd, RunBytes, MissCount, Existing, Drop, Retain, Poke, RemoveBlock, Decide;
    KeysShrink(sys.v);
    if a.DecideOne? {
      DecideKeys(H, sys.v, sys.threads[a.t].plan, sys.threads[a.t].start + |sys.threads[a.t].plan|,
                 sys.threads[a.t].blocks[|sys.threads[a.t].plan|]);
    } else if a.PublishOne? {
      RetainKeys(sys.v.(infos := sys.v.infos - {sys.threads[a.t].plan[sys.threads[a.t].pos].info}));
    } else if a.RemoveOne? {
      RemoveKeys(sys.v);
    }
  }

  lemma KeysShrink(v: Volume)
    ensures forall r, rel :: Drop(v, r, rel).0.infos.Keys <= v.infos.Keys && Drop(v, r, rel).0.nextRef == v.nextRef
    ensures forall r, i :: Poke(v, r, i).infos.Keys == v.infos.Keys && Poke(v, r, i).nextRef == v.nextRef
  {
  }

  lemma RetainKeys(v: Volume)
    ensures forall r :: Retain(v, r).infos.Keys == v.infos.Keys && Retain(v, r).nextRef == v.nextRef
  {
  }

  lemma RemoveKeys(v: Volume)
    ensures forall p, b, rel ::
              RemoveBlock(v, p, b, rel).0.infos.Keys <= v.infos.Keys && RemoveBlock(v, p, b, rel).0.nextRef == v.nextRef
  {
  }

  lemma DecideKeys(H: Block -> Digest, v: Volume, plan: seq<Entry>, blk: nat, b: Block)
    ensures var v' := Decide(H, v, plan, blk, b).0;
            v.nextRef <= v'.nextRef && v'.infos.Keys <= v.infos.Keys + {v.nextRef}
  {
  }

  lemma StepExtends(H: Block -> Digest, U: iset<Block>, v0: Volume, sys: Sys, a: Action)
    requires Good(H, U, sys) && Enabled(sys, a) && Safe(sys, a) && Uses(U, a) && Extends(v0, sys.v)
    ensures Extends(v0, Apply(H, sys, a).v)
  {
    hide Good, Apply, Enabled, Safe, Uses, Indexed, Content;
    var v' := Apply(H, sys, a).v;
    StepKeys(H, sys, a);
    forall r: Ref | Indexed(v0, r) && r < v0.nextRef && r in v'.infos
      ensures Indexed(v', r) && r in v0.infos && v'.infos[r].slot == v0.infos[r].slot &&
              Content(v', r) == Content(v0, r)
    {
      assert r in sys.v.infos;
      IndexedIsAllocated(v0, r);
      StaysIndexed(H, U, sys, a, r);
      KeptInfo(H, U, sys, a, r);
    }
  }

  predicate Quiet(a: Action) { !a.MapOne? && !a.RemoveOne? }

  lemma SoloStep(H: Block -> Digest, U: iset<Block>, v0: Volume, v: Volume, th: Thread, a: Action)
    requires Follows(H, U, v0, v, th) && a.t == 0
    requires Enabled(Alone(v, th), a) && Safe(Alone(v, th), a) && Uses(U, a)
    ensures var s' := Apply(H, Alone(v, th), a);
            0 in s'.threads && s' == Alone(s'.v, s'.threads[0]) && Follows(H, U, v0, s'.v, s'.threads[0])
    ensures Quiet(a) ==> View(Apply(H, Alone(v, th), a).v) == View(v)
  {
    hide Good, Enabled, Safe, Uses, View, Extends, Apply;
    StepGood(H, U, Alone(v, th), a);
    StepExtends(H, U, v0, Alone(v, th), a);
    StepViewRaw(H, U, Alone(v, th), a);
    StillAlone(H, v, th, a);
  }

  lemma StillAlone(H: Block -> Digest, v: Volume, th: Thread, a: Action)
    requires Enabled(Alone(v, th), a) && a.t == 0
    ensures var s' := Apply(H, Alone(v, th), a); 0 in s'.threads && s'.threads == map[0 := s'.threads[0]]
  {
    hide SkipHits, RunEnd, RunBytes, MissCount, Existing, Decide, FlushRun, Publish, MapBlock, RemoveBlock, Unhit,
         Unmiss, Assign;
  }

  lemma SoloAdvance(H: Block -> Digest, U: iset<Block>, v0: Volume, v: Volume, th: Thread)
    requires Follows(H, U, v0, v, th) && CanAdvance(Alone(v, th), th)
    ensures Follows(H, U, v0, v, Advanced(th))
  {
    hide Good, Extends, View, CanAdvance;
    SoloStep(H, U, v0, v, th, Advance(0));
  }

  function AfterGiveBack(th: Thread): Thread {
    if th.pc.Releasing? then IDLE
    else if th.pc.HitReleasing? then th.(pc := Reverting, rel := [])
    else th.(pc := Resizing, rel := [])
  }

  lemma SoloGiveBack(H: Block -> Digest, U: iset<Block>, v0: Volume, v: Volume, th: Thread)
    requires Follows(H, U, v0, v, th) && (th.pc.Releasing? || th.pc.HitReleasing? || th.pc.RemReleasing?)
    ensures Follows(H, U, v0, Release(v, th.rel), AfterGiveBack(th)) && View(Release(v, th.rel)) == View(v)
  {
    hide Good, Extends, View;
    SoloStep(H, U, v0, v, th, GiveBack(0));
  }

  lemma SoloResize(H: Block -> Digest, U: iset<Block>, v0: Volume, v: Volume, th: Thread)
    requires Follows(H, U, v0, v, th) && th.pc.Resizing?
    ensures Follows(H, U, v0, Resized(v, th.path, th.after), IDLE) && View(Resized(v, th.path, th.after)) == View(v)
  {
    hide Good, Extends, View, Resized;
    SoloStep(H, U, v0, v, th, Resize(0));
  }

  // ---- A writer, phase by phase ----

  function WriterAt(pc: PC, path: Path, start: nat, blocks: seq<Block>, plan: seq<Entry>, taken: seq<nat>, pos: nat,
                    rel: seq<nat>): Thread {
    Thread(pc, path, start, blocks, plan, taken, pos, rel, 0, Forget)
  }

  ghost predicate Within(U: iset<Block>, blocks: seq<Block>) {
    forall i :: 0 <= i < |blocks| ==> blocks[i] in U
  }

  lemma SelfExtends(v: Volume)
    ensures Extends(v, v)
  {
  }

  lemma {:induction false} DecidePhase(H: Block -> Digest, U: iset<Block>, v: Volume, path: Path, start: nat,
                                       blocks: seq<Block>, n: nat)
    requires Valid(H, U, v) && Within(U, blocks) && blocks != [] && n <= |blocks|
    ensures var (v', plan) := DecideAll(H, v, start, blocks, n);
            Follows(H, U, v, v', WriterAt(Deciding, path, start, blocks, plan, [], 0, [])) && View(v') == View(v)
  {
    hide Good, Extends, View, Decide;
    if n == 0 {
      SelfExtends(v);
      SoloStep(H, U, v, v, IDLE, BeginWrite(0, path, start, blocks));
    } else {
      DecidePhase(H, U, v, path, start, blocks, n - 1);
      var (v1, plan) := DecideAll(H, v, start, blocks, n - 1);
      SoloStep(H, U, v, v1, WriterAt(Deciding, path, start, blocks, plan, [], 0, []), DecideOne(0));
    }
  }

  lemma DrainPhase(H: Block -> Digest, U: iset<Block>, v0: Volume, v: Volume, path: Path, start: nat,
                   blocks: seq<Block>, plan: seq<Entry>)
    requires Follows(H, U, v0, v, WriterAt(Draining, path, start, blocks, plan, [], 0, []))
    ensures var (v', taken) := Drain(v, MissCount(plan));
            Follows(H, U, v0, v', WriterAt(Appending, path, start, blocks, plan, taken, 0, [])) && View(v') == View(v)
  {
    hide Good, Extends, View, MissCount;
    SoloStep(H, U, v0, v, WriterAt(Draining, path, start, blocks, plan, [], 0, []), DrainFree(0));
  }

  lemma AppendPhase(H: Block -> Digest, U: iset<Block>, v0: Volume, v: Volume, path: Path, start: nat,
                    blocks: seq<Block>, plan: seq<Entry>, taken: seq<nat>)
    requires Follows(H, U, v0, v, WriterAt(Appending, path, start, blocks, plan, taken, 0, [])) &&
             |taken| <= MissCount(plan)
    ensures var (v', added) := Append(v, MissCount(plan) - |taken|);
            Follows(H, U, v0, v', WriterAt(Assigning, path, start, blocks, plan, taken + added, 0, [])) &&
                    View(v') == View(v)
  {
    hide Good, Extends, View, MissCount;
    SoloStep(H, U, v0, v, WriterAt(Appending, path, start, blocks, plan, taken, 0, []), AppendRange(0));
  }

  lemma AllocatePhase(H: Block -> Digest, U: iset<Block>, v0: Volume, v: Volume, path: Path, start: nat,
                      blocks: seq<Block>, plan: seq<Entry>)
    requires Follows(H, U, v0, v, WriterAt(Deciding, path, start, blocks, plan, [], 0, [])) && |plan| == |blocks|
    ensures var (v', out) := Allocate(v, MissCount(plan));
            Follows(H, U, v0, v', WriterAt(Assigning, path, start, blocks, plan, out, 0, [])) && View(v') == View(v)
  {
    hide Follows, View, MissCount;
    SoloAdvance(H, U, v0, v, WriterAt(Deciding, path, start, blocks, plan, [], 0, []));
    DrainPhase(H, U, v0, v, path, start, blocks, plan);
    var (v1, taken) := Drain(v, MissCount(plan));
    AppendPhase(H, U, v0, v1, path, start, blocks, plan, taken);
  }

  lemma AssignStep(H: Block -> Digest, U: iset<Block>, v0: Volume, v: Volume, path: Path, start: nat,
                   blocks: seq<Block>,
                   plan: seq<Entry>, taken: seq<nat>, n: nat)
    requires Follows(H, U, v0, v, WriterAt(Assigning, path, start, blocks, plan, taken, n, [])) && n < |plan|
    requires plan[n].kind.Miss? ==> taken != []
    ensures plan[n].kind.Hit? ==> Follows(H, U, v0, v, WriterAt(Assigning, path, start, blocks, plan, taken, n + 1, []))
    ensures plan[n].kind.Miss? ==>
              var (v', e) := Assign(v, plan[n], taken[0]);
              Follows(H, U, v0, v', WriterAt(Assigning, path, start, blocks, plan[n := e], taken[1..], n + 1, [])) &&
                      View(v') == View(v)
  {
    hide Good, Extends, View, Assign;
    SoloStep(H, U, v0, v, WriterAt(Assigning, path, start, blocks, plan, taken, n, []), AssignOne(0));
  }

  lemma {:induction false} AssignPhase(H: Block -> Digest, U: iset<Block>, v0: Volume, v: Volume, path: Path,
                                       start: nat, blocks: seq<Block>,
                                       plan: seq<Entry>, out: seq<nat>, n: nat)
    requires Follows(H, U, v0, v, WriterAt(Assigning, path, start, blocks, plan, out, 0, []))
    requires |plan| == |blocks| && |out| == MissCount(plan) && n <= |plan|
    ensures MissCount(plan[..n]) <= |out|
    ensures var (v', p') := AssignAll(v, plan, out, n);
            Follows(H, U, v0, v', WriterAt(Assigning, path, start, blocks, p', out[MissCount(plan[..n])..], n, [])) &&
                    View(v') == View(v)
  {
    hide Follows, View, Assign;
    if n == 0 {
      assert out[0..] == out;
      assert plan[..0] == [];
    } else {
      AssignPhase(H, U, v0, v, path, start, blocks, plan, out, n - 1);
      var (v1, p1) := AssignAll(v, plan, out, n - 1);
      var m := MissCount(plan[..n - 1]);
      MissCountPrefix(plan, n - 1);
      AssignStep(H, U, v0, v1, path, start, blocks, p1, out[m..], n - 1);
      assert plan[n - 1].kind.Miss? ==> out[m..][1..] == out[m + 1..];
    }
  }

  lemma {:induction false} FlushPhase(H: Block -> Digest, U: iset<Block>, v0: Volume, v: Volume, path: Path, start: nat,
                                      blocks: seq<Block>,
                                      plan: seq<Entry>, i: nat, io: nat -> int, k: nat) returns (j: nat)
    requires Follows(H, U, v0, v, WriterAt(Flushing, path, start, blocks, plan, [], i, []))
    requires |plan| == |blocks| && i <= |plan|
    ensures var (v', rc) := FlushAll(v, plan, i, io, k);
            && View(v') == View(v) && v' == v.(master := v'.master)
            && (rc == 0 ==>
                  j <= |plan| && SkipHits(plan, j) == |plan| &&
                  Follows(H, U, v0, v', WriterAt(Flushing, path, start, blocks, plan, [], j, [])))
            && (rc < 0 ==> Follows(H, U, v0, v', WriterAt(Failed, path, start, blocks, plan, [], j, [])))
    decreases |plan| - i
  {
    hide Follows, View, SkipHits, RunEnd, RunBytes;
    j := i;
    var s := SkipHits(plan, i);
    FlushFrame(v, plan, i);
    if s < |plan| {
      if io(k) >= RunBytes(plan, s) {
        FlushRunStep(H, U, v0, v, path, start, blocks, plan, i);
        j := FlushPhase(H, U, v0, FlushRun(v, plan, s, RunBytes(plan, s)), path, start, blocks, plan,
            RunEnd(plan, s + 1), io, k + 1);
      } else {
        FlushFailStep(H, U, v0, v, path, start, blocks, plan, i, if io(k) < 0 then 0 else io(k));
        if io(k) < 0 {
          NothingFlushed(v, plan, s);
        }
      }
    }
  }

  lemma FlushFrame(v: Volume, plan: seq<Entry>, i: nat)
    requires i <= |plan|
    ensures var s := SkipHits(plan, i);
            i <= s <= |plan| &&
                (s < |plan| ==>
                   s < RunEnd(plan, s + 1) <= |plan| && RunBytes(plan, s) > 0 && forall got ::
                     FlushRun(v, plan, s, got) == v.(master := FlushRun(v, plan, s, got).master))
  {
  }

  lemma FlushRunStep(H: Block -> Digest, U: iset<Block>, v0: Volume, v: Volume, path: Path, start: nat,
                     blocks: seq<Block>, plan: seq<Entry>, i: nat)
    requires Follows(H, U, v0, v, WriterAt(Flushing, path, start, blocks, plan, [], i, [])) && |plan| == |blocks| &&
             i <= |plan|
    requires SkipHits(plan, i) < |plan|
    ensures var s := SkipHits(plan, i);
            var v' := FlushRun(v, plan, s, RunBytes(plan, s));
            Follows(H, U, v0, v', WriterAt(Flushing, path, start, blocks, plan, [], RunEnd(plan, s + 1), [])) &&
                    View(v') == View(v)
  {
    hide Good, Extends, View;
    SoloStep(H, U, v0, v, WriterAt(Flushing, path, start, blocks, plan, [], i, []), FlushOne(0));
  }

  lemma FlushFailStep(H: Block -> Digest, U: iset<Block>, v0: Volume, v: Volume, path: Path, start: nat,
                      blocks: seq<Block>, plan: seq<Entry>, i: nat, got: nat)
    requires Follows(H, U, v0, v, WriterAt(Flushing, path, start, blocks, plan, [], i, [])) && |plan| == |blocks| &&
             i <= |plan|
    requires SkipHits(plan, i) < |plan| && got < RunBytes(plan, SkipHits(plan, i))
    ensures var v' := FlushRun(v, plan, SkipHits(plan, i), got);
            Follows(H, U, v0, v', WriterAt(Failed, path, start, blocks, plan, [], i, [])) && View(v') == View(v)
  {
    hide Good, Extends, View;
    SoloStep(H, U, v0, v, WriterAt(Flushing, path, start, blocks, plan, [], i, []), FlushFail(0, got));
  }

  lemma NothingFlushed(v: Volume, plan: seq<Entry>, s: nat)
    requires s < |plan|
    ensures FlushRun(v, plan, s, 0) == v
  {
  }
}
