/** Exactly when a block is left above its file's recorded size, with requests on one path
    overlapping at will. */
module Stranding {
  import opened MasterFile
  import opened Volumes
  import opened Protocol
  import opened Invariant
  import opened Publication
  import opened Safety
  import opened Refinement
  import opened Locks
  import opened Quiescence
  import opened Removals
  import opened Sizes

  /** Every mapped block lies below the size of its file or belongs to a write that is
      about to record it. */
  ghost predicate AllAccounted(sys: Sys) {
    forall k :: k in sys.v.byBlock ==> Accounted(sys, k)
  }

  /** The block lies above the size that the remover records in the end. */
  predicate Above(after: After, blk: nat) { From(after) <= blk }

  /** The remover is about to record a size below a block that is still mapped. */
  predicate Strands(sys: Sys, t: Tid) {
    && IsAt(sys, t, Resizing)
    && exists k :: k in sys.v.byBlock && k.path == sys.threads[t].path && Above(sys.threads[t].after, k.blk)
  }

  /** Truncate goes to whole blocks. */
  ghost predicate WholeSizes(sys: Sys) {
    forall t :: t in sys.threads && sys.threads[t].after.Shrink? ==> sys.threads[t].after.size % BLOCK_SIZE == 0
  }

  lemma StepWhole(H: Block -> Digest, sys: Sys, a: Action)
    requires Enabled(sys, a) && WholeSizes(sys)
    ensures WholeSizes(Apply(H, sys, a))
  {
    hide Apply, Enabled;
    StepShape(H, sys, a);
    StepAfter(H, sys, a);
  }

  lemma StepAfter(H: Block -> Digest, sys: Sys, a: Action)
    requires Enabled(sys, a)
    ensures a.t in sys.threads && a.t in Apply(H, sys, a).threads
    ensures var after := Apply(H, sys, a).threads[a.t].after;
            after == sys.threads[a.t].after || after.Forget? ||
                (a.BeginTruncate? && after == Shrink(a.size) && a.size % BLOCK_SIZE == 0)
  {
    hide SkipHits, RunEnd, RunBytes, MissCount, Existing, Decide, FlushRun, Publish, Unhit, Unmiss, Assign, MapBlock,
         RemoveBlock,
         Drain, Append, CanRead, CanWrite, MutexFree;
  }

  // ---- One action ----

  lemma KeepsAccount(sys: Sys, sys': Sys, t: Tid, k: Key)
    requires Accounted(sys, k) && t in sys.threads && t in sys'.threads &&
             sys'.threads == sys.threads[t := sys'.threads[t]]
    requires sys'.v.sizes == sys.v.sizes
    requires forall k' :: Extending(sys.threads[t], k') ==> Extending(sys'.threads[t], k')
    ensures Accounted(sys', k)
  {
    hide Extending;
    SameSizes(sys.v, sys'.v, k);
    if u :| u in sys.threads && Extending(sys.threads[u], k) {
      assert Extending(sys'.threads[u], k);
    }
  }

  lemma OtherActions(H: Block -> Digest, U: iset<Block>, sys: Sys, a: Action)
    requires Good(H, U, sys) && AllAccounted(sys) && Enabled(sys, a) && !a.Grow? && !a.Resize?
    ensures AllAccounted(Apply(H, sys, a))
  {
    hide Good, Apply, Accounted, Extending;
    var sys' := Apply(H, sys, a);
    StepShape(H, sys, a);
    StepByBlock(H, sys, a);
    StepSizesOnly(H, sys, a);
    StillExtending(H, sys, a);
    if a.MapOne? {
      NewBlockAccounted(H, U, sys, a.t);
    }
    forall k | k in sys'.v.byBlock && k in sys.v.byBlock ensures Accounted(sys', k) {
      KeepsAccount(sys, sys', a.t, k);
    }
  }

  lemma StepSizesOnly(H: Block -> Digest, sys: Sys, a: Action)
    requires Enabled(sys, a) && !a.Grow? && !a.Resize?
    ensures Apply(H, sys, a).v.sizes == sys.v.sizes
  {
    hide Apply, Enabled;
    StepSizesAre(H, sys, a);
  }

  lemma NewBlockAccounted(H: Block -> Digest, U: iset<Block>, sys: Sys, t: Tid)
    requires Good(H, U, sys) && Enabled(sys, MapOne(t))
    ensures var th := sys.threads[t]; Accounted(Apply(H, sys, MapOne(t)), Key(th.path, th.plan[th.pos].blk))
  {
    hide SlotInv, InfoInv, RefInv, ContentInv, MapBlock, InSize;
    var sys', th := Apply(H, sys, MapOne(t)), sys.threads[t];
    var g :| Inv(H, U, sys, g);
    MapRequest(H, U, sys, g, t);
    assert Extending(sys'.threads[t], Key(th.path, th.plan[th.pos].blk));
  }

  /** Recording the size of a write covers what it mapped and uncovers nothing. */
  lemma GrowAccounts(H: Block -> Digest, sys: Sys, t: Tid)
    requires AllAccounted(sys) && Enabled(sys, Grow(t))
    ensures AllAccounted(Apply(H, sys, Grow(t)))
  {
    var sys' := Apply(H, sys, Grow(t));
    forall k | k in sys'.v.byBlock ensures Accounted(sys', k) {
      assert Accounted(sys, k);
      if u :| u in sys.threads && u != t && Extending(sys.threads[u], k) { assert Extending(sys'.threads[u], k); }
    }
  }

  /** Nobody is about to record a size while a remover records one. */
  lemma NobodyExtends(sys: Sys, k: Key)
    requires CanWrite(sys)
    ensures Accounted(sys, k) <==> InSize(sys.v, k)
  {
  }

  lemma ResizeAccountsIff(H: Block -> Digest, sys: Sys, t: Tid)
    requires AllAccounted(sys) && WholeSizes(sys) && Enabled(sys, Resize(t))
    ensures AllAccounted(Apply(H, sys, Resize(t))) <==> !Strands(sys, t)
  {
    hide Accounted, InSize;
    var sys', th := Apply(H, sys, Resize(t)), sys.threads[t];
    assert CanWrite(sys');
    forall k | k in sys.v.byBlock
      ensures Accounted(sys', k) <==> k.path != th.path || !Above(th.after, k.blk)
    {
      NobodyExtends(sys, k);
      NobodyExtends(sys', k);
      ResizedInSize(sys.v, th, k);
    }
  }

  lemma ResizedInSize(v: Volume, th: Thread, k: Key)
    requires InSize(v, k) && (th.after.Shrink? ==> th.after.size % BLOCK_SIZE == 0)
    ensures InSize(Resized(v, th.path, th.after), k) <==> k.path != th.path || !Above(th.after, k.blk)
  {
  }

  /** With no assumption about overlap: an action leaves a block above its file's size if
      and only if it is an unlink or truncate recording a size below a mapped block. */
  lemma StepAccountsIff(H: Block -> Digest, U: iset<Block>, sys: Sys, a: Action)
    requires Good(H, U, sys) && AllAccounted(sys) && WholeSizes(sys) && Enabled(sys, a)
    ensures AllAccounted(Apply(H, sys, a)) <==> !(a.Resize? && Strands(sys, a.t))
  {
    hide Good, AllAccounted, WholeSizes, Apply, Enabled, Strands;
    match a
    case Grow(t) => GrowAccounts(H, sys, t);
    case Resize(t) => ResizeAccountsIff(H, sys, t);
    case _ => OtherActions(H, U, sys, a);
  }

  // ---- Which request mapped it ----

  /** The action maps, or unmaps, the block k. */
  predicate Maps(sys: Sys, a: Action, k: Key)
    requires Enabled(sys, a)
  {
    a.MapOne? && var th := sys.threads[a.t]; k == Key(th.path, th.plan[th.pos].blk)
  }

  predicate Unmaps(sys: Sys, a: Action, k: Key)
    requires Enabled(sys, a)
  {
    a.RemoveOne? && k == Key(sys.threads[a.t].path, sys.threads[a.t].pos)
  }

  ghost predicate WrittenAt(run: seq<Sys>, acts: seq<Action>, b: nat, i: nat, m: nat, k: Key)
    requires m <= |acts| <= |run| && forall j :: 0 <= j < |acts| ==> Enabled(run[j], acts[j])
  {
    b < i < m && Maps(run[i], acts[i], k) && forall j :: i < j < m ==> !Unmaps(run[j], acts[j], k)
  }

  /** Between action b and state m a write mapped k, and nothing removed it after that. */
  ghost predicate WrittenSince(run: seq<Sys>, acts: seq<Action>, b: nat, m: nat, k: Key)
    requires m <= |acts| <= |run| && forall j :: 0 <= j < |acts| ==> Enabled(run[j], acts[j])
  {
    exists i :: WrittenAt(run, acts, b, i, m, k)
  }

  /** Action b starts an unlink or truncate of thread t, which has not recorded its size
      before state m. */
  ghost predicate RemoverRuns(H: Block -> Digest, run: seq<Sys>, acts: seq<Action>, b: nat, m: nat, t: Tid)
    ensures RemoverRuns(H, run, acts, b, m, t) ==> b < m <= |acts| && IsRun(H, run, acts)
  {
    && IsRun(H, run, acts) && b < m <= |acts|
    && (acts[b].BeginUnlink? || acts[b].BeginTruncate?) && acts[b].t == t
    && forall j :: b < j < m ==> acts[j] != Resize(t)
  }

  function PathOf(a: Action): Path
    requires a.BeginUnlink? || a.BeginTruncate?
  {
    a.path
  }

  function AfterOf(a: Action): After
    requires a.BeginUnlink? || a.BeginTruncate?
  {
    if a.BeginUnlink? then Forget else Shrink(a.size)
  }

  /** The remover in state m still carries the request that started it. */
  ghost predicate Carries(v: Volume, a: Action, th: Thread)
    requires a.BeginUnlink? || a.BeginTruncate?
  {
    && IsRemover(th) && th.path == PathOf(a) && th.after == AfterOf(a)
    && th.path in v.sizes && th.stop == RoundUp(v.sizes[th.path]) && From(th.after) <= th.stop
    && (th.pc.Sized? ==> th.pos == From(th.after))
    && (th.pc.RemReleasing? || th.pc.Resizing? ==> th.pos >= th.stop)
  }

  lemma RemoverBegins(H: Block -> Digest, sys: Sys, a: Action)
    requires Enabled(sys, a) && (a.BeginUnlink? || a.BeginTruncate?)
    ensures a.t in Apply(H, sys, a).threads && Carries(sys.v, a, Apply(H, sys, a).threads[a.t])
    ensures Apply(H, sys, a).threads[a.t].pos == From(AfterOf(a))
    ensures Apply(H, sys, a).v == sys.v && CanRead(sys)
  {
  }

  /** While it runs, only its own actions change it, and only its loop moves it. */
  lemma RemoverSteps(H: Block -> Digest, sys: Sys, a: Action, v: Volume, start: Action, t: Tid)
    requires Enabled(sys, a) && t in sys.threads && (start.BeginUnlink? || start.BeginTruncate?)
    requires Carries(v, start, sys.threads[t]) && a != Resize(t)
    ensures t in Apply(H, sys, a).threads && Carries(v, start, Apply(H, sys, a).threads[t])
    ensures var th, th' := sys.threads[t], Apply(H, sys, a).threads[t];
            th'.stop == th.stop && th'.pos == if a == RemoveOne(t) then th.pos + 1 else th.pos
  {
    hide Apply, Enabled, Carries;
    StepShape(H, sys, a);
    if a.t == t {
      OwnRemoverStep(H, sys, a, v, start);
    }
  }

  lemma OwnRemoverStep(H: Block -> Digest, sys: Sys, a: Action, v: Volume, start: Action)
    requires Enabled(sys, a) && a.t in sys.threads && (start.BeginUnlink? || start.BeginTruncate?)
    requires Carries(v, start, sys.threads[a.t]) && !a.Resize?
    ensures a.t in Apply(H, sys, a).threads && Carries(v, start, Apply(H, sys, a).threads[a.t])
    ensures var th, th' := sys.threads[a.t], Apply(H, sys, a).threads[a.t];
            th'.stop == th.stop && th'.pos == if a.RemoveOne? then th.pos + 1 else th.pos
  {
    hide RemoveBlock, SkipHits, RunEnd, RunBytes, MissCount, CanRead, CanWrite, MutexFree, Release, Decide, FlushRun,
         Publish, MapBlock, Unhit, Unmiss, Assign, Drain, Append, GrowSize, WriterThread;
  }

  /** While the remover runs: a block above its new size is mapped only if a write mapped
      it since, or the loop has yet to come to it. */
  lemma {:induction false} RemoverSweeps(H: Block -> Digest, run: seq<Sys>, acts: seq<Action>, b: nat, m: nat, t: Tid,
                                         k: Key)
    requires RemoverRuns(H, run, acts, b, m, t) && AllAccounted(run[b])
    requires k.path == PathOf(acts[b]) && Above(AfterOf(acts[b]), k.blk)
    ensures t in run[m].threads && Carries(run[b].v, acts[b], run[m].threads[t])
    ensures k in run[m].v.byBlock ==>
              WrittenSince(run, acts, b, m, k) || run[m].threads[t].pos <= k.blk < run[m].threads[t].stop
    decreases m
  {
    hide Apply, Enabled, Carries, WrittenSince;
    var sys, a := run[m - 1], acts[m - 1];
    assert run[m - 1 + 1] == Apply(H, sys, a);
    if m == b + 1 {
      RemoverBegins(H, sys, a);
      if k in run[b].v.byBlock {
        InsideSize(run[b], run[m].threads[t], acts[b], k);
      }
    } else {
      RemoverSweeps(H, run, acts, b, m - 1, t, k);
      assert a != Resize(t);
      RemoverSteps(H, sys, a, run[b].v, acts[b], t);
      SweepStep(H, run, acts, b, m, t, k);
    }
  }

  lemma InsideSize(sys: Sys, th: Thread, a: Action, k: Key)
    requires AllAccounted(sys) && CanRead(sys) && k in sys.v.byBlock && (a.BeginUnlink? || a.BeginTruncate?)
    requires Carries(sys.v, a, th) && k.path == PathOf(a)
    ensures k.blk < th.stop
  {
    assert Accounted(sys, k);
    assert (k.blk + 1) * BLOCK_SIZE <= sys.v.sizes[k.path];
  }

  lemma SweepStep(H: Block -> Digest, run: seq<Sys>, acts: seq<Action>, b: nat, m: nat, t: Tid, k: Key)
    requires RemoverRuns(H, run, acts, b, m, t) && m > b + 1 && t in run[m - 1].threads && t in run[m].threads
    requires k.path == PathOf(acts[b]) && Carries(run[b].v, acts[b], run[m - 1].threads[t])
    requires k in run[m - 1].v.byBlock ==>
               WrittenSince(run, acts, b, m - 1, k) || run[m - 1].threads[t].pos <= k.blk < run[m - 1].threads[t].stop
    requires var th, th' := run[m - 1].threads[t], run[m].threads[t];
             th'.stop == th.stop && th'.pos == if acts[m - 1] == RemoveOne(t) then th.pos + 1 else th.pos
    ensures k in run[m].v.byBlock ==>
              WrittenSince(run, acts, b, m, k) || run[m].threads[t].pos <= k.blk < run[m].threads[t].stop
  {
    hide Apply, Enabled;
    var sys, a := run[m - 1], acts[m - 1];
    assert run[m - 1 + 1] == Apply(H, sys, a);
    StepByBlock(H, sys, a);
    if k in run[m].v.byBlock {
      if Maps(sys, a, k) {
        assert WrittenAt(run, acts, b, m - 1, m, k);
      } else if WrittenSince(run, acts, b, m - 1, k) {
        var i :| WrittenAt(run, acts, b, i, m - 1, k);
        assert WrittenAt(run, acts, b, i, m, k);
      }
    }
  }

  /** What a write maps stays mapped until something removes it. */
  lemma {:induction false} StaysWritten(H: Block -> Digest, run: seq<Sys>, acts: seq<Action>, b: nat, i: nat, m: nat,
                                        k: Key)
    requires IsRun(H, run, acts) && m <= |acts| && WrittenAt(run, acts, b, i, m, k)
    ensures k in run[m].v.byBlock
    decreases m
  {
    hide Apply, Enabled;
    var sys, a := run[m - 1], acts[m - 1];
    assert run[m - 1 + 1] == Apply(H, sys, a);
    StepByBlock(H, sys, a);
    if i < m - 1 {
      StaysWritten(H, run, acts, b, i, m - 1, k);
    }
  }

  /** When an unlink or truncate records its size, a block above it is mapped if and only
      if a write mapped it after the size was read and nothing has removed it since. */
  lemma LeftBehindIff(H: Block -> Digest, run: seq<Sys>, acts: seq<Action>, b: nat, n: nat, t: Tid, k: Key)
    requires RemoverRuns(H, run, acts, b, n, t) && n < |acts| && acts[n] == Resize(t) && AllAccounted(run[b])
    requires k.path == PathOf(acts[b]) && Above(AfterOf(acts[b]), k.blk)
    ensures k in run[n].v.byBlock <==> WrittenSince(run, acts, b, n, k)
  {
    hide Apply, WrittenSince, AllAccounted;
    RemoverSweeps(H, run, acts, b, n, t, k);
    assert Enabled(run[n], acts[n]);
    if WrittenSince(run, acts, b, n, k) {
      WrittenStays(H, run, acts, b, n, k);
    }
  }

  lemma WrittenStays(H: Block -> Digest, run: seq<Sys>, acts: seq<Action>, b: nat, n: nat, k: Key)
    requires IsRun(H, run, acts) && n <= |acts| && WrittenSince(run, acts, b, n, k)
    ensures k in run[n].v.byBlock
  {
    hide Apply, Enabled, WrittenAt;
    var i :| WrittenAt(run, acts, b, i, n, k);
    StaysWritten(H, run, acts, b, i, n, k);
  }

  // ---- Whole runs ----

  /** Every remover was started by an action of the run. */
  lemma {:induction false} FindBegin(H: Block -> Digest, run: seq<Sys>, acts: seq<Action>, m: nat, t: Tid)
    returns (b: nat)
    requires IsRun(H, run, acts) && AllIdle(run[0]) && m <= |acts| && t in run[m].threads &&
             IsRemover(run[m].threads[t])
    ensures RemoverRuns(H, run, acts, b, m, t)
  {
    hide Apply, Enabled, IsRemover;
    NoIdleRemover(run[0], t);
    var sys, a := run[m - 1], acts[m - 1];
    assert run[m - 1 + 1] == Apply(H, sys, a);
    StepShape(H, sys, a);
    if a.t == t {
      BecomesRemover(H, sys, a);
    }
    if a.t == t && (a.BeginUnlink? || a.BeginTruncate?) {
      b := m - 1;
    } else {
      b := FindBegin(H, run, acts, m - 1, t);
    }
  }

  lemma NoIdleRemover(sys: Sys, t: Tid)
    requires AllIdle(sys)
    ensures t in sys.threads ==> !IsRemover(sys.threads[t])
  {
  }

  lemma BecomesRemover(H: Block -> Digest, sys: Sys, a: Action)
    requires Enabled(sys, a) && a.t in Apply(H, sys, a).threads && IsRemover(Apply(H, sys, a).threads[a.t])
    ensures a.BeginUnlink? || a.BeginTruncate? || (a.t in sys.threads && IsRemover(sys.threads[a.t]) && !a.Resize?)
  {
    hide SkipHits, RunEnd, RunBytes, MissCount, Existing, Decide, FlushRun, Publish, Unhit, Unmiss, Assign, MapBlock,
         RemoveBlock,
         Drain, Append, CanRead, CanWrite, MutexFree;
  }

  /** A write maps a block of a file above the size that an unlink or truncate of the file
      will record, after that has read the old size and before it records the new one, and
      nothing removes the block in between. */
  ghost predicate Overtakes(H: Block -> Digest, run: seq<Sys>, acts: seq<Action>, b: nat, n: nat, k: Key) {
    && n < |acts| && acts[n].Resize? && RemoverRuns(H, run, acts, b, n, acts[n].t)
    && k.path == PathOf(acts[b]) && Above(AfterOf(acts[b]), k.blk)
    && WrittenSince(run, acts, b, n, k)
  }

  ghost predicate NothingOvertakes(H: Block -> Digest, run: seq<Sys>, acts: seq<Action>, m: nat) {
    forall b: nat, n: nat, k :: n < m ==> !Overtakes(H, run, acts, b, n, k)
  }

  /** A recording strands a block exactly if a write overtook its remover. */
  lemma StrandsIffOvertaken(H: Block -> Digest, run: seq<Sys>, acts: seq<Action>, n: nat)
    requires IsRun(H, run, acts) && AllIdle(run[0]) && n < |acts| && acts[n].Resize?
    requires forall m :: 0 <= m <= n ==> AllAccounted(run[m])
    ensures Strands(run[n], acts[n].t) <==> exists b: nat, k :: Overtakes(H, run, acts, b, n, k)
  {
    hide Apply, AllAccounted, Carries, WrittenSince, RemoverRuns, Above;
    var t := acts[n].t;
    ResizerIsRemover(run[n], acts[n]);
    var th := run[n].threads[t];
    var b0 := FindBegin(H, run, acts, n, t);
    if Strands(run[n], t) {
      var k :| k in run[n].v.byBlock && k.path == th.path && Above(th.after, k.blk);
      SameRequestStill(H, run, acts, b0, n, t);
      LeftBehindIff(H, run, acts, b0, n, t, k);
      assert Overtakes(H, run, acts, b0, n, k);
    }
    if b: nat, k :| Overtakes(H, run, acts, b, n, k) {
      SameRequestStill(H, run, acts, b, n, t);
      LeftBehindIff(H, run, acts, b, n, t, k);
    }
  }

  lemma ResizerIsRemover(sys: Sys, a: Action)
    requires Enabled(sys, a) && a.Resize?
    ensures a.t in sys.threads && IsRemover(sys.threads[a.t]) && IsAt(sys, a.t, Resizing)
  {
  }

  lemma SameRequestStill(H: Block -> Digest, run: seq<Sys>, acts: seq<Action>, b: nat, n: nat, t: Tid)
    requires RemoverRuns(H, run, acts, b, n, t) && AllAccounted(run[b])
    ensures acts[b].BeginUnlink? || acts[b].BeginTruncate?
    ensures t in run[n].threads && run[n].threads[t].path == PathOf(acts[b]) &&
            run[n].threads[t].after == AfterOf(acts[b])
  {
    hide Apply, Enabled, AllAccounted;
    RemoverSweeps(H, run, acts, b, n, t, Key(PathOf(acts[b]), From(AfterOf(acts[b]))));
  }

  lemma {:induction false} RunWhole(H: Block -> Digest, run: seq<Sys>, acts: seq<Action>, n: nat)
    requires IsRun(H, run, acts) && WholeSizes(run[0]) && n <= |acts|
    ensures WholeSizes(run[n])
  {
    hide Apply, Enabled, WholeSizes;
    if n > 0 {
      RunWhole(H, run, acts, n - 1);
      assert run[n - 1 + 1] == Apply(H, run[n - 1], acts[n - 1]);
      StepWhole(H, run[n - 1], acts[n - 1]);
    }
  }

  /** Over whole runs: the blocks are accounted for in every state up to m if and only if no
      write has overtaken an unlink or truncate of its file by then. */
  lemma {:induction false} RunAccountsIff(H: Block -> Digest, U: iset<Block>, run: seq<Sys>, acts: seq<Action>, m: nat)
    requires SafeRun(H, U, run, acts) && Good(H, U, run[0]) && AllIdle(run[0]) && SizesFit(run[0].v) && m <= |acts|
    ensures (forall n :: 0 <= n <= m ==> AllAccounted(run[n])) <==> NothingOvertakes(H, run, acts, m)
  {
    hide Good, Apply, Enabled, Uses, Safe, AllAccounted, Overtakes, AllIdle, SizesFit, WholeSizes, Strands;
    if m == 0 {
      StartAccounted(run[0]);
    } else {
      RunAccountsIff(H, U, run, acts, m - 1);
      var n := m - 1;
      if forall i :: 0 <= i <= n ==> AllAccounted(run[i]) {
        RunGood(H, U, run, acts, n);
        StartWhole(run[0]);
        RunWhole(H, run, acts, n);
        assert run[n + 1] == Apply(H, run[n], acts[n]);
        StepAccountsIff(H, U, run[n], acts[n]);
        LastOvertakes(H, run, acts, n);
      } else {
        MoreOvertakes(H, run, acts, n);
      }
    }
  }

  lemma StartAccounted(sys: Sys)
    requires SizesFit(sys.v)
    ensures AllAccounted(sys)
  {
  }

  lemma StartWhole(sys: Sys)
    requires AllIdle(sys)
    ensures WholeSizes(sys)
  {
  }

  lemma MoreOvertakes(H: Block -> Digest, run: seq<Sys>, acts: seq<Action>, n: nat)
    requires !NothingOvertakes(H, run, acts, n)
    ensures !NothingOvertakes(H, run, acts, n + 1)
  {
    hide Overtakes;
  }

  lemma LastOvertakes(H: Block -> Digest, run: seq<Sys>, acts: seq<Action>, n: nat)
    requires IsRun(H, run, acts) && AllIdle(run[0]) && n < |acts| && NothingOvertakes(H, run, acts, n)
    requires forall m :: 0 <= m <= n ==> AllAccounted(run[m])
    ensures NothingOvertakes(H, run, acts, n + 1) <==> !(acts[n].Resize? && Strands(run[n], acts[n].t))
  {
    hide AllAccounted, Strands, IsRun, WrittenSince, RemoverRuns, Above, AllIdle;
    if acts[n].Resize? {
      StrandsIffOvertaken(H, run, acts, n);
    }
    assert NothingOvertakes(H, run, acts, n + 1) <==> forall b: nat, k :: !Overtakes(H, run, acts, b, n, k);
  }

  // ---- Between requests ----

  ghost predicate SizesWhole(v: Volume) {
    forall p :: p in v.sizes ==> v.sizes[p] % BLOCK_SIZE == 0
  }

  lemma StepSizesWhole(H: Block -> Digest, sys: Sys, a: Action)
    requires Enabled(sys, a) && SizesWhole(sys.v) && WholeSizes(sys)
    ensures SizesWhole(Apply(H, sys, a).v)
  {
    if !a.Grow? && !a.Resize? {
      hide Apply, Enabled;
      StepSizesOnly(H, sys, a);
    }
  }

  lemma {:induction false} RunSizesWhole(H: Block -> Digest, run: seq<Sys>, acts: seq<Action>, n: nat)
    requires IsRun(H, run, acts) && WholeSizes(run[0]) && SizesWhole(run[0].v) && n <= |acts|
    ensures SizesWhole(run[n].v)
  {
    hide Apply, Enabled, WholeSizes, SizesWhole;
    if n > 0 {
      RunSizesWhole(H, run, acts, n - 1);
      RunWhole(H, run, acts, n - 1);
      assert run[n - 1 + 1] == Apply(H, run[n - 1], acts[n - 1]);
      StepSizesWhole(H, run[n - 1], acts[n - 1]);
    }
  }

  /** So with all threads idle at the end, the sizes fit if nothing overtook. */
  lemma NothingOvertakesFits(H: Block -> Digest, U: iset<Block>, run: seq<Sys>, acts: seq<Action>, m: nat)
    requires SafeRun(H, U, run, acts) && Good(H, U, run[0]) && AllIdle(run[0]) && SizesFit(run[0].v) && m <= |acts|
    requires NothingOvertakes(H, run, acts, m) && AllIdle(run[m])
    ensures SizesFit(run[m].v)
  {
    hide Good, Safe, Uses, Enabled, Apply, NothingOvertakes, WholeSizes;
    RunAccountsIff(H, U, run, acts, m);
    StartWhole(run[0]);
    RunSizesWhole(H, run, acts, m);
    forall k | k in run[m].v.byBlock ensures InSize(run[m].v, k) {
      assert Accounted(run[m], k);
      IdleExtendsNothing(run[m], k);
    }
  }

  lemma IdleExtendsNothing(sys: Sys, k: Key)
    requires AllIdle(sys) && Accounted(sys, k)
    ensures InSize(sys.v, k)
  {
  }

  /** If removers have their file to themselves, nothing overtakes them. */
  lemma SerialisedOvertakesNothing(H: Block -> Digest, U: iset<Block>, run: seq<Sys>, acts: seq<Action>)
    requires SafeRun(H, U, run, acts) && Good(H, U, run[0]) && AllIdle(run[0]) && SizesFit(run[0].v)
    requires forall i :: 0 <= i < |acts| ==> Serialised(run[i], acts[i])
    ensures NothingOvertakes(H, run, acts, |acts|)
  {
    hide Good, Safe, Uses, Enabled, Apply, NothingOvertakes, AllAccounted, SizeInv, Serialised, SizesFit, AllIdle;
    StartSizes(run[0]);
    forall n | 0 <= n <= |acts| ensures AllAccounted(run[n]) {
      RunSizes(H, U, run, acts, n);
      SizeInvAccounts(run[n]);
    }
    RunAccountsIff(H, U, run, acts, |acts|);
  }

  lemma SizeInvAccounts(sys: Sys)
    requires SizeInv(sys)
    ensures AllAccounted(sys)
  {
  }
}
