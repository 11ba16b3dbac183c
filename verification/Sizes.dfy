/** Recorded sizes and mapped blocks, when unlink and truncate have their file to
    themselves but everything else interleaves freely, writes to one file included. */
module Sizes {
  import opened MasterFile
  import opened Volumes
  import opened Protocol
  import opened Invariant
  import opened Publication
  import opened Safety
  import opened Refinement
  import opened Locks
  import opened Quiescence
  import opened Removals

  predicate Active(sys: Sys, path: Path) {
    exists t :: t in sys.threads && !sys.threads[t].pc.Idle? && sys.threads[t].path == path
  }

  predicate IsRemover(th: Thread) { th.pc.Sized? || th.pc.Removing? || th.pc.RemReleasing? || th.pc.Resizing? }

  /** An unlink or truncate of the path is in flight. */
  predicate Removed(sys: Sys, path: Path) {
    exists t :: t in sys.threads && IsRemover(sys.threads[t]) && sys.threads[t].path == path
  }

  /** An unlink or truncate starts only when no request is in flight on its path, and a
      write only when no unlink or truncate is. Writes need not wait for each other. */
  predicate Serialised(sys: Sys, a: Action) {
    match a
    case BeginWrite(_, path, _, _) => !Removed(sys, path)
    case BeginUnlink(_, path) => !Active(sys, path)
    case BeginTruncate(_, path, _) => !Active(sys, path)
    case _ => true
  }

  /** A remover is the only thread at work on its path. */
  ghost predicate RemoversAlone(sys: Sys) {
    forall t, u ::
          t in sys.threads && u in sys.threads && t != u && IsRemover(sys.threads[t]) && !sys.threads[u].pc.Idle? ==>
      sys.threads[t].path != sys.threads[u].path
  }

  predicate InSize(v: Volume, k: Key) {
    k.path in v.sizes && (k.blk + 1) * BLOCK_SIZE <= v.sizes[k.path]
  }

  /** The thread is mapping blocks of this file and has yet to record the new size. */
  predicate Extending(th: Thread, k: Key) {
    (th.pc.Mapping? || th.pc.Growing?) && th.path == k.path && k.blk < th.start + |th.blocks|
  }

  ghost predicate Accounted(sys: Sys, k: Key) {
    InSize(sys.v, k) || exists t :: t in sys.threads && Extending(sys.threads[t], k)
  }

  function From(after: After): nat { if after.Shrink? then after.size / BLOCK_SIZE else 0 }

  /** A remover knows the size it read, and has unmapped what it has passed. */
  ghost predicate RemoverOk(v: Volume, th: Thread) {
    && th.path in v.sizes && v.sizes[th.path] == th.stop * BLOCK_SIZE && From(th.after) <= th.stop
    && (th.after.Shrink? ==> th.after.size == From(th.after) * BLOCK_SIZE && th.after.size < v.sizes[th.path])
    && (th.pc.Sized? ==> th.pos == From(th.after))
    && (!th.pc.Sized? ==> forall k :: k in v.byBlock && k.path == th.path ==> k.blk < From(th.after) || th.pos <= k.blk)
    && (th.pc.RemReleasing? || th.pc.Resizing? ==> th.stop <= th.pos)
  }

  ghost predicate SizeInv(sys: Sys) {
    && RemoversAlone(sys)
    && (forall p :: p in sys.v.sizes ==> sys.v.sizes[p] % BLOCK_SIZE == 0)
    && (forall k :: k in sys.v.byBlock ==> Accounted(sys, k))
    && (forall t :: t in sys.threads && IsRemover(sys.threads[t]) ==> RemoverOk(sys.v, sys.threads[t]))
  }

  predicate TouchesFiles(a: Action) { a.MapOne? || a.Grow? || a.RemoveOne? || a.Resize? }

  lemma KeepsSizes(H: Block -> Digest, sys: Sys, a: Action)
    requires Enabled(sys, a) && !TouchesFiles(a)
    ensures Apply(H, sys, a).v.sizes == sys.v.sizes
  {
    hide SkipHits, RunEnd, RunBytes, MissCount, Existing;
  }

  /** Sizes change in two places only: a write that ends records the larger of the old size
      and its own end, an unlink forgets the size, and a truncate lowers it or leaves it. */
  lemma StepSizesAre(H: Block -> Digest, sys: Sys, a: Action)
    requires Enabled(sys, a)
    ensures var s, s' := sys.v.sizes, Apply(H, sys, a).v.sizes;
            match a
            case Grow(t) =>
              var th := sys.threads[t]; s' == SizesAfterWrite(s, th.path, (th.start + |th.blocks|) * BLOCK_SIZE)
            case Resize(t) =>
              var th := sys.threads[t];
              s' == (match th.after
                     case Forget => s - {th.path}
                     case Shrink(size) => if size < SizeOf(s, th.path) then s[th.path := size] else s)
            case _ => s' == s
  {
    hide SkipHits, RunEnd, RunBytes, MissCount, MapBlock, RemoveBlock, CanRead, CanWrite, MutexFree;
    if a.MapOne? {
      var th := sys.threads[a.t];
      MapKeepsSizes(sys.v, th.path, th.plan[th.pos], th.rel);
    } else if a.RemoveOne? {
      var th := sys.threads[a.t];
      RemoveFrame(sys.v, th.path, th.pos, th.rel);
    } else if !TouchesFiles(a) {
      KeepsSizes(H, sys, a);
    }
  }

  ghost predicate ThreadKept(sys: Sys, a: Action, th': Thread)
    requires a.t in sys.threads
  {
    var th := sys.threads[a.t];
    && (th'.pc.Idle? || (!th.pc.Idle? && th'.path == th.path) || (Begins(a) && th'.path == a.path))
    && (IsRemover(th') ==> !th'.pc.Idle? && (IsRemover(th) || a.BeginUnlink? || a.BeginTruncate?))
    && (IsRemover(th') ==> RemoverOk(sys.v, th'))
    && (forall k :: Extending(th, k) ==> Extending(th', k))
  }

  lemma BeginThread(H: Block -> Digest, sys: Sys, a: Action)
    requires Enabled(sys, a) && Begins(a) && forall p :: p in sys.v.sizes ==> sys.v.sizes[p] % BLOCK_SIZE == 0
    ensures a.t in Apply(H, sys, a).threads && ThreadKept(sys, a, Apply(H, sys, a).threads[a.t])
  {
  }

  lemma PlainThread(H: Block -> Digest, sys: Sys, a: Action)
    requires Enabled(sys, a) && !TouchesFiles(a) && !Begins(a)
    requires IsRemover(sys.threads[a.t]) ==> RemoverOk(sys.v, sys.threads[a.t])
    ensures a.t in Apply(H, sys, a).threads && ThreadKept(sys, a, Apply(H, sys, a).threads[a.t])
  {
    hide Apply, Enabled, IsRemover, RemoverOk, Extending;
    StepShape(H, sys, a);
    PlainPath(H, sys, a);
    PlainRemover(H, sys, a);
    StillExtending(H, sys, a);
  }

  lemma PlainPath(H: Block -> Digest, sys: Sys, a: Action)
    requires Enabled(sys, a) && !TouchesFiles(a) && !Begins(a)
    ensures a.t in sys.threads && a.t in Apply(H, sys, a).threads
    ensures var th, th' := sys.threads[a.t], Apply(H, sys, a).threads[a.t];
            && (th'.pc.Idle? || (!th.pc.Idle? && th'.path == th.path))
            && (IsRemover(th') ==> IsRemover(th) && !th'.pc.Idle?)
  {
    hide SkipHits, RunEnd, RunBytes, MissCount, Existing, Decide, FlushRun, Publish, Unhit, Unmiss, Assign,
         Drain, Append, CanRead, CanWrite, MutexFree;
  }

  /** A remover that goes on keeps its request, and leaves its loop only at its end. */
  lemma PlainRemover(H: Block -> Digest, sys: Sys, a: Action)
    requires Enabled(sys, a) && !TouchesFiles(a) && !Begins(a)
    requires IsRemover(sys.threads[a.t]) ==> RemoverOk(sys.v, sys.threads[a.t])
    ensures a.t in sys.threads && a.t in Apply(H, sys, a).threads
    ensures var th' := Apply(H, sys, a).threads[a.t]; IsRemover(th') ==> RemoverOk(sys.v, th')
  {
    hide RemoverOk, Apply;
    if a.Advance? || a.GiveBack? {
      RemoverGoesOn(H, sys, a);
      var th, th' := sys.threads[a.t], Apply(H, sys, a).threads[a.t];
      if IsRemover(th') {
        SameRequest(sys.v, th, th');
      }
    } else {
      NoRemover(H, sys, a);
    }
  }

  lemma RemoverGoesOn(H: Block -> Digest, sys: Sys, a: Action)
    requires Enabled(sys, a) && (a.Advance? || a.GiveBack?)
    ensures a.t in sys.threads && a.t in Apply(H, sys, a).threads
    ensures var th, th' := sys.threads[a.t], Apply(H, sys, a).threads[a.t];
            IsRemover(th') ==> IsRemover(th) && th' == th.(pc := th'.pc, rel := th'.rel) && !th'.pc.Sized? &&
                               (th'.pc.Removing? ==> th.pc.Sized?) && (th'.pc.RemReleasing? ==> th.pos >= th.stop) &&
                               (th'.pc.Resizing? ==> th.pc.RemReleasing?)
  {
  }

  lemma SameRequest(v: Volume, th: Thread, th': Thread)
    requires RemoverOk(v, th) && IsRemover(th) && IsRemover(th') && th' == th.(pc := th'.pc, rel := th'.rel) &&
             !th'.pc.Sized?
    requires (th'.pc.Removing? ==> th.pc.Sized?) && (th'.pc.RemReleasing? ==> th.pos >= th.stop)
    requires (th'.pc.Resizing? ==> th.pc.RemReleasing?) && (th.pc.Sized? ==> th'.pc.Removing? || th'.pc.RemReleasing?)
    ensures RemoverOk(v, th')
  {
  }

  lemma NoRemover(H: Block -> Digest, sys: Sys, a: Action)
    requires Enabled(sys, a) && !TouchesFiles(a) && !Begins(a) && !a.Advance? && !a.GiveBack?
    ensures a.t in sys.threads && a.t in Apply(H, sys, a).threads && !IsRemover(Apply(H, sys, a).threads[a.t])
  {
    hide SkipHits, RunEnd, RunBytes, MissCount, Existing, Decide, FlushRun, Publish, Unhit, Unmiss, Assign,
         Drain, Append, CanRead, CanWrite, MutexFree;
  }

  lemma StillExtending(H: Block -> Digest, sys: Sys, a: Action)
    requires Enabled(sys, a) && !a.Grow?
    ensures a.t in sys.threads && a.t in Apply(H, sys, a).threads
    ensures forall k :: Extending(sys.threads[a.t], k) ==> Extending(Apply(H, sys, a).threads[a.t], k)
  {
    hide SkipHits, RunEnd, RunBytes, MissCount, Existing, Decide, FlushRun, Publish, Unhit, Unmiss, Assign, MapBlock,
         RemoveBlock,
         Drain, Append, CanRead, CanWrite, MutexFree;
  }

  /** A step that touches neither sizes nor mappings. */
  lemma PlainSizes(H: Block -> Digest, U: iset<Block>, sys: Sys, a: Action)
    requires SizeInv(sys) && Enabled(sys, a) && Serialised(sys, a) && !TouchesFiles(a)
    ensures SizeInv(Apply(H, sys, a))
  {
    hide Apply, Enabled, RemoverOk, Extending, IsRemover, InSize;
    var sys' := Apply(H, sys, a);
    StepShape(H, sys, a);
    StepByBlock(H, sys, a);
    KeepsSizes(H, sys, a);
    BeginsIdle(H, sys, a);
    if Begins(a) {
      BeginThread(H, sys, a);
    } else {
      PlainThread(H, sys, a);
    }
    StillAlone(sys, sys', a);
    forall u | u in sys'.threads && IsRemover(sys'.threads[u]) ensures RemoverOk(sys'.v, sys'.threads[u]) {
      SameFilesSameRemover(sys.v, sys'.v, sys'.threads[u]);
    }
    forall k | k in sys'.v.byBlock ensures Accounted(sys', k) {
      assert Accounted(sys, k);
      SameSizes(sys.v, sys'.v, k);
      if t :| t in sys.threads && Extending(sys.threads[t], k) {
        assert Extending(sys'.threads[t], k);
      }
    }
  }

  lemma StillAlone(sys: Sys, sys': Sys, a: Action)
    requires RemoversAlone(sys) && Serialised(sys, a) && a.t in sys.threads && a.t in sys'.threads
    requires sys'.threads == sys.threads[a.t := sys'.threads[a.t]] && ThreadKept(sys, a, sys'.threads[a.t])
    requires Begins(a) ==> sys.threads[a.t].pc.Idle?
    ensures RemoversAlone(sys')
  {
    hide IsRemover, RemoverOk, Extending;
    IdleIsNoRemover(sys.threads[a.t]);
    forall t, u | t in sys'.threads && u in sys'.threads && t != u && IsRemover(sys'.threads[t]) &&
        !sys'.threads[u].pc.Idle?
      ensures sys'.threads[t].path != sys'.threads[u].path
    {
      if t == a.t && Begins(a) {
        assert sys'.threads[u] == sys.threads[u];
        assert !Active(sys, a.path);
      } else if u == a.t && Begins(a) {
        assert sys'.threads[t] == sys.threads[t];
        IdleIsNoRemover(sys.threads[t]);
        assert a.BeginWrite? ==> !Removed(sys, a.path);
      } else {
        assert t != a.t ==> sys'.threads[t] == sys.threads[t];
        assert u != a.t ==> sys'.threads[u] == sys.threads[u];
      }
    }
  }

  lemma IdleIsNoRemover(th: Thread)
    ensures th.pc.Idle? ==> !IsRemover(th)
  {
  }

  lemma BeginsIdle(H: Block -> Digest, sys: Sys, a: Action)
    requires Enabled(sys, a)
    ensures Begins(a) ==> a.t in sys.threads && sys.threads[a.t].pc.Idle?
  {
    hide CanRead, CanWrite, MutexFree, MissCount, CanAdvance;
  }

  lemma SameSizes(v: Volume, v': Volume, k: Key)
    requires v'.sizes == v.sizes
    ensures InSize(v', k) == InSize(v, k)
  {
  }

  lemma SameFilesSameRemover(v: Volume, v': Volume, th: Thread)
    requires v'.sizes == v.sizes && v'.byBlock == v.byBlock
    ensures RemoverOk(v', th) == RemoverOk(v, th)
  {
  }

  /** Removers of other paths do not notice what happens on one path. */
  lemma OtherRemover(v: Volume, v': Volume, path: Path, th: Thread)
    requires RemoverOk(v, th) && th.path != path
    requires forall p :: p != path ==> (p in v'.sizes <==> p in v.sizes) && (p in v.sizes ==> v'.sizes[p] == v.sizes[p])
    requires forall k :: k in v'.byBlock && k.path != path ==> k in v.byBlock
    ensures RemoverOk(v', th)
  {
  }

  lemma MapSizeInv(H: Block -> Digest, U: iset<Block>, sys: Sys, t: Tid)
    requires SizeInv(sys) && Good(H, U, sys) && Enabled(sys, MapOne(t))
    ensures SizeInv(Apply(H, sys, MapOne(t)))
  {
    hide SlotInv, InfoInv, RefInv, ContentInv, RemoverOk, MapBlock, InSize;
    var sys', th := Apply(H, sys, MapOne(t)), sys.threads[t];
    var g :| Inv(H, U, sys, g);
    MapRequest(H, U, sys, g, t);
    StepByBlock(H, sys, MapOne(t));
    MapKeepsSizes(sys.v, th.path, th.plan[th.pos], th.rel);
    forall u | u in sys'.threads && IsRemover(sys'.threads[u]) ensures RemoverOk(sys'.v, sys'.threads[u]) {
      OtherRemover(sys.v, sys'.v, th.path, sys.threads[u]);
    }
    assert Extending(sys'.threads[t], Key(th.path, th.plan[th.pos].blk));
    forall k | k in sys'.v.byBlock ensures Accounted(sys', k) {
      SameSizes(sys.v, sys'.v, k);
      if k in sys.v.byBlock {
        assert Accounted(sys, k);
        if u :| u in sys.threads && Extending(sys.threads[u], k) { assert Extending(sys'.threads[u], k); }
      }
    }
  }

  lemma MapKeepsSizes(v: Volume, path: Path, e: Entry, rel: seq<nat>)
    ensures MapBlock(v, path, e, rel).0.sizes == v.sizes
  {
  }

  lemma GrowSizeInv(H: Block -> Digest, sys: Sys, t: Tid)
    requires SizeInv(sys) && Enabled(sys, Grow(t))
    ensures SizeInv(Apply(H, sys, Grow(t)))
  {
    hide RemoverOk;
    var sys', th := Apply(H, sys, Grow(t)), sys.threads[t];
    forall u | u in sys'.threads && IsRemover(sys'.threads[u]) ensures RemoverOk(sys'.v, sys'.threads[u]) {
      OtherRemover(sys.v, sys'.v, th.path, sys.threads[u]);
    }
    forall k | k in sys'.v.byBlock ensures Accounted(sys', k) {
      assert Accounted(sys, k);
      if u :| u in sys.threads && u != t && Extending(sys.threads[u], k) { assert Extending(sys'.threads[u], k); }
    }
  }

  lemma RemoveSizeInv(H: Block -> Digest, sys: Sys, t: Tid)
    requires SizeInv(sys) && Enabled(sys, RemoveOne(t))
    ensures SizeInv(Apply(H, sys, RemoveOne(t)))
  {
    hide RemoveBlock, InSize, Extending;
    var sys', th := Apply(H, sys, RemoveOne(t)), sys.threads[t];
    StepByBlock(H, sys, RemoveOne(t));
    RemoveFrame(sys.v, th.path, th.pos, th.rel);
    RemoveThread(sys, sys', t);
    forall u | u in sys'.threads && u != t && IsRemover(sys'.threads[u]) ensures RemoverOk(sys'.v, sys'.threads[u]) {
      OtherRemover(sys.v, sys'.v, th.path, sys.threads[u]);
    }
    NotExtending(th);
    forall k | k in sys'.v.byBlock ensures Accounted(sys', k) {
      assert Accounted(sys, k);
      SameSizes(sys.v, sys'.v, k);
      if u :| u in sys.threads && Extending(sys.threads[u], k) { assert Extending(sys'.threads[u], k); }
    }
  }

  lemma NotExtending(th: Thread)
    requires IsRemover(th)
    ensures forall k :: !Extending(th, k)
  {
  }

  lemma RemoveThread(sys: Sys, sys': Sys, t: Tid)
    requires t in sys.threads && t in sys'.threads && sys.threads[t].pc.Removing? && RemoverOk(sys.v, sys.threads[t])
    requires sys'.v.byBlock == sys.v.byBlock - {Key(sys.threads[t].path, sys.threads[t].pos)} &&
             sys'.v.sizes == sys.v.sizes
    requires sys'.threads[t] == sys.threads[t].(pos := sys.threads[t].pos + 1, rel := sys'.threads[t].rel)
    ensures RemoverOk(sys'.v, sys'.threads[t])
  {
  }

  /** When unlink or truncate is about to record the new size, no block at or above it is
      still mapped. */
  lemma RemovedExactly(sys: Sys, t: Tid, k: Key)
    requires SizeInv(sys) && IsAt(sys, t, Resizing) && k in sys.v.byBlock && k.path == sys.threads[t].path
    ensures k.blk < From(sys.threads[t].after)
  {
    var th := sys.threads[t];
    assert RemoverOk(sys.v, th) && Accounted(sys, k);
  }

  lemma ResizeSizeInv(H: Block -> Digest, sys: Sys, t: Tid)
    requires SizeInv(sys) && Enabled(sys, Resize(t))
    ensures SizeInv(Apply(H, sys, Resize(t)))
  {
    hide Accounted;
    var sys', th := Apply(H, sys, Resize(t)), sys.threads[t];
    assert RemoverOk(sys.v, th);
    forall u | u in sys'.threads && IsRemover(sys'.threads[u]) ensures RemoverOk(sys'.v, sys'.threads[u]) {
      OtherRemover(sys.v, sys'.v, th.path, sys.threads[u]);
    }
    forall k | k in sys'.v.byBlock ensures Accounted(sys', k) {
      if k.path == th.path {
        RemovedExactly(sys, t, k);
        AccountedInSize(sys', k);
      } else {
        AccountedElsewhere(sys, sys', t, k);
      }
    }
  }

  lemma AccountedInSize(sys: Sys, k: Key)
    requires InSize(sys.v, k)
    ensures Accounted(sys, k)
  {
  }

  lemma AccountedElsewhere(sys: Sys, sys': Sys, t: Tid, k: Key)
    requires Accounted(sys, k) && t in sys.threads && k.path != sys.threads[t].path
    requires t in sys'.threads && sys'.threads == sys.threads[t := sys'.threads[t]]
    requires k.path in sys.v.sizes ==> k.path in sys'.v.sizes && sys'.v.sizes[k.path] == sys.v.sizes[k.path]
    ensures Accounted(sys', k)
  {
    if u :| u in sys.threads && Extending(sys.threads[u], k) {
      assert Extending(sys'.threads[u], k);
    }
  }

  // ---- Runs ----

  lemma StepSizes(H: Block -> Digest, U: iset<Block>, sys: Sys, a: Action)
    requires SizeInv(sys) && Good(H, U, sys) && Enabled(sys, a) && Serialised(sys, a)
    ensures SizeInv(Apply(H, sys, a))
  {
    hide SizeInv, Good, Enabled, Serialised, Apply;
    match a
    case MapOne(t) => MapSizeInv(H, U, sys, t);
    case Grow(t) => GrowSizeInv(H, sys, t);
    case RemoveOne(t) => RemoveSizeInv(H, sys, t);
    case Resize(t) => ResizeSizeInv(H, sys, t);
    case _ => PlainSizes(H, U, sys, a);
  }

  lemma StartSizes(sys: Sys)
    requires SizesFit(sys.v) && AllIdle(sys)
    ensures SizeInv(sys)
  {
  }

  /** In every interleaving in which removers have their file to themselves, every mapped
      block lies below its file's recorded, block-aligned size, or belongs to a write
      that is about to record it. */
  lemma {:induction false} RunSizes(H: Block -> Digest, U: iset<Block>, run: seq<Sys>, acts: seq<Action>, n: nat)
    requires SafeRun(H, U, run, acts) && Good(H, U, run[0]) && SizeInv(run[0]) && n < |run|
    requires forall i :: 0 <= i < |acts| ==> Serialised(run[i], acts[i])
    ensures SizeInv(run[n])
  {
    hide Good, Apply, Enabled, Uses, Safe, SizeInv, Serialised;
    if n > 0 {
      RunSizes(H, U, run, acts, n - 1);
      RunGood(H, U, run, acts, n - 1);
      assert run[n - 1 + 1] == Apply(H, run[n - 1], acts[n - 1]);
      StepSizes(H, U, run[n - 1], acts[n - 1]);
    }
  }

  /** So between requests the sizes fit, and unlink and truncate find every block. */
  lemma IdleSizesFit(sys: Sys)
    requires SizeInv(sys) && AllIdle(sys)
    ensures SizesFit(sys.v)
  {
    forall k | k in sys.v.byBlock ensures InSize(sys.v, k) {
      assert Accounted(sys, k);
    }
  }
}
