/** Whole requests are atomic: both loops of Pass 3, and the removal loop, run under the
    write lock, so whenever nobody holds it the files are those of whole requests, one
    after the other in the order in which they held it. */
module Atomicity {
  import opened MasterFile
  import opened Volumes
  import opened Protocol
  import opened Invariant
  import opened Publication
  import opened Safety
  import opened Refinement
  import opened Locks
  import opened Writes
  import opened Deduplication
  import opened Quiescence
  import opened Removals
  import opened Sizes

  // ---- Requests as single steps ----

  /** What the action that releases the write lock commits: a whole write, or the removal
      of a whole range. */
  function Commit(m: map<Key, seq<Byte>>, sys: Sys, a: Action): map<Key, seq<Byte>>
    requires Enabled(sys, a)
  {
    if a.Grow? then
      var th := sys.threads[a.t];
      m + Puts(th.path, th.start, th.blocks)
    else if a.Advance? && sys.threads[a.t].pc.Removing? then
      var th := sys.threads[a.t];
      m - Range(th.path, From(th.after), th.stop)
    else m
  }

  /** The blocks [from, until) of a file. */
  function Range(path: Path, from: nat, until: nat): set<Key> {
    KeysOf(path, from, if from <= until then until - from else 0)
  }

  function Committed(m: map<Key, seq<Byte>>, run: seq<Sys>, acts: seq<Action>, n: nat): map<Key, seq<Byte>>
    requires n <= |acts| && |run| == |acts| + 1
    requires forall i :: 0 <= i < |acts| ==> Enabled(run[i], acts[i])
  {
    if n == 0 then m else Commit(Committed(m, run, acts, n - 1), run[n - 1], acts[n - 1])
  }

  // ---- What shows while the lock is held ----

  predicate Ranged(th: Thread) {
    && (th.pc.Sized? ==> th.pos == From(th.after) <= th.stop)
    && (th.pc.Removing? ==> From(th.after) <= th.pos <= th.stop)
  }

  /** The files over m while th holds the lock. */
  function Visible(m: map<Key, seq<Byte>>, th: Thread): map<Key, seq<Byte>> {
    match th.pc
    case Mapping => m + Puts(th.path, th.start, th.blocks[..Min(th.pos, |th.blocks|)])
    case Growing => m + Puts(th.path, th.start, th.blocks)
    case Removing => m - Range(th.path, From(th.after), th.pos)
    case _ => m
  }

  ghost predicate AtomInv(sys: Sys, m: map<Key, seq<Byte>>) {
    && LockInv(sys)
    && (forall t :: t in sys.threads ==> Ranged(sys.threads[t]))
    && (forall t :: t in sys.threads && HoldsWrite(sys.threads[t]) ==> View(sys.v) == Visible(m, sys.threads[t]))
    && (CanRead(sys) ==> View(sys.v) == m)
  }

  lemma PutsSnoc(path: Path, start: nat, blocks: seq<Block>, n: nat)
    requires n < |blocks|
    ensures Puts(path, start, blocks[..n + 1]) == Puts(path, start, blocks[..n])[Key(path, start + n) := blocks[n]]
  {
    var l, r := Puts(path, start, blocks[..n + 1]), Puts(path, start, blocks[..n])[Key(path, start + n) := blocks[n]];
    forall k ensures (k in l <==> k in r) && (k in l ==> l[k] == r[k]) {
    }
  }

  lemma RangeSnoc(path: Path, from: nat, until: nat)
    requires from <= until
    ensures Range(path, from, until + 1) == Range(path, from, until) + {Key(path, until)}
    ensures Range(path, from, from) == {}
  {
    forall k ensures k in Range(path, from, until + 1) <==> k in Range(path, from, until) + {Key(path, until)} {
    }
  }

  lemma MapShows(m: map<Key, seq<Byte>>, th: Thread)
    requires th.pc.Mapping? && th.pos < |th.blocks|
    ensures Visible(m, th.(pos := th.pos + 1)) == Visible(m, th)[Key(th.path, th.start + th.pos) := th.blocks[th.pos]]
  {
    PutsSnoc(th.path, th.start, th.blocks, th.pos);
  }

  lemma RemoveShows(m: map<Key, seq<Byte>>, th: Thread)
    requires th.pc.Removing? && From(th.after) <= th.pos
    ensures Visible(m, th.(pos := th.pos + 1)) == Visible(m, th) - {Key(th.path, th.pos)}
  {
    RangeSnoc(th.path, From(th.after), th.pos);
  }

  lemma NothingPut(m: map<Key, seq<Byte>>, path: Path, start: nat)
    ensures m + Puts(path, start, []) == m
  {
  }

  /** Shown once, for each thread and each action: the plan and the request have the same
      length while the lock is held. */
  lemma PlanIsRequest(H: Block -> Digest, U: iset<Block>, sys: Sys, t: Tid)
    requires Good(H, U, sys) && t in sys.threads
    ensures sys.threads[t].pc.Mapping? || sys.threads[t].pc.Publishing? ==>
              |sys.threads[t].plan| == |sys.threads[t].blocks|
  {
    hide SlotInv, InfoInv, RefInv, ContentInv;
    var g :| Inv(H, U, sys, g);
    assert Shape(sys.threads[t]);
  }

  // ---- One action ----

  /** What the step of a holder must show. */
  ghost predicate InStep(H: Block -> Digest, sys: Sys, a: Action, m: map<Key, seq<Byte>>)
    requires Enabled(sys, a)
  {
    && a.t in Apply(H, sys, a).threads
    && var th', m' := Apply(H, sys, a).threads[a.t], Commit(m, sys, a);
    && Ranged(th')
    && Effect(View(sys.v), EventOf(sys, a)) == if HoldsWrite(th') then Visible(m', th') else m'
  }

  lemma HolderMaps(H: Block -> Digest, U: iset<Block>, sys: Sys, t: Tid, m: map<Key, seq<Byte>>)
    requires Good(H, U, sys) && Enabled(sys, MapOne(t)) && View(sys.v) == Visible(m, sys.threads[t])
    ensures InStep(H, sys, MapOne(t), m)
  {
    hide Good, View, Puts, Range, MapBlock, From, Visible;
    PlanIsRequest(H, U, sys, t);
    MapShows(m, sys.threads[t]);
    SameVisible(m, sys.threads[t].(pos := sys.threads[t].pos + 1), Apply(H, sys, MapOne(t)).threads[t]);
  }

  /** What shows does not depend on the plan or on the slots collected. */
  lemma SameVisible(m: map<Key, seq<Byte>>, th: Thread, th': Thread)
    requires th' == th.(plan := th'.plan, rel := th'.rel)
    ensures Visible(m, th') == Visible(m, th)
  {
  }

  lemma HolderRemoves(H: Block -> Digest, sys: Sys, t: Tid, m: map<Key, seq<Byte>>)
    requires Enabled(sys, RemoveOne(t)) && Ranged(sys.threads[t]) && View(sys.v) == Visible(m, sys.threads[t])
    ensures InStep(H, sys, RemoveOne(t), m)
  {
    hide View, Puts, Range, RemoveBlock, From, Visible;
    RemoveShows(m, sys.threads[t]);
    SameVisible(m, sys.threads[t].(pos := sys.threads[t].pos + 1), Apply(H, sys, RemoveOne(t)).threads[t]);
  }

  lemma HolderAdvances(H: Block -> Digest, U: iset<Block>, sys: Sys, t: Tid, m: map<Key, seq<Byte>>)
    requires Good(H, U, sys) && Enabled(sys, Advance(t)) && HoldsWrite(sys.threads[t]) && Ranged(sys.threads[t])
    requires View(sys.v) == Visible(m, sys.threads[t])
    ensures InStep(H, sys, Advance(t), m)
  {
    hide Good, View, Puts, Range, From;
    var th := sys.threads[t];
    PlanIsRequest(H, U, sys, t);
    NothingPut(m, th.path, th.start);
    assert th.blocks[..0] == [] && th.blocks[..|th.blocks|] == th.blocks;
  }

  lemma HolderGrows(H: Block -> Digest, sys: Sys, t: Tid, m: map<Key, seq<Byte>>)
    requires Enabled(sys, Grow(t)) && View(sys.v) == Visible(m, sys.threads[t])
    ensures InStep(H, sys, Grow(t), m)
  {
    hide View, Puts;
  }

  lemma HolderQuiet(H: Block -> Digest, sys: Sys, a: Action, m: map<Key, seq<Byte>>)
    requires Enabled(sys, a) && (a.PublishOne? || a.UnhitOne?) && View(sys.v) == Visible(m, sys.threads[a.t])
    ensures InStep(H, sys, a, m)
  {
    hide View, Puts, Publish, Unhit;
  }

  /** The thread that acts holds the lock. */
  lemma HolderActs(H: Block -> Digest, U: iset<Block>, sys: Sys, a: Action, m: map<Key, seq<Byte>>)
    requires Good(H, U, sys) && Enabled(sys, a) && a.t in sys.threads && HoldsWrite(sys.threads[a.t]) &&
             Ranged(sys.threads[a.t])
    requires View(sys.v) == Visible(m, sys.threads[a.t])
    ensures InStep(H, sys, a, m)
  {
    hide Good, View, Visible, InStep, Ranged, CanRead, CanWrite, MutexFree, MissCount, HasRun, CanAdvance;
    match a
    case MapOne(t) => HolderMaps(H, U, sys, t, m);
    case RemoveOne(t) => HolderRemoves(H, sys, t, m);
    case Advance(t) => HolderAdvances(H, U, sys, t, m);
    case Grow(t) => HolderGrows(H, sys, t, m);
    case PublishOne(t) => HolderQuiet(H, sys, a, m);
    case UnhitOne(t) => HolderQuiet(H, sys, a, m);
    case _ =>
  }

  /** The thread that acts does not hold it. */
  lemma OtherActs(H: Block -> Digest, sys: Sys, a: Action, m: map<Key, seq<Byte>>)
    requires Enabled(sys, a) && a.t in sys.threads && !HoldsWrite(sys.threads[a.t]) && Ranged(sys.threads[a.t])
    ensures a.t in Apply(H, sys, a).threads
    ensures var th' := Apply(H, sys, a).threads[a.t];
            && Ranged(th') && EventOf(sys, a).Silent? && Commit(m, sys, a) == m
            && (HoldsWrite(th') ==> CanWrite(sys) && Visible(m, th') == m)
  {
    hide Apply, Enabled, Ranged, HoldsWrite, EventOf, Commit, Visible, CanWrite;
    OtherRange(H, sys, a);
    OtherIsSilent(sys, a, m);
    TakesNothing(H, sys, a, m);
  }

  lemma OtherRange(H: Block -> Digest, sys: Sys, a: Action)
    requires Enabled(sys, a) && a.t in sys.threads && !HoldsWrite(sys.threads[a.t]) && Ranged(sys.threads[a.t])
    ensures a.t in Apply(H, sys, a).threads && Ranged(Apply(H, sys, a).threads[a.t])
  {
    hide SkipHits, RunEnd, RunBytes, MissCount, Existing, Decide, FlushRun, Unmiss, Assign, Publish, MapBlock,
         RemoveBlock, Unhit, Drain, Append, CanRead, CanWrite, MutexFree;
  }

  lemma OtherIsSilent(sys: Sys, a: Action, m: map<Key, seq<Byte>>)
    requires Enabled(sys, a) && a.t in sys.threads && !HoldsWrite(sys.threads[a.t])
    ensures EventOf(sys, a).Silent? && Commit(m, sys, a) == m
  {
    hide SkipHits, MissCount, Puts, Range, CanRead, CanWrite, MutexFree;
  }

  /** A thread that takes the write lock has nothing to show yet. */
  lemma TakesNothing(H: Block -> Digest, sys: Sys, a: Action, m: map<Key, seq<Byte>>)
    requires Enabled(sys, a) && a.t in sys.threads && !HoldsWrite(sys.threads[a.t]) && Ranged(sys.threads[a.t])
    ensures a.t in Apply(H, sys, a).threads
    ensures var th' := Apply(H, sys, a).threads[a.t]; HoldsWrite(th') ==> CanWrite(sys) && Visible(m, th') == m
  {
    hide SkipHits, RunEnd, RunBytes, MissCount, Existing, Decide, FlushRun, Unmiss, Assign, Publish, MapBlock,
         RemoveBlock, Unhit, Drain, Append, CanRead, CanWrite, MutexFree, Puts, Range;
    var th := sys.threads[a.t];
    RangeSnoc(th.path, From(th.after), From(th.after));
  }

  /** Every action keeps what is visible in step with what is committed. */
  lemma StepAtomic(H: Block -> Digest, U: iset<Block>, sys: Sys, a: Action, m: map<Key, seq<Byte>>)
    requires CollisionFree(H, U) && Good(H, U, sys) && Enabled(sys, a) && Safe(sys, a) && Uses(U, a) && AtomInv(sys, m)
    ensures AtomInv(Apply(H, sys, a), Commit(m, sys, a))
  {
    hide CollisionFree, Good, Enabled, Safe, Uses, Apply, View, Visible, Commit, EventOf, HoldsWrite, HoldsRead, Ranged;
    StepShape(H, sys, a);
    StepLocks(H, sys, a);
    StepView(H, U, sys, a);
    if HoldsWrite(sys.threads[a.t]) {
      HolderActs(H, U, sys, a, m);
    } else {
      OtherActs(H, sys, a, m);
      assert View(Apply(H, sys, a).v) == View(sys.v);
      if HoldsWrite(Apply(H, sys, a).threads[a.t]) {
        assert CanRead(sys);
      } else if CanRead(Apply(H, sys, a)) {
        StillReadable(H, sys, a);
      }
    }
  }

  lemma StillReadable(H: Block -> Digest, sys: Sys, a: Action)
    requires Enabled(sys, a) && a.t in sys.threads && !HoldsWrite(sys.threads[a.t]) && CanRead(Apply(H, sys, a))
    ensures CanRead(sys)
  {
    hide Enabled, Apply, HoldsWrite;
    StepShape(H, sys, a);
    forall t | t in sys.threads && t != a.t ensures !HoldsWrite(sys.threads[t]) {
      assert Apply(H, sys, a).threads[t] == sys.threads[t];
    }
  }

  lemma IdleAtomic(sys: Sys)
    requires AllIdle(sys)
    ensures AtomInv(sys, View(sys.v)) && CanRead(sys)
  {
    hide View;
  }

  lemma {:induction false} RunAtomic(H: Block -> Digest, U: iset<Block>, run: seq<Sys>, acts: seq<Action>, n: nat)
    requires CollisionFree(H, U) && SafeRun(H, U, run, acts) && Good(H, U, run[0]) && AllIdle(run[0]) && n <= |acts|
    ensures AtomInv(run[n], Committed(View(run[0].v), run, acts, n))
  {
    hide CollisionFree, Good, Enabled, Safe, Uses, Apply, View, Commit, AtomInv, AllIdle;
    if n == 0 {
      IdleAtomic(run[0]);
    } else {
      RunAtomic(H, U, run, acts, n - 1);
      RunGood(H, U, run, acts, n - 1);
      assert run[n - 1 + 1] == Apply(H, run[n - 1], acts[n - 1]);
      StepAtomic(H, U, run[n - 1], acts[n - 1], Committed(View(run[0].v), run, acts, n - 1));
    }
  }

  /** Whenever nobody holds the write lock, the files are what whole writes and whole range
      removals made of the files at the start, in the order of the lock. */
  lemma RequestsAreAtomic(H: Block -> Digest, U: iset<Block>, run: seq<Sys>, acts: seq<Action>, n: nat)
    requires CollisionFree(H, U) && SafeRun(H, U, run, acts) && Good(H, U, run[0]) && AllIdle(run[0]) && n <= |acts|
    requires CanRead(run[n])
    ensures View(run[n].v) == Committed(View(run[0].v), run, acts, n)
  {
    hide CollisionFree, Good, SafeRun, View, Committed, AllIdle;
    RunAtomic(H, U, run, acts, n);
  }

  // ---- Removals as unlink and truncate ----

  /** What a request means to a user: a write, an unlink or a truncate. */
  function Request(m: map<Key, seq<Byte>>, sys: Sys, a: Action): map<Key, seq<Byte>>
    requires Enabled(sys, a)
  {
    if a.Grow? then
      var th := sys.threads[a.t];
      m + Puts(th.path, th.start, th.blocks)
    else if a.Advance? && sys.threads[a.t].pc.Removing? then
      var th := sys.threads[a.t];
      match th.after
      case Forget => Without(m, th.path)
      case Shrink(size) => Prefix(m, th.path, size / BLOCK_SIZE)
    else m
  }

  function Requested(m: map<Key, seq<Byte>>, run: seq<Sys>, acts: seq<Action>, n: nat): map<Key, seq<Byte>>
    requires n <= |acts| && |run| == |acts| + 1
    requires forall i :: 0 <= i < |acts| ==> Enabled(run[i], acts[i])
  {
    if n == 0 then m else Request(Requested(m, run, acts, n - 1), run[n - 1], acts[n - 1])
  }

  /** With requests on one path serialised, the range that a remover covers is all that the
      file has there. */
  lemma RangeIsRest(sys: Sys, t: Tid, m: map<Key, seq<Byte>>, k: Key)
    requires SizeInv(sys) && t in sys.threads && sys.threads[t].pc.Removing? &&
             View(sys.v) == m - Range(sys.threads[t].path, From(sys.threads[t].after), sys.threads[t].stop)
    requires k in m && k.path == sys.threads[t].path && From(sys.threads[t].after) <= k.blk
    ensures k.blk < sys.threads[t].stop
  {
    var th := sys.threads[t];
    assert RemoverOk(sys.v, th);
    assert k in Range(th.path, From(th.after), th.stop) || k in View(sys.v);
    assert k in View(sys.v) ==> Accounted(sys, k);
  }

  /** A block of the file that the range of the remover does not reach. */
  predicate OutOfReach(m: map<Key, seq<Byte>>, th: Thread) {
    exists k :: k in m && k.path == th.path && From(th.after) <= k.blk && th.stop <= k.blk
  }

  /** However requests overlap: what a remover commits is the unlink or truncate of its file
      if and only if the file has no block above the size that the remover has read. */
  lemma RemovalIsRequestIff(sys: Sys, t: Tid, m: map<Key, seq<Byte>>)
    requires Enabled(sys, Advance(t)) && sys.threads[t].pc.Removing?
    ensures Commit(m, sys, Advance(t)) == Request(m, sys, Advance(t)) <==> !OutOfReach(m, sys.threads[t])
  {
    var th := sys.threads[t];
    var l, r := Commit(m, sys, Advance(t)), Request(m, sys, Advance(t));
    if !OutOfReach(m, th) {
      assert forall k :: k in l <==> k in r;
    } else {
      var k :| k in m && k.path == th.path && From(th.after) <= k.blk && th.stop <= k.blk;
      assert k in l && k !in r;
    }
  }

  lemma CommitIsRequest(H: Block -> Digest, sys: Sys, a: Action, m: map<Key, seq<Byte>>)
    requires SizeInv(sys) && Enabled(sys, a) && AtomInv(sys, m)
    ensures Commit(m, sys, a) == Request(m, sys, a)
  {
    hide View, SizeInv, LockInv, Puts;
    if a.Advance? && sys.threads[a.t].pc.Removing? {
      var th := sys.threads[a.t];
      forall k | k in m && k.path == th.path && From(th.after) <= k.blk ensures k.blk < th.stop {
        RangeIsRest(sys, a.t, m, k);
      }
      RemovalIsRequestIff(sys, a.t, m);
    }
  }

  lemma {:induction false} CommittedIsRequested(H: Block -> Digest, U: iset<Block>, run: seq<Sys>, acts: seq<Action>,
                                                n: nat)
    requires CollisionFree(H, U) && SafeRun(H, U, run, acts) && Good(H, U, run[0]) && AllIdle(run[0]) && n <= |acts|
    requires SizesFit(run[0].v) && forall i :: 0 <= i < |acts| ==> Serialised(run[i], acts[i])
    ensures Committed(View(run[0].v), run, acts, n) == Requested(View(run[0].v), run, acts, n)
  {
    hide CollisionFree, Good, Enabled, Safe, Uses, Apply, View, Commit, Request, AtomInv, AllIdle, SizesFit, SizeInv,
         Serialised;
    if n > 0 {
      CommittedIsRequested(H, U, run, acts, n - 1);
      StartSizes(run[0]);
      RunSizes(H, U, run, acts, n - 1);
      RunAtomic(H, U, run, acts, n - 1);
      CommitIsRequest(H, run[n - 1], acts[n - 1], Committed(View(run[0].v), run, acts, n - 1));
    }
  }

  /** With requests on one path serialised, and those on different paths interleaved at
      will: whenever nobody holds the write lock, the files are what whole writes, unlinks
      and truncates made of the files at the start, in the order of the lock. */
  lemma RequestsLinearise(H: Block -> Digest, U: iset<Block>, run: seq<Sys>, acts: seq<Action>, n: nat)
    requires CollisionFree(H, U) && SafeRun(H, U, run, acts) && Good(H, U, run[0]) && AllIdle(run[0]) && n <= |acts|
    requires SizesFit(run[0].v) && forall i :: 0 <= i < |acts| ==> Serialised(run[i], acts[i])
    requires CanRead(run[n])
    ensures View(run[n].v) == Requested(View(run[0].v), run, acts, n)
  {
    hide CollisionFree, Good, Enabled, Safe, Uses, Apply, View, Committed, Requested, AllIdle, SizesFit, Serialised;
    RequestsAreAtomic(H, U, run, acts, n);
    CommittedIsRequested(H, U, run, acts, n);
  }
}
