/** What the reader-writer lock excludes. */
module Locks {
  import opened MasterFile
  import opened Volumes
  import opened Protocol

  /** A thread that holds the metadata lock for writing holds it alone. */
  ghost predicate LockInv(sys: Sys) {
    forall t, u :: t in sys.threads && u in sys.threads && t != u && HoldsWrite(sys.threads[t]) ==>
      !HoldsWrite(sys.threads[u]) && !HoldsRead(sys.threads[u])
  }

  lemma StepShape(H: Block -> Digest, sys: Sys, a: Action)
    requires Enabled(sys, a)
    ensures a.t in sys.threads && a.t in Apply(H, sys, a).threads
    ensures Apply(H, sys, a).threads == sys.threads[a.t := Apply(H, sys, a).threads[a.t]]
  {
    hide SkipHits, RunEnd, RunBytes, MissCount, Existing, Decide, FlushRun, Publish, MapBlock, RemoveBlock, Unhit,
         Unmiss, Assign;
  }

  /** A thread takes the lock only when its guard allows. */
  lemma StepTakes(H: Block -> Digest, sys: Sys, a: Action)
    requires Enabled(sys, a)
    ensures a.t in sys.threads && a.t in Apply(H, sys, a).threads
    ensures var th, th' := sys.threads[a.t], Apply(H, sys, a).threads[a.t];
            && (HoldsWrite(th') ==> HoldsWrite(th) || CanWrite(sys))
            && (HoldsRead(th') ==> HoldsRead(th) || CanRead(sys))
  {
    hide SkipHits, RunEnd, RunBytes, MissCount, Existing, Decide, FlushRun, Publish, MapBlock, RemoveBlock, Unhit,
         Unmiss, Assign;
  }

  /** Every action keeps the exclusion. */
  lemma StepLocks(H: Block -> Digest, sys: Sys, a: Action)
    requires LockInv(sys) && Enabled(sys, a)
    ensures LockInv(Apply(H, sys, a))
  {
    hide Enabled, Apply, HoldsRead, HoldsWrite;
    StepShape(H, sys, a);
    StepTakes(H, sys, a);
  }

  /** hash_to_master changes only in the hands of a thread that holds the lock for writing. */
  lemma StepByHash(H: Block -> Digest, sys: Sys, a: Action)
    requires Enabled(sys, a) && a.t in sys.threads && !HoldsWrite(sys.threads[a.t])
    ensures Apply(H, sys, a).v.byHash == sys.v.byHash
  {
    hide SkipHits, RunEnd, RunBytes, MissCount, Publish, MapBlock, RemoveBlock, Unhit, Decide, CanRead, CanWrite,
         MutexFree, FlushRun, Assign;
    if a.DecideOne? {
      var th := sys.threads[a.t];
      DecideByHash(H, sys.v, th.plan, th.start + |th.plan|, th.blocks[|th.plan|]);
    } else if a.AssignOne? {
      AssignByHash(sys.v);
    } else if a.FlushOne? || a.FlushFail? {
      FlushByHash(sys.v, sys.threads[a.t].plan);
    } else {
      PlainByHash(H, sys, a);
    }
  }

  lemma PlainByHash(H: Block -> Digest, sys: Sys, a: Action)
    requires Enabled(sys, a) && a.t in sys.threads && !HoldsWrite(sys.threads[a.t])
    requires !a.DecideOne? && !a.AssignOne? && !a.FlushOne? && !a.FlushFail?
    ensures Apply(H, sys, a).v.byHash == sys.v.byHash
  {
    hide SkipHits, RunEnd, RunBytes, MissCount, Publish, MapBlock, RemoveBlock, Unhit, CanRead, CanWrite, MutexFree,
         CanAdvance, Advanced, WriterThread, RemoverThread, Decide, FlushRun, Assign;
  }

  lemma DecideByHash(H: Block -> Digest, v: Volume, plan: seq<Entry>, blk: nat, b: Block)
    ensures Decide(H, v, plan, blk, b).0.byHash == v.byHash
  {
  }

  lemma AssignByHash(v: Volume)
    ensures forall e, slot :: Assign(v, e, slot).0.byHash == v.byHash
  {
  }

  lemma FlushByHash(v: Volume, plan: seq<Entry>)
    ensures forall i: nat, got :: i < |plan| ==> FlushRun(v, plan, i, got).byHash == v.byHash
  {
  }

  // ---- The free-list mutex ----

  /** At most one thread is giving back the slots of a failed write. */
  ghost predicate MutexInv(sys: Sys) {
    forall t, u ::
          t in sys.threads && u in sys.threads && sys.threads[t].pc.Unmissing? && sys.threads[u].pc.Unmissing? ==>
            t == u
  }

  lemma StepMutex(H: Block -> Digest, sys: Sys, a: Action)
    requires MutexInv(sys) && Enabled(sys, a)
    ensures MutexInv(Apply(H, sys, a))
  {
    hide Enabled, Apply;
    StepShape(H, sys, a);
    StepTakesMutex(H, sys, a);
  }

  lemma StepTakesMutex(H: Block -> Digest, sys: Sys, a: Action)
    requires Enabled(sys, a)
    ensures a.t in sys.threads && a.t in Apply(H, sys, a).threads
    ensures Apply(H, sys, a).threads[a.t].pc.Unmissing? ==> sys.threads[a.t].pc.Unmissing? || MutexFree(sys)
  {
    hide SkipHits, RunEnd, RunBytes, MissCount, Existing, Decide, FlushRun, Publish, MapBlock, RemoveBlock, Unhit,
         Unmiss, Assign;
  }

  /** While a thread gives back the slots of a failed write one by one, no other thread
      touches the free list. */
  lemma FreeListIsHeld(H: Block -> Digest, sys: Sys, a: Action, t: Tid)
    requires MutexInv(sys) && Enabled(sys, a) && t in sys.threads && sys.threads[t].pc.Unmissing? && a.t != t
    ensures Apply(H, sys, a).v.free == sys.v.free
  {
    hide SkipHits, RunEnd, RunBytes, MissCount, Existing;
    assert !MutexFree(sys);
  }

  // ---- Runs ----

  /** In every state of every run at most one thread holds the lock for writing, and then
      none for reading; and at most one holds the free-list mutex. */
  lemma {:induction false} RunLocks(H: Block -> Digest, run: seq<Sys>, acts: seq<Action>, n: nat)
    requires IsRun(H, run, acts) && LockInv(run[0]) && MutexInv(run[0]) && n < |run|
    ensures LockInv(run[n]) && MutexInv(run[n])
  {
    hide Enabled, Apply, LockInv, MutexInv;
    if n > 0 {
      RunLocks(H, run, acts, n - 1);
      assert run[n - 1 + 1] == Apply(H, run[n - 1], acts[n - 1]);
      StepLocks(H, run[n - 1], acts[n - 1]);
      StepMutex(H, run[n - 1], acts[n - 1]);
    }
  }

  /** The slots of the misses among the first n entries, the last one first. */
  function Returned(plan: seq<Entry>, n: nat): seq<nat>
    requires n <= |plan|
  {
    if n == 0 then []
    else if plan[n - 1].kind.Miss? then [plan[n - 1].slot] + Returned(plan, n - 1)
    else Returned(plan, n - 1)
  }

  /** The rollback of thread t holds the mutex: it took it at action b and has not released
      it before state m. */
  ghost predicate HoldsMutex(run: seq<Sys>, acts: seq<Action>, b: nat, m: nat, t: Tid) {
    && b < m <= |acts| < |run| && acts[b] == Advance(t) && t in run[b].threads && run[b].threads[t].pc.Reverting?
    && forall j :: b < j < m ==> acts[j] != Advance(t)
  }

  lemma OwnUnmiss(H: Block -> Digest, sys: Sys, a: Action)
    requires Enabled(sys, a) && a.t in sys.threads && sys.threads[a.t].pc.Unmissing? && !a.Advance?
    ensures a.t in Apply(H, sys, a).threads
    ensures var th, th' := sys.threads[a.t], Apply(H, sys, a).threads[a.t];
            && th.pos < |th.plan| && th' == th.(pos := th.pos + 1)
            && Apply(H, sys, a).v.free ==
                 (if th.plan[th.pos].kind.Miss? then [th.plan[th.pos].slot] else []) + sys.v.free
  {
    hide SkipHits, RunEnd, RunBytes, MissCount, CanRead, CanWrite, MutexFree;
    assert [] + sys.v.free == sys.v.free;
  }

  lemma TakesMutex(H: Block -> Digest, sys: Sys, t: Tid)
    requires Enabled(sys, Advance(t)) && sys.threads[t].pc.Reverting?
    ensures var sys' := Apply(H, sys, Advance(t));
            && t in sys'.threads && sys'.threads[t] == sys.threads[t].(pc := Unmissing, pos := 0) &&
               sys'.v.free == sys.v.free
  {
    hide SkipHits, MutexFree;
  }

  lemma ReturnedNext(plan: seq<Entry>, n: nat, free: seq<nat>)
    requires n < |plan|
    ensures Returned(plan, n + 1) + free ==
              (if plan[n].kind.Miss? then [plan[n].slot] else []) + (Returned(plan, n) + free)
  {
  }

  /** From taking the mutex to releasing it, the free list is the slots returned so far in
      front of the list as it was, whatever other threads do. */
  lemma {:induction false} RollbackStaysTogether(H: Block -> Digest, run: seq<Sys>, acts: seq<Action>, b: nat, m: nat,
                                                 t: Tid)
    requires IsRun(H, run, acts) && MutexInv(run[0]) && LockInv(run[0]) && HoldsMutex(run, acts, b, m, t)
    ensures t in run[m].threads && run[m].threads[t].pc.Unmissing? && run[m].threads[t].plan == run[b].threads[t].plan
    ensures run[m].threads[t].pos <= |run[m].threads[t].plan|
    ensures run[m].v.free == Returned(run[m].threads[t].plan, run[m].threads[t].pos) + run[b].v.free
    decreases m
  {
    hide Enabled, Apply, MutexInv, LockInv, Returned;
    var sys, a := run[m - 1], acts[m - 1];
    assert run[m - 1 + 1] == Apply(H, sys, a);
    if m == b + 1 {
      TakesMutex(H, sys, t);
      ReturnedNone(sys.threads[t].plan, sys.v.free);
    } else {
      RollbackStaysTogether(H, run, acts, b, m - 1, t);
      StepShape(H, sys, a);
      if a.t == t {
        assert acts[m - 1] != Advance(t);
        OwnUnmiss(H, sys, a);
        ReturnedNext(sys.threads[t].plan, sys.threads[t].pos, run[b].v.free);
      } else {
        RunLocks(H, run, acts, m - 1);
        FreeListIsHeld(H, sys, a, t);
      }
    }
  }

  lemma ReturnedNone(plan: seq<Entry>, free: seq<nat>)
    ensures Returned(plan, 0) + free == free
  {
  }
}
