/** Nothing but a lock ever makes a thread wait, and the locks never make all threads
    wait. */
module Progress {
  import opened MasterFile
  import opened Volumes
  import opened Protocol
  import opened Invariant
  import opened Safety
  import opened Requests

  /** The thread can go on with its request. */
  ghost predicate CanStep(sys: Sys, t: Tid) {
    exists a: Action :: a.t == t && !Begins(a) && Enabled(sys, a)
  }

  /** It is about to take the metadata lock for writing. */
  predicate WantsLock(th: Thread) {
    th.pc.Failed? || th.pc.Sized? || th.pc.Resizing? || (th.pc.Flushing? && !HasRun(th))
  }

  /** It is about to take the free-list mutex. */
  predicate WantsMutex(th: Thread) {
    th.pc.Draining? || th.pc.Releasing? || th.pc.HitReleasing? || th.pc.RemReleasing? || th.pc.Reverting?
  }

  lemma Steps(sys: Sys, a: Action)
    requires Enabled(sys, a) && !Begins(a)
    ensures CanStep(sys, a.t)
  {
  }

  /** A MISS that is to be assigned finds a slot. */
  lemma SlotsLeft(th: Thread)
    requires Shape(th) && th.pc.Assigning? && th.pos < |th.plan| && th.plan[th.pos].kind.Miss?
    ensures th.taken != []
  {
    hide MissCount;
    MissCountPrefix(th.plan, th.pos);
  }

  /** In its loops a thread is never stuck. */
  lemma LoopsStep(sys: Sys, t: Tid)
    requires t in sys.threads && Shape(sys.threads[t])
    requires var pc := sys.threads[t].pc;
             pc.Deciding? || pc.Publishing? || pc.Mapping? || pc.Unhitting? || pc.Unmissing? || pc.Removing?
    ensures CanStep(sys, t)
  {
    hide MissCount, SkipHits, CanStep;
    var th := sys.threads[t];
    var one :=
      if th.pc.Deciding? then DecideOne(t)
      else if th.pc.Publishing? then PublishOne(t)
      else if th.pc.Mapping? then MapOne(t)
      else if th.pc.Unhitting? then UnhitOne(t)
      else if th.pc.Unmissing? then UnmissOne(t)
      else RemoveOne(t);
    Steps(sys, if Enabled(sys, one) then one else Advance(t));
  }

  lemma OthersStep(sys: Sys, t: Tid)
    requires t in sys.threads && Shape(sys.threads[t])
    requires var pc := sys.threads[t].pc;
             pc.Appending? || pc.Assigning? || pc.Growing? || (pc.Flushing? && HasRun(sys.threads[t]))
    ensures CanStep(sys, t)
  {
    hide MissCount, SkipHits, CanStep;
    var th := sys.threads[t];
    if th.pc.Assigning? && th.pos < |th.plan| && th.plan[th.pos].kind.Miss? {
      SlotsLeft(th);
    }
    Steps(sys, if th.pc.Appending? then AppendRange(t)
               else if th.pc.Growing? then Grow(t)
               else if th.pc.Flushing? then FlushOne(t)
               else if th.pos < |th.plan| then AssignOne(t)
               else Advance(t));
  }

  lemma LocksGranted(sys: Sys, t: Tid)
    requires t in sys.threads && Shape(sys.threads[t])
    requires (WantsLock(sys.threads[t]) && CanWrite(sys)) || (WantsMutex(sys.threads[t]) && MutexFree(sys))
    ensures CanStep(sys, t)
  {
    hide MissCount, CanStep, CanWrite, MutexFree;
    var pc := sys.threads[t].pc;
    Steps(sys, if pc.Draining? then DrainFree(t)
               else if pc.Releasing? || pc.HitReleasing? || pc.RemReleasing? then GiveBack(t)
               else if pc.Resizing? then Resize(t)
               else Advance(t));
  }

  /** In every good state a thread with a request can go on with it, unless it is about to
      take the write lock while someone holds the lock, or the mutex while someone holds
      that. */
  lemma OnlyLocksBlock(H: Block -> Digest, U: iset<Block>, sys: Sys, t: Tid)
    requires Good(H, U, sys) && t in sys.threads && !sys.threads[t].pc.Idle?
    ensures || CanStep(sys, t)
            || (WantsLock(sys.threads[t]) && !CanWrite(sys))
            || (WantsMutex(sys.threads[t]) && !MutexFree(sys))
  {
    hide SlotInv, InfoInv, RefInv, ContentInv, CanStep, CanWrite, MutexFree, HasRun;
    var g :| Inv(H, U, sys, g);
    var th := sys.threads[t];
    assert Shape(th);
    var pc := th.pc;
    if pc.Deciding? || pc.Publishing? || pc.Mapping? || pc.Unhitting? || pc.Unmissing? || pc.Removing? {
      LoopsStep(sys, t);
    } else if pc.Appending? || pc.Assigning? || pc.Growing? || (pc.Flushing? && HasRun(th)) {
      OthersStep(sys, t);
    } else if (WantsLock(th) && CanWrite(sys)) || (WantsMutex(th) && MutexFree(sys)) {
      LocksGranted(sys, t);
    }
  }

  /** So as long as some request is in flight, some thread can go on with its own: there is
      no deadlock. */
  lemma NoDeadlock(H: Block -> Digest, U: iset<Block>, sys: Sys, t: Tid)
    requires Good(H, U, sys) && t in sys.threads && !sys.threads[t].pc.Idle?
    ensures exists u :: u in sys.threads && CanStep(sys, u)
  {
    hide Good, CanStep, WantsLock, WantsMutex;
    OnlyLocksBlock(H, U, sys, t);
    if !CanStep(sys, t) {
      if u :| u in sys.threads && HoldsSome(sys.threads[u]) {
        HoldersStep(H, U, sys, u);
      }
    }
  }

  /** The thread holds the metadata lock or, in a loop, the mutex. */
  predicate HoldsSome(th: Thread) { HoldsWrite(th) || HoldsRead(th) || th.pc.Unmissing? }

  lemma HoldersStep(H: Block -> Digest, U: iset<Block>, sys: Sys, u: Tid)
    requires Good(H, U, sys) && u in sys.threads
    requires HoldsSome(sys.threads[u])
    ensures CanStep(sys, u)
  {
    hide Good, CanStep, CanWrite, MutexFree;
    OnlyLocksBlock(H, U, sys, u);
  }
}
