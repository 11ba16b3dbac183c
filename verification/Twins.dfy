/** From Pass 1 until publication, blocks of one request that have the same hash share one
    object, because Pass 1 sees one unchanging hash_to_master under the read lock. So
    whether a lost race leaves a dangling reference can be read off the request. */
module Twins {
  import opened MasterFile
  import opened Volumes
  import opened Protocol
  import opened Invariant
  import opened Actions
  import opened Commits
  import opened Publication
  import opened Safety
  import opened Locks
  import opened Quiescence

  // ---- The invariant ----

  /** Pass 1 so far: a MISS is not indexed, and every hash met is indexed or pending. */
  ghost predicate Decided(v: Volume, plan: seq<Entry>) {
    && (forall i :: 0 <= i < |plan| && plan[i].kind.Miss? ==> plan[i].hash !in v.byHash)
    && (forall i :: 0 <= i < |plan| ==> plan[i].hash in v.byHash || plan[i].hash in PendingHashes(plan))
  }

  /** Entries with the hash of a pending MISS hold its object. */
  ghost predicate Shares(th: Thread) {
    forall i: nat, j: nat ::
          Pending(th, i) && j < |th.plan| && th.plan[j].hash == th.plan[i].hash ==> th.plan[j].info == th.plan[i].info
  }

  ghost predicate TwinInv(sys: Sys) {
    && LockInv(sys)
    && (forall t :: t in sys.threads && sys.threads[t].pc.Deciding? ==> Decided(sys.v, sys.threads[t].plan))
    && (forall t :: t in sys.threads ==> Shares(sys.threads[t]))
  }

  lemma IdleTwins(sys: Sys)
    requires AllIdle(sys)
    ensures TwinInv(sys)
  {
  }

  // ---- Pass 1 ----

  /** What Pass 1 decides, hash by hash. */
  lemma DecideMeaning(H: Block -> Digest, v: Volume, plan: seq<Entry>, blk: nat, b: Block)
    ensures var (v', e) := Decide(H, v, plan, blk, b);
            && v'.byHash == v.byHash && e.hash == H(b)
            && (e.kind.Miss? <==> H(b) !in v.byHash && H(b) !in PendingHashes(plan))
            && (H(b) in v.byHash ==> e.info == v.byHash[H(b)])
            && (H(b) !in v.byHash && H(b) in PendingHashes(plan) ==> e.info == PendingHashes(plan)[H(b)])
  {
    hide PendingHashes;
  }

  lemma PendingGrows(plan: seq<Entry>, e: Entry)
    ensures forall h :: h in PendingHashes(plan) ==> h in PendingHashes(plan + [e])
    ensures e.kind.Miss? ==> e.hash in PendingHashes(plan + [e])
  {
    assert (plan + [e])[..|plan|] == plan;
  }

  lemma DecideKeepsDecided(H: Block -> Digest, v: Volume, plan: seq<Entry>, blk: nat, b: Block)
    requires Decided(v, plan)
    ensures var (v', e) := Decide(H, v, plan, blk, b); Decided(v', plan + [e])
  {
    hide Decide, PendingHashes;
    var (v', e) := Decide(H, v, plan, blk, b);
    DecideMeaning(H, v, plan, blk, b);
    PendingGrows(plan, e);
  }

  /** A pending hash has a MISS, whose object the table holds. */
  lemma DecideKeepsShares(H: Block -> Digest, v: Volume, th: Thread, blk: nat, b: Block)
    requires th.pc.Deciding? && Decided(v, th.plan) && Shares(th)
    ensures Shares(th.(plan := th.plan + [Decide(H, v, th.plan, blk, b).1]))
  {
    hide Decide, PendingHashes;
    var plan, e := th.plan, Decide(H, v, th.plan, blk, b).1;
    DecideMeaning(H, v, plan, blk, b);
    PendingHashesMeaning(plan, e.hash);
    var th' := th.(plan := plan + [e]);
    forall i: nat, j: nat | Pending(th', i) && j < |th'.plan| && th'.plan[j].hash == th'.plan[i].hash
      ensures th'.plan[j].info == th'.plan[i].info
    {
      if i < |plan| && j < |plan| {
        assert Pending(th, i);
      } else if i < |plan| {
        MeetsPending(v, th, e, i);
      }
    }
  }

  lemma MeetsPending(v: Volume, th: Thread, e: Entry, i: nat)
    requires th.pc.Deciding? && Decided(v, th.plan) && Shares(th) && i < |th.plan| && th.plan[i].kind.Miss? &&
             th.plan[i].hash == e.hash
    requires e.hash !in v.byHash && e.hash in PendingHashes(th.plan) ==> e.info == PendingHashes(th.plan)[e.hash]
    ensures e.info == th.plan[i].info
  {
    hide PendingHashes;
    PendingHashesMeaning(th.plan, e.hash);
    var j :| 0 <= j < |th.plan| && th.plan[j].kind.Miss? && th.plan[j].hash == e.hash &&
        th.plan[j].info == PendingHashes(th.plan)[e.hash];
    assert Pending(th, j);
  }

  // ---- The other actions ----

  /** The plan keeps its hashes and objects, and no MISS becomes pending again. */
  ghost predicate SamePlan(th: Thread, th': Thread) {
    && |th'.plan| <= |th.plan|
    && (forall i :: 0 <= i < |th'.plan| ==> th'.plan[i].hash == th.plan[i].hash && th'.plan[i].info == th.plan[i].info)
    && (forall i: nat :: Pending(th', i) ==> Pending(th, i))
  }

  lemma SamePlanShares(th: Thread, th': Thread)
    requires Shares(th) && SamePlan(th, th')
    ensures Shares(th')
  {
    hide Pending;
  }

  lemma AssignStep(H: Block -> Digest, sys: Sys, t: Tid)
    requires Enabled(sys, AssignOne(t))
    ensures t in sys.threads && t in Apply(H, sys, AssignOne(t)).threads
    ensures var th' := Apply(H, sys, AssignOne(t)).threads[t]; SamePlan(sys.threads[t], th') && !th'.pc.Deciding?
  {
    hide Assign;
    var th := sys.threads[t];
    AssignedEntry(sys.v, th.plan[th.pos], if th.taken == [] then 0 else th.taken[0]);
  }

  /** The remaining actions leave the plan alone, or drop it. */
  lemma PlanLeft(H: Block -> Digest, sys: Sys, a: Action)
    requires Enabled(sys, a) && !a.DecideOne? && !a.PublishOne? && !a.AssignOne?
    ensures a.t in sys.threads && a.t in Apply(H, sys, a).threads
    ensures var th, th' := sys.threads[a.t], Apply(H, sys, a).threads[a.t];
            && (th'.plan == [] || (th'.plan == th.plan && !th'.pc.Deciding?))
            && (th'.plan == th.plan ==> forall i: nat :: Pending(th', i) ==> Pending(th, i))
  {
    hide SkipHits, RunEnd, RunBytes, MissCount, FlushRun, MapBlock, RemoveBlock, Unhit, Unmiss, CanRead, CanWrite,
         MutexFree, Drain, Append;
  }

  lemma OtherSteps(H: Block -> Digest, sys: Sys, a: Action)
    requires Enabled(sys, a) && !a.DecideOne? && !a.PublishOne?
    ensures a.t in sys.threads && a.t in Apply(H, sys, a).threads
    ensures SamePlan(sys.threads[a.t], Apply(H, sys, a).threads[a.t])
    ensures Apply(H, sys, a).threads[a.t].pc.Deciding? ==> Apply(H, sys, a).threads[a.t].plan == []
  {
    hide Enabled, Apply;
    if a.AssignOne? {
      AssignStep(H, sys, a.t);
    } else {
      PlanLeft(H, sys, a);
    }
  }

  lemma AssignedEntry(v: Volume, e: Entry, slot: nat)
    ensures Assign(v, e, slot).1 == e.(slot := slot)
  {
  }

  /** Publishing an entry redirects no other, and no later pending entry has its hash. */
  lemma PublishShares(H: Block -> Digest, U: iset<Block>, sys: Sys, t: Tid)
    requires Good(H, U, sys) && Enabled(sys, PublishOne(t)) && Shares(sys.threads[t])
    ensures t in Apply(H, sys, PublishOne(t)).threads && Shares(Apply(H, sys, PublishOne(t)).threads[t])
    ensures Apply(H, sys, PublishOne(t)).threads[t].pc.Publishing?
  {
    hide Inv, Publish, Pending;
    var th, th' := sys.threads[t], Apply(H, sys, PublishOne(t)).threads[t];
    PublishedEntry(sys.v, th.plan[th.pos], th.rel);
    PublishingPends(th, th');
    var g :| Inv(H, U, sys, g);
    forall i: nat, j: nat | Pending(th', i) && j < |th'.plan| && th'.plan[j].hash == th'.plan[i].hash
      ensures th'.plan[j].info == th'.plan[i].info
    {
      if j == th.pos && th.plan[j].kind.Miss? {
        OneMissPerObject(H, U, sys, g, t, i, j);
      }
    }
  }

  lemma PublishedEntry(v: Volume, e: Entry, rel: seq<nat>)
    ensures var e' := Publish(v, e, rel).1; e' == e.(info := e'.info) && (e.kind.Hit? ==> e' == e)
  {
  }

  lemma PublishingPends(th: Thread, th': Thread)
    requires th.pc.Publishing? && th.pos < |th.plan| && th'.pc.Publishing? && th'.pos == th.pos + 1 &&
             |th'.plan| == |th.plan|
    requires forall i :: 0 <= i < |th.plan| ==> th'.plan[i].kind == th.plan[i].kind
    ensures forall i: nat :: Pending(th', i) <==> Pending(th, i) && i != th.pos
    ensures th.plan[th.pos].kind.Miss? ==> Pending(th, th.pos)
  {
  }

  lemma OneMissPerObject(H: Block -> Digest, U: iset<Block>, sys: Sys, g: Ledger, t: Tid, i: nat, j: nat)
    requires Inv(H, U, sys, g) && t in sys.threads && Pending(sys.threads[t], i) && Pending(sys.threads[t], j) && i != j
    ensures sys.threads[t].plan[i].info != sys.threads[t].plan[j].info
  {
    hide SlotInv, InfoInv, RefInv, ContentInv, Pending, Slotted, Indexed;
    PendingIsUnpublished(sys, g, t, i);
    PendingIsUnpublished(sys, g, t, j);
  }

  lemma OwnShares(H: Block -> Digest, U: iset<Block>, sys: Sys, a: Action)
    requires Good(H, U, sys) && TwinInv(sys) && Enabled(sys, a)
    ensures a.t in sys.threads && a.t in Apply(H, sys, a).threads
    ensures var th' := Apply(H, sys, a).threads[a.t];
            Shares(th') && (th'.pc.Deciding? ==> Decided(Apply(H, sys, a).v, th'.plan))
  {
    hide Good, Decided, Shares, Decide, Publish;
    if a.DecideOne? {
      var th := sys.threads[a.t];
      DecideKeepsDecided(H, sys.v, th.plan, th.start + |th.plan|, th.blocks[|th.plan|]);
      DecideKeepsShares(H, sys.v, th, th.start + |th.plan|, th.blocks[|th.plan|]);
    } else if a.PublishOne? {
      PublishShares(H, U, sys, a.t);
    } else {
      OtherShares(H, sys, a);
    }
  }

  lemma OtherShares(H: Block -> Digest, sys: Sys, a: Action)
    requires Enabled(sys, a) && !a.DecideOne? && !a.PublishOne? && TwinInv(sys)
    ensures a.t in sys.threads && a.t in Apply(H, sys, a).threads
    ensures var th' := Apply(H, sys, a).threads[a.t];
            Shares(th') && (th'.pc.Deciding? ==> Decided(Apply(H, sys, a).v, th'.plan))
  {
    hide Apply, Enabled, SamePlan, Shares, LockInv;
    OtherSteps(H, sys, a);
    SamePlanShares(sys.threads[a.t], Apply(H, sys, a).threads[a.t]);
  }

  /** Every action keeps the sharing. */
  lemma StepTwins(H: Block -> Digest, U: iset<Block>, sys: Sys, a: Action)
    requires Good(H, U, sys) && TwinInv(sys) && Enabled(sys, a)
    ensures TwinInv(Apply(H, sys, a))
  {
    hide Good, Apply, Enabled, Shares, HoldsRead, HoldsWrite;
    var sys' := Apply(H, sys, a);
    StepShape(H, sys, a);
    StepLocks(H, sys, a);
    OwnShares(H, U, sys, a);
    forall u | u in sys'.threads && u != a.t && sys'.threads[u].pc.Deciding?
      ensures Decided(sys'.v, sys'.threads[u].plan)
    {
      DecidingReads(sys.threads[u]);
      StepByHash(H, sys, a);
    }
  }

  lemma DecidingReads(th: Thread)
    requires th.pc.Deciding?
    ensures HoldsRead(th)
  {
  }

  // ---- What it is for ----

  /** Block i of the request has the hash of another block of it. */
  predicate Repeats(H: Block -> Digest, blocks: seq<Block>, i: nat)
    requires i < |blocks|
  {
    exists j :: 0 <= j < |blocks| && j != i && H(blocks[j]) == H(blocks[i])
  }

  /** At publication, another entry shares the object if and only if the request repeats
      the hash. */
  lemma TwinIsRepeat(H: Block -> Digest, U: iset<Block>, sys: Sys, t: Tid)
    requires Good(H, U, sys) && TwinInv(sys) && AtMiss(sys, t)
    ensures sys.threads[t].pos < |sys.threads[t].blocks|
    ensures HasTwin(sys, t) <==> Repeats(H, sys.threads[t].blocks, sys.threads[t].pos)
  {
    hide SlotInv, InfoInv, RefInv, FlushedOk, StoredOk, LockInv, Held, Pending, Indexed;
    var th := sys.threads[t];
    var g :| Inv(H, U, sys, g);
    assert Shape(th) && ThreadContents(H, U, sys.v, th);
    PublishingHolds(th);
    forall j | 0 <= j < |th.plan|
      ensures th.plan[j].info == th.plan[th.pos].info <==> H(th.blocks[j]) == H(th.blocks[th.pos])
    {
      HeldInfo(sys, g, t, j);
      HeldInfo(sys, g, t, th.pos);
      assert Shares(th);
    }
  }

  lemma PublishingHolds(th: Thread)
    requires th.pc.Publishing? && th.pos < |th.plan| && th.plan[th.pos].kind.Miss?
    ensures Pending(th, th.pos) && forall j: nat :: j < |th.plan| ==> Held(th, j)
  {
  }

  /** The writer loses the race with a block whose hash its request repeats. */
  predicate LosesRepeat(H: Block -> Digest, sys: Sys, t: Tid) {
    LosesRace(sys, t) && sys.threads[t].pos < |sys.threads[t].blocks| &&
              Repeats(H, sys.threads[t].blocks, sys.threads[t].pos)
  }

  lemma SafeIsNoLostRepeat(H: Block -> Digest, U: iset<Block>, sys: Sys, a: Action)
    requires Good(H, U, sys) && TwinInv(sys)
    ensures Safe(sys, a) <==> !(a.PublishOne? && LosesRepeat(H, sys, a.t))
  {
    hide Good, TwinInv, HasTwin, Repeats;
    if a.PublishOne? && LosesRace(sys, a.t) {
      TwinIsRepeat(H, U, sys, a.t);
    }
  }

  ghost predicate NoLostRepeats(H: Block -> Digest, run: seq<Sys>, acts: seq<Action>, n: nat)
    requires n <= |acts| && |run| == |acts| + 1
  {
    forall i :: 0 <= i < n ==> !(acts[i].PublishOne? && LosesRepeat(H, run[i], acts[i].t))
  }

  lemma {:induction false} SafePrefixIff(H: Block -> Digest, U: iset<Block>, run: seq<Sys>, acts: seq<Action>, n: nat)
    requires IsRun(H, run, acts) && Good(H, U, run[0]) && TwinInv(run[0]) && n <= |acts| && forall i ::
               0 <= i < |acts| ==> Uses(U, acts[i])
    ensures (forall i :: 0 <= i < n ==> Safe(run[i], acts[i])) <==> NoLostRepeats(H, run, acts, n)
    ensures NoLostRepeats(H, run, acts, n) ==> Good(H, U, run[n]) && TwinInv(run[n])
  {
    hide Good, TwinInv, Enabled, Apply, Safe, Uses, LosesRepeat;
    if n > 0 {
      SafePrefixIff(H, U, run, acts, n - 1);
      var sys, a := run[n - 1], acts[n - 1];
      assert run[n - 1 + 1] == Apply(H, sys, a);
      if NoLostRepeats(H, run, acts, n - 1) {
        SafeIsNoLostRepeat(H, U, sys, a);
        if Safe(sys, a) {
          StepGood(H, U, sys, a);
          StepTwins(H, U, sys, a);
        }
      }
    }
  }

  /** A run is safe if and only if no writer loses the race with a hash that its request
      repeats. */
  lemma SafeRunIff(H: Block -> Digest, U: iset<Block>, run: seq<Sys>, acts: seq<Action>)
    requires IsRun(H, run, acts) && Good(H, U, run[0]) && AllIdle(run[0]) && forall i ::
               0 <= i < |acts| ==> Uses(U, acts[i])
    ensures SafeRun(H, U, run, acts) <==> NoLostRepeats(H, run, acts, |acts|)
  {
    hide Good, TwinInv, Enabled, Apply, Safe, Uses, LosesRepeat;
    IdleTwins(run[0]);
    SafePrefixIff(H, U, run, acts, |acts|);
  }

  // ---- Requests that repeat no hash ----

  predicate NoRepeats(H: Block -> Digest, blocks: seq<Block>) {
    forall i :: 0 <= i < |blocks| ==> !Repeats(H, blocks, i)
  }

  ghost predicate AllWithoutRepeats(H: Block -> Digest, sys: Sys) {
    forall t :: t in sys.threads ==> NoRepeats(H, sys.threads[t].blocks)
  }

  lemma StepBlocks(H: Block -> Digest, sys: Sys, a: Action)
    requires Enabled(sys, a)
    ensures a.t in sys.threads && a.t in Apply(H, sys, a).threads
    ensures var b := Apply(H, sys, a).threads[a.t].blocks;
            b == sys.threads[a.t].blocks || b == [] || (a.BeginWrite? && b == a.blocks)
  {
    hide SkipHits, RunEnd, RunBytes, MissCount, Existing, Decide, FlushRun, Publish, MapBlock, RemoveBlock, Unhit,
         Unmiss, Assign;
  }

  lemma StepRepeats(H: Block -> Digest, sys: Sys, a: Action)
    requires Enabled(sys, a) && AllWithoutRepeats(H, sys) && (a.BeginWrite? ==> NoRepeats(H, a.blocks))
    ensures AllWithoutRepeats(H, Apply(H, sys, a))
  {
    hide Enabled, Apply, Repeats;
    StepShape(H, sys, a);
    StepBlocks(H, sys, a);
  }

  lemma {:induction false} RunRepeats(H: Block -> Digest, run: seq<Sys>, acts: seq<Action>, n: nat)
    requires IsRun(H, run, acts) && AllWithoutRepeats(H, run[0]) && n < |run|
    requires forall i :: 0 <= i < |acts| ==> (acts[i].BeginWrite? ==> NoRepeats(H, acts[i].blocks))
    ensures AllWithoutRepeats(H, run[n])
  {
    hide AllWithoutRepeats, Enabled, Apply, NoRepeats;
    if n > 0 {
      RunRepeats(H, run, acts, n - 1);
      assert run[n - 1 + 1] == Apply(H, run[n - 1], acts[n - 1]);
      StepRepeats(H, run[n - 1], acts[n - 1]);
    }
  }

  /** A run in which no request contains two blocks of one hash is safe: what is proved of
      safe runs holds of every interleaving of such requests. */
  lemma DistinctRunIsSafe(H: Block -> Digest, U: iset<Block>, run: seq<Sys>, acts: seq<Action>)
    requires IsRun(H, run, acts) && Good(H, U, run[0]) && AllIdle(run[0])
    requires forall i :: 0 <= i < |acts| ==> Uses(U, acts[i]) && (acts[i].BeginWrite? ==> NoRepeats(H, acts[i].blocks))
    ensures SafeRun(H, U, run, acts)
  {
    hide Good, Enabled, Apply, Safe, Uses, NoRepeats, AllWithoutRepeats, LosesRepeat;
    IdleRepeats(H, run[0]);
    forall i | 0 <= i < |acts| && acts[i].PublishOne? ensures !LosesRepeat(H, run[i], acts[i].t) {
      RunRepeats(H, run, acts, i);
      NoRepeatToLose(H, run[i], acts[i].t);
    }
    SafeRunIff(H, U, run, acts);
  }

  lemma NoRepeatToLose(H: Block -> Digest, sys: Sys, t: Tid)
    requires AllWithoutRepeats(H, sys)
    ensures !LosesRepeat(H, sys, t)
  {
    hide Repeats;
  }

  lemma IdleRepeats(H: Block -> Digest, sys: Sys)
    requires AllIdle(sys)
    ensures AllWithoutRepeats(H, sys)
  {
  }

  /** In every state of a safe run the sharing holds too. */
  lemma {:induction false} RunTwins(H: Block -> Digest, U: iset<Block>, run: seq<Sys>, acts: seq<Action>, n: nat)
    requires SafeRun(H, U, run, acts) && Good(H, U, run[0]) && TwinInv(run[0]) && n < |run|
    ensures TwinInv(run[n])
  {
    hide Good, TwinInv, Enabled, Apply, Safe, Uses;
    if n > 0 {
      RunTwins(H, U, run, acts, n - 1);
      RunGood(H, U, run, acts, n - 1);
      assert run[n - 1 + 1] == Apply(H, run[n - 1], acts[n - 1]);
      StepTwins(H, U, run[n - 1], acts[n - 1]);
    }
  }
}
