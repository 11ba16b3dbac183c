/** What holds in every reachable state of every interleaving. */
module Safety {
  import opened MasterFile
  import opened Volumes
  import opened Protocol
  import opened Invariant
  import opened Actions
  import opened Commits
  import opened Publication

  ghost predicate Uses(U: iset<Block>, a: Action) {
    a.BeginWrite? ==> forall i :: 0 <= i < |a.blocks| ==> a.blocks[i] in U
  }

  /** Every action keeps the invariant, except a lost publication race that orphans
      another block of the same request. */
  lemma StepKeeps(H: Block -> Digest, U: iset<Block>, sys: Sys, g: Ledger, a: Action) returns (g': Ledger)
    requires Inv(H, U, sys, g) && Enabled(sys, a) && Safe(sys, a) && Uses(U, a)
    ensures Inv(H, U, Apply(H, sys, a), g')
  {
    hide Inv;
    g' := g;
    match a
    case BeginWrite(t, path, start, blocks) => BeginKeeps(H, U, sys, g, t, WriterThread(path, start, blocks));
    case DecideOne(t) => g' := DecideKeeps(H, U, sys, g, t);
    case DrainFree(t) => g' := DrainKeeps(H, U, sys, g, t);
    case AppendRange(t) => g' := AppendKeeps(H, U, sys, g, t);
    case AssignOne(t) => g' := AssignKeeps(H, U, sys, g, t);
    case FlushOne(t) => FlushKeeps(H, U, sys, g, t);
    case FlushFail(t, got) => FlushFailKeeps(H, U, sys, g, t, got);
    case PublishOne(t) => g' := PublishKeeps(H, U, sys, g, t);
    case MapOne(t) => g' := MapKeeps(H, U, sys, g, t);
    case Grow(t) => GrowKeeps(H, U, sys, g, t);
    case GiveBack(t) => g' := GiveBackKeeps(H, U, sys, g, t);
    case UnhitOne(t) => g' := UnhitKeeps(H, U, sys, g, t);
    case UnmissOne(t) => g' := UnmissKeeps(H, U, sys, g, t);
    case BeginUnlink(t, path) => BeginKeeps(H, U, sys, g, t,
        RemoverThread(path, 0, RoundUp(sys.v.sizes[path]), Forget));
    case BeginTruncate(t, path, size) =>
      BeginKeeps(H, U, sys, g, t, RemoverThread(path, RoundUp(size), RoundUp(sys.v.sizes[path]), Shrink(size)));
    case RemoveOne(t) => g' := RemoveKeeps(H, U, sys, g, t);
    case Resize(t) => ResizeKeeps(H, U, sys, g, t);
    case Advance(t) => AdvanceKeeps(H, U, sys, g, t);
  }

  // ---- Runs ----

  ghost predicate Initial(sys: Sys) {
    sys.v == EMPTY && forall t :: t in sys.threads ==> sys.threads[t] == IDLE
  }

  ghost predicate Good(H: Block -> Digest, U: iset<Block>, sys: Sys) {
    exists g :: Inv(H, U, sys, g)
  }

  /** A run in which no lost race orphans a block and every written block is in U. */
  ghost predicate SafeRun(H: Block -> Digest, U: iset<Block>, run: seq<Sys>, acts: seq<Action>) {
    && IsRun(H, run, acts)
    && forall i :: 0 <= i < |acts| ==> Safe(run[i], acts[i]) && Uses(U, acts[i])
  }

  lemma InitialGood(H: Block -> Digest, U: iset<Block>, sys: Sys)
    requires Initial(sys)
    ensures Good(H, U, sys)
  {
    assert Inv(H, U, sys, Ledger(map[], map[]));
  }

  lemma StepGood(H: Block -> Digest, U: iset<Block>, sys: Sys, a: Action)
    requires Good(H, U, sys) && Enabled(sys, a) && Safe(sys, a) && Uses(U, a)
    ensures Good(H, U, Apply(H, sys, a))
  {
    hide Inv, Apply, Safe, Uses;
    var g :| Inv(H, U, sys, g);
    var g' := StepKeeps(H, U, sys, g, a);
  }

  lemma {:induction false} RunGood(H: Block -> Digest, U: iset<Block>, run: seq<Sys>, acts: seq<Action>, n: nat)
    requires SafeRun(H, U, run, acts) && Good(H, U, run[0]) && n < |run|
    ensures Good(H, U, run[n])
  {
    hide Apply, Enabled, Good, Uses, Safe;
    if n > 0 {
      RunGood(H, U, run, acts, n - 1);
      assert run[n - 1 + 1] == Apply(H, run[n - 1], acts[n - 1]);
      StepGood(H, U, run[n - 1], acts[n - 1]);
    }
  }

  // ---- The slot partition ----

  ghost predicate Owns(sys: Sys, q: nat, who: Owner) {
    match who
    case Free => q in sys.v.free
    case Live(r) => Indexed(sys.v, r) && sys.v.infos[r].slot == q
    case Taken(t) => t in sys.threads && q in sys.threads[t].taken
    case Unpublished(t, i) => t in sys.threads && Slotted(sys.threads[t], i) && sys.threads[t].plan[i].slot == q
    case Leaving(t) => t in sys.threads && q in sys.threads[t].rel
  }

  ghost predicate Owned(sys: Sys, q: nat) {
    exists who :: Owns(sys, q, who)
  }

  ghost predicate SlotsPartitioned(sys: Sys) {
    && (forall q: nat :: q < sys.v.next ==> Owned(sys, q))
    && (forall q: nat, who :: Owns(sys, q, who) ==> q < sys.v.next)
    && (forall q: nat, who, who' :: Owns(sys, q, who) && Owns(sys, q, who') ==> who == who')
    && NoDup(sys.v.free)
    && (forall t :: t in sys.threads ==> NoDup(sys.threads[t].taken) && NoDup(sys.threads[t].rel))
  }

  lemma OwnsIsLedger(sys: Sys, g: Ledger, q: nat, who: Owner)
    requires SlotInv(sys, g) && InfoInv(sys, g)
    ensures Owns(sys, q, who) <==> q in g.slots && g.slots[q] == who
  {
    hide Held, Pending, Slotted, Indexed, NoDup, ThreadsOk, KeepersOk;
    if q in g.slots {
      assert OwnerHolds(sys, g, q);
    }
    if Owns(sys, q, who) {
      match who
      case Free => assert exists i :: 0 <= i < |sys.v.free| && sys.v.free[i] == q;
      case Live(r) => assert r in sys.v.infos by { IndexedIsAllocated(sys.v, r); }
      case Taken(t) => assert ThreadSlots(t, sys.threads[t], g.slots);
      case Unpublished(t, i) => assert ThreadSlots(t, sys.threads[t], g.slots);
      case Leaving(t) => assert ThreadSlots(t, sys.threads[t], g.slots);
    }
  }

  lemma IndexedIsAllocated(v: Volume, r: Ref)
    requires Indexed(v, r)
    ensures r in v.infos
  {
  }

  lemma PartitionFromInv(H: Block -> Digest, U: iset<Block>, sys: Sys, g: Ledger)
    requires Inv(H, U, sys, g)
    ensures SlotsPartitioned(sys)
  {
    hide Owns, InfoInv, RefInv, ContentInv, NoDup, OwnerHolds, Slotted;
    forall q: nat, who ensures Owns(sys, q, who) <==> q in g.slots && g.slots[q] == who {
      OwnsIsLedger(sys, g, q, who);
    }
    forall q: nat | q < sys.v.next ensures Owned(sys, q) {
      assert Owns(sys, q, g.slots[q]);
    }
    forall t | t in sys.threads ensures NoDup(sys.threads[t].taken) && NoDup(sys.threads[t].rel) {
      assert ThreadSlots(t, sys.threads[t], g.slots);
    }
  }

  /** In every state of every run from a good state each of the slots 0 .. next - 1 is in exactly one
      place: the free list, a published info, a slot batch just handed out, one
      unpublished MISS, or one thread's list of slots to give back. */
  lemma SlotPartition(H: Block -> Digest, U: iset<Block>, run: seq<Sys>, acts: seq<Action>, n: nat)
    requires SafeRun(H, U, run, acts) && Good(H, U, run[0]) && n < |run|
    ensures SlotsPartitioned(run[n])
  {
    hide SlotsPartitioned, Inv, Enabled, Apply, Safe, Uses;
    RunGood(H, U, run, acts, n);
    var g :| Inv(H, U, run[n], g);
    PartitionFromInv(H, U, run[n], g);
  }

  // ---- Reference counts ----

  ghost predicate StillPending(sys: Sys, r: Ref) {
    exists t, i: nat :: t in sys.threads && Pending(sys.threads[t], i) && sys.threads[t].plan[i].info == r
  }

  /** The count of an info is the number of its mappings and in-flight plan entries;
      an info is allocated exactly while something holds it, so nothing refers to a
      freed one; and it is in hash_to_master unless it is still pending in a request. */
  ghost predicate CountsExact(sys: Sys) {
    && (forall r :: r in sys.v.infos ==> sys.v.infos[r].refs == |Holders(sys, r)|)
    && (forall r: Ref :: r in sys.v.infos <==> Holders(sys, r) != {})
    && (forall r :: r in sys.v.infos ==> (Indexed(sys.v, r) <==> !StillPending(sys, r)))
    && (forall h :: h in sys.v.byHash ==> Indexed(sys.v, sys.v.byHash[h]) && sys.v.infos[sys.v.byHash[h]].hash == h)
    && (forall k :: k in sys.v.byBlock ==> Indexed(sys.v, sys.v.byBlock[k]))
  }

  lemma PublishedOrPending(sys: Sys, g: Ledger, r: Ref)
    requires InfoInv(sys, g) && r in sys.v.infos
    ensures Indexed(sys.v, r) <==> !StillPending(sys, r)
  {
    hide Held, Pending, Slotted, Indexed, ThreadInfos;
    if g.infos[r].PendingAt? {
      assert StillPending(sys, r) by {
        assert Pending(sys.threads[g.infos[r].t], g.infos[r].i);
      }
    } else if StillPending(sys, r) {
      var t, i: nat :| t in sys.threads && Pending(sys.threads[t], i) && sys.threads[t].plan[i].info == r;
      PendingIsUnpublished(sys, g, t, i);
      assert false;
    }
  }

  lemma TablesIndexed(v: Volume, keep: map<Ref, Keeper>)
    requires TablesOk(v, keep)
    ensures forall h :: h in v.byHash ==> Indexed(v, v.byHash[h]) && v.infos[v.byHash[h]].hash == h
    ensures forall k :: k in v.byBlock ==> Indexed(v, v.byBlock[k])
  {
  }

  lemma AllocatedIffHeld(sys: Sys, g: Ledger, r: Ref)
    requires InfoInv(sys, g) && RefInv(sys)
    ensures r in sys.v.infos <==> Holders(sys, r) != {}
  {
    hide InfoInv, Holds;
    if r !in sys.v.infos {
      NoStrayHolder(sys, g, r);
      assert Holders(sys, r) == {};
    }
  }

  lemma CountsFromInv(H: Block -> Digest, U: iset<Block>, sys: Sys, g: Ledger)
    requires Inv(H, U, sys, g)
    ensures CountsExact(sys)
  {
    hide SlotInv, ContentInv, StillPending, Holders, KeepersOk, ThreadsOk, TablesOk, Indexed;
    TablesIndexed(sys.v, g.infos);
    forall r: Ref ensures r in sys.v.infos <==> Holders(sys, r) != {} {
      AllocatedIffHeld(sys, g, r);
    }
    forall r | r in sys.v.infos ensures Indexed(sys.v, r) <==> !StillPending(sys, r) {
      PublishedOrPending(sys, g, r);
    }
  }

  lemma ReferenceCounts(H: Block -> Digest, U: iset<Block>, run: seq<Sys>, acts: seq<Action>, n: nat)
    requires SafeRun(H, U, run, acts) && Good(H, U, run[0]) && n < |run|
    ensures CountsExact(run[n])
  {
    hide CountsExact, Inv, Enabled, Apply, Safe, Uses;
    RunGood(H, U, run, acts, n);
    var g :| Inv(H, U, run[n], g);
    CountsFromInv(H, U, run[n], g);
  }
}
