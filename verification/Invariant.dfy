/** The invariant of the write, rollback and removal protocol. `Ledger` names the
    one owner of every slot and of every MasterInfo; the invariant says that the
    ledger and the state agree in both directions. */
module Invariant {
  import opened MasterFile
  import opened Volumes
  import opened Protocol

  datatype Owner =
    | Free                      // on the free list
    | Live(r: Ref)              // slot of a published info
    | Taken(t: Tid)             // handed to a thread, not yet in its plan
    | Unpublished(t: Tid, i: nat) // slot of a MISS entry not yet published
    | Leaving(t: Tid)           // on a thread's list of slots to give back

  datatype Keeper = Published | PendingAt(t: Tid, i: nat)

  datatype Ledger = Ledger(slots: map<nat, Owner>, infos: map<Ref, Keeper>)

  // ---- What a thread holds, by phase ----

  /** Entry i of the plan holds a reference to its info. */
  predicate Held(th: Thread, i: nat): (b: bool)
    ensures b ==> i < |th.plan|
  {
    && i < |th.plan|
    && match th.pc
       case Mapping => th.pos <= i
       case Growing => false
       case Releasing => false
       case Unhitting => th.plan[i].kind.Miss? || th.pos <= i
       case HitReleasing => th.plan[i].kind.Miss?
       case Reverting => th.plan[i].kind.Miss?
       case Unmissing => th.plan[i].kind.Miss? && th.pos <= i
       case _ => true
  }

  /** Entry i is a MISS whose info is not published. */
  predicate Pending(th: Thread, i: nat): (b: bool)
    ensures b ==> Held(th, i) && th.plan[i].kind.Miss?
  {
    && i < |th.plan|
    && th.plan[i].kind.Miss?
    && match th.pc
       case Publishing => th.pos <= i
       case Mapping => false
       case Growing => false
       case Releasing => false
       case Unmissing => th.pos <= i
       case _ => true
  }

  /** Entry i is a pending MISS that already has its slot. */
  predicate Slotted(th: Thread, i: nat): (b: bool)
    ensures b ==> Pending(th, i)
  {
    && Pending(th, i)
    && match th.pc
       case Deciding => false
       case Draining => false
       case Appending => false
       case Assigning => i < th.pos
       case _ => true
  }

  /** Entry i is a pending MISS whose payload is in the master file. */
  predicate Flushed(th: Thread, i: nat): (b: bool)
    ensures b ==> Slotted(th, i)
  {
    Slotted(th, i) && (th.pc.Publishing? || (th.pc.Flushing? && i < th.pos))
  }

  // ---- Slots ----

  predicate NoDup(s: seq<nat>) {
    forall i, j :: 0 <= i < j < |s| ==> s[i] != s[j]
  }

  ghost predicate ListOwned(s: seq<nat>, own: map<nat, Owner>, who: Owner) {
    NoDup(s) && forall i :: 0 <= i < |s| ==> s[i] in own && own[s[i]] == who
  }

  ghost predicate ThreadSlots(t: Tid, th: Thread, own: map<nat, Owner>) {
    && ListOwned(th.taken, own, Taken(t))
    && ListOwned(th.rel, own, Leaving(t))
    && forall i: nat :: Slotted(th, i) ==> th.plan[i].slot in own && own[th.plan[i].slot] == Unpublished(t, i)
  }

  ghost predicate OwnerHolds(sys: Sys, g: Ledger, q: nat)
    requires q in g.slots
  {
    match g.slots[q]
    case Free => q in sys.v.free
    case Live(r) => r in sys.v.infos && r in g.infos && g.infos[r].Published? && sys.v.infos[r].slot == q
    case Taken(t) => t in sys.threads && q in sys.threads[t].taken
    case Unpublished(t, i) => t in sys.threads && Slotted(sys.threads[t], i) && sys.threads[t].plan[i].slot == q
    case Leaving(t) => t in sys.threads && q in sys.threads[t].rel
  }

  ghost predicate SlotInv(sys: Sys, g: Ledger) {
    && (forall q: nat :: q in g.slots <==> q < sys.v.next)
    && ListOwned(sys.v.free, g.slots, Free)
    && (forall r :: r in sys.v.infos && r in g.infos && g.infos[r].Published? ==>
          sys.v.infos[r].slot in g.slots && g.slots[sys.v.infos[r].slot] == Live(r))
    && (forall t :: t in sys.threads ==> ThreadSlots(t, sys.threads[t], g.slots))
    && (forall q :: q in g.slots ==> OwnerHolds(sys, g, q))
  }

  // ---- MasterInfo objects ----

  predicate Indexed(v: Volume, r: Ref) {
    r in v.infos && v.infos[r].hash in v.byHash && v.byHash[v.infos[r].hash] == r
  }

  ghost predicate ThreadInfos(v: Volume, t: Tid, th: Thread, keep: map<Ref, Keeper>) {
    && (forall i: nat :: Held(th, i) ==>
          && th.plan[i].info in keep
          && (keep[th.plan[i].info].PendingAt? ==> keep[th.plan[i].info].t == t)
          && th.plan[i].info in v.infos && v.infos[th.plan[i].info].hash == th.plan[i].hash)
    && (forall i: nat :: Pending(th, i) ==> th.plan[i].info in keep && keep[th.plan[i].info] == PendingAt(t, i))
    && (forall i: nat ::
          Slotted(th, i) ==> th.plan[i].info in v.infos && v.infos[th.plan[i].info].slot == th.plan[i].slot)
  }

  /** hash_to_master and file_to_master lead to allocated, published infos. */
  ghost predicate TablesOk(v: Volume, keep: map<Ref, Keeper>) {
    && keep.Keys == v.infos.Keys
    && (forall r :: r in v.infos ==> r < v.nextRef)
    && (forall r :: r in v.infos ==> (keep[r].Published? <==> Indexed(v, r)))
    && (forall h :: h in v.byHash ==> v.byHash[h] in v.infos && v.infos[v.byHash[h]].hash == h)
    && (forall k :: k in v.byBlock ==> v.byBlock[k] in keep && keep[v.byBlock[k]].Published?)
  }

  ghost predicate ThreadsOk(sys: Sys, keep: map<Ref, Keeper>) {
    forall t :: t in sys.threads ==> ThreadInfos(sys.v, t, sys.threads[t], keep)
  }

  /** Every unpublished info belongs to the MISS entry that the ledger names. */
  ghost predicate KeepersOk(threads: map<Tid, Thread>, keep: map<Ref, Keeper>) {
    forall r :: r in keep && keep[r].PendingAt? ==>
      && keep[r].t in threads
      && Pending(threads[keep[r].t], keep[r].i)
      && threads[keep[r].t].plan[keep[r].i].info == r
  }

  ghost predicate InfoInv(sys: Sys, g: Ledger) {
    TablesOk(sys.v, g.infos) && ThreadsOk(sys, g.infos) && KeepersOk(sys.threads, g.infos)
  }

  // ---- Reference counts ----

  datatype Holder = ByKey(k: Key) | ByEntry(t: Tid, i: nat)

  predicate Holds(sys: Sys, r: Ref, h: Holder) {
    match h
    case ByKey(k) => k in sys.v.byBlock && sys.v.byBlock[k] == r
    case ByEntry(t, i) => t in sys.threads && Held(sys.threads[t], i) && sys.threads[t].plan[i].info == r
  }

  /** The (path, block) mappings to r and the plan entries in flight that hold r. */
  ghost function Holders(sys: Sys, r: Ref): (hs: set<Holder>)
    ensures forall h :: h in hs <==> Holds(sys, r, h)
  {
    var keys := set k | k in sys.v.byBlock :: ByKey(k);
    var entries := set t, i | t in sys.threads && 0 <= i < |sys.threads[t].plan| :: ByEntry(t, i);
    var hs := set h | h in keys + entries && Holds(sys, r, h);
    assert forall h :: Holds(sys, r, h) ==> h in keys + entries;
    hs
  }

  ghost predicate RefInv(sys: Sys) {
    forall r :: r in sys.v.infos ==> sys.v.infos[r].refs == |Holders(sys, r)| && sys.v.infos[r].refs >= 1
  }

  // ---- Contents ----

  ghost predicate StoredOk(H: Block -> Digest, U: iset<Block>, v: Volume, i: Info) {
    InFile(v.master, i.slot) && BlockAt(v.master, i.slot) in U && H(BlockAt(v.master, i.slot)) == i.hash
  }

  /** The plan is the request, block by block, with the hash of each block. */
  ghost predicate PlanOk(H: Block -> Digest, U: iset<Block>, th: Thread) {
    && (forall i :: 0 <= i < |th.blocks| ==> th.blocks[i] in U)
    && |th.plan| <= |th.blocks|
    && (forall i :: 0 <= i < |th.plan| ==>
          th.plan[i].payload == th.blocks[i] && th.plan[i].blk == th.start + i &&
              th.plan[i].hash == H(th.plan[i].payload))
  }

  ghost predicate FlushedOk(v: Volume, th: Thread) {
    forall i: nat :: Flushed(th, i) ==>
      InFile(v.master, th.plan[i].slot) && BlockAt(v.master, th.plan[i].slot) == th.plan[i].payload
  }

  ghost predicate ThreadContents(H: Block -> Digest, U: iset<Block>, v: Volume, th: Thread) {
    PlanOk(H, U, th) && FlushedOk(v, th)
  }

  ghost predicate ContentInv(H: Block -> Digest, U: iset<Block>, sys: Sys, g: Ledger) {
    && (forall r :: r in sys.v.infos && r in g.infos && g.infos[r].Published? ==> StoredOk(H, U, sys.v, sys.v.infos[r]))
    && (forall t :: t in sys.threads ==> ThreadContents(H, U, sys.v, sys.threads[t]))
  }

  // ---- Thread-local shape ----

  predicate Shape(th: Thread) {
    match th.pc
    case Idle => th == IDLE
    case Deciding => |th.plan| <= |th.blocks| && th.taken == [] && th.rel == []
    case Draining => |th.plan| == |th.blocks| && th.taken == [] && th.rel == []
    case Appending => |th.plan| == |th.blocks| && |th.taken| <= MissCount(th.plan) && th.rel == []
    case Assigning => |th.plan| == |th.blocks| && th.pos <= |th.plan| && |th.taken| == MissCount(th.plan[th.pos..]) &&
        th.rel == []
    case Sized => th.plan == [] && th.taken == [] && th.rel == []
    case Removing => th.plan == [] && th.taken == []
    case RemReleasing => th.plan == [] && th.taken == []
    case Resizing => th.plan == [] && th.taken == [] && th.rel == []
    case Flushing => |th.plan| == |th.blocks| && th.pos <= |th.plan| && th.taken == [] && th.rel == []
    case Failed => |th.plan| == |th.blocks| && th.taken == [] && th.rel == []
    case Reverting => |th.plan| == |th.blocks| && th.taken == [] && th.rel == []
    case Unmissing => |th.plan| == |th.blocks| && th.pos <= |th.plan| && th.taken == [] && th.rel == []
    case _ => |th.plan| == |th.blocks| && th.pos <= |th.plan| && th.taken == []
  }

  ghost predicate ShapeInv(sys: Sys) {
    forall t :: t in sys.threads ==> Shape(sys.threads[t])
  }

  ghost predicate Inv(H: Block -> Digest, U: iset<Block>, sys: Sys, g: Ledger) {
    ShapeInv(sys) && SlotInv(sys, g) && InfoInv(sys, g) && RefInv(sys) && ContentInv(H, U, sys, g)
  }
}
