/** How one thread's action affects each part of the invariant: the parts it does
    not touch, and the three moves every action is made of (taking a reference,
    dropping one, and handing a slot from one owner to the next). */
module Preservation {
  import opened MasterFile
  import opened Volumes
  import opened Protocol
  import opened Invariant

  // ---- Counting holders ----

  lemma SameHolders(sys: Sys, sys': Sys, r: Ref)
    requires forall h :: Holds(sys', r, h) <==> Holds(sys, r, h)
    ensures Holders(sys', r) == Holders(sys, r)
  {
    hide Holds;
  }

  lemma MoreHolders(sys: Sys, sys': Sys, r: Ref, x: Holder)
    requires !Holds(sys, r, x)
    requires forall h :: Holds(sys', r, h) <==> Holds(sys, r, h) || h == x
    ensures |Holders(sys', r)| == |Holders(sys, r)| + 1
  {
    hide Holds;
    assert Holders(sys', r) == Holders(sys, r) + {x};
  }

  lemma FewerHolders(sys: Sys, sys': Sys, r: Ref, x: Holder)
    requires Holds(sys, r, x)
    requires forall h :: Holds(sys', r, h) <==> Holds(sys, r, h) && h != x
    ensures |Holders(sys', r)| == |Holders(sys, r)| - 1
  {
    hide Holds;
    assert Holders(sys', r) == Holders(sys, r) - {x};
  }

  lemma SwapHolders(sys: Sys, sys': Sys, r: Ref, x: Holder, y: Holder)
    requires Holds(sys, r, x) && !Holds(sys, r, y)
    requires forall h :: Holds(sys', r, h) <==> (Holds(sys, r, h) && h != x) || h == y
    ensures |Holders(sys', r)| == |Holders(sys, r)|
  {
    hide Holds;
    assert Holders(sys', r) == Holders(sys, r) - {x} + {y};
  }

  // ---- Parts of the invariant an action leaves alone ----

  ghost predicate StepOf(sys: Sys, sys': Sys, t: Tid) {
    t in sys.threads && t in sys'.threads && sys'.threads == sys.threads[t := sys'.threads[t]]
  }

  ghost predicate SameSlots(m: map<Ref, Info>, m': map<Ref, Info>) {
    m'.Keys == m.Keys && forall r :: r in m ==> m'[r].slot == m[r].slot
  }

  ghost predicate SameHashes(m: map<Ref, Info>, m': map<Ref, Info>) {
    m'.Keys == m.Keys && forall r :: r in m ==> m'[r].hash == m[r].hash
  }

  ghost predicate SameRefs(m: map<Ref, Info>, m': map<Ref, Info>) {
    m'.Keys == m.Keys && forall r :: r in m ==> m'[r].refs == m[r].refs
  }

  ghost predicate SlotsAlike(th: Thread, th': Thread) {
    && th'.taken == th.taken && th'.rel == th.rel
    && forall i: nat ::
         (Slotted(th', i) <==> Slotted(th, i)) && (Slotted(th, i) ==> th'.plan[i].slot == th.plan[i].slot)
  }

  lemma SlotsUnaffected(sys: Sys, sys': Sys, g: Ledger, t: Tid)
    requires SlotInv(sys, g) && StepOf(sys, sys', t) && SlotsAlike(sys.threads[t], sys'.threads[t])
    requires sys'.v.free == sys.v.free && sys'.v.next == sys.v.next && SameSlots(sys.v.infos, sys'.v.infos)
    ensures SlotInv(sys', g)
  {
    hide Slotted, NoDup;
  }

  predicate OwnedBy(o: Owner, t: Tid) {
    match o
    case Taken(u) => u == t
    case Unpublished(u, _) => u == t
    case Leaving(u) => u == t
    case _ => false
  }

  /** A thread keeps its slots as long as nobody else changes their owner. */
  lemma ThreadSlotsKept(t: Tid, th: Thread, own: map<nat, Owner>, own': map<nat, Owner>)
    requires ThreadSlots(t, th, own)
    requires forall q :: q in own && OwnedBy(own[q], t) ==> q in own' && own'[q] == own[q]
    ensures ThreadSlots(t, th, own')
  {
    hide Slotted, NoDup;
  }

  predicate Foreign(o: Owner, t: Tid) {
    match o
    case Taken(u) => u != t
    case Unpublished(u, _) => u != t
    case Leaving(u) => u != t
    case _ => false
  }

  /** Only the free list, the published infos and thread t need checking when the
      slots of the other threads keep their owners. */
  lemma SlotsFrame(sys: Sys, sys': Sys, g: Ledger, g': Ledger, t: Tid)
    requires SlotInv(sys, g) && StepOf(sys, sys', t)
    requires forall q: nat :: q in g'.slots <==> q < sys'.v.next
    requires ListOwned(sys'.v.free, g'.slots, Free)
    requires forall r :: r in sys'.v.infos && r in g'.infos && g'.infos[r].Published? ==>
               sys'.v.infos[r].slot in g'.slots && g'.slots[sys'.v.infos[r].slot] == Live(r)
    requires ThreadSlots(t, sys'.threads[t], g'.slots)
    requires forall q :: q in g.slots && Foreign(g.slots[q], t) ==> q in g'.slots && g'.slots[q] == g.slots[q]
    requires forall q :: q in g'.slots && Foreign(g'.slots[q], t) ==> q in g.slots && g'.slots[q] == g.slots[q]
    requires forall q :: q in g'.slots && !Foreign(g'.slots[q], t) ==> OwnerHolds(sys', g', q)
    ensures SlotInv(sys', g')
  {
    hide Slotted, ListOwned, ThreadSlots;
    forall u | u in sys'.threads && u != t ensures ThreadSlots(u, sys'.threads[u], g'.slots) {
      ThreadSlotsKept(u, sys.threads[u], g.slots, g'.slots);
    }
    forall q | q in g'.slots ensures OwnerHolds(sys', g', q) {
      if Foreign(g'.slots[q], t) {
        assert OwnerHolds(sys, g, q);
      }
    }
  }

  ghost predicate InfosAlike(th: Thread, th': Thread) {
    && (forall i: nat ::
          Held(th', i) ==> Held(th, i) && th'.plan[i].info == th.plan[i].info && th'.plan[i].hash == th.plan[i].hash)
    && (forall i: nat ::
          (Pending(th', i) <==> Pending(th, i)) && (Pending(th, i) ==> th'.plan[i].info == th.plan[i].info))
    && (forall i: nat ::
          Slotted(th', i) ==>
            Slotted(th, i) && th'.plan[i].slot == th.plan[i].slot && th'.plan[i].info == th.plan[i].info)
  }

  lemma ThreadInfosKept(v: Volume, v': Volume, t: Tid, th: Thread, th': Thread, keep: map<Ref, Keeper>)
    requires ThreadInfos(v, t, th, keep) && InfosAlike(th, th')
    requires SameSlots(v.infos, v'.infos) && SameHashes(v.infos, v'.infos)
    ensures ThreadInfos(v', t, th', keep)
  {
    hide Slotted, Held, Pending;
  }

  lemma TablesKept(v: Volume, v': Volume, keep: map<Ref, Keeper>)
    requires TablesOk(v, keep) && SameHashes(v.infos, v'.infos)
    requires v'.nextRef == v.nextRef && v'.byHash == v.byHash
    requires forall k :: k in v'.byBlock ==> v'.byBlock[k] in keep && keep[v'.byBlock[k]].Published?
    ensures TablesOk(v', keep)
  {
  }

  lemma KeepersKept(threads: map<Tid, Thread>, keep: map<Ref, Keeper>, keep': map<Ref, Keeper>, t: Tid, th': Thread)
    requires KeepersOk(threads, keep) && t in threads
    requires forall r :: r in keep' && keep'[r].PendingAt? ==>
               || (r in keep && keep'[r] == keep[r])
               || (keep'[r].t == t && Pending(th', keep'[r].i) && th'.plan[keep'[r].i].info == r)
    requires forall r :: r in keep' && r in keep && keep'[r] == keep[r] && keep[r].PendingAt? && keep[r].t == t ==>
               Pending(th', keep[r].i) && th'.plan[keep[r].i].info == r
    ensures KeepersOk(threads[t := th'], keep')
  {
    hide Pending;
  }

  /** Only thread t needs checking when the infos keep their slots, hashes and keepers. */
  lemma InfosFrame(sys: Sys, sys': Sys, g: Ledger, t: Tid)
    requires InfoInv(sys, g) && StepOf(sys, sys', t)
    requires ThreadInfos(sys'.v, t, sys'.threads[t], g.infos)
    requires forall i: nat :: Pending(sys.threads[t], i) ==>
               Pending(sys'.threads[t], i) && sys'.threads[t].plan[i].info == sys.threads[t].plan[i].info
    requires SameSlots(sys.v.infos, sys'.v.infos) && SameHashes(sys.v.infos, sys'.v.infos)
    requires sys'.v.nextRef == sys.v.nextRef && sys'.v.byHash == sys.v.byHash
    requires forall k :: k in sys'.v.byBlock ==> sys'.v.byBlock[k] in g.infos && g.infos[sys'.v.byBlock[k]].Published?
    ensures InfoInv(sys', g)
  {
    hide Slotted, Held, Pending, ThreadInfos, TablesOk, SameSlots, SameHashes;
    TablesKept(sys.v, sys'.v, g.infos);
    KeepersKept(sys.threads, g.infos, g.infos, t, sys'.threads[t]);
    forall u | u in sys'.threads && u != t ensures ThreadInfos(sys'.v, u, sys'.threads[u], g.infos) {
      ThreadInfosKept(sys.v, sys'.v, u, sys.threads[u], sys'.threads[u], g.infos);
    }
  }

  lemma InfosUnaffected(sys: Sys, sys': Sys, g: Ledger, t: Tid)
    requires InfoInv(sys, g) && StepOf(sys, sys', t) && InfosAlike(sys.threads[t], sys'.threads[t])
    requires SameSlots(sys.v.infos, sys'.v.infos) && SameHashes(sys.v.infos, sys'.v.infos)
    requires sys'.v.nextRef == sys.v.nextRef && sys'.v.byHash == sys.v.byHash
    requires forall k :: k in sys'.v.byBlock ==> k in sys.v.byBlock && sys'.v.byBlock[k] == sys.v.byBlock[k]
    ensures InfoInv(sys', g)
  {
    hide Slotted, Held, Pending, ThreadInfos;
    ThreadInfosKept(sys.v, sys'.v, t, sys.threads[t], sys'.threads[t], g.infos);
    InfosFrame(sys, sys', g, t);
  }

  ghost predicate HeldAlike(th: Thread, th': Thread) {
    forall i: nat :: (Held(th', i) <==> Held(th, i)) && (Held(th, i) ==> th'.plan[i].info == th.plan[i].info)
  }

  lemma RefsUnaffected(sys: Sys, sys': Sys, t: Tid)
    requires RefInv(sys) && StepOf(sys, sys', t) && HeldAlike(sys.threads[t], sys'.threads[t])
    requires SameRefs(sys.v.infos, sys'.v.infos) && sys'.v.byBlock == sys.v.byBlock
    ensures RefInv(sys')
  {
    hide Held;
    forall r ensures Holders(sys', r) == Holders(sys, r) {
      SameHolders(sys, sys', r);
    }
  }

  ghost predicate ContentsAlike(th: Thread, th': Thread) {
    || th' == IDLE
    || (&& th'.blocks == th.blocks && th'.start == th.start && |th'.plan| == |th.plan|
        && (forall i :: 0 <= i < |th.plan| ==>
              th'.plan[i].payload == th.plan[i].payload && th'.plan[i].blk == th.plan[i].blk &&
                  th'.plan[i].hash == th.plan[i].hash)
        && (forall i: nat :: Flushed(th', i) ==> Flushed(th, i) && th'.plan[i].slot == th.plan[i].slot))
  }

  lemma ThreadContentsKept(H: Block -> Digest, U: iset<Block>, v: Volume, v': Volume, th: Thread, th': Thread)
    requires ThreadContents(H, U, v, th) && ContentsAlike(th, th') && v'.master == v.master
    ensures ThreadContents(H, U, v', th')
  {
    hide Flushed, BlockAt, InFile;
    assert th' != IDLE ==> forall i :: 0 <= i < |th'.plan| ==> th'.plan[i].hash == H(th.plan[i].payload);
  }

  lemma ContentsFrame(H: Block -> Digest, U: iset<Block>, sys: Sys, sys': Sys, g: Ledger, t: Tid)
    requires ContentInv(H, U, sys, g) && StepOf(sys, sys', t) && ThreadContents(H, U, sys'.v, sys'.threads[t])
    requires SameSlots(sys.v.infos, sys'.v.infos) && SameHashes(sys.v.infos, sys'.v.infos)
    requires sys'.v.master == sys.v.master
    ensures ContentInv(H, U, sys', g)
  {
    hide Flushed, BlockAt, InFile, ThreadContents;
    forall u | u in sys'.threads && u != t ensures ThreadContents(H, U, sys'.v, sys'.threads[u]) {
      ThreadContentsKept(H, U, sys.v, sys'.v, sys.threads[u], sys'.threads[u]);
    }
  }

  lemma ContentsUnaffected(H: Block -> Digest, U: iset<Block>, sys: Sys, sys': Sys, g: Ledger, t: Tid)
    requires ContentInv(H, U, sys, g) && StepOf(sys, sys', t) && ContentsAlike(sys.threads[t], sys'.threads[t])
    requires SameSlots(sys.v.infos, sys'.v.infos) && SameHashes(sys.v.infos, sys'.v.infos)
    requires sys'.v.master == sys.v.master
    ensures ContentInv(H, U, sys', g)
  {
    hide Flushed, BlockAt, InFile, ThreadContents;
    ThreadContentsKept(H, U, sys.v, sys'.v, sys.threads[t], sys'.threads[t]);
    ContentsFrame(H, U, sys, sys', g, t);
  }

  /** The thread holds exactly what it held and the volume changed at most in its sizes. */
  lemma QuietStep(H: Block -> Digest, U: iset<Block>, sys: Sys, sys': Sys, g: Ledger, t: Tid)
    requires Inv(H, U, sys, g) && StepOf(sys, sys', t) && Shape(sys'.threads[t])
    requires sys'.v == sys.v.(sizes := sys'.v.sizes)
    requires SlotsAlike(sys.threads[t], sys'.threads[t]) && InfosAlike(sys.threads[t], sys'.threads[t])
    requires HeldAlike(sys.threads[t], sys'.threads[t]) && ContentsAlike(sys.threads[t], sys'.threads[t])
    ensures Inv(H, U, sys', g)
  {
    SlotsUnaffected(sys, sys', g, t);
    InfosUnaffected(sys, sys', g, t);
    RefsUnaffected(sys, sys', t);
    ContentsUnaffected(H, U, sys, sys', g, t);
    hide SlotInv, InfoInv, RefInv, ContentInv, Shape;
  }
}
