/** The moves on shared state that several actions have in common. */
module Moves {
  import opened MasterFile
  import opened Volumes
  import opened Protocol
  import opened Invariant
  import opened Preservation

  // ---- Dropping a reference ----

  /** The count of r0 still includes a reference that nobody holds any more. */
  ghost predicate RefDebt(sys: Sys, r0: Ref) {
    && r0 in sys.v.infos
    && forall r :: r in sys.v.infos ==>
         sys.v.infos[r].refs == |Holders(sys, r)| + (if r == r0 then 1 else 0) && sys.v.infos[r].refs >= 1
  }

  ghost predicate InvDebt(H: Block -> Digest, U: iset<Block>, sys: Sys, g: Ledger, r: Ref) {
    SlotInv(sys, g) && InfoInv(sys, g) && RefDebt(sys, r) && ContentInv(H, U, sys, g)
  }

  function AfterDrop(sys: Sys, t: Tid, r: Ref): Sys
    requires t in sys.threads
  {
    var (v', rel) := Drop(sys.v, r, sys.threads[t].rel);
    Put(sys, t, v', sys.threads[t].(rel := rel))
  }

  /** The list of slots to give back has no bearing on what the plan holds. */
  lemma RelIrrelevant(th: Thread, rel: seq<nat>)
    ensures forall i: nat :: Held(th.(rel := rel), i) <==> Held(th, i)
    ensures forall i: nat :: Pending(th.(rel := rel), i) <==> Pending(th, i)
    ensures forall i: nat :: Slotted(th.(rel := rel), i) <==> Slotted(th, i)
    ensures forall i: nat :: Flushed(th.(rel := rel), i) <==> Flushed(th, i)
  {
  }

  /** The last reference is gone: nothing holds r, and r was published. */
  lemma DeadIsFree(sys: Sys, g: Ledger, r: Ref)
    requires InfoInv(sys, g) && RefDebt(sys, r) && sys.v.infos[r].refs == 1
    ensures forall h :: !Holds(sys, r, h)
    ensures g.infos[r].Published?
  {
    hide Held, Pending, Slotted, ThreadInfos;
    assert Holders(sys, r) == {};
    assert forall h :: h !in Holders(sys, r);
    assert forall u, i: nat :: u in sys.threads && Pending(sys.threads[u], i) && sys.threads[u].plan[i].info == r ==>
        Holds(sys, r, ByEntry(u, i));
  }

  function DeadLedger(sys: Sys, g: Ledger, t: Tid, r: Ref): Ledger
    requires r in sys.v.infos
  {
    Ledger(g.slots[sys.v.infos[r].slot := Leaving(t)], g.infos - {r})
  }

  lemma DeadSlots(sys: Sys, g: Ledger, t: Tid, r: Ref)
    requires SlotInv(sys, g) && t in sys.threads && r in sys.v.infos && sys.v.infos[r].refs == 1
    requires r in g.infos && g.infos[r].Published?
    ensures SlotInv(AfterDrop(sys, t, r), DeadLedger(sys, g, t, r))
  {
    hide Slotted;
    var g', sys' := DeadLedger(sys, g, t, r), AfterDrop(sys, t, r);
    var th, th' := sys.threads[t], sys'.threads[t];
    var s := sys.v.infos[r].slot;
    RelIrrelevant(th, th'.rel);
    assert ThreadSlots(t, th, g.slots);
    assert ThreadSlots(t, th', g'.slots);
    forall q | q in g'.slots ensures OwnerHolds(sys', g', q) {
      assert OwnerHolds(sys, g, q);
      assert th'.rel == [s] + th.rel;
    }
  }

  lemma DeadTables(sys: Sys, g: Ledger, t: Tid, r: Ref)
    requires InfoInv(sys, g) && r in sys.v.infos && t in sys.threads && sys.v.infos[r].refs == 1
    requires g.infos[r].Published? && forall h :: !Holds(sys, r, h)
    ensures var sys', g' := AfterDrop(sys, t, r), DeadLedger(sys, g, t, r);
            TablesOk(sys'.v, g'.infos) && KeepersOk(sys'.threads, g'.infos)
  {
    hide Held, Pending, Slotted, ThreadInfos;
    var sys' := AfterDrop(sys, t, r);
    RelIrrelevant(sys.threads[t], sys'.threads[t].rel);
    assert forall k :: k in sys.v.byBlock ==> !Holds(sys, r, ByKey(k));
    KeepersKept(sys.threads, g.infos, g.infos - {r}, t, sys'.threads[t]);
  }

  lemma DeadInfos(sys: Sys, g: Ledger, t: Tid, r: Ref)
    requires InfoInv(sys, g) && r in sys.v.infos && t in sys.threads && sys.v.infos[r].refs == 1
    requires g.infos[r].Published? && forall h :: !Holds(sys, r, h)
    ensures InfoInv(AfterDrop(sys, t, r), DeadLedger(sys, g, t, r))
  {
    hide Held, Pending, Slotted, TablesOk, KeepersOk;
    var g', sys' := DeadLedger(sys, g, t, r), AfterDrop(sys, t, r);
    RelIrrelevant(sys.threads[t], sys'.threads[t].rel);
    DeadTables(sys, g, t, r);
    forall u | u in sys'.threads ensures ThreadInfos(sys'.v, u, sys'.threads[u], g'.infos) {
      var th := sys.threads[u];
      assert ThreadInfos(sys.v, u, th, g.infos);
      assert forall i: nat :: Held(th, i) ==> !Holds(sys, r, ByEntry(u, i));
    }
  }

  lemma DeadRefs(sys: Sys, t: Tid, r: Ref)
    requires RefDebt(sys, r) && t in sys.threads && sys.v.infos[r].refs == 1
    ensures RefInv(AfterDrop(sys, t, r))
  {
    hide Held;
    var sys' := AfterDrop(sys, t, r);
    RelIrrelevant(sys.threads[t], sys'.threads[t].rel);
    forall r' ensures Holders(sys', r') == Holders(sys, r') {
      SameHolders(sys, sys', r');
    }
  }

  lemma DeadContents(H: Block -> Digest, U: iset<Block>, sys: Sys, g: Ledger, t: Tid, r: Ref)
    requires ContentInv(H, U, sys, g) && r in sys.v.infos && t in sys.threads && sys.v.infos[r].refs == 1
    ensures ContentInv(H, U, AfterDrop(sys, t, r), DeadLedger(sys, g, t, r))
  {
    hide Flushed, BlockAt, InFile, ThreadContents;
    var sys' := AfterDrop(sys, t, r);
    RelIrrelevant(sys.threads[t], sys'.threads[t].rel);
    forall u | u in sys'.threads ensures ThreadContents(H, U, sys'.v, sys'.threads[u]) {
      ThreadContentsKept(H, U, sys.v, sys'.v, sys.threads[u], sys'.threads[u]);
    }
  }

  lemma LivingRefs(sys: Sys, t: Tid, r: Ref)
    requires RefDebt(sys, r) && t in sys.threads && sys.v.infos[r].refs != 1
    ensures RefInv(AfterDrop(sys, t, r))
  {
    hide Held;
    var sys' := AfterDrop(sys, t, r);
    assert sys'.threads[t] == sys.threads[t];
    forall r' ensures Holders(sys', r') == Holders(sys, r') {
      SameHolders(sys, sys', r');
    }
  }

  lemma LivingStep(sys: Sys, t: Tid, r: Ref)
    requires r in sys.v.infos && t in sys.threads && sys.v.infos[r].refs != 1
    ensures var sys' := AfterDrop(sys, t, r);
            && sys'.threads == sys.threads
            && SameSlots(sys.v.infos, sys'.v.infos) && SameHashes(sys.v.infos, sys'.v.infos)
            && sys'.v == sys.v.(infos := sys'.v.infos)
  {
  }

  lemma DropKeeps(H: Block -> Digest, U: iset<Block>, sys: Sys, g: Ledger, t: Tid, r: Ref) returns (g': Ledger)
    requires InvDebt(H, U, sys, g, r) && t in sys.threads
    ensures SlotInv(AfterDrop(sys, t, r), g') && InfoInv(AfterDrop(sys, t, r), g')
    ensures RefInv(AfterDrop(sys, t, r)) && ContentInv(H, U, AfterDrop(sys, t, r), g')
  {
    hide SlotInv, ContentInv, Drop, Held, Pending, Slotted, Flushed, ThreadInfos, Holders, RefInv;
    var sys' := AfterDrop(sys, t, r);
    if sys.v.infos[r].refs == 1 {
      g' := DeadLedger(sys, g, t, r);
      DeadIsFree(sys, g, r);
      DeadSlots(sys, g, t, r);
      DeadInfos(sys, g, t, r);
      DeadRefs(sys, t, r);
      DeadContents(H, U, sys, g, t, r);
    } else {
      g' := g;
      LivingRefs(sys, t, r);
      LivingStep(sys, t, r);
      SlotsUnaffected(sys, sys', g, t);
      InfosUnaffected(sys, sys', g, t);
      ContentsUnaffected(H, U, sys, sys', g, t);
    }
  }
}
