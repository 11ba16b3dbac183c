/** Pass 3, first loop: publishing a pending info, or losing the race to do so. */
module Publication {
  import opened MasterFile
  import opened Volumes
  import opened Protocol
  import opened Invariant
  import opened Preservation
  import opened Actions
  import opened Commits

  predicate AtMiss(sys: Sys, t: Tid) {
    && IsAt(sys, t, Publishing) && sys.threads[t].pos < |sys.threads[t].plan|
    && sys.threads[t].plan[sys.threads[t].pos].kind.Miss?
  }

  function Current(sys: Sys, t: Tid): Entry
    requires AtMiss(sys, t)
  {
    sys.threads[t].plan[sys.threads[t].pos]
  }

  /** Another thread has published the same hash since Pass 1. */
  predicate LosesRace(sys: Sys, t: Tid) {
    AtMiss(sys, t) && Current(sys, t).hash in sys.v.byHash
  }

  /** A second block of the same request was deduplicated against the info that is
      about to be discarded. */
  predicate HasTwin(sys: Sys, t: Tid) {
    AtMiss(sys, t) &&
    exists j :: 0 <= j < |sys.threads[t].plan| && j != sys.threads[t].pos &&
        sys.threads[t].plan[j].info == Current(sys, t).info
  }

  /** The one situation in which the code leaves a dangling reference. */
  predicate Safe(sys: Sys, a: Action) {
    a.PublishOne? ==> !(LosesRace(sys, a.t) && HasTwin(sys, a.t))
  }

  ghost predicate PublishPre(sys: Sys, g: Ledger, t: Tid) {
    && AtMiss(sys, t)
    && Current(sys, t).info in sys.v.infos && Current(sys, t).info in g.infos
    && sys.v.infos[Current(sys, t).info].hash == Current(sys, t).hash
    && sys.v.infos[Current(sys, t).info].slot == Current(sys, t).slot
    && g.infos[Current(sys, t).info] == PendingAt(t, sys.threads[t].pos)
    && sys.threads[t].taken == []
  }

  lemma PublishPlan(th: Thread, e: Entry, rel: seq<nat>)
    requires th.pc.Publishing? && th.pos < |th.plan| && th.plan[th.pos].kind.Miss?
    requires e == th.plan[th.pos].(info := e.info)
    ensures var th' := th.(plan := th.plan[th.pos := e], pos := th.pos + 1, rel := rel);
            && Slotted(th, th.pos) && Flushed(th, th.pos)
            && (forall i: nat :: Held(th', i) <==> Held(th, i))
            && (forall i: nat :: Held(th, i) <==> i < |th.plan|)
            && (forall i: nat :: Pending(th', i) <==> Pending(th, i) && i != th.pos)
            && (forall i: nat :: Slotted(th', i) <==> Slotted(th, i) && i != th.pos)
            && (forall i: nat :: Flushed(th', i) ==> Flushed(th, i))
            && (forall i :: 0 <= i < |th.plan| && i != th.pos ==> th'.plan[i] == th.plan[i])
            && ContentsAlike(th, th')
  {
  }

  // ---- Winning ----

  function AfterWin(sys: Sys, t: Tid): Sys
    requires AtMiss(sys, t)
  {
    var th, e := sys.threads[t], Current(sys, t);
    Put(sys, t, sys.v.(byHash := sys.v.byHash[e.hash := e.info]), th.(plan := th.plan[th.pos := e], pos := th.pos + 1))
  }

  function WinLedger(sys: Sys, g: Ledger, t: Tid): Ledger
    requires AtMiss(sys, t)
  {
    Ledger(g.slots[Current(sys, t).slot := Live(Current(sys, t).info)], g.infos[Current(sys, t).info := Published])
  }

  lemma WinSlots(sys: Sys, g: Ledger, t: Tid)
    requires SlotInv(sys, g) && PublishPre(sys, g, t)
    ensures SlotInv(AfterWin(sys, t), WinLedger(sys, g, t))
  {
    hide Slotted, NoDup, ContentsAlike, Held, Pending, Flushed;
    var sys', g' := AfterWin(sys, t), WinLedger(sys, g, t);
    var th, th' := sys.threads[t], sys'.threads[t];
    PublishPlan(th, th.plan[th.pos], th.rel);
    assert ThreadSlots(t, th, g.slots);
    forall q | q in g'.slots && !Foreign(g'.slots[q], t) ensures OwnerHolds(sys', g', q) {
      assert OwnerHolds(sys, g, q);
    }
    SlotsFrame(sys, sys', g, g', t);
  }

  lemma WinThread(v: Volume, v': Volume, t: Tid, th: Thread, keep: map<Ref, Keeper>, r: Ref)
    requires ThreadInfos(v, t, th, keep) && th.pc.Publishing? && th.pos < |th.plan| && th.plan[th.pos].kind.Miss?
    requires r == th.plan[th.pos].info && v'.infos == v.infos
    ensures ThreadInfos(v', t, th.(plan := th.plan[th.pos := th.plan[th.pos]], pos := th.pos + 1), keep[r := Published])
  {
    hide Held, Pending, Slotted, Flushed, ContentsAlike;
    PublishPlan(th, th.plan[th.pos], th.rel);
    assert Pending(th, th.pos);
  }

  lemma WinOther(v: Volume, v': Volume, u: Tid, th: Thread, keep: map<Ref, Keeper>, r: Ref)
    requires ThreadInfos(v, u, th, keep) && r in keep && keep[r].PendingAt? && keep[r].t != u && v'.infos == v.infos
    ensures ThreadInfos(v', u, th, keep[r := Published])
  {
    hide Held, Pending, Slotted;
  }

  lemma PublishTables(v: Volume, keep: map<Ref, Keeper>, h: Digest, r: Ref)
    requires TablesOk(v, keep) && r in v.infos && v.infos[r].hash == h && h !in v.byHash
    ensures TablesOk(v.(byHash := v.byHash[h := r]), keep[r := Published])
  {
  }

  lemma WinTables(sys: Sys, g: Ledger, t: Tid)
    requires InfoInv(sys, g) && PublishPre(sys, g, t) && !LosesRace(sys, t)
    ensures var sys', g' := AfterWin(sys, t), WinLedger(sys, g, t);
            TablesOk(sys'.v, g'.infos) && KeepersOk(sys'.threads, g'.infos)
  {
    hide Held, Pending, Slotted, Flushed, ThreadsOk, ContentsAlike;
    hide TablesOk;
    var th := sys.threads[t];
    PublishPlan(th, th.plan[th.pos], th.rel);
    PublishTables(sys.v, g.infos, Current(sys, t).hash, Current(sys, t).info);
    KeepersKept(sys.threads, g.infos, WinLedger(sys, g, t).infos, t, AfterWin(sys, t).threads[t]);
  }

  lemma WinInfos(sys: Sys, g: Ledger, t: Tid)
    requires InfoInv(sys, g) && PublishPre(sys, g, t) && !LosesRace(sys, t)
    ensures InfoInv(AfterWin(sys, t), WinLedger(sys, g, t))
  {
    hide Held, Pending, Slotted, Flushed, ContentsAlike, ThreadInfos, TablesOk, KeepersOk;
    var sys', g' := AfterWin(sys, t), WinLedger(sys, g, t);
    var th, r := sys.threads[t], Current(sys, t).info;
    WinTables(sys, g, t);
    WinThread(sys.v, sys'.v, t, th, g.infos, r);
    forall u | u in sys'.threads && u != t ensures ThreadInfos(sys'.v, u, sys'.threads[u], g'.infos) {
      WinOther(sys.v, sys'.v, u, sys.threads[u], g.infos, r);
    }
  }

  lemma WinContents(H: Block -> Digest, U: iset<Block>, sys: Sys, g: Ledger, t: Tid)
    requires ContentInv(H, U, sys, g) && PublishPre(sys, g, t)
    ensures ContentInv(H, U, AfterWin(sys, t), WinLedger(sys, g, t))
  {
    hide Held, Pending, Slotted, Flushed, BlockAt, InFile;
    var sys' := AfterWin(sys, t);
    var th, th', i := sys.threads[t], sys'.threads[t], sys.threads[t].pos;
    PublishPlan(th, th.plan[i], th.rel);
    assert ThreadContents(H, U, sys.v, th);
    assert StoredOk(H, U, sys.v, sys.v.infos[th.plan[i].info]) by {
      assert th.plan[i].payload == th.blocks[i];
      assert Flushed(th, i);
    }
    forall u | u in sys'.threads ensures ThreadContents(H, U, sys'.v, sys'.threads[u]) {
      ThreadContentsKept(H, U, sys.v, sys'.v, sys.threads[u], sys'.threads[u]);
    }
  }

  // ---- Losing ----

  function AfterLoss(sys: Sys, t: Tid): Sys
    requires LosesRace(sys, t)
  {
    var th, e := sys.threads[t], Current(sys, t);
    var winner := sys.v.byHash[e.hash];
    Put(sys, t, Retain(sys.v.(infos := sys.v.infos - {e.info}), winner),
        th.(plan := th.plan[th.pos := e.(info := winner)], pos := th.pos + 1, rel := [e.slot] + th.rel))
  }

  function LossLedger(sys: Sys, g: Ledger, t: Tid): Ledger
    requires AtMiss(sys, t)
  {
    Ledger(g.slots[Current(sys, t).slot := Leaving(t)], g.infos - {Current(sys, t).info})
  }

  lemma LossVolume(sys: Sys, g: Ledger, t: Tid)
    requires InfoInv(sys, g) && PublishPre(sys, g, t) && LosesRace(sys, t)
    ensures var v', p, winner := AfterLoss(sys, t).v, Current(sys, t).info, sys.v.byHash[Current(sys, t).hash];
            && winner in sys.v.infos && winner != p && winner in g.infos && g.infos[winner].Published?
            && sys.v.infos[winner].hash == Current(sys, t).hash
            && SameSlots(sys.v.infos - {p}, v'.infos) && SameHashes(sys.v.infos - {p}, v'.infos)
            && v' == sys.v.(infos := v'.infos)
            && (forall r :: r in v'.infos ==> v'.infos[r].refs == sys.v.infos[r].refs + if r == winner then 1 else 0)
  {
    hide Held, Pending, Slotted, ThreadInfos;
  }

  lemma LossSlots(sys: Sys, g: Ledger, t: Tid)
    requires SlotInv(sys, g) && PublishPre(sys, g, t) && LosesRace(sys, t)
    requires SameSlots(sys.v.infos - {Current(sys, t).info}, AfterLoss(sys, t).v.infos)
    ensures SlotInv(AfterLoss(sys, t), LossLedger(sys, g, t))
  {
    hide Slotted, NoDup, ContentsAlike, Held, Pending;
    var sys', g' := AfterLoss(sys, t), LossLedger(sys, g, t);
    var th, th', e := sys.threads[t], sys'.threads[t], Current(sys, t);
    PublishPlan(th, th'.plan[th.pos], th'.rel);
    assert ThreadSlots(t, th, g.slots);
    ConsOwned(e.slot, th.rel, g.slots, Leaving(t));
    forall q | q in g'.slots && !Foreign(g'.slots[q], t) ensures OwnerHolds(sys', g', q) {
      assert OwnerHolds(sys, g, q);
    }
    SlotsFrame(sys, sys', g, g', t);
  }

  lemma LossThread(sys: Sys, g: Ledger, t: Tid)
    requires PublishPre(sys, g, t) && LosesRace(sys, t) && !HasTwin(sys, t)
    requires ThreadInfos(sys.v, t, sys.threads[t], g.infos)
    requires var winner := sys.v.byHash[Current(sys, t).hash];
             winner in sys.v.infos && winner != Current(sys, t).info && winner in g.infos &&
                 g.infos[winner].Published? &&
             sys.v.infos[winner].hash == Current(sys, t).hash
    requires SameSlots(sys.v.infos - {Current(sys, t).info}, AfterLoss(sys, t).v.infos)
    requires SameHashes(sys.v.infos - {Current(sys, t).info}, AfterLoss(sys, t).v.infos)
    ensures ThreadInfos(AfterLoss(sys, t).v, t, AfterLoss(sys, t).threads[t], LossLedger(sys, g, t).infos)
  {
    hide Held, Pending, Slotted, Flushed, ContentsAlike, Retain;
    var th, th' := sys.threads[t], AfterLoss(sys, t).threads[t];
    PublishPlan(th, th'.plan[th.pos], th'.rel);
  }

  lemma LossOther(sys: Sys, g: Ledger, t: Tid, u: Tid)
    requires InfoInv(sys, g) && PublishPre(sys, g, t) && LosesRace(sys, t) && u in sys.threads && u != t
    ensures ThreadInfos(AfterLoss(sys, t).v, u, AfterLoss(sys, t).threads[u], LossLedger(sys, g, t).infos)
  {
    hide Held, Pending, Slotted, InfoInv, ThreadInfos, Retain;
    var p, th := Current(sys, t).info, sys.threads[u];
    var v1 := sys.v.(infos := sys.v.infos - {p});
    LossVolume(sys, g, t);
    forall i: nat | Held(th, i) ensures th.plan[i].info != p {
      HeldInfo(sys, g, u, i);
    }
    TheThreadInfos(sys, g, u);
    ThreadInfosShrink(sys.v, v1, u, th, th, g.infos, p);
    ThreadInfosKept(v1, AfterLoss(sys, t).v, u, th, th, g.infos - {p});
  }

  lemma LossTables(sys: Sys, g: Ledger, t: Tid)
    requires InfoInv(sys, g) && PublishPre(sys, g, t) && LosesRace(sys, t)
    ensures var sys', g' := AfterLoss(sys, t), LossLedger(sys, g, t);
            TablesOk(sys'.v, g'.infos) && KeepersOk(sys'.threads, g'.infos)
  {
    hide Held, Pending, Slotted, ThreadsOk, ContentsAlike, Retain;
    var sys', th := AfterLoss(sys, t), sys.threads[t];
    PublishPlan(th, sys'.threads[t].plan[th.pos], sys'.threads[t].rel);
    LossVolume(sys, g, t);
    ForgetTables(sys.v, sys'.v, g.infos, Current(sys, t).info);
    KeepersKept(sys.threads, g.infos, g.infos - {Current(sys, t).info}, t, sys'.threads[t]);
  }

  lemma LossInfos(sys: Sys, g: Ledger, t: Tid)
    requires InfoInv(sys, g) && PublishPre(sys, g, t) && LosesRace(sys, t) && !HasTwin(sys, t)
    ensures InfoInv(AfterLoss(sys, t), LossLedger(sys, g, t))
  {
    hide Held, Pending, Slotted, ContentsAlike, ThreadInfos, Retain, HasTwin, TablesOk, KeepersOk;
    var th, th' := sys.threads[t], AfterLoss(sys, t).threads[t];
    LossVolume(sys, g, t);
    LossTables(sys, g, t);
    LossThread(sys, g, t);
    forall u | u in sys.threads && u != t {
      LossOther(sys, g, t, u);
    }
  }

  lemma LossHolders(sys: Sys, t: Tid, r: Ref)
    requires LosesRace(sys, t) && r != Current(sys, t).info
    ensures |Holders(AfterLoss(sys, t), r)| == |Holders(sys, r)| + if r ==
              sys.v.byHash[Current(sys, t).hash] then 1 else 0
  {
    hide Held, Pending, Slotted, ContentsAlike, Retain;
    var sys' := AfterLoss(sys, t);
    var th, th' := sys.threads[t], sys'.threads[t];
    PublishPlan(th, th'.plan[th.pos], th'.rel);
    LossByBlock(sys, t);
    if r == sys.v.byHash[Current(sys, t).hash] {
      MoreHolders(sys, sys', r, ByEntry(t, th.pos));
    } else {
      SameHolders(sys, sys', r);
    }
  }

  lemma LossByBlock(sys: Sys, t: Tid)
    requires LosesRace(sys, t)
    ensures AfterLoss(sys, t).v.byBlock == sys.v.byBlock
  {
  }

  lemma LossRefs(sys: Sys, g: Ledger, t: Tid)
    requires RefInv(sys) && InfoInv(sys, g) && PublishPre(sys, g, t) && LosesRace(sys, t)
    ensures RefInv(AfterLoss(sys, t))
  {
    hide Holds, InfoInv, AfterLoss;
    var sys', p := AfterLoss(sys, t), Current(sys, t).info;
    LossVolume(sys, g, t);
    forall r | r in sys'.v.infos ensures sys'.v.infos[r].refs == |Holders(sys', r)| {
      LossHolders(sys, t, r);
    }
  }

  lemma LossContents(H: Block -> Digest, U: iset<Block>, sys: Sys, g: Ledger, t: Tid)
    requires ContentInv(H, U, sys, g) && PublishPre(sys, g, t) && LosesRace(sys, t)
    requires SameSlots(sys.v.infos - {Current(sys, t).info}, AfterLoss(sys, t).v.infos)
    requires SameHashes(sys.v.infos - {Current(sys, t).info}, AfterLoss(sys, t).v.infos)
    ensures ContentInv(H, U, AfterLoss(sys, t), LossLedger(sys, g, t))
  {
    hide Held, Pending, Slotted, Flushed, BlockAt, InFile, ThreadContents;
    var sys' := AfterLoss(sys, t);
    var th, th' := sys.threads[t], sys'.threads[t];
    PublishPlan(th, th'.plan[th.pos], th'.rel);
    forall u | u in sys'.threads ensures ThreadContents(H, U, sys'.v, sys'.threads[u]) {
      ThreadContentsKept(H, U, sys.v, sys'.v, sys.threads[u], sys'.threads[u]);
    }
  }

  lemma PublishKeeps(H: Block -> Digest, U: iset<Block>, sys: Sys, g: Ledger, t: Tid) returns (g': Ledger)
    requires Inv(H, U, sys, g) && Enabled(sys, PublishOne(t)) && Safe(sys, PublishOne(t))
    ensures Inv(H, U, Apply(H, sys, PublishOne(t)), g')
  {
    hide SlotInv, InfoInv, RefInv, ContentInv, Held, Flushed, Retain, HasTwin, Indexed;
    var sys' := Apply(H, sys, PublishOne(t));
    var th := sys.threads[t];
    if th.plan[th.pos].kind.Hit? {
      g' := g;
      PublishHit(th);
      QuietStep(H, U, sys, sys', g, t);
    } else {
      PendingIsUnpublished(sys, g, t, th.pos);
      if LosesRace(sys, t) {
        g' := LossLedger(sys, g, t);
        LossVolume(sys, g, t);
        LossSlots(sys, g, t);
        LossInfos(sys, g, t);
        LossRefs(sys, g, t);
        LossContents(H, U, sys, g, t);
      } else {
        g' := WinLedger(sys, g, t);
        PublishPlan(th, th.plan[th.pos], th.rel);
        WinSlots(sys, g, t);
        WinInfos(sys, g, t);
        RefsUnaffected(sys, sys', t);
        WinContents(H, U, sys, g, t);
      }
    }
  }

  lemma PublishHit(th: Thread)
    requires th.pc.Publishing? && th.pos < |th.plan| && th.plan[th.pos].kind.Hit?
    ensures var th' := th.(plan := th.plan[th.pos := th.plan[th.pos]], pos := th.pos + 1);
            SlotsAlike(th, th') && InfosAlike(th, th') && HeldAlike(th, th') && ContentsAlike(th, th')
  {
  }
}
