/** Publication, mapping, rollback and removal keep the invariant. */
module Commits {
  import opened MasterFile
  import opened Volumes
  import opened Protocol
  import opened Invariant
  import opened Preservation
  import opened Moves
  import opened Actions

  // ---- Giving slots back ----

  function GiveBackLedger(g: Ledger, t: Tid): Ledger {
    g.(slots := map q | q in g.slots :: if g.slots[q] == Leaving(t) then Free else g.slots[q])
  }

  lemma JoinOwned(a: seq<nat>, b: seq<nat>, own: map<nat, Owner>, own': map<nat, Owner>, t: Tid)
    requires ListOwned(a, own, Leaving(t)) && ListOwned(b, own, Free)
    requires forall q :: q in own ==> q in own' && own'[q] == if own[q] == Leaving(t) then Free else own[q]
    ensures ListOwned(a + b, own', Free)
  {
    assert forall j :: 0 <= j < |a| ==> (a + b)[j] == a[j];
    assert forall j :: |a| <= j < |a| + |b| ==> (a + b)[j] == b[j - |a|];
  }

  lemma GiveBackSlots(H: Block -> Digest, sys: Sys, g: Ledger, t: Tid)
    requires SlotInv(sys, g) && Enabled(sys, GiveBack(t)) && Shape(sys.threads[t])
    ensures SlotInv(Apply(H, sys, GiveBack(t)), GiveBackLedger(g, t))
  {
    hide Apply, Enabled, Slotted, NoDup, Shape, OwnerHolds, ListOwned;
    var sys', g' := Apply(H, sys, GiveBack(t)), GiveBackLedger(g, t);
    GiveBackShape(H, sys, t);
    assert ThreadSlots(t, sys.threads[t], g.slots);
    JoinOwned(sys.threads[t].rel, sys.v.free, g.slots, g'.slots, t);
    GiveBackThread(sys.threads[t], sys'.threads[t], g, t);
    forall q | q in g'.slots && !Foreign(g'.slots[q], t) ensures OwnerHolds(sys', g', q) {
      GiveBackOwner(sys, sys', g, t, q);
    }
    SlotsFrame(sys, sys', g, g', t);
  }

  /** What the step does to the state, whichever of the three lists is given back. */
  lemma GiveBackShape(H: Block -> Digest, sys: Sys, t: Tid)
    requires Enabled(sys, GiveBack(t)) && Shape(sys.threads[t])
    ensures t in sys.threads && StepOf(sys, Apply(H, sys, GiveBack(t)), t)
    ensures var sys', th := Apply(H, sys, GiveBack(t)), sys.threads[t];
            && sys'.v == sys.v.(free := th.rel + sys.v.free) && GivenBack(th, sys'.threads[t])
  {
    hide Slotted, InfosAlike, HeldAlike, ContentsAlike;
    GiveBackAlike(sys.threads[t], Apply(H, sys, GiveBack(t)).threads[t]);
  }

  ghost predicate GivenBack(th: Thread, th': Thread) {
    && th.taken == [] && th'.taken == [] && th'.rel == []
    && forall i: nat ::
         (Slotted(th', i) <==> Slotted(th, i)) && (Slotted(th, i) ==> th'.plan[i].slot == th.plan[i].slot)
  }

  lemma GiveBackThread(th: Thread, th': Thread, g: Ledger, t: Tid)
    requires ThreadSlots(t, th, g.slots) && GivenBack(th, th')
    ensures ThreadSlots(t, th', GiveBackLedger(g, t).slots)
  {
    hide Slotted;
  }

  lemma GiveBackOwner(sys: Sys, sys': Sys, g: Ledger, t: Tid, q: nat)
    requires SlotInv(sys, g) && t in sys.threads && StepOf(sys, sys', t) && q in g.slots
    requires sys'.v == sys.v.(free := sys.threads[t].rel + sys.v.free) && GivenBack(sys.threads[t], sys'.threads[t])
    requires !Foreign(GiveBackLedger(g, t).slots[q], t)
    ensures OwnerHolds(sys', GiveBackLedger(g, t), q)
  {
    hide Slotted, ListOwned;
    assert OwnerHolds(sys, g, q);
  }

  lemma GiveBackAlike(th: Thread, th': Thread)
    requires Shape(th)
    requires || (th.pc.Releasing? && th' == IDLE)
             || (th.pc.HitReleasing? && th' == th.(pc := Reverting, rel := []))
             || (th.pc.RemReleasing? && th' == th.(pc := Resizing, rel := []))
    ensures Shape(th') && InfosAlike(th, th') && HeldAlike(th, th') && ContentsAlike(th, th') &&
            th'.taken == th.taken == [] && th'.rel == []
    ensures forall i: nat ::
              (Slotted(th', i) <==> Slotted(th, i)) && (Slotted(th, i) ==> th'.plan[i].slot == th.plan[i].slot)
  {
  }

  lemma GiveBackKeeps(H: Block -> Digest, U: iset<Block>, sys: Sys, g: Ledger, t: Tid) returns (g': Ledger)
    requires Inv(H, U, sys, g) && Enabled(sys, GiveBack(t))
    ensures Inv(H, U, Apply(H, sys, GiveBack(t)), g')
  {
    hide SlotInv, InfoInv, RefInv, ContentInv, Shape, InfosAlike, HeldAlike, ContentsAlike;
    var sys' := Apply(H, sys, GiveBack(t));
    g' := GiveBackLedger(g, t);
    GiveBackAlike(sys.threads[t], sys'.threads[t]);
    GiveBackSlots(H, sys, g, t);
    InfosUnaffected(sys, sys', g, t);
    RefsUnaffected(sys, sys', t);
    ContentsUnaffected(H, U, sys, sys', g, t);
    SameKeepers(H, U, sys', g, g');
  }

  // ---- Unmapping a block ----

  /** Unmapping k leaves the count of its info one too high until it is dropped. */
  lemma UnmapDebt(sys: Sys, k: Key)
    requires RefInv(sys) && k in sys.v.byBlock && sys.v.byBlock[k] in sys.v.infos
    ensures RefDebt(sys.(v := sys.v.(byBlock := sys.v.byBlock - {k})), sys.v.byBlock[k])
  {
    hide Held;
    var sys1, r0 := sys.(v := sys.v.(byBlock := sys.v.byBlock - {k})), sys.v.byBlock[k];
    forall r | r in sys.v.infos
      ensures |Holders(sys1, r)| == |Holders(sys, r)| - if r == r0 then 1 else 0
    {
      if r == r0 {
        FewerHolders(sys, sys1, r, ByKey(k));
      } else {
        SameHolders(sys, sys1, r);
      }
    }
  }

  function AfterUnmap(sys: Sys, t: Tid, k: Key): Sys
    requires t in sys.threads
  {
    var (v', rel) := RemoveBlock(sys.v, k.path, k.blk, sys.threads[t].rel);
    Put(sys, t, v', sys.threads[t].(rel := rel))
  }

  ghost predicate CoreInv(H: Block -> Digest, U: iset<Block>, sys: Sys, g: Ledger) {
    SlotInv(sys, g) && InfoInv(sys, g) && RefInv(sys) && ContentInv(H, U, sys, g)
  }

  lemma MappedInfo(sys: Sys, g: Ledger, k: Key)
    requires InfoInv(sys, g) && k in sys.v.byBlock
    ensures sys.v.byBlock[k] in sys.v.infos
  {
    hide ThreadInfos, Pending, Indexed;
  }

  lemma UnmapKeeps(H: Block -> Digest, U: iset<Block>, sys: Sys, g: Ledger, t: Tid, k: Key) returns (g': Ledger)
    requires CoreInv(H, U, sys, g) && t in sys.threads
    ensures CoreInv(H, U, AfterUnmap(sys, t, k), g')
  {
    hide SlotInv, InfoInv, RefInv, ContentInv, RefDebt, Drop;
    g' := g;
    if k in sys.v.byBlock {
      var sys1, r := sys.(v := sys.v.(byBlock := sys.v.byBlock - {k})), sys.v.byBlock[k];
      MappedInfo(sys, g, k);
      UnmapDebt(sys, k);
      SlotsUnaffected(sys, sys1, g, t);
      InfosUnaffected(sys, sys1, g, t);
      ContentsUnaffected(H, U, sys, sys1, g, t);
      g' := DropKeeps(H, U, sys1, g, t, r);
    } else {
      assert AfterUnmap(sys, t, k) == sys;
    }
  }

  lemma RemoveKeeps(H: Block -> Digest, U: iset<Block>, sys: Sys, g: Ledger, t: Tid) returns (g': Ledger)
    requires Inv(H, U, sys, g) && Enabled(sys, RemoveOne(t))
    ensures Inv(H, U, Apply(H, sys, RemoveOne(t)), g')
  {
    hide SlotInv, InfoInv, RefInv, ContentInv, RemoveBlock, Apply, AfterUnmap;
    var th := sys.threads[t];
    var sys1 := Put(sys, t, sys.v, th.(pos := th.pos + 1));
    SkipBlock(H, U, sys, g, t);
    g' := UnmapKeeps(H, U, sys1, g, t, Key(th.path, th.pos));
    RemoveIsUnmap(H, sys, t);
  }

  lemma RemoveIsUnmap(H: Block -> Digest, sys: Sys, t: Tid)
    requires Enabled(sys, RemoveOne(t)) && ShapeInv(sys)
    ensures var th := sys.threads[t];
            && AfterUnmap(Put(sys, t, sys.v, th.(pos := th.pos + 1)), t, Key(th.path, th.pos)) ==
                 Apply(H, sys, RemoveOne(t))
            && ShapeInv(Apply(H, sys, RemoveOne(t)))
  {
  }

  lemma SkipBlock(H: Block -> Digest, U: iset<Block>, sys: Sys, g: Ledger, t: Tid)
    requires Inv(H, U, sys, g) && IsAt(sys, t, Removing)
    ensures Inv(H, U, Put(sys, t, sys.v, sys.threads[t].(pos := sys.threads[t].pos + 1)), g)
  {
    hide SlotInv, InfoInv, RefInv, ContentInv;
    QuietStep(H, U, sys, Put(sys, t, sys.v, sys.threads[t].(pos := sys.threads[t].pos + 1)), g, t);
  }

  // ---- Mapping a block ----

  function AfterMap(sys: Sys, t: Tid, k: Key): Sys
    requires IsAt(sys, t, Mapping) && sys.threads[t].pos < |sys.threads[t].plan|
  {
    var th := sys.threads[t];
    Put(sys, t, sys.v.(byBlock := sys.v.byBlock[k := th.plan[th.pos].info]), th.(pos := th.pos + 1))
  }

  lemma MapPlan(th: Thread)
    requires th.pc.Mapping? && th.pos < |th.plan|
    ensures var th' := th.(pos := th.pos + 1);
            && Held(th, th.pos)
            && (forall i: nat :: Held(th', i) <==> Held(th, i) && i != th.pos)
            && (forall i: nat :: !Pending(th, i) && !Pending(th', i))
            && SlotsAlike(th, th') && InfosAlike(th, th') && ContentsAlike(th, th')
  {
  }

  lemma MapRefs(sys: Sys, t: Tid, k: Key)
    requires RefInv(sys) && IsAt(sys, t, Mapping) && sys.threads[t].pos < |sys.threads[t].plan| && k !in sys.v.byBlock
    ensures RefInv(AfterMap(sys, t, k))
  {
    hide Held, Pending, Slotted, Flushed;
    var th := sys.threads[t];
    var sys', r0 := AfterMap(sys, t, k), th.plan[th.pos].info;
    MapPlan(th);
    forall r | r in sys.v.infos ensures |Holders(sys', r)| == |Holders(sys, r)| {
      if r == r0 {
        SwapHolders(sys, sys', r, ByEntry(t, th.pos), ByKey(k));
      } else {
        SameHolders(sys, sys', r);
      }
    }
  }

  lemma MapInfos(sys: Sys, g: Ledger, t: Tid, k: Key)
    requires InfoInv(sys, g) && IsAt(sys, t, Mapping) && sys.threads[t].pos < |sys.threads[t].plan|
    ensures InfoInv(AfterMap(sys, t, k), g)
  {
    hide Held, Pending, Slotted, Indexed;
    var th := sys.threads[t];
    MapPlan(th);
    assert ThreadInfos(sys.v, t, th, g.infos);
    ThreadInfosKept(sys.v, AfterMap(sys, t, k).v, t, th, AfterMap(sys, t, k).threads[t], g.infos);
    InfosFrame(sys, AfterMap(sys, t, k), g, t);
  }

  lemma MapKeeps(H: Block -> Digest, U: iset<Block>, sys: Sys, g: Ledger, t: Tid) returns (g': Ledger)
    requires Inv(H, U, sys, g) && Enabled(sys, MapOne(t))
    ensures Inv(H, U, Apply(H, sys, MapOne(t)), g')
  {
    hide SlotInv, InfoInv, RefInv, ContentInv, RemoveBlock, MapBlock, Held, Pending, Slotted, Flushed;
    var th := sys.threads[t];
    var k := Key(th.path, th.plan[th.pos].blk);
    g' := UnmapKeeps(H, U, sys, g, t, k);
    var sys1 := AfterUnmap(sys, t, k);
    var sys2 := AfterMap(sys1, t, k);
    UnmapThenMap(sys.v, th.path, th.plan[th.pos], th.rel);
    assert Apply(H, sys, MapOne(t)) == sys2;
    MapPlan(sys1.threads[t]);
    SlotsUnaffected(sys1, sys2, g', t);
    MapInfos(sys1, g', t, k);
    MapRefs(sys1, t, k);
    ContentsUnaffected(H, U, sys1, sys2, g', t);
  }

  /** Overwriting a block is unmapping it and mapping it afresh. */
  lemma UnmapThenMap(v: Volume, path: Path, e: Entry, rel: seq<nat>)
    ensures var (v1, rel1) := RemoveBlock(v, path, e.blk, rel);
            Key(path, e.blk) !in v1.byBlock &&
            MapBlock(v, path, e, rel) == (v1.(byBlock := v1.byBlock[Key(path, e.blk) := e.info]), rel1)
  {
    var k := Key(path, e.blk);
    if k in v.byBlock {
      assert (v.byBlock - {k})[k := e.info] == v.byBlock[k := e.info];
    }
  }

  // ---- Rollback ----

  lemma UnhitPlan(th: Thread)
    requires th.pc.Unhitting? && th.pos < |th.plan|
    ensures var th' := th.(pos := th.pos + 1);
            && Held(th, th.pos)
            && (forall i: nat :: Held(th', i) <==> Held(th, i) && (i != th.pos || th.plan[i].kind.Miss?))
            && SlotsAlike(th, th') && InfosAlike(th, th') && ContentsAlike(th, th')
  {
  }

  lemma UnhitDebt(sys: Sys, t: Tid)
    requires RefInv(sys) && IsAt(sys, t, Unhitting) && sys.threads[t].pos < |sys.threads[t].plan|
    requires sys.threads[t].plan[sys.threads[t].pos].kind.Hit?
    requires sys.threads[t].plan[sys.threads[t].pos].info in sys.v.infos
    ensures RefDebt(Put(sys, t, sys.v, sys.threads[t].(pos := sys.threads[t].pos + 1)),
            sys.threads[t].plan[sys.threads[t].pos].info)
  {
    hide Held, SlotsAlike, InfosAlike, ContentsAlike;
    var th := sys.threads[t];
    var sys1, r0 := Put(sys, t, sys.v, th.(pos := th.pos + 1)), th.plan[th.pos].info;
    UnhitPlan(th);
    forall r | r in sys.v.infos
      ensures |Holders(sys1, r)| == |Holders(sys, r)| - if r == r0 then 1 else 0
    {
      if r == r0 {
        FewerHolders(sys, sys1, r, ByEntry(t, th.pos));
      } else {
        SameHolders(sys, sys1, r);
      }
    }
  }

  lemma HeldInfo(sys: Sys, g: Ledger, t: Tid, i: nat)
    requires InfoInv(sys, g) && t in sys.threads && Held(sys.threads[t], i)
    ensures var r := sys.threads[t].plan[i].info;
            && r in sys.v.infos && r in g.infos && sys.v.infos[r].hash == sys.threads[t].plan[i].hash
            && (g.infos[r].PendingAt? ==> g.infos[r].t == t)
  {
    hide Held, Pending, Slotted, Indexed;
    assert ThreadInfos(sys.v, t, sys.threads[t], g.infos);
  }

  lemma UnhitKeeps(H: Block -> Digest, U: iset<Block>, sys: Sys, g: Ledger, t: Tid) returns (g': Ledger)
    requires Inv(H, U, sys, g) && Enabled(sys, UnhitOne(t))
    ensures Inv(H, U, Apply(H, sys, UnhitOne(t)), g')
  {
    hide SlotInv, InfoInv, RefInv, ContentInv, Drop, RefDebt, Held, SlotsAlike, InfosAlike, ContentsAlike;
    var th := sys.threads[t];
    var sys1 := Put(sys, t, sys.v, th.(pos := th.pos + 1));
    UnhitPlan(th);
    SlotsUnaffected(sys, sys1, g, t);
    InfosUnaffected(sys, sys1, g, t);
    ContentsUnaffected(H, U, sys, sys1, g, t);
    if th.plan[th.pos].kind.Hit? {
      HeldInfo(sys, g, t, th.pos);
      UnhitDebt(sys, t);
      g' := DropKeeps(H, U, sys1, g, t, th.plan[th.pos].info);
      assert AfterDrop(sys1, t, th.plan[th.pos].info) == Apply(H, sys, UnhitOne(t));
    } else {
      g' := g;
      RefsUnaffected(sys, sys1, t);
    }
  }

  function AfterUnmiss(sys: Sys, t: Tid): Sys
    requires IsAt(sys, t, Unmissing) && sys.threads[t].pos < |sys.threads[t].plan|
  {
    var th := sys.threads[t];
    Put(sys, t, Unmiss(sys.v, th.plan[th.pos]), th.(pos := th.pos + 1))
  }

  ghost predicate UnmissPre(sys: Sys, g: Ledger, t: Tid) {
    && IsAt(sys, t, Unmissing) && sys.threads[t].pos < |sys.threads[t].plan|
    && sys.threads[t].plan[sys.threads[t].pos].kind.Miss?
    && sys.threads[t].plan[sys.threads[t].pos].info in g.infos
    && g.infos[sys.threads[t].plan[sys.threads[t].pos].info] == PendingAt(t, sys.threads[t].pos)
  }

  function UnmissLedger(sys: Sys, g: Ledger, t: Tid): Ledger
    requires IsAt(sys, t, Unmissing) && sys.threads[t].pos < |sys.threads[t].plan|
  {
    var e := sys.threads[t].plan[sys.threads[t].pos];
    Ledger(g.slots[e.slot := Free], g.infos - {e.info})
  }

  lemma UnmissPlan(th: Thread)
    requires th.pc.Unmissing? && th.pos < |th.plan| && th.plan[th.pos].kind.Miss?
    ensures var th' := th.(pos := th.pos + 1);
            && Slotted(th, th.pos)
            && (forall i: nat :: Held(th', i) <==> Held(th, i) && i != th.pos)
            && (forall i: nat :: Pending(th', i) <==> Pending(th, i) && i != th.pos)
            && (forall i: nat :: Slotted(th', i) <==> Slotted(th, i) && i != th.pos)
            && (forall i: nat :: Held(th, i) ==> Pending(th, i))
            && ContentsAlike(th, th')
  {
  }

  lemma ConsOwned(q: nat, s: seq<nat>, own: map<nat, Owner>, who: Owner)
    requires ListOwned(s, own, who) && q in own && own[q] != who
    ensures ListOwned([q] + s, own[q := who], who)
  {
  }

  lemma UnmissSlots(sys: Sys, g: Ledger, t: Tid)
    requires SlotInv(sys, g) && UnmissPre(sys, g, t) && sys.threads[t].taken == [] && sys.threads[t].rel == []
    ensures SlotInv(AfterUnmiss(sys, t), UnmissLedger(sys, g, t))
  {
    hide Slotted, NoDup, InfosAlike, ContentsAlike, Held, Pending;
    var sys', g' := AfterUnmiss(sys, t), UnmissLedger(sys, g, t);
    var th, th' := sys.threads[t], sys'.threads[t];
    UnmissPlan(th);
    assert ThreadSlots(t, th, g.slots);
    ConsOwned(th.plan[th.pos].slot, sys.v.free, g.slots, Free);
    forall q | q in g'.slots && !Foreign(g'.slots[q], t) ensures OwnerHolds(sys', g', q) {
      assert OwnerHolds(sys, g, q);
    }
    SlotsFrame(sys, sys', g, g', t);
  }

  /** Forgetting info p keeps what every thread that does not hold p knows. */
  lemma ThreadInfosShrink(v: Volume, v': Volume, t: Tid, th: Thread, th': Thread, keep: map<Ref, Keeper>, p: Ref)
    requires ThreadInfos(v, t, th, keep) && v'.infos == v.infos - {p} && th'.plan == th.plan
    requires forall i: nat :: Held(th', i) ==> Held(th, i) && th.plan[i].info != p
    requires forall i: nat :: Pending(th', i) ==> Pending(th, i)
    requires forall i: nat :: Slotted(th', i) ==> Slotted(th, i)
    ensures ThreadInfos(v', t, th', keep - {p})
  {
    hide Held, Pending, Slotted;
  }

  lemma UnmissThread(sys: Sys, g: Ledger, t: Tid, u: Tid)
    requires InfoInv(sys, g) && UnmissPre(sys, g, t) && u in sys.threads
    ensures ThreadInfos(AfterUnmiss(sys, t).v, u, AfterUnmiss(sys, t).threads[u], UnmissLedger(sys, g, t).infos)
  {
    hide Held, Pending, Slotted, Flushed, InfoInv, ContentsAlike;
    var sys', th := AfterUnmiss(sys, t), sys.threads[u];
    var p := sys.threads[t].plan[sys.threads[t].pos].info;
    UnmissPlan(sys.threads[t]);
    forall i: nat | Held(sys'.threads[u], i) ensures th.plan[i].info != p {
      HeldInfo(sys, g, u, i);
      if u == t {
        PendingIsUnpublished(sys, g, u, i);
      }
    }
    TheThreadInfos(sys, g, u);
    ThreadInfosShrink(sys.v, sys'.v, u, th, sys'.threads[u], g.infos, p);
  }

  lemma TheThreadInfos(sys: Sys, g: Ledger, t: Tid)
    requires InfoInv(sys, g) && t in sys.threads
    ensures ThreadInfos(sys.v, t, sys.threads[t], g.infos)
  {
    hide ThreadInfos, Pending, Indexed;
  }

  /** An unpublished info can be forgotten without touching the tables. */
  lemma ForgetTables(v: Volume, v': Volume, keep: map<Ref, Keeper>, p: Ref)
    requires TablesOk(v, keep) && p in keep && keep[p].PendingAt?
    requires SameHashes(v.infos - {p}, v'.infos) && v'.nextRef == v.nextRef && v'.byHash == v.byHash &&
             v'.byBlock == v.byBlock
    ensures TablesOk(v', keep - {p})
  {
  }

  lemma UnmissTables(sys: Sys, g: Ledger, t: Tid)
    requires InfoInv(sys, g) && UnmissPre(sys, g, t)
    ensures var sys', g' := AfterUnmiss(sys, t), UnmissLedger(sys, g, t);
            TablesOk(sys'.v, g'.infos) && KeepersOk(sys'.threads, g'.infos)
  {
    hide Held, Pending, Slotted, ThreadsOk, ContentsAlike;
    var sys', th := AfterUnmiss(sys, t), sys.threads[t];
    UnmissPlan(th);
    ForgetTables(sys.v, sys'.v, g.infos, th.plan[th.pos].info);
    KeepersKept(sys.threads, g.infos, g.infos - {th.plan[th.pos].info}, t, sys'.threads[t]);
  }

  lemma UnmissInfos(sys: Sys, g: Ledger, t: Tid)
    requires InfoInv(sys, g) && UnmissPre(sys, g, t)
    ensures InfoInv(AfterUnmiss(sys, t), UnmissLedger(sys, g, t))
  {
    hide Held, Pending, Slotted, ThreadInfos, ContentsAlike, TablesOk, KeepersOk;
    UnmissPlan(sys.threads[t]);
    UnmissTables(sys, g, t);
    forall u | u in sys.threads {
      UnmissThread(sys, g, t, u);
    }
  }

  lemma UnmissRefs(sys: Sys, g: Ledger, t: Tid)
    requires RefInv(sys) && UnmissPre(sys, g, t)
    ensures RefInv(AfterUnmiss(sys, t))
  {
    hide Held, Pending, Slotted, InfosAlike, ContentsAlike;
    var sys' := AfterUnmiss(sys, t);
    var p := sys.threads[t].plan[sys.threads[t].pos].info;
    UnmissPlan(sys.threads[t]);
    forall r | r != p ensures Holders(sys', r) == Holders(sys, r) {
      SameHolders(sys, sys', r);
    }
  }

  lemma UnmissContents(H: Block -> Digest, U: iset<Block>, sys: Sys, g: Ledger, t: Tid)
    requires ContentInv(H, U, sys, g) && UnmissPre(sys, g, t)
    ensures ContentInv(H, U, AfterUnmiss(sys, t), UnmissLedger(sys, g, t))
  {
    hide Flushed, Held, Pending, Slotted, ThreadContents, StoredOk, InfosAlike;
    var sys' := AfterUnmiss(sys, t);
    UnmissPlan(sys.threads[t]);
    forall u | u in sys'.threads ensures ThreadContents(H, U, sys'.v, sys'.threads[u]) {
      ThreadContentsKept(H, U, sys.v, sys'.v, sys.threads[u], sys'.threads[u]);
    }
    forall r | r in sys'.v.infos && StoredOk(H, U, sys.v, sys.v.infos[r])
      ensures StoredOk(H, U, sys'.v, sys'.v.infos[r])
    {
      SameMaster(H, U, sys.v, sys'.v, sys.v.infos[r]);
    }
  }

  lemma SameMaster(H: Block -> Digest, U: iset<Block>, v: Volume, v': Volume, i: Info)
    requires StoredOk(H, U, v, i) && v'.master == v.master
    ensures StoredOk(H, U, v', i)
  {
    hide BlockAt, InFile;
  }

  lemma UnmissKeeps(H: Block -> Digest, U: iset<Block>, sys: Sys, g: Ledger, t: Tid) returns (g': Ledger)
    requires Inv(H, U, sys, g) && Enabled(sys, UnmissOne(t))
    ensures Inv(H, U, Apply(H, sys, UnmissOne(t)), g')
  {
    hide SlotInv, InfoInv, RefInv, ContentInv;
    var th := sys.threads[t];
    if th.plan[th.pos].kind.Miss? {
      PendingIsUnpublished(sys, g, t, th.pos);
      g' := UnmissLedger(sys, g, t);
      UnmissSlots(sys, g, t);
      UnmissInfos(sys, g, t);
      UnmissRefs(sys, g, t);
      UnmissContents(H, U, sys, g, t);
    } else {
      g' := g;
      QuietStep(H, U, sys, Apply(H, sys, UnmissOne(t)), g, t);
    }
  }
}
