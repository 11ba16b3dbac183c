/** When a mounted volume is as good as the one that was unmounted. */
module Remount {
  import opened MasterFile
  import opened Volumes
  import opened Protocol
  import opened Invariant
  import opened Safety
  import opened Requests
  import opened Solo
  import opened Quiescence
  import opened MasterLength
  import opened Removals
  import opened CounterLength
  import opened Tables
  import opened SharedTables
  import opened Mount

  /** The volume after unmount and mount. */
  ghost function Reloaded(v: Volume, o: Orders): Volume
    requires OrdersOf(o, v)
  {
    Load(Save(v, o), v.master)
  }

  /** Every file reads as before. */
  lemma RemountView(v: Volume, o: Orders)
    requires OrdersOf(o, v) && Fits(v, o) && forall k :: k in v.byBlock ==> v.byBlock[k] in v.infos
    ensures View(Reloaded(v, o)) == View(v)
  {
    hide Load, Save, Fits, OrdersOf, BlockAt, InFile, SharesAlike;
    RemountSame(v, o);
    LoadedMaster(Save(v, o), v.master);
  }

  lemma RemountedFits(v: Volume, v': Volume)
    requires SizesFit(v) && SameIndex(v', v)
    ensures SizesFit(v')
  {
    hide PartOf;
  }

  lemma Mounted(p: Parts, master: seq<Byte>)
    ensures Assemble(p, master).master == master && Assemble(p, master).next == |master| / BLOCK_SIZE
  {
  }

  lemma LoadedMaster(f: Files, master: seq<Byte>)
    ensures Load(f, master).master == master && Load(f, master).next == |master| / BLOCK_SIZE
  {
  }

  /** At a quiescent point the saved objects are all the objects there are. */
  lemma ValuesAreInfos(v: Volume, o: Orders)
    requires OrdersOf(o, v) && TablesSettled(v)
    ensures Enumerates(ValuesOf(v, o), v.infos.Keys)
  {
    ValuesCover(v, o);
    ValuesComeFrom(v, o);
    hide ValuesOf, OrdersOf;
    forall r | r in v.infos ensures r in ValuesOf(v, o) {
      assert Indexed(v, r);
    }
  }

  lemma ValuesComeFrom(v: Volume, o: Orders)
    requires OrdersOf(o, v)
    ensures forall r ::
              r in ValuesOf(v, o) ==>
                (exists h :: h in v.byHash && v.byHash[h] == r) || exists k :: k in v.byBlock && v.byBlock[k] == r
  {
    var a, b := Targets(v.byHash, o.hashes), Targets(v.byBlock, o.blocks);
    forall r | r in a + b
      ensures (exists h :: h in v.byHash && v.byHash[h] == r) || exists k :: k in v.byBlock && v.byBlock[k] == r
    {
      var i :| 0 <= i < |a + b| && (a + b)[i] == r;
      if i < |a| {
        assert o.hashes[i] in v.byHash && v.byHash[o.hashes[i]] == r;
      } else {
        assert o.blocks[i - |a|] in v.byBlock && v.byBlock[o.blocks[i - |a|]] == r;
      }
    }
  }

  /** vs lists the objects of v once each, and v' is v with each object at its place in vs. */
  ghost predicate Relocated(vs: seq<Ref>, v: Volume, v': Volume) {
    && Enumerates(vs, v.infos.Keys)
    && v'.nextRef == |vs| && (forall r: Ref :: r in v'.infos <==> r < |vs|)
    && (forall r: Ref :: r < |vs| ==> v'.infos[r] == v.infos[vs[r]])
    && v'.byHash.Keys == v.byHash.Keys &&
       (forall h :: h in v.byHash ==> v'.byHash[h] < |vs| && vs[v'.byHash[h]] == v.byHash[h])
    && v'.byBlock.Keys == v.byBlock.Keys &&
       (forall k :: k in v.byBlock ==> v'.byBlock[k] < |vs| && vs[v'.byBlock[k]] == v.byBlock[k])
    && v'.free == v.free && v'.master == v.master
  }

  lemma ReloadedIsRelocated(v: Volume, o: Orders)
    requires OrdersOf(o, v) && Fits(v, o) && TablesSettled(v)
    ensures Relocated(ValuesOf(v, o), v, Reloaded(v, o))
  {
    hide Assemble, Parse, SavedParts, Save, OrdersOf, Fits, ValuesOf, IndexOf, Distinct, Indexed;
    var vs := ValuesOf(v, o);
    ValuesAreInfos(v, o);
    ValuesCover(v, o);
    CutFilesParse(v, o, Save(v, o));
    MountedTables(v, o, Parse(Save(v, o)), v.master);
    MountedRest(v, o, Parse(Save(v, o)), v.master);
    LoadedMaster(Save(v, o), v.master);
    forall r | r in vs ensures IndexOf(vs, r) < |vs| && vs[IndexOf(vs, r)] == r {
      IndexInside(vs, r);
    }
  }

  lemma RelocatedTables(vs: seq<Ref>, v: Volume, v': Volume)
    requires Relocated(vs, v, v') && TablesSettled(v)
    ensures TablesSettled(v')
  {
    forall r | r in v'.infos ensures Indexed(v', r) {
      assert vs[r] in v.infos && Indexed(v, vs[r]);
    }
  }

  lemma RelocatedKeys(vs: seq<Ref>, v: Volume, v': Volume, r: Ref)
    requires Relocated(vs, v, v') && r < |vs|
    ensures KeysTo(v', r) == KeysTo(v, vs[r])
  {
    forall k ensures k in KeysTo(v', r) <==> k in KeysTo(v, vs[r]) {
      assert k in v.byBlock ==> (v'.byBlock[k] == r <==> vs[v'.byBlock[k]] == vs[r]);
    }
  }

  lemma RelocatedLive(vs: seq<Ref>, v: Volume, v': Volume, q: nat)
    requires Relocated(vs, v, v')
    ensures IsLiveSlot(v', q) <==> IsLiveSlot(v, q)
  {
    if IsLiveSlot(v, q) {
      var r :| r in v.infos && v.infos[r].slot == q;
      var i :| 0 <= i < |vs| && vs[i] == r;
      assert v'.infos[i].slot == q;
    }
    if IsLiveSlot(v', q) {
      var i :| i in v'.infos && v'.infos[i].slot == q;
      assert vs[i] in v.infos && v.infos[vs[i]].slot == q;
    }
  }

  lemma RelocatedSlots(vs: seq<Ref>, v: Volume, v': Volume)
    requires Relocated(vs, v, v') && SlotsSettled(v) && v'.next == v.next
    ensures SlotsSettled(v')
  {
    hide IsLiveSlot, NoDup;
    forall q: nat ensures IsLiveSlot(v', q) <==> IsLiveSlot(v, q) {
      RelocatedLive(vs, v, v', q);
    }
    forall r | r in v'.infos ensures vs[r] in v.infos {
    }
  }

  lemma RelocatedSettled(H: Block -> Digest, U: iset<Block>, vs: seq<Ref>, v: Volume, v': Volume)
    requires Relocated(vs, v, v') && Settled(H, U, v) && v'.next == v.next
    ensures Settled(H, U, v')
  {
    hide TablesSettled, SlotsSettled, KeysTo;
    RelocatedTables(vs, v, v');
    RelocatedSlots(vs, v, v');
    forall r | r in v'.infos
      ensures v'.infos[r].refs == |KeysTo(v', r)| && KeysTo(v', r) != {} && StoredOk(H, U, v', v'.infos[r])
    {
      RelocatedKeys(vs, v, v', r);
      assert vs[r] in v.infos;
    }
  }

  /** A mount restores the invariant between requests exactly when the master file is as
      long as the append counter says, which a caller can check before unmounting. */
  lemma RemountValidIff(H: Block -> Digest, U: iset<Block>, v: Volume, o: Orders)
    requires Valid(H, U, v) && OrdersOf(o, v) && Fits(v, o)
    ensures Valid(H, U, Reloaded(v, o)) <==> v.next == |v.master| / BLOCK_SIZE
    ensures View(Reloaded(v, o)) == View(v)
  {
    hide Valid, Load, Save, OrdersOf, Fits, ValuesOf, TablesSettled, SlotsSettled, KeysTo, StoredOk, View, Enumerates,
         Relocated;
    var v', vs := Reloaded(v, o), ValuesOf(v, o);
    ValidIsSettled(H, U, v);
    ReloadedIsRelocated(v, o);
    LoadedMaster(Save(v, o), v.master);
    SettledMaps(v);
    RemountView(v, o);
    if v'.next == v.next {
      RelocatedSettled(H, U, vs, v, v');
      SettledIsValid(H, U, v');
    }
    if Valid(H, U, v') {
      ValidIsSettled(H, U, v');
      RelocatedCounts(vs, v, v');
    }
  }

  lemma SettledMaps(v: Volume)
    requires TablesSettled(v)
    ensures forall k :: k in v.byBlock ==> v.byBlock[k] in v.infos
  {
  }

  lemma RelocatedCounts(vs: seq<Ref>, v: Volume, v': Volume)
    requires Relocated(vs, v, v') && SlotsSettled(v) && SlotsSettled(v')
    ensures v'.next == v.next
  {
    hide SlotsSettled;
    SlotAccounting(v);
    SlotAccounting(v');
    EnumerationSize(vs, v.infos.Keys);
    assert v'.infos.Keys == Range(|vs|);
  }

  /** A volume that can be unmounted and mounted without loss. */
  ghost predicate Mountable(H: Block -> Digest, U: iset<Block>, v: Volume) {
    Valid(H, U, v) && Counted(v)
  }

  lemma RemountKeeps(H: Block -> Digest, U: iset<Block>, v: Volume, o: Orders)
    requires Mountable(H, U, v) && OrdersOf(o, v) && Fits(v, o)
    ensures Mountable(H, U, Reloaded(v, o)) && View(Reloaded(v, o)) == View(v) && Reloaded(v, o).next == v.next
  {
    hide Valid, OrdersOf, Fits, Load, Save, View;
    RemountValidIff(H, U, v, o);
    LoadedMaster(Save(v, o), v.master);
  }

  /** After any concurrent run on a mountable volume in which no pwrite failed, unmounting
      once all threads are idle and mounting again gives a mountable volume with the same
      files. */
  lemma RemountAfterRun(H: Block -> Digest, U: iset<Block>, run: seq<Sys>, acts: seq<Action>, n: nat, o: Orders)
    requires SafeRun(H, U, run, acts) && Mountable(H, U, run[0].v) && AllIdle(run[0]) && n < |run|
    requires forall i :: 0 <= i < |acts| ==> !acts[i].FlushFail?
    requires AllIdle(run[n]) && OrdersOf(o, run[n].v) && Fits(run[n].v, o)
    ensures Mountable(H, U, run[n].v) && Mountable(H, U, Reloaded(run[n].v, o))
    ensures View(Reloaded(run[n].v, o)) == View(run[n].v) && Reloaded(run[n].v, o).next == run[n].v.next
  {
    hide SafeRun, Good, Valid, Covers, AllIdle, OrdersOf, Fits, Load, Save, View;
    ValidIsGood(H, U, run[0]);
    StartCovers(H, U, run[0]);
    MasterLengthIsCounter(H, U, run, acts, n);
    RunGood(H, U, run, acts, n);
    QuiescentIsValid(H, U, run[n]);
    RemountKeeps(H, U, run[n].v, o);
  }

  // ---- Why the condition is needed ----

  /** The first write to an empty volume fails: its slot is free, below the counter, and
      not in the file. */
  lemma FirstWriteFails(H: Block -> Digest, path: Path, b: Block, io: nat -> int)
    requires io(0) < 0
    ensures WriteBlocks(H, EMPTY, path, 0, [b], io) == (EMPTY.(nextRef := 1, free := [0], next := 1), io(0))
  {
    var v1 := EMPTY.(infos := map[0 := Info(H(b), 0, 1)], nextRef := 1);
    var e := Entry(Miss, 0, 0, b, H(b), 0);
    FirstPrepare(H, b);
    var v2, plan := v1.(next := 1), [e];
    assert SkipHits(plan, 0) == 0 && RunBytes(plan, 0) == BLOCK_SIZE;
    assert FlushAll(v2, plan, 0, io, 0) == (v2, io(0));
    assert UnhitAll(v2, plan, 1) == (v2, []);
    assert [] + v2.free == v2.free;
    assert UnmissAll(v2, plan, 0) == v2;
    assert UnmissAll(v2, plan, 1) == EMPTY.(nextRef := 1, free := [0], next := 1);
  }

  lemma FirstPrepare(H: Block -> Digest, b: Block)
    ensures Prepare(H, EMPTY, 0, [b]) ==
              (EMPTY.(infos := map[0 := Info(H(b), 0, 1)], nextRef := 1, next := 1), [Entry(Miss, 0, 0, b, H(b), 0)])
  {
    var v1 := EMPTY.(infos := map[0 := Info(H(b), 0, 1)], nextRef := 1);
    var e := Entry(Miss, 0, 0, b, H(b), 0);
    var plan := [e];
    assert DecideAll(H, EMPTY, 0, [b], 0) == (EMPTY, []);
    assert PendingHashes([]) == map[];
    assert Existing(EMPTY, [], H(b)) == None;
    assert EMPTY.infos[0 := Info(H(b), 0, 1)] == v1.infos;
    assert Decide(H, EMPTY, [], 0, b) == (v1, e);
    assert DecideAll(H, EMPTY, 0, [b], 1) == (v1, [] + [e]);
    assert plan[1..] == [] && plan[..0] == [];
    assert MissCount(plan) == 1;
    assert Drain(v1, 1) == (v1, []);
    assert Append(v1, 1).1 == [0] && Append(v1, 1).0 == v1.(next := 1) && [] + [0] == [0];
    assert Allocate(v1, 1) == (v1.(next := 1), [0]);
    var v2 := v1.(next := 1);
    assert AssignAll(v2, plan, [0], 0) == (v2, plan);
    assert Assign(v2, e, 0) == (v2, e) by { assert v2.infos[0 := v2.infos[0]] == v2.infos; }
    assert plan[0 := e] == plan;
    assert AssignAll(v2, plan, [0], 1) == (v2, plan);
  }

  /** Mounted again, that volume hands slot 0 out twice to one batch of two blocks. */
  lemma FailedWriteBreaksRemount(H: Block -> Digest, path: Path, b: Block, io: nat -> int)
    requires io(0) < 0
    ensures var v, o := WriteBlocks(H, EMPTY, path, 0, [b], io).0, Orders([], [], []);
            && OrdersOf(o, v) && Fits(v, o)
            && Allocate(Reloaded(v, o), 2).1 == [0, 0]
  {
    hide Load, Save, WriteBlocks, SameIndex, PartOf;
    FirstWriteFails(H, path, b, io);
    var v, o := EMPTY.(nextRef := 1, free := [0], next := 1), Orders([], [], []);
    assert ValuesOf(v, o) == [];
    RemountSame(v, o);
    SameFree(Reloaded(v, o), v);
    LoadedMaster(Save(v, o), v.master);
  }

  lemma SameFree(v': Volume, v: Volume)
    requires SameIndex(v', v)
    ensures v'.free == v.free
  {
  }
}
