/** A write whose flush fails leaves no trace but bytes in free slots. */
module Aborts {
  import opened MasterFile
  import opened Volumes
  import opened Protocol
  import opened Invariant
  import opened Actions
  import opened Safety
  import opened Requests
  import opened Solo
  import opened Writes
  import opened Locks
  import opened Quiescence

  lemma TwoHolders(H: Block -> Digest, U: iset<Block>, sys: Sys, r: Ref, x: Holder, y: Holder)
    requires Good(H, U, sys) && x != y && Holds(sys, r, x) && Holds(sys, r, y)
    ensures r in sys.v.infos && sys.v.infos[r].refs >= 2
  {
    hide SlotInv, ContentInv, InfoInv, Holds;
    var g :| Inv(H, U, sys, g);
    if r !in sys.v.infos {
      NoStray(sys, g, r, x);
      assert false;
    }
    assert {x, y} <= Holders(sys, r);
    Subset({x, y}, Holders(sys, r));
  }

  lemma NoStray(sys: Sys, g: Ledger, r: Ref, x: Holder)
    requires InfoInv(sys, g) && r !in sys.v.infos
    ensures !Holds(sys, r, x)
  {
    hide InfoInv, Holds;
    NoStrayHolder(sys, g, r);
  }

  lemma Subset(a: set<Holder>, b: set<Holder>)
    requires a <= b
    ensures |a| <= |b|
  {
    assert b == a + (b - a);
  }

  /** In a request that runs alone, the info of a HIT has another holder: a mapping, or
      the MISS entry of the same request. */
  lemma HitHasCompany(H: Block -> Digest, U: iset<Block>, v0: Volume, v: Volume, th: Thread, i: nat)
    requires Valid(H, U, v0) && Good(H, U, Alone(v, th)) && th.pc.Unhitting? && th.pos == i < |th.plan| &&
             th.plan[i].kind.Hit?
    requires KindsFit(v0, th.plan) && SharesFit(v0, th.plan) && v.byBlock == v0.byBlock
    ensures th.plan[i].info in v.infos && v.infos[th.plan[i].info].refs >= 2
  {
    hide Good, Valid, KindsFit, TablesSettled, SlotsSettled, StoredOk;
    var sys, r, h := Alone(v, th), th.plan[i].info, th.plan[i].hash;
    if h in v0.byHash {
      ValidIsSettled(H, U, v0);
      HashAllocated(H, U, v0, h);
      var k :| k in KeysTo(v0, r);
      assert Holds(sys, r, ByKey(k));
      TwoHolders(H, U, sys, r, ByEntry(0, i), ByKey(k));
    } else {
      var f := FirstOf(th.plan, h, i);
      FirstIsAMiss(v0, th.plan, f, i);
      assert Held(th, f);
      TwoHolders(H, U, sys, r, ByEntry(0, i), ByEntry(0, f));
    }
  }

  lemma HashAllocated(H: Block -> Digest, U: iset<Block>, v: Volume, h: Digest)
    requires Settled(H, U, v) && h in v.byHash
    ensures v.byHash[h] in v.infos
  {
    hide SlotsSettled;
  }

  lemma FirstIsAMiss(v: Volume, plan: seq<Entry>, f: nat, i: nat)
    requires KindsFit(v, plan) && f <= i < |plan| && plan[i].hash !in v.byHash && plan[f].hash == plan[i].hash &&
             IsFirst(plan, f)
    ensures plan[f].kind.Miss?
  {
    hide IsFirst;
  }

  lemma {:induction false} UnhitPhase(H: Block -> Digest, U: iset<Block>, v0: Volume, v: Volume, path: Path, start: nat,
                                      blocks: seq<Block>,
                                      plan: seq<Entry>, n: nat)
    requires Valid(H, U, v0) && Follows(H, U, v0, v, WriterAt(Unhitting, path, start, blocks, plan, [], 0, []))
    requires KindsFit(v0, plan) && SharesFit(v0, plan) && v.byBlock == v0.byBlock && n <= |plan|
    ensures var (v', rel) := UnhitAll(v, plan, n);
            && rel == [] && v' == v.(infos := v'.infos) && View(v') == View(v)
            && Follows(H, U, v0, v', WriterAt(Unhitting, path, start, blocks, plan, [], n, []))
  {
    hide Good, Extends, View, KindsFit, SharesFit, Valid;
    if n > 0 {
      UnhitPhase(H, U, v0, v, path, start, blocks, plan, n - 1);
      var v1 := UnhitAll(v, plan, n - 1).0;
      var th := WriterAt(Unhitting, path, start, blocks, plan, [], n - 1, []);
      if plan[n - 1].kind.Hit? {
        HitHasCompany(H, U, v0, v1, th, n - 1);
      }
      SoloStep(H, U, v0, v1, th, UnhitOne(0));
    }
  }

  lemma {:induction false} UnmissPhase(H: Block -> Digest, U: iset<Block>, v0: Volume, v: Volume, path: Path,
                                       start: nat, blocks: seq<Block>,
                                       plan: seq<Entry>, n: nat)
    requires Follows(H, U, v0, v, WriterAt(Unmissing, path, start, blocks, plan, [], 0, [])) && n <= |plan|
    ensures var v' := UnmissAll(v, plan, n);
            && v' == v.(infos := v'.infos, free := v'.free) && View(v') == View(v)
            && v'.free == Returned(plan, n) + v.free
            && Follows(H, U, v0, v', WriterAt(Unmissing, path, start, blocks, plan, [], n, []))
  {
    hide Good, Extends, View, Returned;
    ReturnedNone(plan, v.free);
    if n > 0 {
      ReturnedNext(plan, n - 1, v.free);
      UnmissPhase(H, U, v0, v, path, start, blocks, plan, n - 1);
      SoloStep(H, U, v0, UnmissAll(v, plan, n - 1), WriterAt(Unmissing, path, start, blocks, plan, [], n - 1, []),
               UnmissOne(0));
    }
  }

  lemma StartUnhitting(H: Block -> Digest, U: iset<Block>, v0: Volume, v: Volume, path: Path, start: nat,
                       blocks: seq<Block>, plan: seq<Entry>, j: nat)
    requires Follows(H, U, v0, v, WriterAt(Failed, path, start, blocks, plan, [], j, []))
    ensures Follows(H, U, v0, v, WriterAt(Unhitting, path, start, blocks, plan, [], 0, []))
  {
    hide Good, Extends, View;
    SoloAdvance(H, U, v0, v, WriterAt(Failed, path, start, blocks, plan, [], j, []));
  }

  lemma StartUnmissing(H: Block -> Digest, U: iset<Block>, v0: Volume, v: Volume, path: Path, start: nat,
                       blocks: seq<Block>, plan: seq<Entry>)
    requires Follows(H, U, v0, v, WriterAt(Unhitting, path, start, blocks, plan, [], |plan|, []))
    ensures Follows(H, U, v0, v, WriterAt(Unmissing, path, start, blocks, plan, [], 0, []))
  {
    hide Good, Extends, View;
    assert Release(v, []) == v;
    var n := |plan|;
    SoloAdvance(H, U, v0, v, WriterAt(Unhitting, path, start, blocks, plan, [], n, []));
    SoloGiveBack(H, U, v0, v, WriterAt(HitReleasing, path, start, blocks, plan, [], n, []));
    SoloAdvance(H, U, v0, v, WriterAt(Reverting, path, start, blocks, plan, [], n, []));
  }

  lemma EndUnmissing(H: Block -> Digest, U: iset<Block>, v0: Volume, v: Volume, path: Path, start: nat,
                     blocks: seq<Block>, plan: seq<Entry>)
    requires Follows(H, U, v0, v, WriterAt(Unmissing, path, start, blocks, plan, [], |plan|, []))
    ensures Follows(H, U, v0, v, IDLE)
  {
    hide Good, Extends, View;
    SoloAdvance(H, U, v0, v, WriterAt(Unmissing, path, start, blocks, plan, [], |plan|, []));
  }

  lemma RollbackPhase(H: Block -> Digest, U: iset<Block>, v0: Volume, v: Volume, path: Path, start: nat,
                      blocks: seq<Block>, plan: seq<Entry>, j: nat)
    requires Valid(H, U, v0) && Follows(H, U, v0, v, WriterAt(Failed, path, start, blocks, plan, [], j, []))
    requires KindsFit(v0, plan) && SharesFit(v0, plan) && v.byBlock == v0.byBlock
    ensures var v' := Rollback(v, plan);
            && Follows(H, U, v0, v', IDLE) && View(v') == View(v) && v' == v.(infos := v'.infos, free := v'.free)
            && v'.free == Returned(plan, |plan|) + v.free
  {
    hide Good, Extends, View, KindsFit, SharesFit, Valid, UnhitAll, UnmissAll, Returned;
    StartUnhitting(H, U, v0, v, path, start, blocks, plan, j);
    UnhitPhase(H, U, v0, v, path, start, blocks, plan, |plan|);
    var v1 := UnhitAll(v, plan, |plan|).0;
    assert Release(v1, []) == v1;
    StartUnmissing(H, U, v0, v1, path, start, blocks, plan);
    UnmissPhase(H, U, v0, v1, path, start, blocks, plan, |plan|);
    EndUnmissing(H, U, v0, UnmissAll(v1, plan, |plan|), path, start, blocks, plan);
  }

  /** Between requests the infos, counts included, are determined by the two tables. */
  lemma TablesDetermineInfos(H: Block -> Digest, U: iset<Block>, v: Volume, v': Volume)
    requires Valid(H, U, v) && Valid(H, U, v') && Extends(v, v') && v'.byHash == v.byHash && v'.byBlock == v.byBlock
    ensures v'.infos == v.infos
  {
    hide Valid, SlotsSettled, StoredOk, Content;
    ValidIsSettled(H, U, v);
    ValidIsSettled(H, U, v');
    assert forall r :: r in v.infos ==> v.infos[r].hash in v'.byHash && r in v'.infos;
    assert forall r :: r in v'.infos ==> v'.infos[r].hash in v.byHash && r in v.infos;
    forall r | r in v.infos ensures r in v'.infos && v'.infos[r] == v.infos[r] {
      assert KeysTo(v', r) == KeysTo(v, r);
      assert Indexed(v, r) && Indexed(v', r);
    }
  }

  /** The master grows by exactly the misses that the free list cannot serve. */
  lemma PrepareStorage(H: Block -> Digest, v: Volume, start: nat, blocks: seq<Block>)
    ensures var (v', plan) := Prepare(H, v, start, blocks);
            var misses := MissCount(DecideAll(H, v, start, blocks, |blocks|).1);
            && v'.next == v.next + (if misses > |v.free| then misses - |v.free| else 0)
            && v'.free == v.free[Min(misses, |v.free|)..]
  {
    hide DecideAll, AssignAll, MissCount, PlanFits;
    DecideFrame(H, v, start, blocks, |blocks|);
    var (v1, plan) := DecideAll(H, v, start, blocks, |blocks|);
    var (v2, out) := Allocate(v1, MissCount(plan));
    AssignAllTables(v2, plan, out, |plan|);
  }

  lemma DecideFrame(H: Block -> Digest, v: Volume, start: nat, blocks: seq<Block>, n: nat)
    requires n <= |blocks|
    ensures FrameFits(v, DecideAll(H, v, start, blocks, n).0)
  {
    hide DecideAll, LabelsFit, KindsFit, SharesFit;
    DecideFits(H, v, start, blocks, n);
  }

  /** A failed write, whatever part of whatever run reached the device, leaves both
      tables, every reference count, every size and every file content as before; the
      slots it took are all free again, none of them twice, those of the last misses first. */
  lemma WriteAborts(H: Block -> Digest, U: iset<Block>, v: Volume, path: Path, start: nat, blocks: seq<Block>,
                    io: nat -> int)
    requires Valid(H, U, v) && Within(U, blocks) && blocks != []
    requires WriteBlocks(H, v, path, start, blocks, io).1 < 0
    ensures var v' := WriteBlocks(H, v, path, start, blocks, io).0;
            && Valid(H, U, v') && View(v') == View(v)
            && v'.byHash == v.byHash && v'.byBlock == v.byBlock && v'.sizes == v.sizes && v'.infos == v.infos
            && v.next <= v'.next && NoDup(v'.free)
            && (var (v1, plan) := Prepare(H, v, start, blocks); v'.free == Returned(plan, |plan|) + v1.free)
            && forall q: nat :: q in v'.free <==> q in v.free || v.next <= q < v'.next
  {
    hide Valid, Extends, Good, View, Prepare, FlushAll, Rollback, LabelsFit, KindsFit, SharesFit, DecideAll, NoDup;
    var (v1, plan) := Prepare(H, v, start, blocks);
    PreparePhase(H, U, v, path, start, blocks);
    PrepareFits(H, v, start, blocks);
    PrepareStorage(H, v, start, blocks);
    var j := FlushPhase(H, U, v, v1, path, start, blocks, plan, 0, io, 0);
    var v2 := FlushAll(v1, plan, 0, io, 0).0;
    RollbackPhase(H, U, v, v2, path, start, blocks, plan, j);
    var v' := Rollback(v2, plan);
    ToValid(H, U, v, v');
    TablesDetermineInfos(H, U, v, v');
    SameInfosSameSlots(H, U, v, v');
  }

  lemma ToValid(H: Block -> Digest, U: iset<Block>, v0: Volume, v: Volume)
    requires Follows(H, U, v0, v, IDLE)
    ensures Valid(H, U, v) && Extends(v0, v)
  {
  }

  lemma SameInfosSameSlots(H: Block -> Digest, U: iset<Block>, v: Volume, v': Volume)
    requires Valid(H, U, v) && Valid(H, U, v') && v'.infos == v.infos && v.next <= v'.next
    ensures NoDup(v'.free) && forall q: nat :: q in v'.free <==> q in v.free || v.next <= q < v'.next
  {
    hide Valid, SlotsSettled, TablesSettled, NoDup, StoredOk;
    ValidIsSettled(H, U, v);
    ValidIsSettled(H, U, v');
    SlotIsOne(v', 0);
    forall q: nat ensures q in v'.free <==> q in v.free || v.next <= q < v'.next {
      SlotIsOne(v, q);
      SlotIsOne(v', q);
      assert IsLiveSlot(v', q) <==> IsLiveSlot(v, q);
    }
  }
}
