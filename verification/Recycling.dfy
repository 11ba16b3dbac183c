/** The free list is a stack: what was given back last is handed out first. */
module Recycling {
  import opened MasterFile
  import opened Volumes
  import opened Protocol
  import opened Invariant
  import opened Actions
  import opened Safety
  import opened Refinement
  import opened Locks
  import opened Requests
  import opened Solo
  import opened Writes
  import opened Aborts
  import opened Quiescence
  import opened Removals
  import opened Placement

  // ---- Threads collect in front, and give back in front ----

  ghost predicate InFront(rel: seq<nat>, rel': seq<nat>) {
    rel' == rel || (|rel'| == |rel| + 1 && rel'[1..] == rel)
  }

  lemma DropInFront(v: Volume, r: Ref, rel: seq<nat>)
    ensures var (v', rel') := Drop(v, r, rel); InFront(rel, rel') && v'.free == v.free
  {
  }

  lemma PublishInFront(v: Volume, e: Entry, rel: seq<nat>)
    ensures var (v', e', rel') := Publish(v, e, rel); InFront(rel, rel') && v'.free == v.free
  {
  }

  lemma MapInFront(v: Volume, path: Path, e: Entry, rel: seq<nat>)
    ensures var (v', rel') := MapBlock(v, path, e, rel); InFront(rel, rel') && v'.free == v.free
  {
  }

  lemma RemoveInFront(v: Volume, path: Path, blk: nat, rel: seq<nat>)
    ensures var (v', rel') := RemoveBlock(v, path, blk, rel); InFront(rel, rel') && v'.free == v.free
  {
  }

  /** In every action of every thread: a slot that a thread collects goes in front of those
      it has, and a thread gives its slots back in front of the free list. */
  lemma CollectsInFront(H: Block -> Digest, sys: Sys, a: Action)
    requires Enabled(sys, a)
    ensures a.t in sys.threads && a.t in Apply(H, sys, a).threads
    ensures var th, th' := sys.threads[a.t], Apply(H, sys, a).threads[a.t];
            match a
            case PublishOne(_) => InFront(th.rel, th'.rel) && Apply(H, sys, a).v.free == sys.v.free
            case MapOne(_) => InFront(th.rel, th'.rel) && Apply(H, sys, a).v.free == sys.v.free
            case UnhitOne(_) => InFront(th.rel, th'.rel) && Apply(H, sys, a).v.free == sys.v.free
            case RemoveOne(_) => InFront(th.rel, th'.rel) && Apply(H, sys, a).v.free == sys.v.free
            case GiveBack(_) => Apply(H, sys, a).v.free == th.rel + sys.v.free && th'.rel == []
            case DrainFree(_) => th'.taken + Apply(H, sys, a).v.free == sys.v.free
            case _ => true
  {
    hide Drop, Publish, MapBlock, RemoveBlock, SkipHits, RunEnd, RunBytes, MissCount, Decide, FlushRun, Assign, Unmiss,
         CanRead, CanWrite, MutexFree;
    StepShape(H, sys, a);
    if a.PublishOne? {
      var th := sys.threads[a.t];
      PublishInFront(sys.v, th.plan[th.pos], th.rel);
    } else if a.MapOne? {
      var th := sys.threads[a.t];
      MapInFront(sys.v, th.path, th.plan[th.pos], th.rel);
    } else if a.UnhitOne? {
      var th := sys.threads[a.t];
      DropInFront(sys.v, th.plan[th.pos].info, th.rel);
    } else if a.RemoveOne? {
      var th := sys.threads[a.t];
      RemoveInFront(sys.v, th.path, th.pos, th.rel);
    }
  }

  // ---- A failed write ----

  lemma {:induction false} ReturnedAt(plan: seq<Entry>, n: nat, i: nat)
    requires n <= |plan| && i < n && plan[i].kind.Miss?
    ensures var m := MissCount(plan[..i]);
            && |Returned(plan, n)| == MissCount(plan[..n]) > m
            && Returned(plan, n)[MissCount(plan[..n]) - 1 - m] == plan[i].slot
  {
    hide MissCount;
    ReturnedSize(plan, n);
    MissCountPrefix(plan, n - 1);
    MissCountPrefix(plan, i);
    if i < n - 1 {
      ReturnedAt(plan, n - 1, i);
    }
  }

  lemma {:induction false} ReturnedSize(plan: seq<Entry>, n: nat)
    requires n <= |plan|
    ensures |Returned(plan, n)| == MissCount(plan[..n])
  {
    if n > 0 {
      hide MissCount;
      ReturnedSize(plan, n - 1);
      MissCountPrefix(plan, n - 1);
    }
  }

  /** After a failed write the slots of its batch stand in front of what is left of the free
      list, the last of the batch first. */
  lemma AbortReturnsBatch(H: Block -> Digest, U: iset<Block>, v: Volume, path: Path, start: nat, blocks: seq<Block>,
                          io: nat -> int, i: nat)
    requires Valid(H, U, v) && Within(U, blocks) && blocks != []
    requires WriteBlocks(H, v, path, start, blocks, io).1 < 0
    requires i < |Prepare(H, v, start, blocks).1| && Prepare(H, v, start, blocks).1[i].kind.Miss?
    ensures var v', plan := WriteBlocks(H, v, path, start, blocks, io).0, Prepare(H, v, start, blocks).1;
            var misses, m := MissCount(plan), MissCount(plan[..i]);
            && m < misses <= |v'.free| && v'.free[misses - 1 - m] == SlotInBatch(v, m)
            && v'.free[misses..] == v.free[Min(misses, |v.free|)..]
  {
    hide Valid, WriteBlocks, View, NoDup, Prepare, MissCount, Returned, DecideAll;
    var (v1, plan) := Prepare(H, v, start, blocks);
    WriteAborts(H, U, v, path, start, blocks, io);
    PrepareStorage(H, v, start, blocks);
    PrepareMisses(H, v, start, blocks);
    assert plan[..|plan|] == plan;
    ReturnedAt(plan, |plan|, i);
    PlannedSlot(H, v, start, blocks, i);
  }

  lemma PrepareMisses(H: Block -> Digest, v: Volume, start: nat, blocks: seq<Block>)
    ensures MissCount(Prepare(H, v, start, blocks).1) == MissCount(DecideAll(H, v, start, blocks, |blocks|).1)
  {
    hide DecideAll, MissCount, AssignAll, Allocate;
    var (v1, p1) := DecideAll(H, v, start, blocks, |blocks|);
    BatchSize(v1, MissCount(p1));
    var (v2, out) := Allocate(v1, MissCount(p1));
    AssignKinds(v2, p1, out);
    SameKindsSameCount(AssignAll(v2, p1, out, |p1|).1, p1);
  }

  // ---- Removal ----

  /** The slots that removing the blocks [from, n) frees, the last freed first: a block frees
      its slot when no other block outside the range shares it and none is left inside. */
  function Freed(v: Volume, path: Path, from: nat, n: nat): seq<nat>
    decreases n
  {
    if from >= n then []
    else
      var k, rest := Key(path, n - 1), Freed(v, path, from, n - 1);
      if k in v.byBlock && KeysTo(v, v.byBlock[k]) <= KeysOf(path, from, n - from)
      then [Deref(v, v.byBlock[k]).slot] + rest else rest
  }

  lemma RemovingAlone(H: Block -> Digest, U: iset<Block>, v: Volume, path: Path, from: nat, stop: nat)
    requires Valid(H, U, v)
    ensures Follows(H, U, v, v, RemoverAt(Removing, path, from, stop, Forget, []))
  {
    hide SlotInv, InfoInv, RefInv, ContentInv;
    var sys, th := Alone(v, IDLE), RemoverAt(Removing, path, from, stop, Forget, []);
    var g :| Inv(H, U, sys, g);
    BeginKeeps(H, U, sys, g, 0, th);
    assert Put(sys, 0, v, th) == Alone(v, th);
    ExtendsItself(v);
  }

  lemma ExtendsItself(v: Volume)
    ensures Extends(v, v)
  {
  }

  lemma {:induction false} RemovedTable(v: Volume, path: Path, from: nat, n: nat)
    ensures var v' := RemoveRange(v, path, from, n).0;
            && v'.byBlock == v.byBlock - KeysOf(path, from, if from <= n then n - from else 0) && v'.free == v.free
    decreases n
  {
    hide RemoveBlock;
    if from < n {
      RemovedTable(v, path, from, n - 1);
      RemovesOne(RemoveRange(v, path, from, n - 1).0, path, n - 1, RemoveRange(v, path, from, n - 1).1);
      assert KeysOf(path, from, n - from) == KeysOf(path, from, n - 1 - from) + {Key(path, n - 1)};
    }
  }

  lemma RemovesOne(v: Volume, path: Path, blk: nat, rel: seq<nat>)
    ensures RemoveBlock(v, path, blk, rel).0.byBlock == v.byBlock - {Key(path, blk)}
    ensures RemoveBlock(v, path, blk, rel).0.free == v.free
  {
  }

  /** While no request holds anything, a count is the number of blocks mapped. */
  lemma CountIsKeys(H: Block -> Digest, U: iset<Block>, v: Volume, th: Thread, r: Ref)
    requires Good(H, U, Alone(v, th)) && th.plan == [] && r in v.infos
    ensures v.infos[r].refs == |KeysTo(v, r)|
  {
    hide SlotInv, InfoInv, ContentInv, KeysTo;
    var sys := Alone(v, th);
    var g :| Inv(H, U, sys, g);
    assert v.infos[r].refs == |Holders(sys, r)|;
    PlainHolders(sys, r);
  }

  lemma PlainHolders(sys: Sys, r: Ref)
    requires forall t :: t in sys.threads ==> sys.threads[t].plan == []
    ensures |Holders(sys, r)| == |KeysTo(sys.v, r)|
  {
    forall h ensures h in Holders(sys, r) <==> h.ByKey? && h.k in KeysTo(sys.v, r) {
      assert h in Holders(sys, r) <==> Holds(sys, r, h);
    }
    MappedCardinality(KeysTo(sys.v, r), Holders(sys, r));
  }

  /** One step of the removal loop. */
  lemma FreesNext(H: Block -> Digest, U: iset<Block>, v: Volume, v1: Volume, path: Path, from: nat, n: nat, stop: nat,
                  rel: seq<nat>)
    requires from < n && Valid(H, U, v) && Follows(H, U, v, v1, RemoverAt(Removing, path, n - 1, stop, Forget, rel))
    requires v1.byBlock == v.byBlock - KeysOf(path, from, n - 1 - from)
    ensures RemoveBlock(v1, path, n - 1, rel).1 ==
              (var k := Key(path, n - 1);
               if k in v.byBlock && KeysTo(v, v.byBlock[k]) <= KeysOf(path, from, n - from)
               then [Deref(v, v.byBlock[k]).slot] + rel else rel)
  {
    hide Valid, Good, SlotsSettled, StoredOk, Content;
    var k, th := Key(path, n - 1), RemoverAt(Removing, path, n - 1, stop, Forget, rel);
    ValidIsSettled(H, U, v);
    if k in v.byBlock {
      var r := v.byBlock[k];
      assert k in v1.byBlock && v1.byBlock[k] == r;
      MappedInFile(H, U, Alone(v1, th), k);
      assert Indexed(v, r);
      CountIsKeys(H, U, v1, th, r);
      KeysLeft(v, v1, path, from, n, r);
    }
  }

  lemma KeysLeft(v: Volume, v1: Volume, path: Path, from: nat, n: nat, r: Ref)
    requires from < n && v1.byBlock == v.byBlock - KeysOf(path, from, n - 1 - from)
    requires Key(path, n - 1) in v.byBlock && v.byBlock[Key(path, n - 1)] == r
    ensures |KeysTo(v1, r)| == 1 <==> KeysTo(v, r) <= KeysOf(path, from, n - from)
  {
    var k, ks := Key(path, n - 1), KeysTo(v1, r);
    assert k in ks;
    if KeysTo(v, r) <= KeysOf(path, from, n - from) {
      assert ks == {k};
    }
    if |ks| == 1 {
      assert |ks - {k}| == 0;
      assert ks == {k};
      forall k' | k' in KeysTo(v, r) ensures k' in KeysOf(path, from, n - from) {
        assert k' in ks || k' in KeysOf(path, from, n - 1 - from);
      }
    }
  }

  lemma {:induction false} RangeFrees(H: Block -> Digest, U: iset<Block>, v: Volume, path: Path, from: nat, n: nat,
                                      stop: nat)
    requires Valid(H, U, v) && (from <= n <= stop || n == from)
    ensures RemoveRange(v, path, from, n).1 == Freed(v, path, from, n)
    decreases n
  {
    hide Valid, Follows, RemoveBlock, View, KeysTo, KeysOf;
    if from < n {
      RangeFrees(H, U, v, path, from, n - 1, stop);
      RemovingAlone(H, U, v, path, from, stop);
      RemovePhase(H, U, v, path, from, stop, Forget, n - 1);
      RemovedTable(v, path, from, n - 1);
      var (v1, rel) := RemoveRange(v, path, from, n - 1);
      FreesNext(H, U, v, v1, path, from, n, stop, rel);
    }
  }

  /** Removing a range, in one batch or block by block, puts exactly the slots that nothing
      shares any more in front of the free list, the last freed first. */
  lemma RemovalFreesInFront(H: Block -> Digest, U: iset<Block>, v: Volume, path: Path, from: nat, until: nat)
    requires Valid(H, U, v)
    ensures RemoveBatch(v, path, from, until).free == Freed(v, path, from, until) + v.free
    ensures RemoveEach(v, path, from, until).free == Freed(v, path, from, until) + v.free
  {
    hide Valid, RemoveRange, RemoveEach;
    BatchIsLoop(v, path, from, until);
    NothingInRange(v, path, from, until);
    if from < until {
      RangeFrees(H, U, v, path, from, until, until);
    }
    RemovedTable(v, path, from, until);
  }

  lemma NothingInRange(v: Volume, path: Path, from: nat, until: nat)
    ensures from >= until ==> RemoveRange(v, path, from, until) == (v, []) && Freed(v, path, from, until) == []
  {
  }

  /** So the slot that a removal frees last is the slot that the next write uses first. */
  lemma LastFreedFirstUsed(H: Block -> Digest, U: iset<Block>, v: Volume, path: Path, from: nat, until: nat)
    requires Valid(H, U, v) && Freed(v, path, from, until) != []
    ensures SlotInBatch(RemoveBatch(v, path, from, until), 0) == Freed(v, path, from, until)[0]
  {
    hide Valid, RemoveBatch, Freed;
    RemovalFreesInFront(H, U, v, path, from, until);
  }

  // ---- A successful write ----

  /** No block of the file in (b, end) shares the object of block b. */
  predicate LastHolder(v: Volume, path: Path, b: nat, end: nat) {
    && Key(path, b) in v.byBlock
    && forall b' :: b < b' < end && Key(path, b') in v.byBlock ==> v.byBlock[Key(path, b')] != v.byBlock[Key(path, b)]
  }

  /** The slots of the objects that the first n blocks of a write held in v and that v' no
      longer has, the last freed first. */
  function Overwritten(v: Volume, v': Volume, path: Path, start: nat, end: nat, n: nat): seq<nat> {
    if n == 0 then []
    else
      var k, rest := Key(path, start + n - 1), Overwritten(v, v', path, start, end, n - 1);
      if LastHolder(v, path, start + n - 1, end) && v.byBlock[k] !in v'.infos
      then [Deref(v, v.byBlock[k]).slot] + rest else rest
  }

  ghost predicate Numbered(plan: seq<Entry>, start: nat) {
    forall i :: 0 <= i < |plan| ==> plan[i].blk == start + i
  }

  /** The block k is one of the first n of the write. */
  predicate Among(k: Key, path: Path, start: nat, n: nat) { k.path == path && start <= k.blk < start + n }

  /** file_to_master after the first n blocks were mapped. */
  ghost predicate MappedTable(t: map<Key, Ref>, t': map<Key, Ref>, path: Path, start: nat, plan: seq<Entry>, n: nat)
    requires n <= |plan|
  {
    && (forall k :: k in t' <==> k in t || Among(k, path, start, n))
    && (forall k :: k in t' ==> t'[k] == if Among(k, path, start, n) then plan[k.blk - start].info else t[k])
  }

  lemma {:induction false} MapTable(v: Volume, path: Path, start: nat, plan: seq<Entry>, n: nat)
    requires n <= |plan| && Numbered(plan, start)
    ensures var v' := MapAll(v, path, plan, [], n).0;
            MappedTable(v.byBlock, v'.byBlock, path, start, plan, n) && v'.free == v.free
  {
    hide MapBlock;
    if n > 0 {
      MapTable(v, path, start, plan, n - 1);
      var (v1, rel) := MapAll(v, path, plan, [], n - 1);
      MapsOne(v1, path, plan[n - 1], rel);
    }
  }

  lemma MapsOne(v: Volume, path: Path, e: Entry, rel: seq<nat>)
    ensures var v' := MapBlock(v, path, e, rel).0;
            v'.byBlock == v.byBlock[Key(path, e.blk) := e.info] && v'.free == v.free && v'.infos.Keys <= v.infos.Keys
  {
  }

  lemma {:induction false} MapShrinks(v: Volume, path: Path, plan: seq<Entry>, i: nat, n: nat)
    requires i <= n <= |plan|
    ensures MapAll(v, path, plan, [], n).0.infos.Keys <= MapAll(v, path, plan, [], i).0.infos.Keys
  {
    hide MapBlock;
    if i < n {
      MapShrinks(v, path, plan, i, n - 1);
      var (v1, rel) := MapAll(v, path, plan, [], n - 1);
      MapsOne(v1, path, plan[n - 1], rel);
    }
  }

  /** The state after the first n blocks of the write were mapped. */
  function Midway(v: Volume, path: Path, plan: seq<Entry>, n: nat): Volume
    requires n <= |plan|
  {
    MapAll(v, path, plan, [], n).0
  }

  lemma MidwayGood(H: Block -> Digest, U: iset<Block>, v: Volume, path: Path, start: nat, blocks: seq<Block>,
                   plan: seq<Entry>, n: nat)
    requires Good(H, U, Alone(v, WriterAt(Mapping, path, start, blocks, plan, [], 0, []))) && n <= |plan|
    ensures var rel := MapAll(v, path, plan, [], n).1;
            && Good(H, U, Alone(Midway(v, path, plan, n), WriterAt(Mapping, path, start, blocks, plan, [], n, rel)))
            && Extends(v, Midway(v, path, plan, n))
  {
    hide Good, Extends, View, MapAll;
    MapPhase(H, U, v, path, start, blocks, plan, n);
  }

  lemma SomeHolder(H: Block -> Digest, U: iset<Block>, sys: Sys, r: Ref) returns (h: Holder)
    requires Good(H, U, sys) && r in sys.v.infos
    ensures Holds(sys, r, h)
  {
    hide Inv, Holds;
    var g :| Inv(H, U, sys, g);
    CountsFromInv(H, U, sys, g);
    assert Holders(sys, r) != {};
    h :| h in Holders(sys, r);
  }

  /** What held r after step i leads to r in the end. */
  lemma {:induction false} HolderInTheEnd(v: Volume, path: Path, start: nat, blocks: seq<Block>, plan: seq<Entry>,
                                          i: nat, rel: seq<nat>, r: Ref, h: Holder) returns (k: Key)
    requires i < |plan| && Numbered(plan, start)
    requires Holds(Alone(Midway(v, path, plan, i + 1), WriterAt(Mapping, path, start, blocks, plan, [], i + 1, rel)),
                   r, h)
    requires forall b :: start + i < b < start + |plan| && Key(path, b) in v.byBlock ==> v.byBlock[Key(path, b)] != r
    ensures k in Midway(v, path, plan, |plan|).byBlock && Midway(v, path, plan, |plan|).byBlock[k] == r
  {
    hide MapAll, Numbered, Held;
    MapTable(v, path, start, plan, i + 1);
    MapTable(v, path, start, plan, |plan|);
    MappingHolds(WriterAt(Mapping, path, start, blocks, plan, [], i + 1, rel), h);
    k := if h.ByKey? then h.k else Key(path, start + h.i);
  }

  /** An object that something still holds after step i is there in the end, unless a later
      block of the write held it before. */
  lemma {:induction false} HeldToTheEnd(H: Block -> Digest, U: iset<Block>, v: Volume, path: Path, start: nat,
                                        blocks: seq<Block>, plan: seq<Entry>, i: nat, r: Ref)
    requires Good(H, U, Alone(v, WriterAt(Mapping, path, start, blocks, plan, [], 0, []))) && i < |plan| &&
             Numbered(plan, start)
    requires r in Midway(v, path, plan, i + 1).infos
    requires forall b :: start + i < b < start + |plan| && Key(path, b) in v.byBlock ==> v.byBlock[Key(path, b)] != r
    ensures r in Midway(v, path, plan, |plan|).infos
  {
    hide Good, MapAll, Extends, Midway, Holds, Numbered;
    var rel, all := MapAll(v, path, plan, [], i + 1).1, MapAll(v, path, plan, [], |plan|).1;
    MidwayGood(H, U, v, path, start, blocks, plan, i + 1);
    MidwayGood(H, U, v, path, start, blocks, plan, |plan|);
    var h := SomeHolder(H, U, Alone(Midway(v, path, plan, i + 1),
                                    WriterAt(Mapping, path, start, blocks, plan, [], i + 1, rel)), r);
    var k := HolderInTheEnd(v, path, start, blocks, plan, i, rel, r, h);
    MappedInFile(H, U, Alone(Midway(v, path, plan, |plan|),
                             WriterAt(Mapping, path, start, blocks, plan, [], |plan|, all)), k);
  }

  lemma MappingHolds(th: Thread, h: Holder)
    requires th.pc.Mapping?
    ensures h.ByEntry? && Held(th, h.i) ==> th.pos <= h.i < |th.plan|
  {
  }

  /** The block k leads to the object r in v and in v', to the same slot. */
  predicate LeadsTo(v: Volume, v': Volume, k: Key, r: Ref) {
    && k in v.byBlock && v.byBlock[k] == r && k in v'.byBlock && v'.byBlock[k] == r
    && r in v.infos && r in v'.infos && v'.infos[r].slot == v.infos[r].slot
  }

  predicate HeldOnce(v: Volume, r: Ref) { r in v.infos && v.infos[r].refs == 1 }

  /** When its turn comes, a block that the write overwrites leads where it did before. */
  lemma {:induction false} StillThere(H: Block -> Digest, U: iset<Block>, v: Volume, path: Path, start: nat,
                                      blocks: seq<Block>, plan: seq<Entry>, i: nat, r: Ref)
    requires Good(H, U, Alone(v, WriterAt(Mapping, path, start, blocks, plan, [], 0, []))) && i < |plan| &&
             Numbered(plan, start)
    requires Key(path, start + i) in v.byBlock && v.byBlock[Key(path, start + i)] == r
    ensures LeadsTo(v, Midway(v, path, plan, i), Key(path, start + i), r)
  {
    hide Good, MapAll, Extends, Midway, InFile;
    var k, vi, rel := Key(path, start + i), Midway(v, path, plan, i), MapAll(v, path, plan, [], i).1;
    var th0, th := WriterAt(Mapping, path, start, blocks, plan, [], 0, []),
        WriterAt(Mapping, path, start, blocks, plan, [], i, rel);
    MidwayGood(H, U, v, path, start, blocks, plan, i);
    MidwayTable(v, path, start, plan, i);
    MappedIsIndexed(H, U, Alone(v, th0), k);
    MappedInFile(H, U, Alone(v, th0), k);
    MappedInFile(H, U, Alone(vi, th), k);
    SameSlot(H, U, v, vi, th0, r);
  }

  lemma {:induction false} MidwayTable(v: Volume, path: Path, start: nat, plan: seq<Entry>, i: nat)
    requires i <= |plan| && Numbered(plan, start)
    ensures MappedTable(v.byBlock, Midway(v, path, plan, i).byBlock, path, start, plan, i)
  {
    hide MapAll, MappedTable;
    MapTable(v, path, start, plan, i);
  }

  lemma {:induction false} SharedLater(H: Block -> Digest, U: iset<Block>, v: Volume, path: Path, start: nat,
                                       blocks: seq<Block>, plan: seq<Entry>, i: nat, r: Ref, b: nat)
    requires Good(H, U, Alone(v, WriterAt(Mapping, path, start, blocks, plan, [], 0, []))) && i < |plan| &&
             Numbered(plan, start)
    requires Key(path, start + i) in v.byBlock && v.byBlock[Key(path, start + i)] == r
    requires start + i < b && Key(path, b) in v.byBlock && v.byBlock[Key(path, b)] == r
    ensures !HeldOnce(Midway(v, path, plan, i), r)
  {
    hide Good, MapAll, Extends, Midway;
    var vi, rel := Midway(v, path, plan, i), MapAll(v, path, plan, [], i).1;
    MidwayGood(H, U, v, path, start, blocks, plan, i);
    MidwayTable(v, path, start, plan, i);
    TwoHolders(H, U, Alone(vi, WriterAt(Mapping, path, start, blocks, plan, [], i, rel)), r,
               ByKey(Key(path, start + i)), ByKey(Key(path, b)));
  }

  /** An object with one holder left is held by no later block. */
  lemma {:induction false} OnceIsLast(H: Block -> Digest, U: iset<Block>, v: Volume, path: Path, start: nat,
                                      blocks: seq<Block>, plan: seq<Entry>, i: nat, r: Ref)
    requires Good(H, U, Alone(v, WriterAt(Mapping, path, start, blocks, plan, [], 0, []))) && i < |plan| &&
             Numbered(plan, start)
    requires Key(path, start + i) in v.byBlock && v.byBlock[Key(path, start + i)] == r
    ensures HeldOnce(Midway(v, path, plan, i), r) ==> LastHolder(v, path, start + i, start + |plan|)
  {
    hide Good, Midway, Numbered, HeldOnce;
    forall b | start + i < b < start + |plan| && Key(path, b) in v.byBlock && v.byBlock[Key(path, b)] == r
      ensures !HeldOnce(Midway(v, path, plan, i), r) {
      SharedLater(H, U, v, path, start, blocks, plan, i, r, b);
    }
  }

  lemma {:induction false} LastIsHeld(H: Block -> Digest, U: iset<Block>, v: Volume, path: Path, start: nat,
                                      blocks: seq<Block>, plan: seq<Entry>, i: nat, r: Ref)
    requires Good(H, U, Alone(v, WriterAt(Mapping, path, start, blocks, plan, [], 0, []))) && i < |plan| &&
             Numbered(plan, start)
    requires Key(path, start + i) in v.byBlock && v.byBlock[Key(path, start + i)] == r
    ensures LastHolder(v, path, start + i, start + |plan|) && r in Midway(v, path, plan, i + 1).infos ==>
              r in Midway(v, path, plan, |plan|).infos
  {
    hide Good, Midway, Numbered;
    if LastHolder(v, path, start + i, start + |plan|) && r in Midway(v, path, plan, i + 1).infos {
      HeldToTheEnd(H, U, v, path, start, blocks, plan, i, r);
    }
  }

  /** A step frees the object of its block exactly if the object is gone in the end and no
      later block of the write held it. */
  lemma {:induction false} FreesIff(H: Block -> Digest, U: iset<Block>, v: Volume, path: Path, start: nat,
                                    blocks: seq<Block>, plan: seq<Entry>, i: nat, r: Ref)
    requires Good(H, U, Alone(v, WriterAt(Mapping, path, start, blocks, plan, [], 0, []))) && i < |plan| &&
             Numbered(plan, start)
    requires Key(path, start + i) in v.byBlock && v.byBlock[Key(path, start + i)] == r
    ensures LeadsTo(v, Midway(v, path, plan, i), Key(path, start + i), r)
    ensures HeldOnce(Midway(v, path, plan, i), r) <==>
              r !in Midway(v, path, plan, |plan|).infos && LastHolder(v, path, start + i, start + |plan|)
  {
    hide Good, MapAll, Midway, Numbered, LastHolder, HeldOnce;
    StillThere(H, U, v, path, start, blocks, plan, i, r);
    GoneNext(v, path, start, plan, i, r);
    MidwayShrinks(v, path, plan, i + 1);
    OnceIsLast(H, U, v, path, start, blocks, plan, i, r);
    LastIsHeld(H, U, v, path, start, blocks, plan, i, r);
  }

  lemma {:induction false} GoneNext(v: Volume, path: Path, start: nat, plan: seq<Entry>, i: nat, r: Ref)
    requires i < |plan| && Numbered(plan, start) && LeadsTo(v, Midway(v, path, plan, i), Key(path, start + i), r)
    ensures r in Midway(v, path, plan, i + 1).infos <==> !HeldOnce(Midway(v, path, plan, i), r)
  {
    hide MapAll, MapBlock;
    DropsAtOne(Midway(v, path, plan, i), path, plan[i], MapAll(v, path, plan, [], i).1);
    MidwayNext(v, path, plan, i);
  }

  lemma {:induction false} MidwayShrinks(v: Volume, path: Path, plan: seq<Entry>, i: nat)
    requires i <= |plan|
    ensures Midway(v, path, plan, |plan|).infos.Keys <= Midway(v, path, plan, i).infos.Keys
  {
    hide MapAll;
    MapShrinks(v, path, plan, i, |plan|);
  }

  lemma MidwayNext(v: Volume, path: Path, plan: seq<Entry>, i: nat)
    requires i < |plan|
    ensures var (vi, rel) := MapAll(v, path, plan, [], i);
            MapAll(v, path, plan, [], i + 1) == MapBlock(vi, path, plan[i], rel) && Midway(v, path, plan, i) == vi
  {
    hide MapBlock;
  }

  lemma DropsAtOne(v: Volume, path: Path, e: Entry, rel: seq<nat>)
    requires Key(path, e.blk) in v.byBlock && v.byBlock[Key(path, e.blk)] in v.infos
    ensures var r, (v', rel') := v.byBlock[Key(path, e.blk)], MapBlock(v, path, e, rel);
            && (r in v'.infos <==> v.infos[r].refs != 1)
            && rel' == if v.infos[r].refs == 1 then [v.infos[r].slot] + rel else rel
  {
  }

  lemma SameSlot(H: Block -> Digest, U: iset<Block>, v: Volume, v': Volume, th: Thread, r: Ref)
    requires Good(H, U, Alone(v, th)) && Extends(v, v') && Indexed(v, r) && r in v'.infos
    ensures r in v.infos && v'.infos[r].slot == v.infos[r].slot
  {
    hide SlotInv, RefInv, ContentInv, ThreadsOk, KeepersOk, Content;
    var g :| Inv(H, U, Alone(v, th), g);
  }

  lemma {:induction false} MapFrees(H: Block -> Digest, U: iset<Block>, v: Volume, path: Path, start: nat,
                                    blocks: seq<Block>, plan: seq<Entry>, n: nat)
    requires Good(H, U, Alone(v, WriterAt(Mapping, path, start, blocks, plan, [], 0, []))) && n <= |plan| &&
             Numbered(plan, start)
    ensures MapAll(v, path, plan, [], n).1 ==
              Overwritten(v, Midway(v, path, plan, |plan|), path, start, start + |plan|, n)
  {
    hide Good, MapBlock, LastHolder, Midway;
    if n > 0 {
      var i := n - 1;
      MapFrees(H, U, v, path, start, blocks, plan, i);
      MidwayNext(v, path, plan, i);
      var (vi, rel) := MapAll(v, path, plan, [], i);
      MapTable(v, path, start, plan, i);
      assert start + n - 1 == start + i;
      if Key(path, start + i) in v.byBlock {
        FreesIff(H, U, v, path, start, blocks, plan, i, v.byBlock[Key(path, start + i)]);
        DropsAtOne(vi, path, plan[i], rel);
      } else {
        MapsFresh(vi, path, plan[i], rel);
        HolderIsMapped(v, path, start + i, start + |plan|);
      }
    }
  }

  lemma HolderIsMapped(v: Volume, path: Path, b: nat, end: nat)
    ensures LastHolder(v, path, b, end) ==> Key(path, b) in v.byBlock
  {
  }

  lemma MapsFresh(v: Volume, path: Path, e: Entry, rel: seq<nat>)
    requires Key(path, e.blk) !in v.byBlock
    ensures MapBlock(v, path, e, rel).1 == rel
  {
  }

  /** After a successful write the free list is what the batch left of it, and in front of
      that exactly the slots whose contents the write overwrote for good, the last first. */
  lemma WriteFreesInFront(H: Block -> Digest, U: iset<Block>, v: Volume, path: Path, start: nat, blocks: seq<Block>,
                          io: nat -> int)
    requires Valid(H, U, v) && Within(U, blocks) && blocks != []
    requires WriteBlocks(H, v, path, start, blocks, io).1 >= 0
    ensures var v', misses := WriteBlocks(H, v, path, start, blocks, io).0, MissCount(Prepare(H, v, start, blocks).1);
            v'.free == Overwritten(v, v', path, start, start + |blocks|, |blocks|) + v.free[Min(misses, |v.free|)..]
  {
    hide Valid, Follows, View, Prepare, FlushAll, PublishAll, MapAll, MissCount, DecideAll, LabelsFit, KindsFit,
         SharesFit,
         RaceFree, PublishedUpTo, Overwritten;
    var (v1, plan) := Prepare(H, v, start, blocks);
    var n := |plan|;
    PreparePhase(H, U, v, path, start, blocks);
    PrepareFits(H, v, start, blocks);
    PrepareStorage(H, v, start, blocks);
    PrepareMisses(H, v, start, blocks);
    var j := FlushPhase(H, U, v, v1, path, start, blocks, plan, 0, io, 0);
    FlushTables(v1, plan, 0, io, 0);
    var v2 := FlushAll(v1, plan, 0, io, 0).0;
    KindsAreRaceFree(v, v2, plan);
    StartPublishing(H, U, v, v2, path, start, blocks, plan, j);
    PublishPhase(H, U, v, v2, path, start, blocks, plan, n);
    var vp := PublishAll(v2, plan, n).0;
    StartMapping(H, U, v, vp, path, start, blocks, plan);
    PlanNumbered(H, start, blocks, plan);
    FollowsGood(H, U, v, vp, WriterAt(Mapping, path, start, blocks, plan, [], 0, []));
    MapFrees(H, U, vp, path, start, blocks, plan, n);
    MapTable(vp, path, start, plan, n);
    OnlyPublished(v2, plan, vp);
    var v' := WriteBlocks(H, v, path, start, blocks, io).0;
    SameOverwritten(H, U, v, vp, v', Midway(vp, path, plan, n), path, start, start + n, n);
  }

  lemma FollowsGood(H: Block -> Digest, U: iset<Block>, v: Volume, v': Volume, th: Thread)
    requires Follows(H, U, v, v', th)
    ensures Good(H, U, Alone(v', th)) && Extends(v, v')
  {
  }

  lemma PlanNumbered(H: Block -> Digest, start: nat, blocks: seq<Block>, plan: seq<Entry>)
    requires LabelsFit(H, start, blocks, plan)
    ensures Numbered(plan, start)
  {
  }

  lemma OnlyPublished(v: Volume, plan: seq<Entry>, v': Volume)
    requires PublishedUpTo(v, plan, |plan|, v')
    ensures v'.byBlock == v.byBlock && v'.free == v.free && v'.infos == v.infos
  {
  }

  /** The slots of the objects held before the write are the same when it comes to map. */
  lemma {:induction false} SameOverwritten(H: Block -> Digest, U: iset<Block>, v: Volume, vp: Volume, v': Volume,
                                           vm: Volume, path: Path, start: nat, end: nat, n: nat)
    requires Valid(H, U, v) && Extends(v, vp) && vp.byBlock == v.byBlock && v'.infos.Keys == vm.infos.Keys
    requires forall k :: k in v.byBlock ==> v.byBlock[k] in vp.infos
    ensures Overwritten(v, v', path, start, end, n) == Overwritten(vp, vm, path, start, end, n)
  {
    hide Valid, SlotsSettled, StoredOk, Content;
    if n > 0 {
      SameOverwritten(H, U, v, vp, v', vm, path, start, end, n - 1);
      ValidIsSettled(H, U, v);
      var k := Key(path, start + n - 1);
      if k in v.byBlock {
        assert Indexed(v, v.byBlock[k]);
      }
    }
  }
}
