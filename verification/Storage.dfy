/** How large the master file gets. */
module Storage {
  import opened MasterFile
  import opened Volumes
  import opened Invariant
  import opened Requests
  import opened Solo
  import opened Writes
  import opened Aborts
  import opened Quiescence
  import opened Removals
  import opened FileSystem

  /** The distinct blocks of a request that no file contains yet. */
  function NewBlocks(v: Volume, blocks: seq<Block>): set<seq<Byte>> {
    set b | b in blocks && b !in View(v).Values
  }

  lemma ViewedIffIndexed(H: Block -> Digest, U: iset<Block>, v: Volume, b: Block)
    requires Valid(H, U, v) && CollisionFree(H, U) && b in U
    ensures b in View(v).Values <==> H(b) in v.byHash
  {
    hide Valid, SlotsSettled, BlockAt, InFile;
    ValidIsSettled(H, U, v);
    if H(b) in v.byHash {
      var r := v.byHash[H(b)];
      assert StoredOk(H, U, v, v.infos[r]);
      var k :| k in KeysTo(v, r);
      assert View(v)[k] == b;
    }
    if b in View(v).Values {
      var k :| k in View(v) && View(v)[k] == b;
      var r := v.byBlock[k];
      assert StoredOk(H, U, v, v.infos[r]) && Indexed(v, r);
    }
  }

  /** Pass 1 misses exactly the blocks that are new to the whole file system. */
  lemma {:induction false} MissesAreNew(H: Block -> Digest, U: iset<Block>, v: Volume, start: nat, blocks: seq<Block>,
                                        n: nat)
    requires Valid(H, U, v) && CollisionFree(H, U) && Within(U, blocks) && n <= |blocks|
    ensures MissCount(DecideAll(H, v, start, blocks, n).1) == |NewBlocks(v, blocks[..n])|
  {
    hide Valid, View, CollisionFree, Decide, MissCount, NewBlocks;
    NoNewBlocks(v, blocks);
    NoMisses();
    if n > 0 {
      MissesAreNew(H, U, v, start, blocks, n - 1);
      var (v1, plan) := DecideAll(H, v, start, blocks, n - 1);
      var (v2, e) := Decide(H, v1, plan, start + (n - 1), blocks[n - 1]);
      MissCountSnoc(plan, e);
      MissIffNew(H, U, v, start, blocks, n);
      NewBlocksSnoc(v, blocks, n);
    }
  }

  lemma NoNewBlocks(v: Volume, blocks: seq<Block>)
    ensures NewBlocks(v, blocks[..0]) == {}
  {
  }

  lemma NewBlocksSnoc(v: Volume, blocks: seq<Block>, n: nat)
    requires 0 < n <= |blocks|
    ensures var b, before := blocks[n - 1], NewBlocks(v, blocks[..n - 1]);
            |NewBlocks(v, blocks[..n])| == |before| + if b !in View(v).Values && b !in blocks[..n - 1] then 1 else 0
  {
    hide View;
    var b, before, after := blocks[n - 1], NewBlocks(v, blocks[..n - 1]), NewBlocks(v, blocks[..n]);
    assert blocks[..n] == blocks[..n - 1] + [b];
    if b !in View(v).Values && b !in blocks[..n - 1] {
      assert after == before + {b} && b !in before;
    } else {
      assert after == before;
    }
  }

  lemma NoMisses()
    ensures MissCount([]) == 0
  {
  }

  lemma MissIffNew(H: Block -> Digest, U: iset<Block>, v: Volume, start: nat, blocks: seq<Block>, n: nat)
    requires Valid(H, U, v) && CollisionFree(H, U) && Within(U, blocks) && 0 < n <= |blocks|
    ensures DecideAll(H, v, start, blocks, n).1[n - 1].kind.Miss? <==>
              blocks[n - 1] !in View(v).Values && blocks[n - 1] !in blocks[..n - 1]
  {
    hide Valid, View, DecideAll;
    DecideFits(H, v, start, blocks, n);
    var plan := DecideAll(H, v, start, blocks, n).1;
    ViewedIffIndexed(H, U, v, blocks[n - 1]);
    assert IsFirst(plan, n - 1) <==> blocks[n - 1] !in blocks[..n - 1] by {
      assert forall j :: 0 <= j < n - 1 ==> (plan[j].hash == plan[n - 1].hash <==> blocks[j] == blocks[n - 1]);
    }
  }

  // ---- The append counter ----

  lemma {:induction false} PublishNext(v: Volume, plan: seq<Entry>, n: nat)
    requires n <= |plan|
    ensures PublishAll(v, plan, n).0.next == v.next && PublishAll(v, plan, n).0.master == v.master
  {
    if n > 0 {
      PublishNext(v, plan, n - 1);
    }
  }

  lemma {:induction false} MapNext(v: Volume, path: Path, plan: seq<Entry>, rel: seq<nat>, n: nat)
    requires n <= |plan|
    ensures MapAll(v, path, plan, rel, n).0.next == v.next && MapAll(v, path, plan, rel, n).0.master == v.master
  {
    if n > 0 {
      MapNext(v, path, plan, rel, n - 1);
    }
  }

  lemma {:induction false} UnhitNext(v: Volume, plan: seq<Entry>, n: nat)
    requires n <= |plan|
    ensures UnhitAll(v, plan, n).0.next == v.next
  {
    if n > 0 {
      UnhitNext(v, plan, n - 1);
    }
  }

  lemma {:induction false} UnmissNext(v: Volume, plan: seq<Entry>, n: nat)
    requires n <= |plan|
    ensures UnmissAll(v, plan, n).next == v.next
  {
    if n > 0 {
      UnmissNext(v, plan, n - 1);
    }
  }

  lemma WriteNext(H: Block -> Digest, v: Volume, path: Path, start: nat, blocks: seq<Block>, io: nat -> int)
    ensures WriteBlocks(H, v, path, start, blocks, io).0.next == Prepare(H, v, start, blocks).0.next
  {
    hide Prepare, FlushAll, PublishAll, MapAll, UnhitAll, UnmissAll;
    var (v1, plan) := Prepare(H, v, start, blocks);
    FlushTables(v1, plan, 0, io, 0);
    var v2 := FlushAll(v1, plan, 0, io, 0).0;
    PublishNext(v2, plan, |plan|);
    var (v3, p3, rel3) := PublishAll(v2, plan, |plan|);
    MapNext(v3, path, p3, rel3, |plan|);
    UnhitNext(v2, plan, |plan|);
    var (v4, rel4) := UnhitAll(v2, plan, |plan|);
    UnmissNext(Release(v4, rel4), plan, |plan|);
  }

  /** Slots a request needs at once: one per distinct block stored so far and one per
      block that is new. */
  function Demand(v: Volume, op: Op): nat {
    if op.OpWrite? && op.buf != [] &&
        |op.buf| % BLOCK_SIZE == 0 then |View(v).Values| + |NewBlocks(v, Chop(op.buf))| else 0
  }

  lemma DoNext(H: Block -> Digest, U: iset<Block>, v: Volume, op: Op)
    requires FsValid(H, U, v) && CollisionFree(H, U) && OpWithin(U, op)
    ensures Do(H, v, op).0.next == Max(v.next, Demand(v, op))
  {
    hide Valid, View, SizesFit, WriteBlocks, CollisionFree, Unlink, Prepare, NewBlocks, DecideAll, MissCount;
    StorageIsDistinctContents(H, U, v);
    match op
    case OpWrite(path, offset, buf, io) =>
      if buf != [] && |buf| % BLOCK_SIZE == 0 {
        var start, blocks := offset / BLOCK_SIZE, Chop(buf);
        WriteNext(H, v, path, start, blocks, io);
        PrepareStorage(H, v, start, blocks);
        MissesAreNew(H, U, v, start, blocks, |blocks|);
        assert blocks[..|blocks|] == blocks;
      }
    case OpUnlink(path) => UnlinkForgets(H, U, v, path);
    case OpTruncate(path, size) =>
      if 0 <= size && size % BLOCK_SIZE == 0 {
        TruncateKeepsPrefix(H, U, v, path, size);
      }
  }

  /** The largest demand any request of the run made when it was issued. */
  function PeakDemand(H: Block -> Digest, ops: seq<Op>): nat {
    if ops == [] then 0
    else var n := |ops| - 1; Max(PeakDemand(H, ops[..n]), Demand(DoAll(H, EMPTY, ops[..n]), ops[n]))
  }

  /** From an empty volume, the master never grows past the peak demand and always
      reaches it: no slot is ever leaked and none is appended while one is free. */
  lemma {:induction false} MasterIsPeakDemand(H: Block -> Digest, U: iset<Block>, ops: seq<Op>)
    requires CollisionFree(H, U) && forall i :: 0 <= i < |ops| ==> OpWithin(U, ops[i])
    ensures DoAll(H, EMPTY, ops).next == PeakDemand(H, ops)
  {
    hide FsValid, CollisionFree, OpWithin, Do, Demand;
    if ops != [] {
      var n := |ops| - 1;
      MasterIsPeakDemand(H, U, ops[..n]);
      EmptyIsValid(H, U);
      FilesReadBack(H, U, EMPTY, ops[..n]);
      DoNext(H, U, DoAll(H, EMPTY, ops[..n]), ops[n]);
    }
  }
}
