/** A request that succeeds leaves the master file as long as the append counter says, if
    it found it so. */
module CounterLength {
  import opened MasterFile
  import opened Volumes
  import opened Protocol
  import opened Invariant
  import opened Safety
  import opened Requests
  import opened Solo
  import opened Writes
  import opened Aborts
  import opened Quiescence
  import opened Removals
  import opened FlushPlan
  import opened FileSystem
  import opened Storage

  predicate Counted(v: Volume) { |v.master| == v.next * BLOCK_SIZE }

  /** One write per MISS: the file never shrinks, ends up holding every slot written, and
      ends no later than a bound on the slots. */
  lemma {:induction false} WriteEachLength(m: seq<Byte>, plan: seq<Entry>, i: nat, bound: nat)
    requires i <= |plan| && |m| <= bound * BLOCK_SIZE
    requires forall j :: i <= j < |plan| && plan[j].kind.Miss? ==> plan[j].slot < bound
    ensures |m| <= |WriteEach(m, plan, i)| <= bound * BLOCK_SIZE
    ensures forall j :: i <= j < |plan| && plan[j].kind.Miss? ==> InFile(WriteEach(m, plan, i), plan[j].slot)
    decreases |plan| - i
  {
    hide Pwrite;
    if i < |plan| {
      if plan[i].kind.Hit? {
        WriteEachLength(m, plan, i + 1, bound);
      } else {
        PwriteBlockLength(m, plan[i].slot, plan[i].payload, bound);
        WriteEachLength(Pwrite(m, plan[i].slot * BLOCK_SIZE, plan[i].payload), plan, i + 1, bound);
      }
    }
  }

  lemma PwriteBlockLength(m: seq<Byte>, slot: nat, b: Block, bound: nat)
    requires |m| <= bound * BLOCK_SIZE && slot < bound
    ensures var m' := Pwrite(m, slot * BLOCK_SIZE, b); |m| <= |m'| <= bound * BLOCK_SIZE && InFile(m', slot)
  {
    assert (slot + 1) * BLOCK_SIZE <= bound * BLOCK_SIZE;
  }

  predicate Planned(plan: seq<Entry>, q: nat) {
    exists i :: 0 <= i < |plan| && plan[i].kind.Miss? && plan[i].slot == q
  }

  /** Every slot that a write appends is the slot of one of its misses, and every miss has
      a slot below the counter. */
  lemma AppendedArePlanned(H: Block -> Digest, U: iset<Block>, v: Volume, path: Path, start: nat, blocks: seq<Block>)
    requires Valid(H, U, v) && Within(U, blocks) && blocks != []
    ensures var (v1, plan) := Prepare(H, v, start, blocks);
            && v.next <= v1.next
            && (forall i :: 0 <= i < |plan| && plan[i].kind.Miss? ==> plan[i].slot < v1.next)
            && (forall q: nat :: v.next <= q < v1.next ==> Planned(plan, q))
  {
    hide Valid, Good, Extends, View, Prepare, LabelsFit, KindsFit, SharesFit, DecideAll, MissCount, Owns, Owned, NoDup;
    var (v1, plan) := Prepare(H, v, start, blocks);
    PreparePhase(H, U, v, path, start, blocks);
    PrepareFits(H, v, start, blocks);
    PrepareStorage(H, v, start, blocks);
    var th := WriterAt(Flushing, path, start, blocks, plan, [], 0, []);
    GoodPartition(H, U, Alone(v1, th));
    forall i: nat | i < |plan| && plan[i].kind.Miss? ensures plan[i].slot < v1.next {
      FlushingOwns(v1, path, start, blocks, plan, i);
    }
    forall q: nat | v.next <= q < v1.next ensures Planned(plan, q) {
      assert Owned(Alone(v1, th), q);
      NewIsUnpublished(H, U, v, v1, path, start, blocks, plan, q);
    }
  }

  lemma GoodPartition(H: Block -> Digest, U: iset<Block>, sys: Sys)
    requires Good(H, U, sys)
    ensures SlotsPartitioned(sys)
  {
    hide Inv, SlotsPartitioned;
    var g :| Inv(H, U, sys, g);
    PartitionFromInv(H, U, sys, g);
  }

  lemma FlushingOwns(v: Volume, path: Path, start: nat, blocks: seq<Block>, plan: seq<Entry>, i: nat)
    requires i < |plan| && plan[i].kind.Miss?
    ensures Owns(Alone(v, WriterAt(Flushing, path, start, blocks, plan, [], 0, [])), plan[i].slot, Unpublished(0, i))
  {
  }

  lemma NewIsUnpublished(H: Block -> Digest, U: iset<Block>, v: Volume, v1: Volume, path: Path, start: nat,
                         blocks: seq<Block>,
                         plan: seq<Entry>, q: nat)
    requires Valid(H, U, v) && Extends(v, v1) && v1.byHash == v.byHash && q >= v.next
    requires forall f :: f in v1.free ==> f in v.free
    requires Owned(Alone(v1, WriterAt(Flushing, path, start, blocks, plan, [], 0, [])), q)
    ensures Planned(plan, q)
  {
    hide Valid, IsLiveSlot, StoredOk, KeysTo, NoDup, Content;
    ValidIsSettled(H, U, v);
    var sys := Alone(v1, WriterAt(Flushing, path, start, blocks, plan, [], 0, []));
    var who :| Owns(sys, q, who);
  }

  /** A successful write keeps the length of the master file equal to the counter. */
  lemma WriteCounts(H: Block -> Digest, U: iset<Block>, v: Volume, path: Path, start: nat, blocks: seq<Block>,
                    io: nat -> int)
    requires Valid(H, U, v) && Within(U, blocks) && blocks != [] && Counted(v)
    requires WriteBlocks(H, v, path, start, blocks, io).1 >= 0
    ensures Counted(WriteBlocks(H, v, path, start, blocks, io).0)
  {
    hide Valid, Prepare, FlushAll, PublishAll, MapAll, WriteEach, InFile;
    var (v1, plan) := Prepare(H, v, start, blocks);
    AppendedArePlanned(H, U, v, path, start, blocks);
    PreparedMaster(H, v, start, blocks);
    FlushIsWriteEach(v1, plan, 0, io, 0);
    FlushTables(v1, plan, 0, io, 0);
    var v2 := FlushAll(v1, plan, 0, io, 0).0;
    PublishNext(v2, plan, |plan|);
    var (v3, p3, rel3) := PublishAll(v2, plan, |plan|);
    MapNext(v3, path, p3, rel3, |plan|);
    WriteEachLength(v1.master, plan, 0, v1.next);
    if v.next < v1.next {
      assert Planned(plan, v1.next - 1);
      LastInFile(v2.master, v1.next);
    }
  }

  lemma PreparedMaster(H: Block -> Digest, v: Volume, start: nat, blocks: seq<Block>)
    ensures Prepare(H, v, start, blocks).0.master == v.master
  {
    hide Prepare, LabelsFit, KindsFit, SharesFit;
    PrepareFits(H, v, start, blocks);
  }

  lemma LastInFile(m: seq<Byte>, next: nat)
    requires next > 0 && InFile(m, next - 1)
    ensures |m| >= next * BLOCK_SIZE
  {
  }

  /** So does every request that is not a failed write. */
  lemma DoCounts(H: Block -> Digest, U: iset<Block>, v: Volume, op: Op)
    requires FsValid(H, U, v) && OpWithin(U, op) && Counted(v)
    requires Do(H, v, op).1 >= 0 || Do(H, v, op).0 == v
    ensures Counted(Do(H, v, op).0)
  {
    hide Valid, SizesFit, View, WriteBlocks, Unlink, Without, Prefix;
    match op
    case OpWrite(path, offset, buf, io) =>
      if buf != [] && |buf| % BLOCK_SIZE == 0 && Do(H, v, op).1 >= 0 {
        WriteCounts(H, U, v, path, offset / BLOCK_SIZE, Chop(buf), io);
      }
    case OpUnlink(path) => UnlinkForgets(H, U, v, path);
    case OpTruncate(path, size) =>
      if size >= 0 && size % BLOCK_SIZE == 0 {
        TruncateKeepsPrefix(H, U, v, path, size);
      }
  }
}
