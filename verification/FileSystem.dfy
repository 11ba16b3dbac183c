/** Sequences of whole requests against one volume. */
module FileSystem {
  import opened MasterFile
  import opened Volumes
  import opened Invariant
  import opened Requests
  import opened Solo
  import opened Writes
  import opened Aborts
  import opened Quiescence
  import opened Removals
  import opened Deduplication

  datatype Op =
    | OpWrite(path: Path, offset: nat, buf: seq<Byte>, io: nat -> int)
    | OpUnlink(path: Path)
    | OpTruncate(path: Path, size: int)

  function Do(H: Block -> Digest, v: Volume, op: Op): (Volume, int) {
    match op
    case OpWrite(path, offset, buf, io) => Write(H, v, path, buf, offset, io)
    case OpUnlink(path) => (Unlink(v, path), 0)
    case OpTruncate(path, size) => Truncate(v, path, size)
  }

  function DoAll(H: Block -> Digest, v: Volume, ops: seq<Op>): Volume {
    if ops == [] then v else Do(H, DoAll(H, v, ops[..|ops| - 1]), ops[|ops| - 1]).0
  }

  /** What a user sees: the blocks of all files, and their sizes. */
  datatype Contents = Contents(blocks: map<Key, seq<Byte>>, sizes: map<Path, nat>)

  function Seen(v: Volume): Contents { Contents(View(v), v.sizes) }

  /** What a request means for plain maps of blocks and sizes, given the code it returned. */
  function Meaning(m: Contents, op: Op, ret: int): Contents {
    match op
    case OpWrite(path, offset, buf, _) =>
      if ret <= 0 || |buf| % BLOCK_SIZE != 0 then m
      else
        var start := offset / BLOCK_SIZE;
        Contents(m.blocks + Puts(path, start, Chop(buf)), SizesAfterWrite(m.sizes, path, start * BLOCK_SIZE + |buf|))
    case OpUnlink(path) => Contents(Without(m.blocks, path), m.sizes - {path})
    case OpTruncate(path, size) =>
      if ret < 0 || size < 0 then m
      else
        Contents(Prefix(m.blocks, path, size / BLOCK_SIZE),
                 if size < SizeOf(m.sizes, path) then m.sizes[path := size] else m.sizes)
  }

  ghost predicate OpWithin(U: iset<Block>, op: Op) {
    op.OpWrite? && |op.buf| % BLOCK_SIZE == 0 ==> Within(U, Chop(op.buf))
  }

  ghost predicate FsValid(H: Block -> Digest, U: iset<Block>, v: Volume) {
    Valid(H, U, v) && SizesFit(v)
  }

  lemma {:induction false} PublishSizes(v: Volume, plan: seq<Entry>, n: nat)
    requires n <= |plan|
    ensures PublishAll(v, plan, n).0.sizes == v.sizes
  {
    if n > 0 {
      PublishSizes(v, plan, n - 1);
    }
  }

  lemma {:induction false} MapSizes(v: Volume, path: Path, plan: seq<Entry>, rel: seq<nat>, n: nat)
    requires n <= |plan|
    ensures MapAll(v, path, plan, rel, n).0.sizes == v.sizes
  {
    if n > 0 {
      MapSizes(v, path, plan, rel, n - 1);
    }
  }

  /** A successful write records the larger of the old size and the end of the write. */
  lemma WriteSizes(H: Block -> Digest, v: Volume, path: Path, start: nat, blocks: seq<Block>, io: nat -> int)
    requires WriteBlocks(H, v, path, start, blocks, io).1 >= 0
    ensures WriteBlocks(H, v, path, start, blocks, io).0.sizes ==
              SizesAfterWrite(v.sizes, path, (start + |blocks|) * BLOCK_SIZE)
  {
    hide Prepare, FlushAll, PublishAll, MapAll, LabelsFit, KindsFit, SharesFit;
    PrepareFits(H, v, start, blocks);
    var (v1, plan) := Prepare(H, v, start, blocks);
    FlushTables(v1, plan, 0, io, 0);
    var v2 := FlushAll(v1, plan, 0, io, 0).0;
    PublishSizes(v2, plan, |plan|);
    var (v3, p3, rel3) := PublishAll(v2, plan, |plan|);
    MapSizes(v3, path, p3, rel3, |plan|);
  }

  lemma ViewKeys(v: Volume)
    ensures View(v).Keys == v.byBlock.Keys
  {
  }

  lemma WriteFits(H: Block -> Digest, U: iset<Block>, v: Volume, path: Path, start: nat, blocks: seq<Block>,
                  io: nat -> int)
    requires FsValid(H, U, v) && Within(U, blocks) && blocks != []
    requires WriteBlocks(H, v, path, start, blocks, io).1 >= 0
    ensures FsValid(H, U, WriteBlocks(H, v, path, start, blocks, io).0)
  {
    hide Valid, WriteBlocks, View, Chosen, KeysOf;
    WriteStores(H, U, v, path, start, blocks, io);
    WriteSizes(H, v, path, start, blocks, io);
    var v' := WriteBlocks(H, v, path, start, blocks, io).0;
    ViewKeys(v);
    ViewKeys(v');
    forall k | k in v'.byBlock ensures k.path in v'.sizes && (k.blk + 1) * BLOCK_SIZE <= v'.sizes[k.path] {
      assert k in v.byBlock || (k.path == path && k.blk < start + |blocks|);
    }
  }

  /** Each request keeps the invariant, whatever it returns and whether or not hashes collide. */
  lemma DoKeeps(H: Block -> Digest, U: iset<Block>, v: Volume, op: Op)
    requires FsValid(H, U, v) && OpWithin(U, op)
    ensures FsValid(H, U, Do(H, v, op).0)
  {
    hide Valid, View, SizesFit, WriteBlocks, Without, Prefix, Unlink;
    match op
    case OpWrite(path, offset, buf, io) =>
      if buf != [] && |buf| % BLOCK_SIZE == 0 {
        var start, blocks := offset / BLOCK_SIZE, Chop(buf);
        if WriteBlocks(H, v, path, start, blocks, io).1 < 0 {
          WriteAborts(H, U, v, path, start, blocks, io);
          SameTablesFit(v, WriteBlocks(H, v, path, start, blocks, io).0);
        } else {
          WriteFits(H, U, v, path, start, blocks, io);
        }
      }
    case OpUnlink(path) => UnlinkForgets(H, U, v, path);
    case OpTruncate(path, size) =>
      if 0 <= size && size % BLOCK_SIZE == 0 {
        TruncateKeepsPrefix(H, U, v, path, size);
      }
  }

  /** Each request keeps the invariant and means to contents and sizes what it says. */
  lemma DoRefines(H: Block -> Digest, U: iset<Block>, v: Volume, op: Op)
    requires FsValid(H, U, v) && CollisionFree(H, U) && OpWithin(U, op)
    ensures FsValid(H, U, Do(H, v, op).0)
    ensures Seen(Do(H, v, op).0) == Meaning(Seen(v), op, Do(H, v, op).1)
  {
    hide Valid, View, SizesFit, WriteBlocks, Clashes, CollisionFree, Without, Prefix, Unlink;
    DoKeeps(H, U, v, op);
    match op
    case OpWrite(path, offset, buf, io) =>
      if buf != [] && |buf| % BLOCK_SIZE == 0 {
        var start, blocks := offset / BLOCK_SIZE, Chop(buf);
        WriteReturns(H, v, path, start, blocks, io);
        if WriteBlocks(H, v, path, start, blocks, io).1 < 0 {
          WriteAborts(H, U, v, path, start, blocks, io);
        } else {
          NoCollisionNoClash(H, U, v, blocks);
          WriteIsFaithful(H, U, v, path, start, blocks, io);
          WriteSizes(H, v, path, start, blocks, io);
        }
      }
    case OpUnlink(path) => UnlinkForgets(H, U, v, path);
    case OpTruncate(path, size) =>
      if 0 <= size && size % BLOCK_SIZE == 0 {
        TruncateKeepsPrefix(H, U, v, path, size);
      }
  }

  lemma SameTablesFit(v: Volume, v': Volume)
    requires SizesFit(v) && v'.byBlock == v.byBlock && v'.sizes == v.sizes
    ensures SizesFit(v')
  {
  }

  lemma WriteReturns(H: Block -> Digest, v: Volume, path: Path, start: nat, blocks: seq<Block>, io: nat -> int)
    ensures var ret := WriteBlocks(H, v, path, start, blocks, io).1; ret < 0 || ret == |blocks| * BLOCK_SIZE
  {
    hide Prepare, FlushAll, Rollback, Consolidate;
  }

  /** The code that each request returns, and that a refused one changes nothing. */
  lemma DoReturns(H: Block -> Digest, v: Volume, op: Op)
    ensures var (v', ret) := Do(H, v, op);
            match op
            case OpWrite(_, _, buf, _) =>
              && (ret == 0 <==> |buf| == 0) && (|buf| % BLOCK_SIZE != 0 ==> ret == -EOPNOTSUPP)
              && (|buf| % BLOCK_SIZE == 0 && ret > 0 ==> ret == |buf|)
              && (ret == 0 || |buf| % BLOCK_SIZE != 0 ==> v' == v)
            case OpUnlink(_) => ret == 0
            case OpTruncate(_, size) =>
              && ret == (if size >= 0 && size % BLOCK_SIZE == 0 then 0 else -EOPNOTSUPP)
              && (ret != 0 ==> v' == v)
  {
    hide WriteBlocks, Unlink;
    if op.OpWrite? && op.buf != [] && |op.buf| % BLOCK_SIZE == 0 {
      WriteReturns(H, v, op.path, op.offset / BLOCK_SIZE, Chop(op.buf), op.io);
    }
  }

  function Meanings(H: Block -> Digest, v: Volume, ops: seq<Op>): Contents {
    if ops == [] then Seen(v)
    else
      var n := |ops| - 1;
      Meaning(Meanings(H, v, ops[..n]), ops[n], Do(H, DoAll(H, v, ops[..n]), ops[n]).1)
  }

  /** Over every sequence of requests, successful, refused or failed half-way, the files
      contain, and have the sizes of, exactly what the same sequence makes of plain maps. */
  lemma {:induction false} FilesReadBack(H: Block -> Digest, U: iset<Block>, v: Volume, ops: seq<Op>)
    requires FsValid(H, U, v) && CollisionFree(H, U) && forall i :: 0 <= i < |ops| ==> OpWithin(U, ops[i])
    ensures FsValid(H, U, DoAll(H, v, ops)) && Seen(DoAll(H, v, ops)) == Meanings(H, v, ops)
  {
    hide FsValid, CollisionFree, OpWithin, Do, Meaning, Seen;
    if ops != [] {
      var n := |ops| - 1;
      FilesReadBack(H, U, v, ops[..n]);
      DoRefines(H, U, DoAll(H, v, ops[..n]), ops[n]);
    }
  }

  lemma EmptyIsValid(H: Block -> Digest, U: iset<Block>)
    ensures FsValid(H, U, EMPTY)
  {
    assert Settled(H, U, EMPTY);
    SettledIsValid(H, U, EMPTY);
  }

  // ---- Unlinking everything ----

  ghost predicate Permutation(s: seq<nat>, n: nat) {
    |s| == n && NoDup(s) && forall q: nat :: q in s <==> q < n
  }

  lemma NothingMapped(H: Block -> Digest, U: iset<Block>, v: Volume)
    requires Valid(H, U, v) && v.byBlock == map[]
    ensures v.byHash == map[] && v.infos == map[] && Permutation(v.free, v.next)
  {
    hide Valid, NoDup;
    ValidIsSettled(H, U, v);
    assert forall r :: KeysTo(v, r) == {};
    assert v.infos == map[];
    assert v.byHash == map[];
    SlotAccounting(v);
    forall q: nat ensures q in v.free <==> q < v.next { SlotIsOne(v, q); }
  }

  /** Unlinking every file leaves both tables empty and every slot of the master free. */
  lemma {:induction false} UnlinkAll(H: Block -> Digest, U: iset<Block>, v: Volume, paths: seq<Path>)
    requires FsValid(H, U, v) && forall p :: p in v.sizes ==> p in paths
    ensures var v' := DoAll(H, v, UnlinkOps(paths));
            v'.byBlock == map[] && v'.byHash == map[] && v'.infos == map[] && v'.sizes == map[] && v'.next == v.next &&
            Permutation(v'.free, v'.next)
  {
    hide Valid, Permutation, Unlink;
    UnlinkEach(H, U, v, paths);
    var v' := DoAll(H, v, UnlinkOps(paths));
    assert v'.sizes == map[];
    assert v'.byBlock == map[];
    NothingMapped(H, U, v');
  }

  function UnlinkOps(paths: seq<Path>): seq<Op> {
    seq(|paths|, i requires 0 <= i < |paths| => OpUnlink(paths[i]))
  }

  lemma {:induction false} UnlinkEach(H: Block -> Digest, U: iset<Block>, v: Volume, paths: seq<Path>)
    requires FsValid(H, U, v)
    ensures var v' := DoAll(H, v, UnlinkOps(paths));
            FsValid(H, U, v') && v'.next == v.next && v'.sizes.Keys == v.sizes.Keys - set p | p in paths
  {
    hide Valid, SizesFit, Unlink, Without;
    if paths != [] {
      var n := |paths| - 1;
      UnlinkEach(H, U, v, paths[..n]);
      assert UnlinkOps(paths)[..n] == UnlinkOps(paths[..n]);
      UnlinkForgets(H, U, DoAll(H, v, UnlinkOps(paths[..n])), paths[n]);
      assert paths == paths[..n] + [paths[n]];
    }
  }
}
