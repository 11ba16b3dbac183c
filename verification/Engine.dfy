/** The engine itself: the Index and Context of the program as an object, its loops as
    loops over arrays, each proved to compute the request function of the same name. */
module Engine {
  import opened MasterFile
  import opened Volumes
  import opened Protocol
  import opened Requests
  import opened Solo
  import opened Writes
  import opened Deduplication
  import opened Removals
  import opened Aborts
  import opened FileSystem
  import opened CounterLength
  import PairSort
  import BatchedRead
  import ByteStream
  import Mount
  import Remount

  ghost function AnyBlock(): iset<Block> { iset b: Block | |b| == BLOCK_SIZE }

  class DedupEngine {
    const hash: Block -> Digest
    var infos: map<Ref, Info>
    var nextRef: Ref
    var hashToMaster: map<Digest, Ref>
    var fileToMaster: map<Key, Ref>
    var fileToSizes: map<Path, nat>
    var freeBlockList: seq<nat>
    var nextBlockIndex: nat
    var master: seq<Byte>

    function Snapshot(): Volume
      reads this
    {
      Volume(infos, nextRef, hashToMaster, fileToMaster, fileToSizes, freeBlockList, nextBlockIndex, master)
    }

    /** The invariant between requests. */
    ghost predicate Ok()
      reads this
    {
      FsValid(hash, AnyBlock(), Snapshot())
    }

    constructor (hash: Block -> Digest)
      ensures this.hash == hash && Snapshot() == EMPTY && Ok() && Counted(Snapshot())
    {
      this.hash := hash;
      infos, nextRef, hashToMaster, fileToMaster, fileToSizes := map[], 0, map[], map[], map[];
      freeBlockList, nextBlockIndex, master := [], 0, [];
      new;
      EmptyIsValid(hash, AnyBlock());
    }

    /** fetch_sub on the reference count, with the cleanup of the last reference. */
    method DropRef(r: Ref, rel: seq<nat>) returns (rel': seq<nat>)
      modifies this`infos, this`hashToMaster
      ensures (Snapshot(), rel') == Drop(old(Snapshot()), r, rel)
    {
      var info := Deref(Snapshot(), r);
      rel' := rel;
      if info.refs == 1 {
        rel' := [info.slot] + rel';
        hashToMaster := hashToMaster - {info.hash};
        infos := infos - {r};
      } else if r in infos {
        infos := infos[r := info.(refs := info.refs - 1)];
      }
    }

    // ---- Pass 1 ----

    /** HIT takes a reference; MISS creates a pending info. */
    method DecideBlock(blk: nat, payload: Block, pending: map<Digest, Ref>, ghost plan: seq<Entry>) returns (e: Entry)
      requires pending == PendingHashes(plan)
      modifies this`infos, this`nextRef
      ensures (Snapshot(), e) == Decide(hash, old(Snapshot()), plan, blk, payload)
    {
      var h := hash(payload);
      var existing := if h in hashToMaster then Some(hashToMaster[h]) else if h in pending then Some(pending[h])
            else None;
      if existing.Some? {
        var r := existing.value;
        if r in infos {
          infos := infos[r := infos[r].(refs := infos[r].refs + 1)];
        }
        return Entry(Hit, blk, 0, payload, h, r);
      }
      e := Entry(Miss, blk, 0, payload, h, nextRef);
      infos := infos[nextRef := Info(h, 0, 1)];
      nextRef := nextRef + 1;
    }

    method DecideBlocks(start: nat, blocks: seq<Block>, plan: array<Entry>) returns (misses: nat)
      requires plan.Length == |blocks|
      modifies plan, this`infos, this`nextRef
      ensures (Snapshot(), plan[..]) == DecideAll(hash, old(Snapshot()), start, blocks, |blocks|)
      ensures misses == MissCount(plan[..])
    {
      hide Decide, PendingHashes, MissCount;
      NothingPending();
      var pending: map<Digest, Ref> := map[];
      misses := 0;
      ghost var v0 := Snapshot();
      assert plan[..0] == [];
      for i := 0 to |blocks|
        invariant (Snapshot(), plan[..i]) == DecideAll(hash, v0, start, blocks, i)
        invariant pending == PendingHashes(plan[..i]) && misses == MissCount(plan[..i])
      {
        ghost var done := plan[..i];
        var e := DecideBlock(start + i, blocks[i], pending, done);
        plan[i] := e;
        if e.kind.Miss? {
          pending := pending[e.hash := e.info];
          misses := misses + 1;
        }
        assert plan[..i + 1] == done + [e];
        PendingSnoc(done, e);
        MissCountSnoc(done, e);
      }
      assert plan[..|blocks|] == plan[..];
    }

    // ---- Pass 1.5 ----

    method AllocateBatchStorageFirst(want: nat, out: array<nat>)
      requires out.Length == want
      modifies out, this`freeBlockList, this`nextBlockIndex
      ensures (Snapshot(), out[..]) == Allocate(old(Snapshot()), want)
    {
      ghost var v0 := Snapshot();
      var taken := 0;
      while taken < want && freeBlockList != []
        invariant taken <= want && taken <= |v0.free| && freeBlockList == v0.free[taken..]
        invariant out[..taken] == v0.free[..taken]
        invariant Snapshot() == v0.(free := freeBlockList)
        decreases want - taken
      {
        out[taken] := freeBlockList[0];
        freeBlockList := freeBlockList[1..];
        taken := taken + 1;
      }
      var remaining := want - taken;
      if remaining > 0 {
        var base := nextBlockIndex;
        nextBlockIndex := nextBlockIndex + remaining;
        for i := 0 to remaining
          invariant Snapshot() == v0.(free := v0.free[taken..], next := v0.next + remaining)
          invariant out[..taken] == v0.free[..taken]
          invariant forall k :: taken <= k < taken + i ==> out[k] == base + (k - taken)
        {
          out[taken + i] := base + i;
        }
      }
      assert taken == Min(want, |v0.free|);
      assert out[taken..] == Append(v0, remaining).1;
      assert out[..] == out[..taken] + out[taken..];
      assert Snapshot() == v0.(free := v0.free[taken..], next := v0.next + remaining);
    }

    method AssignSlots(plan: array<Entry>, out: array<nat>)
      requires out.Length == MissCount(plan[..]) && plan as object != out
      modifies plan, this`infos
      ensures (Snapshot(), plan[..]) == AssignAll(old(Snapshot()), old(plan[..]), out[..], plan.Length)
    {
      ghost var v0, p0 := Snapshot(), plan[..];
      var m := 0;
      assert p0[..0] == [];
      for i := 0 to plan.Length
        invariant (Snapshot(), plan[..]) == AssignAll(v0, p0, out[..], i)
        invariant m == MissCount(p0[..i])
      {
        MissCountPrefix(p0, i);
        if plan[i].kind.Miss? {
          ghost var before := plan[..];
          var r, slot := plan[i].info, out[m];
          plan[i] := plan[i].(slot := slot);
          if r in infos {
            infos := infos[r := infos[r].(slot := slot)];
          }
          m := m + 1;
          assert plan[..] == before[i := before[i].(slot := slot)];
        }
      }
    }

    // ---- Pass 2 ----

    method NextMiss(plan: array<Entry>, from: nat) returns (i: nat)
      requires from <= plan.Length
      ensures i == SkipHits(plan[..], from)
    {
      i := from;
      while i < plan.Length && plan[i].kind.Hit?
        invariant from <= i <= plan.Length && SkipHits(plan[..], from) == SkipHits(plan[..], i)
      {
        i := i + 1;
      }
    }

    method EndOfRun(plan: array<Entry>, runStart: nat) returns (i: nat)
      requires runStart < plan.Length
      ensures i == RunEnd(plan[..], runStart + 1)
    {
      i := runStart + 1;
      while i < plan.Length && plan[i].kind.Miss? && plan[i].slot == plan[i - 1].slot + 1
        invariant runStart < i <= plan.Length && RunEnd(plan[..], runStart + 1) == RunEnd(plan[..], i)
      {
        i := i + 1;
      }
    }

    /** flush_plan: the payloads of a run are contiguous in the request's buffer, so one
        pwrite of that stretch of the buffer writes the run. */
    method FlushPlan(plan: array<Entry>, buf: seq<Byte>, io: nat -> int) returns (rc: int)
      requires |buf| % BLOCK_SIZE == 0 && plan.Length == |buf| / BLOCK_SIZE && Payloads(plan[..]) == Chop(buf)
      modifies this`master
      ensures (Snapshot(), rc) == FlushAll(old(Snapshot()), plan[..], 0, io, 0)
    {
      hide FlushAll, RunBytes, SkipHits, RunEnd, Pwrite, Flatten, Chop, Payloads, FlushRun;
      ghost var v0, p := Snapshot(), plan[..];
      var i, k := 0, 0;
      while i < plan.Length
        invariant i <= plan.Length
        invariant FlushAll(v0, p, 0, io, 0) == FlushAll(Snapshot(), p, i, io, k)
      {
        FlushStep(Snapshot(), p, i, io, k);
        i := NextMiss(plan, i);
        if i == plan.Length {
          return 0;
        }
        var runStart := i;
        i := EndOfRun(plan, runStart);
        var data := buf[runStart * BLOCK_SIZE .. i * BLOCK_SIZE];
        ghost var before := Snapshot();
        RunData(before, p, buf, runStart, i);
        var written := if io(k) < |data| then io(k) else |data|;
        if written < 0 {
          return written;
        }
        master := Pwrite(master, plan[runStart].slot * BLOCK_SIZE, data[..written]);
        assert Snapshot() == FlushRun(before, p, runStart, written);
        if written != |data| {
          return -EIO;
        }
        k := k + 1;
      }
      FlushStep(Snapshot(), p, |p|, io, k);
      return 0;
    }

    // ---- Rollback ----

    method RollbackAllocations(plan: array<Entry>)
      modifies this`infos, this`hashToMaster, this`freeBlockList
      ensures Snapshot() == Rollback(old(Snapshot()), plan[..])
    {
      ghost var v0, p := Snapshot(), plan[..];
      var rel: seq<nat> := [];
      for i := 0 to plan.Length
        invariant plan[..] == p && (Snapshot(), rel) == UnhitAll(v0, p, i)
      {
        if plan[i].kind.Hit? {
          rel := DropRef(plan[i].info, rel);
        }
      }
      freeBlockList := rel + freeBlockList;
      ghost var v1 := Snapshot();
      for i := 0 to plan.Length
        invariant plan[..] == p && Snapshot() == UnmissAll(v1, p, i)
      {
        if plan[i].kind.Miss? {
          freeBlockList := [plan[i].slot] + freeBlockList;
          infos := infos - {plan[i].info};
        }
      }
    }

    // ---- Pass 3 ----

    method PublishPending(plan: array<Entry>) returns (rel: seq<nat>)
      modifies plan, this`infos, this`hashToMaster
      ensures (Snapshot(), plan[..], rel) == PublishAll(old(Snapshot()), old(plan[..]), plan.Length)
    {
      ghost var v0, p0 := Snapshot(), plan[..];
      rel := [];
      for i := 0 to plan.Length
        invariant (Snapshot(), plan[..], rel) == PublishAll(v0, p0, i)
      {
        ghost var before := plan[..];
        if plan[i].kind.Miss? {
          var h := Deref(Snapshot(), plan[i].info).hash;
          if h in hashToMaster {
            var winner := hashToMaster[h];
            rel := [plan[i].slot] + rel;
            infos := infos - {plan[i].info};
            plan[i] := plan[i].(info := winner);
            if winner in infos {
              infos := infos[winner := infos[winner].(refs := infos[winner].refs + 1)];
            }
            assert plan[..] == before[i := before[i].(info := winner)];
          } else {
            hashToMaster := hashToMaster[h := plan[i].info];
            assert plan[..] == before[i := before[i]];
          }
        } else {
          assert plan[..] == before[i := before[i]];
        }
      }
    }

    method MapBlocks(path: Path, plan: array<Entry>, rel0: seq<nat>) returns (rel: seq<nat>)
      modifies this`infos, this`hashToMaster, this`fileToMaster
      ensures (Snapshot(), rel) == MapAll(old(Snapshot()), path, plan[..], rel0, plan.Length)
    {
      ghost var v0, p := Snapshot(), plan[..];
      rel := rel0;
      for i := 0 to plan.Length
        invariant plan[..] == p && (Snapshot(), rel) == MapAll(v0, path, p, rel0, i)
      {
        var k := Key(path, plan[i].blk);
        if k in fileToMaster {
          rel := DropRef(fileToMaster[k], rel);
        }
        fileToMaster := fileToMaster[k := plan[i].info];
      }
    }

    // ---- write_dedup ----

    method WriteDedup(path: Path, buf: seq<Byte>, offset: nat, io: nat -> int) returns (ret: int)
      requires Ok()
      modifies this
      ensures Ok()
      ensures (Snapshot(), ret) == Write(hash, old(Snapshot()), path, buf, offset, io)
      ensures ret < 0 ==> View(Snapshot()) == old(View(Snapshot()))
      ensures ret > 0 ==> ret == |buf| && |buf| % BLOCK_SIZE == 0
      ensures ret == 0 <==> |buf| == 0
      ensures |buf| % BLOCK_SIZE != 0 ==> ret == -EOPNOTSUPP
      ensures ret == 0 || |buf| % BLOCK_SIZE != 0 ==> Snapshot() == old(Snapshot())
      ensures fileToSizes == if ret <= 0 then old(fileToSizes)
                             else SizesAfterWrite(old(fileToSizes), path, offset / BLOCK_SIZE * BLOCK_SIZE + |buf|)
      ensures ret > 0 && !Clashes(hash, old(Snapshot()), Chop(buf)) ==>
                View(Snapshot()) == old(View(Snapshot())) + Puts(path, offset / BLOCK_SIZE, Chop(buf))
      ensures ret >= 0 && old(Counted(Snapshot())) ==> Counted(Snapshot())
    {
      if |buf| == 0 {
        return 0;
      }
      if |buf| % BLOCK_SIZE != 0 {
        return -EOPNOTSUPP;
      }
      ghost var v0 := Snapshot();
      var blocks, start := Chop(buf), offset / BLOCK_SIZE;
      ret := WriteWhole(path, buf, start, io);
      WritePromise(hash, AnyBlock(), v0, path, buf, offset, io);
    }

    /** Passes 1 and 1.5. */
    method PrepareWrite(start: nat, blocks: seq<Block>, plan: array<Entry>) returns (misses: nat)
      requires plan.Length == |blocks|
      modifies plan, this`infos, this`nextRef, this`freeBlockList, this`nextBlockIndex
      ensures (Snapshot(), plan[..]) == Prepare(hash, old(Snapshot()), start, blocks)
      ensures misses == 0 ==> MissCount(plan[..]) == 0
    {
      hide DecideAll, Allocate, AssignAll, MissCount;
      misses := DecideBlocks(start, blocks, plan);
      ghost var v1, p1 := Snapshot(), plan[..];
      if misses > 0 {
        var out := new nat[misses](_ => 0);
        AllocateBatchStorageFirst(misses, out);
        AssignSlots(plan, out);
      } else {
        NothingToAllocate(v1, p1);
      }
    }

    /** Pass 3 and the return of the slots it freed. */
    method ConsolidateWrite(path: Path, plan: array<Entry>, end: nat)
      modifies this, plan
      ensures Snapshot() == Consolidate(old(Snapshot()), path, old(plan[..]), end)
    {
      hide PublishAll, MapAll;
      var rel := PublishPending(plan);
      rel := MapBlocks(path, plan, rel);
      if path !in fileToSizes || end > fileToSizes[path] {
        fileToSizes := fileToSizes[path := end];
      }
      freeBlockList := rel + freeBlockList;
    }

    /** The passes of write_dedup on a request of whole blocks. */
    method WriteWhole(path: Path, buf: seq<Byte>, start: nat, io: nat -> int) returns (ret: int)
      requires buf != [] && |buf| % BLOCK_SIZE == 0
      modifies this
      ensures (Snapshot(), ret) == WriteBlocks(hash, old(Snapshot()), path, start, Chop(buf), io)
    {
      hide Prepare, FlushAll, Rollback, Consolidate, Chop;
      var blocks := Chop(buf);
      var n := |blocks|;
      var blank := Entry(Hit, 0, 0, blocks[0], hash(blocks[0]), 0);
      var plan := new Entry[n](_ => blank);
      ghost var v0 := Snapshot();
      var misses := PrepareWrite(start, blocks, plan);
      PlanPayloads(hash, v0, start, blocks);
      if misses > 0 {
        var rc := FlushPlan(plan, buf, io);
        if rc < 0 {
          RollbackAllocations(plan);
          return rc;
        }
      } else {
        NothingToFlush(Snapshot(), plan[..], io);
      }
      ConsolidateWrite(path, plan, (start + n) * BLOCK_SIZE);
      return n * BLOCK_SIZE;
    }

    // ---- Removal ----

    method RemoveBlockDedup(path: Path, blk: nat)
      modifies this
      ensures Snapshot() == RemoveSingle(old(Snapshot()), path, blk)
    {
      var k := Key(path, blk);
      if k !in fileToMaster {
        assert [] + freeBlockList == freeBlockList;
        return;
      }
      var r := fileToMaster[k];
      fileToMaster := fileToMaster - {k};
      var rel := DropRef(r, []);
      freeBlockList := rel + freeBlockList;
    }

    method RemoveBlocksDedupBatch(path: Path, from: nat, until: nat)
      modifies this
      ensures Snapshot() == RemoveBatch(old(Snapshot()), path, from, until)
      ensures Snapshot() == RemoveEach(old(Snapshot()), path, from, until)
    {
      ghost var v0 := Snapshot();
      BatchIsLoop(v0, path, from, until);
      var rel: seq<nat> := [];
      var i := from;
      while i < until
        invariant from <= i && (i <= until || i == from)
        invariant (Snapshot(), rel) == RemoveRange(v0, path, from, i)
      {
        var k := Key(path, i);
        if k in fileToMaster {
          var r := fileToMaster[k];
          fileToMaster := fileToMaster - {k};
          rel := DropRef(r, rel);
        }
        i := i + 1;
      }
      freeBlockList := rel + freeBlockList;
    }

    // ---- The index side of unlink, truncate and getattr ----

    method XmpUnlink(path: Path)
      requires Ok()
      modifies this
      ensures Ok() && Snapshot() == Unlink(old(Snapshot()), path)
      ensures View(Snapshot()) == Without(old(View(Snapshot())), path)
      ensures fileToSizes == old(fileToSizes) - {path} && forall k :: k in fileToMaster ==> k.path != path
      ensures old(Counted(Snapshot())) ==> Counted(Snapshot())
    {
      ghost var v0 := Snapshot();
      UnlinkForgets(hash, AnyBlock(), v0, path);
      if path in fileToSizes {
        var blocks := RoundUp(fileToSizes[path]);
        RemoveBlocksDedupBatch(path, 0, blocks);
        fileToSizes := fileToSizes - {path};
      }
      ViewKeys(Snapshot());
    }

    method XmpTruncate(path: Path, size: int) returns (ret: int)
      requires Ok()
      modifies this
      ensures Ok() && (Snapshot(), ret) == Truncate(old(Snapshot()), path, size)
      ensures ret == if size >= 0 && size % BLOCK_SIZE == 0 then 0 else -EOPNOTSUPP
      ensures fileToSizes == if ret == 0 && size < SizeOf(old(fileToSizes), path) then old(fileToSizes)[path := size]
                             else old(fileToSizes)
      ensures ret == 0 ==> View(Snapshot()) == Prefix(old(View(Snapshot())), path, size / BLOCK_SIZE)
      ensures ret != 0 ==> Snapshot() == old(Snapshot())
      ensures old(Counted(Snapshot())) ==> Counted(Snapshot())
    {
      if size < 0 || size % BLOCK_SIZE != 0 {
        return -EOPNOTSUPP;
      }
      ghost var v0 := Snapshot();
      TruncateKeepsPrefix(hash, AnyBlock(), v0, path, size);
      if path in fileToSizes && size < fileToSizes[path] {
        RemoveBlocksDedupBatch(path, RoundUp(size), RoundUp(fileToSizes[path]));
        if path in fileToSizes && size < fileToSizes[path] {
          fileToSizes := fileToSizes[path := size];
        }
      }
      return 0;
    }

    /** The size that xmp_getattr reports: every mapped block of the file lies below it. */
    method XmpGetattrSize(path: Path) returns (size: Option<nat>)
      requires Ok()
      ensures size == if path in fileToSizes then Some(fileToSizes[path]) else None
      ensures size.Some? ==> size.value % BLOCK_SIZE == 0
      ensures forall k ::
                k in View(Snapshot()) && k.path == path ==> size.Some? && (k.blk + 1) * BLOCK_SIZE <= size.value
    {
      ViewKeys(Snapshot());
      size := if path in fileToSizes then Some(fileToSizes[path]) else None;
    }

    // ---- Reading ----

    /** Between writes, on an intact device: as many blocks as are mapped, each with the
        bytes the plain map has for it, and nothing behind them touched. */
    method XmpRead(path: Path, buf: array<Byte>, size: nat, offset: nat,
                   qsort: seq<PairSort.BlockPair> -> seq<PairSort.BlockPair>) returns (ret: int)
      requires Ok() && size <= buf.Length && BatchedRead.Sorts(qsort)
      modifies buf
      ensures size == 0 || size % BLOCK_SIZE != 0 ==> ret == -EOPNOTSUPP && buf[..] == old(buf[..])
      ensures size > 0 && size % BLOCK_SIZE == 0 ==>
                BatchedRead.Reads(Snapshot(), path, offset / BLOCK_SIZE, size / BLOCK_SIZE, old(buf[..]), buf[..], ret)
    {
      hide Valid, SizesFit, View, BatchedRead.Sorts, BatchedRead.Outcome, BatchedRead.Lookup, BatchedRead.Reads;
      ghost var v0 := Snapshot();
      var disk := BatchedRead.Intact(master);
      ghost var times;
      ret, times := BatchedRead.ReadDedup(Snapshot(), path, buf, size, offset, disk, qsort);
      if size > 0 && size % BLOCK_SIZE == 0 {
        BatchedRead.ReadsView(hash, AnyBlock(), v0, path, offset / BLOCK_SIZE, size / BLOCK_SIZE, disk, old(buf[..]),
                              buf[..], ret, times);
      }
    }

    // ---- Unmount and mount ----

    /** Unless a buffer overruns, what comes back is part of what was there, whatever the
        devices do. If they take every flush and answer every pread, the index comes back
        up to object addresses with every file, and the invariant holds again if and only
        if the append counter was the length of the master in blocks. */
    method UnmountAndMount(o: Mount.Orders, bufferSize: nat, wr: nat -> nat -> int, rd: nat -> nat -> int)
      returns (overrun: bool)
      requires Ok() && bufferSize > 0 && Mount.OrdersOf(o, Snapshot()) && Mount.Fits(Snapshot(), o)
      modifies this
      ensures !overrun ==>
                Mount.PartOf(Snapshot(), old(Snapshot())) && master == old(master) &&
                nextBlockIndex == |master| / BLOCK_SIZE
      ensures (forall i :: ByteStream.TakesAll(wr(i), bufferSize)) ==> !overrun
      ensures (forall i :: ByteStream.TakesAll(wr(i), bufferSize) && ByteStream.Answers(rd(i))) ==>
                && Mount.SameIndex(Snapshot(), old(Snapshot())) && View(Snapshot()) == old(View(Snapshot()))
                && (Ok() <==> old(nextBlockIndex) == |master| / BLOCK_SIZE)
                && (old(Counted(Snapshot())) ==> Ok() && Counted(Snapshot()))
    {
      hide Valid, SizesFit, View, Mount.OrdersOf, Mount.Fits, Mount.Parse, Mount.Assemble, Mount.Save, Mount.SameIndex,
           Mount.PartOf,
           Mount.FirstOf, Mount.CutShort, ByteStream.TakesAll, ByteStream.Answers;
      ghost var v0 := Snapshot();
      var files;
      files, overrun := Mount.IndexDestroy(Snapshot(), o, bufferSize, wr);
      if overrun {
        return;
      }
      var v, p := Mount.XmpInit(files, master, bufferSize, rd);
      Remount.Mounted(p, master);
      infos, nextRef, hashToMaster, fileToMaster, fileToSizes := v.infos, v.nextRef, v.byHash, v.byBlock, v.sizes;
      freeBlockList, nextBlockIndex, master := v.free, v.next, v.master;
      assert Snapshot() == v;
      Mount.CutFilesLoadPart(v0, o, files, p, v0.master);
      if (forall i :: ByteStream.TakesAll(wr(i), bufferSize)) && (forall i :: ByteStream.Answers(rd(i))) {
        Mount.RemountSame(v0, o);
        Remount.RemountValidIff(hash, AnyBlock(), v0, o);
        Remount.RemountedFits(v0, v);
      }
    }
  }

  // ---- Glue between the loops and the request functions ----

  lemma NothingPending()
    ensures PendingHashes([]) == map[] && MissCount([]) == 0
  {
  }

  lemma PendingSnoc(plan: seq<Entry>, e: Entry)
    ensures PendingHashes(plan + [e]) ==
              if e.kind.Miss? then PendingHashes(plan)[e.hash := e.info] else PendingHashes(plan)
  {
    assert (plan + [e])[..|plan|] == plan;
  }

  /** The stretch of the buffer under a run holds the payloads of the run. */
  lemma RunData(v: Volume, plan: seq<Entry>, buf: seq<Byte>, lo: nat, hi: nat)
    requires |buf| % BLOCK_SIZE == 0 && |plan| == |buf| / BLOCK_SIZE && Payloads(plan) == Chop(buf)
    requires lo < |plan| && hi == RunEnd(plan, lo + 1)
    ensures var data := buf[lo * BLOCK_SIZE .. hi * BLOCK_SIZE];
            && |data| == RunBytes(plan, lo)
            && forall got: nat :: got <= |data| ==>
                 FlushRun(v, plan, lo, got) == v.(master := Pwrite(v.master, plan[lo].slot * BLOCK_SIZE, data[..got]))
  {
    hide Pwrite, Flatten;
    ChopRange(buf, lo, hi);
    assert Payloads(plan[lo..hi]) == Chop(buf)[lo..hi];
  }

  /** The flush of everything from entry i on, run by run. */
  lemma FlushStep(v: Volume, plan: seq<Entry>, i: nat, io: nat -> int, k: nat)
    requires i <= |plan|
    ensures var s, all := SkipHits(plan, i), FlushAll(v, plan, i, io, k);
            if s == |plan| then all == (v, 0)
            else if io(k) >= RunBytes(plan, s) then
              all == FlushAll(FlushRun(v, plan, s, RunBytes(plan, s)), plan, RunEnd(plan, s + 1), io, k + 1)
            else if io(k) < 0 then all == (v, io(k))
            else all == (FlushRun(v, plan, s, io(k)), -EIO)
    ensures i == |plan| ==> SkipHits(plan, i) == i
  {
    hide FlushRun, RunBytes, RunEnd;
  }

  lemma NothingToAllocate(v: Volume, plan: seq<Entry>)
    requires MissCount(plan) == 0
    ensures Allocate(v, 0) == (v, []) && AssignAll(v, plan, [], |plan|) == (v, plan)
  {
    assert Allocate(v, 0).1 == [];
    NoMissNoAssign(v, plan, |plan|);
  }

  lemma {:induction false} NoMissNoAssign(v: Volume, plan: seq<Entry>, n: nat)
    requires MissCount(plan) == 0 && n <= |plan|
    ensures AssignAll(v, plan, [], n) == (v, plan)
  {
    if n > 0 {
      NoMissNoAssign(v, plan, n - 1);
      MissCountPrefix(plan, n - 1);
    }
  }

  lemma {:induction false} AllHits(plan: seq<Entry>, i: nat)
    requires MissCount(plan) == 0 && i <= |plan|
    ensures SkipHits(plan, i) == |plan|
    decreases |plan| - i
  {
    if i < |plan| {
      MissCountPrefix(plan, i);
      AllHits(plan, i + 1);
    }
  }

  lemma NothingToFlush(v: Volume, plan: seq<Entry>, io: nat -> int)
    requires MissCount(plan) == 0
    ensures FlushAll(v, plan, 0, io, 0) == (v, 0)
  {
    AllHits(plan, 0);
  }

  lemma PlanPayloads(H: Block -> Digest, v: Volume, start: nat, blocks: seq<Block>)
    ensures Payloads(Prepare(H, v, start, blocks).1) == blocks
  {
    hide Prepare, KindsFit, SharesFit;
    PrepareFits(H, v, start, blocks);
  }

  /** What a caller of write_dedup can rely on. */
  lemma WritePromise(H: Block -> Digest, U: iset<Block>, v: Volume, path: Path, buf: seq<Byte>, offset: nat,
                     io: nat -> int)
    requires FsValid(H, U, v) && buf != [] && |buf| % BLOCK_SIZE == 0 && Within(U, Chop(buf))
    ensures var (v', ret) := Write(H, v, path, buf, offset, io);
            && FsValid(H, U, v') && ret != 0 && (ret < 0 ==> View(v') == View(v)) && (ret > 0 ==> ret == |buf|)
            && (ret > 0 && !Clashes(H, v, Chop(buf)) ==>
                  View(v') == View(v) + Puts(path, offset / BLOCK_SIZE, Chop(buf)))
            && (ret > 0 && Counted(v) ==> Counted(v'))
            && v'.sizes == if ret < 0 then v.sizes
                           else SizesAfterWrite(v.sizes, path, offset / BLOCK_SIZE * BLOCK_SIZE + |buf|)
  {
    hide Valid, SizesFit, View, WriteBlocks, Clashes, Puts;
    DoKeeps(H, U, v, OpWrite(path, offset, buf, io));
    var start, blocks := offset / BLOCK_SIZE, Chop(buf);
    WriteReturns(H, v, path, start, blocks, io);
    if WriteBlocks(H, v, path, start, blocks, io).1 < 0 {
      WriteAborts(H, U, v, path, start, blocks, io);
    } else {
      WriteIsFaithful(H, U, v, path, start, blocks, io);
      WriteSizes(H, v, path, start, blocks, io);
      if Counted(v) {
        WriteCounts(H, U, v, path, start, blocks, io);
      }
    }
  }
}
