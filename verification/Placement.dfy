/** Where a write puts its blocks, what it returns when the device fails it, and what is in
    the master file then. */
module Placement {
  import opened MasterFile
  import opened Volumes
  import opened Actions
  import opened Requests
  import opened Solo
  import opened Writes
  import opened Aborts
  import opened FlushPlan

  // ---- Which miss gets which slot ----

  /** The m-th slot of a batch: the free list from its head, then the end of the master. */
  function SlotInBatch(v: Volume, m: nat): nat {
    if m < |v.free| then v.free[m] else v.next + (m - |v.free|)
  }

  lemma {:induction false} AssignedSlot(v: Volume, plan: seq<Entry>, out: seq<nat>, n: nat, i: nat)
    requires n <= |plan| && |out| == MissCount(plan) && i < n && plan[i].kind.Miss?
    ensures MissCount(plan[..i]) < |out| && AssignAll(v, plan, out, n).1[i].slot == out[MissCount(plan[..i])]
  {
    hide MissCount;
    MissCountPrefix(plan, i);
    if i < n - 1 {
      AssignedSlot(v, plan, out, n - 1, i);
    }
  }

  lemma {:induction false} SameKindsSameCount(p: seq<Entry>, q: seq<Entry>)
    requires |p| == |q| && forall i :: 0 <= i < |p| ==> p[i].kind == q[i].kind
    ensures MissCount(p) == MissCount(q)
  {
    if p != [] {
      SameKindsSameCount(p[1..], q[1..]);
    }
  }

  /** The k-th slot that the allocator returns. */
  lemma AllocatedSlot(v: Volume, want: nat, k: nat)
    requires k < want
    ensures Allocate(v, want).1[k] == SlotInBatch(v, k)
  {
  }

  /** The MISS that has m misses before it gets the m-th slot of the batch. */
  lemma PlannedSlot(H: Block -> Digest, v: Volume, start: nat, blocks: seq<Block>, i: nat)
    requires i < |Prepare(H, v, start, blocks).1| && Prepare(H, v, start, blocks).1[i].kind.Miss?
    ensures var plan := Prepare(H, v, start, blocks).1; plan[i].slot == SlotInBatch(v, MissCount(plan[..i]))
  {
    hide DecideAll, Allocate, MissCount, AssignAll;
    var (v1, p1) := DecideAll(H, v, start, blocks, |blocks|);
    DecideFrame(H, v, start, blocks, |blocks|);
    var (v2, out) := Allocate(v1, MissCount(p1));
    BatchSize(v1, MissCount(p1));
    var plan := AssignAll(v2, p1, out, |p1|).1;
    AssignKinds(v2, p1, out);
    AssignedSlot(v2, p1, out, |p1|, i);
    SameKindsSameCount(plan[..i], p1[..i]);
    AllocatedSlot(v1, MissCount(p1), MissCount(p1[..i]));
  }

  lemma BatchSize(v: Volume, want: nat)
    ensures |Allocate(v, want).1| == want
  {
  }

  lemma AssignKinds(v: Volume, plan: seq<Entry>, out: seq<nat>)
    requires |out| == MissCount(plan)
    ensures var p := AssignAll(v, plan, out, |plan|).1;
            |p| == |plan| && forall i :: 0 <= i < |p| ==> p[i].kind == plan[i].kind
  {
  }

  // ---- A write of new blocks to a master without holes ----

  /** No block of the request is stored yet, and none repeats another. */
  ghost predicate AllNew(H: Block -> Digest, v: Volume, blocks: seq<Block>) {
    && (forall i :: 0 <= i < |blocks| ==> H(blocks[i]) !in v.byHash)
    && (forall i, j :: 0 <= i < j < |blocks| ==> H(blocks[i]) != H(blocks[j]))
  }

  lemma {:induction false} AllMisses(plan: seq<Entry>)
    requires forall i :: 0 <= i < |plan| ==> plan[i].kind.Miss?
    ensures MissCount(plan) == |plan|
  {
    if plan != [] {
      AllMisses(plan[1..]);
    }
  }

  lemma NewBlocksMiss(H: Block -> Digest, v: Volume, start: nat, blocks: seq<Block>)
    requires AllNew(H, v, blocks)
    ensures var plan := Prepare(H, v, start, blocks).1;
            |plan| == |blocks| && forall i :: 0 <= i < |plan| ==> plan[i].kind.Miss? && plan[i].payload == blocks[i]
  {
    hide Prepare, SharesFit;
    PrepareFits(H, v, start, blocks);
  }

  /** They get consecutive slots from the end of the master. */
  lemma NewBlocksInOrder(H: Block -> Digest, v: Volume, start: nat, blocks: seq<Block>)
    requires AllNew(H, v, blocks) && v.free == []
    ensures var plan := Prepare(H, v, start, blocks).1;
            |plan| == |blocks| && forall i :: 0 <= i < |plan| ==> plan[i].kind.Miss? && plan[i].slot == v.next + i
  {
    hide Prepare, MissCount, AllNew;
    NewBlocksMiss(H, v, start, blocks);
    var plan := Prepare(H, v, start, blocks).1;
    forall i: nat | i < |plan| ensures plan[i].slot == v.next + i {
      PlannedSlot(H, v, start, blocks, i);
      AllMisses(plan[..i]);
    }
  }

  lemma {:induction false} OneRunFrom(plan: seq<Entry>, i: nat)
    requires 0 < i <= |plan| && forall k :: 0 < k < |plan| ==> Consecutive(plan, k)
    ensures RunEnd(plan, i) == |plan|
    decreases |plan| - i
  {
    if i < |plan| {
      OneRunFrom(plan, i + 1);
    }
  }

  lemma {:induction false} WholePlanIsRun(plan: seq<Entry>)
    requires plan != [] && plan[0].kind.Miss? && forall k :: 0 < k < |plan| ==> Consecutive(plan, k)
    ensures Runs(plan, 0) == [(0, |plan|)] && SkipHits(plan, 0) == 0 && RunEnd(plan, 1) == |plan|
  {
    hide RunEnd;
    OneRunFrom(plan, 1);
    NoRunsLeft(plan);
  }

  lemma {:induction false} WholePlanFlushed(v: Volume, plan: seq<Entry>, io: nat -> int)
    requires plan != [] && plan[0].kind.Miss? && forall k :: 0 < k < |plan| ==> Consecutive(plan, k)
    requires |v.master| == plan[0].slot * BLOCK_SIZE && io(0) >= |plan| * BLOCK_SIZE
    ensures FlushAll(v, plan, 0, io, 0).0.master == v.master + Flatten(Payloads(plan))
  {
    hide Flatten, Pwrite, RunEnd, SkipHits, Runs, Payloads;
    WholePlanIsRun(plan);
    FullRun(v, plan, 0);
    NoRunsLeft(plan);
    assert plan[0..|plan|] == plan;
    AppendedWhole(v.master, Flatten(Payloads(plan)));
  }

  /** So the request is one run, written by one pwrite, and a master that ends at the
      append counter simply gets the request appended. */
  lemma NewBlocksAppend(H: Block -> Digest, v: Volume, start: nat, blocks: seq<Block>, io: nat -> int)
    requires AllNew(H, v, blocks) && v.free == [] && blocks != []
    ensures var (v1, plan) := Prepare(H, v, start, blocks);
            && Runs(plan, 0) == [(0, |blocks|)]
            && (|v.master| == v.next * BLOCK_SIZE && io(0) >= |blocks| * BLOCK_SIZE ==>
                  FlushAll(v1, plan, 0, io, 0).0.master == v.master + Flatten(blocks))
  {
    hide Prepare, AllNew, Flatten, MissCount, LabelsFit, KindsFit, SharesFit, Runs, FlushAll, RunEnd, SkipHits;
    var (v1, plan) := Prepare(H, v, start, blocks);
    NewBlocksMiss(H, v, start, blocks);
    NewBlocksInOrder(H, v, start, blocks);
    PrepareFits(H, v, start, blocks);
    assert forall k :: 0 < k < |plan| ==> Consecutive(plan, k);
    WholePlanIsRun(plan);
    if |v.master| == v.next * BLOCK_SIZE && io(0) >= |blocks| * BLOCK_SIZE {
      WholePlanFlushed(v1, plan, io);
      assert Payloads(plan) == blocks;
    }
  }

  lemma NoRunsLeft(plan: seq<Entry>)
    ensures Runs(plan, |plan|) == [] && SkipHits(plan, |plan|) == |plan|
  {
  }

  lemma AppendedWhole(m: seq<Byte>, data: seq<Byte>)
    ensures Pwrite(m, |m|, data) == m + data
  {
  }

  // ---- What the flush returns and leaves ----

  function BytesOf(r: (nat, nat)): nat { if r.0 <= r.1 then (r.1 - r.0) * BLOCK_SIZE else 0 }

  /** The first run whose pwrite is not complete, if pwrite k is that of the first run. */
  function FirstFailure(rs: seq<(nat, nat)>, io: nat -> int, k: nat): (j: nat)
    ensures j <= |rs|
  {
    if rs == [] || io(k) < BytesOf(rs[0]) then 0 else 1 + FirstFailure(rs[1..], io, k + 1)
  }

  /** The pwrite of run j, call k + j, takes all of it. */
  predicate Complete(rs: seq<(nat, nat)>, io: nat -> int, k: nat, j: nat)
    requires j < |rs|
  {
    io(k + j) >= BytesOf(rs[j])
  }

  lemma {:induction false} FirstFailureMeaning(rs: seq<(nat, nat)>, io: nat -> int, k: nat)
    ensures var j := FirstFailure(rs, io, k);
            (j < |rs| ==> !Complete(rs, io, k, j)) && forall i: nat :: i < j ==> Complete(rs, io, k, i)
  {
    if rs != [] && io(k) >= BytesOf(rs[0]) {
      FirstFailureMeaning(rs[1..], io, k + 1);
      var j := FirstFailure(rs, io, k);
      forall i: nat | i <= j && i < |rs| ensures Complete(rs, io, k, i) <==> i < j {
        if i > 0 {
          assert Complete(rs, io, k, i) <==> Complete(rs[1..], io, k + 1, i - 1);
        }
      }
    }
  }

  function RunData(plan: seq<Entry>, r: (nat, nat)): seq<Byte>
    requires r.0 <= r.1 <= |plan|
  {
    Flatten(Payloads(plan[r.0..r.1]))
  }

  ghost predicate RunsInside(plan: seq<Entry>, rs: seq<(nat, nat)>) {
    forall j :: 0 <= j < |rs| ==> rs[j].0 < rs[j].1 <= |plan|
  }

  lemma {:induction false} RunsAreInside(plan: seq<Entry>, i: nat)
    requires i <= |plan|
    ensures RunsInside(plan, Runs(plan, i))
    decreases |plan| - i
  {
    var s := SkipHits(plan, i);
    if s < |plan| {
      RunsAreInside(plan, RunEnd(plan, s + 1));
    }
  }

  /** The master after the first n runs were written whole and `got` bytes of the next. */
  ghost function AfterRuns(m: seq<Byte>, plan: seq<Entry>, rs: seq<(nat, nat)>, n: nat, got: nat): seq<Byte>
    requires RunsInside(plan, rs) && n <= |rs|
    decreases |rs|
  {
    if rs == [] then m
    else
      var data, at := RunData(plan, rs[0]), plan[rs[0].0].slot * BLOCK_SIZE;
      if n == 0 then Pwrite(m, at, data[..Min(got, |data|)])
      else AfterRuns(Pwrite(m, at, data), plan, rs[1..], n - 1, got)
  }

  lemma RunSize(plan: seq<Entry>, s: nat)
    requires s < |plan|
    ensures var e := RunEnd(plan, s + 1);
            s < e <= |plan| && BytesOf((s, e)) == RunBytes(plan, s) == |RunData(plan, (s, e))|
  {
  }

  /** The flush of the runs rs fails at the first whose pwrite is not complete. It returns
      the errno of that pwrite, or -EIO if it was short; the runs before are in the master
      whole, and of this one the bytes that the device took. */
  ghost predicate Flushes(m: seq<Byte>, plan: seq<Entry>, rs: seq<(nat, nat)>, io: nat -> int, k: nat, m': seq<Byte>,
                          rc: int) {
    && RunsInside(plan, rs)
    && var j := FirstFailure(rs, io, k);
       && rc == (if j == |rs| then 0 else if io(k + j) < 0 then io(k + j) else -EIO)
       && m' == AfterRuns(m, plan, rs, j, if io(k + j) < 0 then 0 else io(k + j))
  }

  lemma {:induction false} FlushesOn(m: seq<Byte>, plan: seq<Entry>, rs: seq<(nat, nat)>, io: nat -> int, k: nat,
                                     m': seq<Byte>, rc: int)
    requires RunsInside(plan, rs) && rs != [] && io(k) >= BytesOf(rs[0])
    requires Flushes(Pwrite(m, plan[rs[0].0].slot * BLOCK_SIZE, RunData(plan, rs[0])), plan, rs[1..], io, k + 1, m', rc)
    ensures Flushes(m, plan, rs, io, k, m', rc)
  {
    hide Pwrite, RunData, BytesOf;
    assert k + 1 + FirstFailure(rs[1..], io, k + 1) == k + FirstFailure(rs, io, k);
  }

  lemma {:induction false} FlushesPart(m: seq<Byte>, plan: seq<Entry>, rs: seq<(nat, nat)>, io: nat -> int, k: nat)
    requires RunsInside(plan, rs) && rs != [] && io(k) < BytesOf(rs[0])
    ensures var data, got := RunData(plan, rs[0]), if io(k) < 0 then 0 else io(k);
            Flushes(m, plan, rs, io, k, Pwrite(m, plan[rs[0].0].slot * BLOCK_SIZE, data[..Min(got, |data|)]),
                    if io(k) < 0 then io(k) else -EIO)
  {
    hide Pwrite, RunData, BytesOf;
    assert k + 0 == k;
  }

  lemma {:induction false} FlushResult(v: Volume, plan: seq<Entry>, i: nat, io: nat -> int, k: nat)
    requires i <= |plan|
    ensures var (v', rc) := FlushAll(v, plan, i, io, k); Flushes(v.master, plan, Runs(plan, i), io, k, v'.master, rc)
    decreases |plan| - i
  {
    hide Pwrite, Flatten, RunEnd, SkipHits, RunBytes, FlushRun, RunData, BytesOf;
    RunsAreInside(plan, i);
    var s := SkipHits(plan, i);
    if s < |plan| {
      hide Flushes;
      var e, rs := RunEnd(plan, s + 1), Runs(plan, i);
      RunSize(plan, s);
      assert rs == [(s, e)] + Runs(plan, e) && rs[1..] == Runs(plan, e);
      if io(k) >= RunBytes(plan, s) {
        WholeRun(v, plan, s);
        var v1 := FlushRun(v, plan, s, RunBytes(plan, s));
        FlushResult(v1, plan, e, io, k + 1);
        var (v', rc) := FlushAll(v1, plan, e, io, k + 1);
        FlushesOn(v.master, plan, rs, io, k, v'.master, rc);
      } else {
        PartOfRun(v, plan, s, if io(k) < 0 then 0 else io(k));
        FlushesPart(v.master, plan, rs, io, k);
      }
    }
  }

  lemma WholeRun(v: Volume, plan: seq<Entry>, s: nat)
    requires s < |plan|
    ensures var e := RunEnd(plan, s + 1);
            && s < e <= |plan|
            && FlushRun(v, plan, s, RunBytes(plan, s)).master ==
                 Pwrite(v.master, plan[s].slot * BLOCK_SIZE, RunData(plan, (s, e)))
  {
    hide Pwrite, Flatten;
    FullRun(v, plan, s);
  }

  lemma PartOfRun(v: Volume, plan: seq<Entry>, s: nat, got: nat)
    requires s < |plan|
    ensures var e := RunEnd(plan, s + 1);
            && s < e <= |plan|
            && (var data := RunData(plan, (s, e));
                FlushRun(v, plan, s, got).master ==
                  Pwrite(v.master, plan[s].slot * BLOCK_SIZE, data[..Min(got, |data|)]))
    ensures FlushRun(v, plan, s, 0) == v
  {
    hide Flatten;
  }

  /** What write_dedup returns: the size of the request if every pwrite is complete, and
      else the errno of the first that is not, or -EIO if that one was short. */
  lemma WriteResult(H: Block -> Digest, v: Volume, path: Path, start: nat, blocks: seq<Block>, io: nat -> int)
    ensures var rs := Runs(Prepare(H, v, start, blocks).1, 0);
            var j := FirstFailure(rs, io, 0);
            WriteBlocks(H, v, path, start, blocks, io).1 ==
              if j == |rs| then |blocks| * BLOCK_SIZE else if io(j) < 0 then io(j) else -EIO
  {
    hide Prepare, FlushAll, Rollback, Consolidate, Runs, AfterRuns, FirstFailure;
    var (v1, plan) := Prepare(H, v, start, blocks);
    FlushResult(v1, plan, 0, io, 0);
    assert 0 + FirstFailure(Runs(plan, 0), io, 0) == FirstFailure(Runs(plan, 0), io, 0);
  }
}
