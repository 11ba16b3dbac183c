/** Whole requests as functions on the volume: each loop of the source is the fold
    of its per-block action over a prefix. */
module Requests {
  import opened MasterFile
  import opened Volumes
  import opened Protocol

  const EIO: int := 5
  const EOPNOTSUPP: int := 95

  function DecideAll(H: Block -> Digest, v: Volume, start: nat, blocks: seq<Block>, n: nat): (r: (Volume, seq<Entry>))
    requires n <= |blocks|
    ensures |r.1| == n
  {
    if n == 0 then (v, [])
    else
      var (v1, plan) := DecideAll(H, v, start, blocks, n - 1);
      var (v2, e) := Decide(H, v1, plan, start + (n - 1), blocks[n - 1]);
      (v2, plan + [e])
  }

  /** allocate_batch_storage_first: the free list from its head, then the end of the master. */
  function Allocate(v: Volume, want: nat): (r: (Volume, seq<nat>))
    ensures |r.1| == want
  {
    var (v1, taken) := Drain(v, want);
    var (v2, added) := Append(v1, want - |taken|);
    (v2, taken + added)
  }

  function AssignAll(v: Volume, plan: seq<Entry>, out: seq<nat>, n: nat): (r: (Volume, seq<Entry>))
    requires n <= |plan| && |out| == MissCount(plan)
    ensures |r.1| == |plan| && forall i :: n <= i < |plan| ==> r.1[i] == plan[i]
    ensures forall i :: 0 <= i < n ==> r.1[i] == plan[i].(slot := r.1[i].slot)
  {
    if n == 0 then (v, plan)
    else
      var (v1, p1) := AssignAll(v, plan, out, n - 1);
      if plan[n - 1].kind.Hit? then (v1, p1)
      else
        MissCountPrefix(plan, n - 1);
        var (v2, e) := Assign(v1, p1[n - 1], out[MissCount(plan[..n - 1])]);
        (v2, p1[n - 1 := e])
  }

  lemma {:induction false} MissCountPrefix(plan: seq<Entry>, i: nat)
    requires i < |plan|
    ensures MissCount(plan) == MissCount(plan[..i]) + MissCount(plan[i..])
    ensures MissCount(plan[i..]) == (if plan[i].kind.Miss? then 1 else 0) + MissCount(plan[i + 1..])
    ensures MissCount(plan[..i + 1]) == MissCount(plan[..i]) + (if plan[i].kind.Miss? then 1 else 0)
  {
    assert plan[i..][1..] == plan[i + 1..];
    assert plan[..i + 1] == plan[..i] + [plan[i]];
    MissCountSnoc(plan[..i], plan[i]);
    if i == 0 {
      assert plan[0..] == plan;
    } else {
      MissCountPrefix(plan, i - 1);
      assert plan[i - 1..][1..] == plan[i..];
    }
  }

  /** flush_plan from entry i on. `io(k)` is what the pwrite of run k returns: a
      negative errno, or how many bytes the device takes at most. */
  function FlushAll(v: Volume, plan: seq<Entry>, i: nat, io: nat -> int, k: nat): (r: (Volume, int))
    requires i <= |plan|
    ensures r.1 <= 0
    decreases |plan| - i
  {
    var s := SkipHits(plan, i);
    if s == |plan| then (v, 0)
    else if io(k) >= RunBytes(plan, s) then
      FlushAll(FlushRun(v, plan, s, RunBytes(plan, s)), plan, RunEnd(plan, s + 1), io, k + 1)
    else if io(k) < 0 then (v, io(k))
    else (FlushRun(v, plan, s, io(k)), -EIO)
  }

  function UnhitAll(v: Volume, plan: seq<Entry>, n: nat): (Volume, seq<nat>)
    requires n <= |plan|
  {
    if n == 0 then (v, []) else var (v1, rel) := UnhitAll(v, plan, n - 1); Unhit(v1, plan[n - 1], rel)
  }

  function UnmissAll(v: Volume, plan: seq<Entry>, n: nat): Volume
    requires n <= |plan|
  {
    if n == 0 then v else Unmiss(UnmissAll(v, plan, n - 1), plan[n - 1])
  }

  function Rollback(v: Volume, plan: seq<Entry>): Volume {
    var (v1, rel) := UnhitAll(v, plan, |plan|);
    UnmissAll(Release(v1, rel), plan, |plan|)
  }

  function PublishAll(v: Volume, plan: seq<Entry>, n: nat): (r: (Volume, seq<Entry>, seq<nat>))
    requires n <= |plan|
    ensures |r.1| == |plan| && forall i :: n <= i < |plan| ==> r.1[i] == plan[i]
  {
    if n == 0 then (v, plan, [])
    else
      var (v1, p1, rel) := PublishAll(v, plan, n - 1);
      var (v2, e, rel2) := Publish(v1, p1[n - 1], rel);
      (v2, p1[n - 1 := e], rel2)
  }

  function MapAll(v: Volume, path: Path, plan: seq<Entry>, rel: seq<nat>, n: nat): (Volume, seq<nat>)
    requires n <= |plan|
  {
    if n == 0 then (v, rel)
    else var (v1, rel1) := MapAll(v, path, plan, rel, n - 1); MapBlock(v1, path, plan[n - 1], rel1)
  }

  /** Pass 3 as a whole, with the slots it frees given back at the end. */
  function Consolidate(v: Volume, path: Path, plan: seq<Entry>, end: nat): Volume {
    var (v1, p1, rel1) := PublishAll(v, plan, |plan|);
    var (v2, rel2) := MapAll(v1, path, p1, rel1, |plan|);
    Release(GrowSize(v2, path, end), rel2)
  }

  /** The state in which the flush begins, and the plan it flushes. */
  function Prepare(H: Block -> Digest, v: Volume, start: nat, blocks: seq<Block>): (Volume, seq<Entry>) {
    var (v1, plan) := DecideAll(H, v, start, blocks, |blocks|);
    var (v2, out) := Allocate(v1, MissCount(plan));
    AssignAll(v2, plan, out, |plan|)
  }

  function WriteBlocks(H: Block -> Digest, v: Volume, path: Path, start: nat, blocks: seq<Block>,
                       io: nat -> int): (Volume, int) {
    var (v1, plan) := Prepare(H, v, start, blocks);
    var (v2, rc) := FlushAll(v1, plan, 0, io, 0);
    if rc < 0 then (Rollback(v2, plan), rc)
    else (Consolidate(v2, path, plan, (start + |blocks|) * BLOCK_SIZE), |blocks| * BLOCK_SIZE)
  }

  /** write_dedup. The offset is rounded down to a block; only the size is checked. */
  function Write(H: Block -> Digest, v: Volume, path: Path, buf: seq<Byte>, offset: nat, io: nat -> int): (Volume,
                 int) {
    if |buf| == 0 then (v, 0)
    else if |buf| % BLOCK_SIZE != 0 then (v, -EOPNOTSUPP)
    else WriteBlocks(H, v, path, offset / BLOCK_SIZE, Chop(buf), io)
  }

  // ---- Removal ----

  /** The loop of remove_blocks_dedup_batch over [from, until). */
  function RemoveRange(v: Volume, path: Path, from: nat, until: nat): (Volume, seq<nat>)
    decreases until
  {
    if from >= until then (v, [])
    else var (v1, rel) := RemoveRange(v, path, from, until - 1); RemoveBlock(v1, path, until - 1, rel)
  }

  function RemoveBatch(v: Volume, path: Path, from: nat, until: nat): Volume {
    var (v1, rel) := RemoveRange(v, path, from, until);
    Release(v1, rel)
  }

  /** remove_block_dedup: one block, its slot prepended to the free list at once. */
  function RemoveSingle(v: Volume, path: Path, blk: nat): Volume {
    var (v1, rel) := RemoveBlock(v, path, blk, []);
    Release(v1, rel)
  }

  function RemoveEach(v: Volume, path: Path, from: nat, until: nat): Volume
    decreases until
  {
    if from >= until then v else RemoveSingle(RemoveEach(v, path, from, until - 1), path, until - 1)
  }

  /** The index half of xmp_unlink. */
  function Unlink(v: Volume, path: Path): Volume {
    if path in v.sizes then Resized(RemoveBatch(v, path, 0, RoundUp(v.sizes[path])), path, Forget) else v
  }

  /** The index half of xmp_truncate; sizes that are negative or not whole blocks are refused. */
  function Truncate(v: Volume, path: Path, size: int): (Volume, int) {
    if size < 0 || size % BLOCK_SIZE != 0 then (v, -EOPNOTSUPP)
    else if path in v.sizes && size < v.sizes[path] then
      (Resized(RemoveBatch(v, path, RoundUp(size), RoundUp(v.sizes[path])), path, Shrink(size)), 0)
    else (v, 0)
  }
}
