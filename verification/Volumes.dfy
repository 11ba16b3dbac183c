/** The state of the deduplication engine and the individual actions that the
    write, remove and rollback paths perform on it. MasterInfo objects live in an
    explicit heap (`infos`), so that freeing one and still holding its address is
    expressible. */
module Volumes {
  import opened MasterFile

  const HASH_SIZE: nat := 64

  type Digest = d: seq<Byte> | |d| == HASH_SIZE witness seq(HASH_SIZE, _ => 0)
  type Path = p: seq<Byte> | 0 !in p
  type Ref = nat

  /** MasterInfo: one stored block and how many holders it has. */
  datatype Info = Info(hash: Digest, slot: nat, refs: int)

  /** BlockIndice: a logical block of a file. */
  datatype Key = Key(path: Path, blk: nat)

  datatype Volume = Volume(
    infos: map<Ref, Info>,      // the allocated MasterInfo objects
    nextRef: Ref,               // next address handed out for a MasterInfo
    byHash: map<Digest, Ref>,   // hash_to_master
    byBlock: map<Key, Ref>,     // file_to_master
    sizes: map<Path, nat>,      // file_to_sizes
    free: seq<nat>,             // free_block_list, head first
    next: nat,                  // nextBlockIndex
    master: seq<Byte>)          // the master file

  const EMPTY: Volume := Volume(map[], 0, map[], map[], map[], [], 0, [])

  datatype Kind = Hit | Miss
  datatype Entry = Entry(kind: Kind, blk: nat, slot: nat, payload: Block, hash: Digest, info: Ref)

  /** Reading a freed MasterInfo gives an arbitrary value; that it never happens is
      part of what is proved about the engine. */
  function Deref(v: Volume, r: Ref): Info {
    if r in v.infos then v.infos[r] else Info(seq(HASH_SIZE, _ => 0), 0, 0)
  }

  function Poke(v: Volume, r: Ref, i: Info): Volume {
    if r in v.infos then v.(infos := v.infos[r := i]) else v
  }

  function Retain(v: Volume, r: Ref): Volume {
    Poke(v, r, Deref(v, r).(refs := Deref(v, r).refs + 1))
  }

  /** Drops one reference. The last one frees the info, unindexes its hash and puts
      its slot at the front of the list of slots to give back. */
  function Drop(v: Volume, r: Ref, rel: seq<nat>): (Volume, seq<nat>) {
    var i := Deref(v, r);
    if i.refs == 1 then
      (v.(infos := v.infos - {r}, byHash := v.byHash - {i.hash}), [i.slot] + rel)
    else
      (Poke(v, r, i.(refs := i.refs - 1)), rel)
  }

  /** pending_hashes: the infos created so far by this batch, by hash. */
  function PendingHashes(plan: seq<Entry>): map<Digest, Ref> {
    if plan == [] then map[]
    else
      var p := PendingHashes(plan[..|plan| - 1]);
      var e := plan[|plan| - 1];
      if e.kind.Miss? then p[e.hash := e.info] else p
  }

  datatype Option<+T> = None | Some(value: T)

  function Existing(v: Volume, plan: seq<Entry>, h: Digest): Option<Ref> {
    if h in v.byHash then Some(v.byHash[h])
    else if h in PendingHashes(plan) then Some(PendingHashes(plan)[h])
    else None
  }

  /** Pass 1 for one block: HIT takes a reference, MISS creates a pending info. */
  function Decide(H: Block -> Digest, v: Volume, plan: seq<Entry>, blk: nat, payload: Block): (Volume, Entry) {
    var h := H(payload);
    match Existing(v, plan, h)
    case Some(r) => (Retain(v, r), Entry(Hit, blk, 0, payload, h, r))
    case None =>
      (v.(infos := v.infos[v.nextRef := Info(h, 0, 1)], nextRef := v.nextRef + 1),
       Entry(Miss, blk, 0, payload, h, v.nextRef))
  }

  function MissCount(plan: seq<Entry>): nat {
    if plan == [] then 0 else (if plan[0].kind.Miss? then 1 else 0) + MissCount(plan[1..])
  }

  function Min(a: nat, b: nat): nat { if a <= b then a else b }
  function Max(a: nat, b: nat): nat { if a >= b then a else b }

  /** The free list is drained from its head. */
  function Drain(v: Volume, want: nat): (Volume, seq<nat>) {
    var k := Min(want, |v.free|);
    (v.(free := v.free[k..]), v.free[..k])
  }

  /** The rest comes from the end of the master, by one fetch_add. */
  function Append(v: Volume, want: nat): (Volume, seq<nat>) {
    (v.(next := v.next + want), seq(want, i requires 0 <= i => v.next + i))
  }

  function Assign(v: Volume, e: Entry, slot: nat): (Volume, Entry) {
    (Poke(v, e.info, Deref(v, e.info).(slot := slot)), e.(slot := slot))
  }

  /** First MISS at or after i. */
  function SkipHits(plan: seq<Entry>, i: nat): (j: nat)
    requires i <= |plan|
    ensures i <= j <= |plan|
    ensures forall k :: i <= k < j ==> plan[k].kind.Hit?
    ensures j < |plan| ==> plan[j].kind.Miss?
    decreases |plan| - i
  {
    if i < |plan| && plan[i].kind.Hit? then SkipHits(plan, i + 1) else i
  }

  predicate Consecutive(plan: seq<Entry>, i: nat)
    requires 0 < i < |plan|
  {
    plan[i].kind.Miss? && plan[i].slot == plan[i - 1].slot + 1
  }

  /** End of the run that contains entry i - 1: it stops at the first entry that
      does not continue it, so a run is maximal on the right. */
  function RunEnd(plan: seq<Entry>, i: nat): (j: nat)
    requires 0 < i <= |plan|
    ensures i <= j <= |plan|
    ensures forall k :: i <= k < j ==> Consecutive(plan, k)
    ensures j < |plan| ==> !Consecutive(plan, j)
    decreases |plan| - i
  {
    if i < |plan| && Consecutive(plan, i) then RunEnd(plan, i + 1) else i
  }

  function Payloads(plan: seq<Entry>): (bs: seq<Block>)
    ensures |bs| == |plan| && forall i :: 0 <= i < |bs| ==> bs[i] == plan[i].payload
  {
    seq(|plan|, i requires 0 <= i < |plan| => plan[i].payload)
  }

  /** One pwrite of the run [i, RunEnd); only its first `got` bytes reach the file. */
  function FlushRun(v: Volume, plan: seq<Entry>, i: nat, got: nat): Volume
    requires i < |plan|
  {
    var data := Flatten(Payloads(plan[i..RunEnd(plan, i + 1)]));
    v.(master := Pwrite(v.master, plan[i].slot * BLOCK_SIZE, data[..Min(got, |data|)]))
  }

  function RunBytes(plan: seq<Entry>, i: nat): nat
    requires i < |plan|
  {
    (RunEnd(plan, i + 1) - i) * BLOCK_SIZE
  }

  /** Pass 3, first loop: publish the pending info, or, if the hash was indexed in
      the meantime, discard it and hold the winner instead. Only this entry is
      redirected. */
  function Publish(v: Volume, e: Entry, rel: seq<nat>): (Volume, Entry, seq<nat>) {
    if e.kind.Hit? then (v, e, rel)
    else
      var h := Deref(v, e.info).hash;
      if h in v.byHash then
        var winner := v.byHash[h];
        (Retain(v.(infos := v.infos - {e.info}), winner), e.(info := winner), [e.slot] + rel)
      else (v.(byHash := v.byHash[h := e.info]), e, rel)
  }

  /** Pass 3, second loop: drop what the block mapped to before, then map it. */
  function MapBlock(v: Volume, path: Path, e: Entry, rel: seq<nat>): (Volume, seq<nat>) {
    var k := Key(path, e.blk);
    var (v1, rel1) := if k in v.byBlock then Drop(v, v.byBlock[k], rel) else (v, rel);
    (v1.(byBlock := v1.byBlock[k := e.info]), rel1)
  }

  function GrowSize(v: Volume, path: Path, end: nat): Volume {
    if path in v.sizes && end <= v.sizes[path] then v else v.(sizes := v.sizes[path := end])
  }

  function Release(v: Volume, rel: seq<nat>): Volume {
    v.(free := rel + v.free)
  }

  function Unhit(v: Volume, e: Entry, rel: seq<nat>): (Volume, seq<nat>) {
    if e.kind.Hit? then Drop(v, e.info, rel) else (v, rel)
  }

  function Unmiss(v: Volume, e: Entry): Volume {
    if e.kind.Miss? then v.(free := [e.slot] + v.free, infos := v.infos - {e.info}) else v
  }

  /** One block of remove_blocks_dedup_batch. */
  function RemoveBlock(v: Volume, path: Path, blk: nat, rel: seq<nat>): (Volume, seq<nat>) {
    var k := Key(path, blk);
    if k in v.byBlock then
      Drop(v.(byBlock := v.byBlock - {k}), v.byBlock[k], rel)
    else (v, rel)
  }

  // ---- What a reader sees ----

  function Content(v: Volume, r: Ref): seq<Byte> {
    if r in v.infos && InFile(v.master, v.infos[r].slot) then BlockAt(v.master, v.infos[r].slot) else []
  }

  /** The file system as a plain map from logical blocks to their bytes. */
  function View(v: Volume): map<Key, seq<Byte>> {
    map k | k in v.byBlock :: Content(v, v.byBlock[k])
  }

  ghost predicate CollisionFree(H: Block -> Digest, U: iset<Block>) {
    forall a, b :: a in U && b in U && H(a) == H(b) ==> a == b
  }

  lemma {:induction false} PendingHashesMeaning(plan: seq<Entry>, h: Digest)
    ensures h in PendingHashes(plan) <==> exists j :: 0 <= j < |plan| && plan[j].kind.Miss? && plan[j].hash == h
    ensures h in PendingHashes(plan) ==>
              exists j :: 0 <= j < |plan| && plan[j].kind.Miss? && plan[j].hash == h &&
                  plan[j].info == PendingHashes(plan)[h]
  {
    if plan != [] {
      var n := |plan| - 1;
      PendingHashesMeaning(plan[..n], h);
      assert plan == plan[..n] + [plan[n]];
    }
  }

  lemma {:induction false} MissCountSnoc(plan: seq<Entry>, e: Entry)
    ensures MissCount(plan + [e]) == MissCount(plan) + (if e.kind.Miss? then 1 else 0)
  {
    if plan == [] {
      assert [e][1..] == [];
    } else {
      MissCountSnoc(plan[1..], e);
      assert (plan + [e])[1..] == plan[1..] + [e];
    }
  }
}
