/** What a write that runs alone does: every block decision of Pass 1, the state
    after success, the state after a failed flush. */
module Writes {
  import opened MasterFile
  import opened Volumes
  import opened Protocol
  import opened Invariant
  import opened Commits
  import opened Safety
  import opened Refinement
  import opened Requests
  import opened Solo

  // ---- Pass 1 ----

  /** No earlier block of the request has the hash of block i. */
  predicate IsFirst(plan: seq<Entry>, i: nat)
    requires i < |plan|
  {
    forall j :: 0 <= j < i ==> plan[j].hash != plan[i].hash
  }

  ghost predicate LabelsFit(H: Block -> Digest, start: nat, blocks: seq<Block>, plan: seq<Entry>) {
    && |plan| <= |blocks|
    && forall i :: 0 <= i < |plan| ==>
         plan[i].payload == blocks[i] && plan[i].hash == H(blocks[i]) && plan[i].blk == start + i
  }

  /** A block is a MISS exactly if its hash is neither indexed nor the hash of an
      earlier block of the request. */
  ghost predicate KindsFit(v: Volume, plan: seq<Entry>) {
    forall i :: 0 <= i < |plan| ==> (plan[i].kind.Miss? <==> plan[i].hash !in v.byHash && IsFirst(plan, i))
  }

  /** A HIT holds the indexed info, or the pending info of the first block of that hash. */
  ghost predicate SharesFit(v: Volume, plan: seq<Entry>) {
    && (forall i :: 0 <= i < |plan| && plan[i].hash in v.byHash ==> plan[i].info == v.byHash[plan[i].hash])
    && (forall i, j :: 0 <= i < j < |plan| && plan[i].hash == plan[j].hash ==> plan[i].info == plan[j].info)
  }

  ghost predicate FrameFits(v: Volume, v': Volume) {
    v' == v.(infos := v'.infos, nextRef := v'.nextRef) && v.nextRef <= v'.nextRef
  }

  ghost predicate PlanFits(H: Block -> Digest, v: Volume, start: nat, blocks: seq<Block>, v': Volume,
                           plan: seq<Entry>) {
    FrameFits(v, v') && LabelsFit(H, start, blocks, plan) && KindsFit(v, plan) && SharesFit(v, plan)
  }

  lemma {:induction false} DecideFits(H: Block -> Digest, v: Volume, start: nat, blocks: seq<Block>, n: nat)
    requires n <= |blocks|
    ensures var (v', plan) := DecideAll(H, v, start, blocks, n); PlanFits(H, v, start, blocks, v', plan)
  {
    hide PlanFits, Decide;
    if n == 0 {
      FitsEmpty(H, v, start, blocks);
    } else {
      DecideFits(H, v, start, blocks, n - 1);
      var (v1, plan) := DecideAll(H, v, start, blocks, n - 1);
      FitsNext(H, v, start, blocks, v1, plan);
    }
  }

  lemma FitsEmpty(H: Block -> Digest, v: Volume, start: nat, blocks: seq<Block>)
    ensures PlanFits(H, v, start, blocks, v, [])
  {
  }

  predicate Seen(plan: seq<Entry>, h: Digest) {
    exists j :: 0 <= j < |plan| && plan[j].hash == h
  }

  lemma FitsNext(H: Block -> Digest, v: Volume, start: nat, blocks: seq<Block>, v1: Volume, plan: seq<Entry>)
    requires PlanFits(H, v, start, blocks, v1, plan) && |plan| < |blocks|
    ensures var (v2, e) := Decide(H, v1, plan, start + |plan|, blocks[|plan|]);
            PlanFits(H, v, start, blocks, v2, plan + [e])
  {
    hide KindsFit, SharesFit, LabelsFit, PendingHashes, Retain, Seen;
    var n, h := |plan|, H(blocks[|plan|]);
    var (v2, e) := Decide(H, v1, plan, start + n, blocks[n]);
    if h !in v.byHash {
      SeenIffPending(v, plan, h);
    }
    RetainTables(v1);
    LabelsNext(H, start, blocks, plan, e);
    KindsNext(v, plan, e);
    SharesNext(v, plan, e);
  }

  lemma RetainTables(v: Volume)
    ensures forall r :: Retain(v, r) == v.(infos := Retain(v, r).infos)
  {
  }

  lemma LabelsNext(H: Block -> Digest, start: nat, blocks: seq<Block>, plan: seq<Entry>, e: Entry)
    requires LabelsFit(H, start, blocks, plan) && |plan| < |blocks|
    requires e.payload == blocks[|plan|] && e.hash == H(blocks[|plan|]) && e.blk == start + |plan|
    ensures LabelsFit(H, start, blocks, plan + [e])
  {
  }

  lemma KindsNext(v: Volume, plan: seq<Entry>, e: Entry)
    requires KindsFit(v, plan) && (e.kind.Miss? <==> e.hash !in v.byHash && !Seen(plan, e.hash))
    ensures KindsFit(v, plan + [e])
  {
    var plan' := plan + [e];
    forall i | 0 <= i < |plan'| ensures plan'[i].kind.Miss? <==> plan'[i].hash !in v.byHash && IsFirst(plan', i) {
      if i < |plan| {
        assert IsFirst(plan', i) <==> IsFirst(plan, i) by {
          assert forall j :: 0 <= j <= i ==> plan'[j] == plan[j];
        }
      } else {
        assert forall j :: 0 <= j < i ==> plan'[j] == plan[j];
      }
    }
  }

  lemma SharesNext(v: Volume, plan: seq<Entry>, e: Entry)
    requires SharesFit(v, plan) && (e.hash in v.byHash ==> e.info == v.byHash[e.hash])
    requires e.hash !in v.byHash && Seen(plan, e.hash) ==>
               exists j :: 0 <= j < |plan| && plan[j].hash == e.hash && plan[j].info == e.info
    ensures SharesFit(v, plan + [e])
  {
  }

  /** Within the plan so far, a hash that is not indexed is pending iff it was seen;
      the pending table then holds the info of an entry of that hash. */
  lemma SeenIffPending(v: Volume, plan: seq<Entry>, h: Digest)
    requires KindsFit(v, plan) && h !in v.byHash
    ensures h in PendingHashes(plan) <==> Seen(plan, h)
    ensures Seen(plan, h) ==> exists j :: 0 <= j < |plan| && plan[j].hash == h && plan[j].info == PendingHashes(plan)[h]
  {
    hide PendingHashes;
    PendingHashesMeaning(plan, h);
    if Seen(plan, h) {
      var i :| 0 <= i < |plan| && plan[i].hash == h;
      var f := FirstOf(plan, h, i);
      assert plan[f].kind.Miss?;
    }
  }

  ghost function FirstOf(plan: seq<Entry>, h: Digest, i: nat): (f: nat)
    requires i < |plan| && plan[i].hash == h
    ensures f <= i && plan[f].hash == h && IsFirst(plan, f)
  {
    if exists j :: 0 <= j < i && plan[j].hash == h then
      var j :| 0 <= j < i && plan[j].hash == h; FirstOf(plan, h, j)
    else i
  }

  // ---- Preparing the flush ----

  lemma {:induction false} AssignAllTables(v: Volume, plan: seq<Entry>, out: seq<nat>, n: nat)
    requires n <= |plan| && |out| == MissCount(plan)
    ensures AssignAll(v, plan, out, n).0 == v.(infos := AssignAll(v, plan, out, n).0.infos)
  {
    hide MissCount;
    if n > 0 {
      AssignAllTables(v, plan, out, n - 1);
    }
  }

  /** Slots aside, the plan that is flushed is the plan of Pass 1. */
  lemma PrepareFits(H: Block -> Digest, v: Volume, start: nat, blocks: seq<Block>)
    ensures var (v', plan) := Prepare(H, v, start, blocks);
            && |plan| == |blocks| && LabelsFit(H, start, blocks, plan) && KindsFit(v, plan) && SharesFit(v, plan)
            && v'.byHash == v.byHash && v'.byBlock == v.byBlock && v'.sizes == v.sizes && v'.master == v.master
  {
    hide DecideAll, AssignAll, LabelsFit, KindsFit, SharesFit, MissCount;
    DecideFits(H, v, start, blocks, |blocks|);
    var (v1, plan) := DecideAll(H, v, start, blocks, |blocks|);
    var (v2, out) := Allocate(v1, MissCount(plan));
    AssignAllTables(v2, plan, out, |plan|);
    SlotsAside(H, v, start, blocks, plan, AssignAll(v2, plan, out, |plan|).1);
  }

  lemma SlotsAside(H: Block -> Digest, v: Volume, start: nat, blocks: seq<Block>, plan: seq<Entry>, plan': seq<Entry>)
    requires LabelsFit(H, start, blocks, plan) && KindsFit(v, plan) && SharesFit(v, plan)
    requires |plan'| == |plan| && forall i :: 0 <= i < |plan| ==> plan'[i] == plan[i].(slot := plan'[i].slot)
    ensures LabelsFit(H, start, blocks, plan') && KindsFit(v, plan') && SharesFit(v, plan')
  {
    forall i | 0 <= i < |plan| ensures IsFirst(plan', i) <==> IsFirst(plan, i) {
    }
  }

  lemma PreparePhase(H: Block -> Digest, U: iset<Block>, v: Volume, path: Path, start: nat, blocks: seq<Block>)
    requires Valid(H, U, v) && Within(U, blocks) && blocks != []
    ensures var (v', plan) := Prepare(H, v, start, blocks);
            Follows(H, U, v, v', WriterAt(Flushing, path, start, blocks, plan, [], 0, [])) && View(v') == View(v)
  {
    hide Good, Extends, View, DecideAll, AssignAll, Allocate;
    DecidePhase(H, U, v, path, start, blocks, |blocks|);
    var (v1, plan) := DecideAll(H, v, start, blocks, |blocks|);
    AllocatePhase(H, U, v, v1, path, start, blocks, plan);
    var (v2, out) := Allocate(v1, MissCount(plan));
    AssignPhase(H, U, v, v2, path, start, blocks, plan, out, |plan|);
    var (v3, p3) := AssignAll(v2, plan, out, |plan|);
    assert plan[..|plan|] == plan;
    assert out[|out|..] == [];
    SoloAdvance(H, U, v, v3, WriterAt(Assigning, path, start, blocks, p3, [], |plan|, []));
  }

  // ---- Pass 3 ----

  /** No MISS of the plan has an indexed hash and no two have the same. */
  ghost predicate RaceFree(v: Volume, plan: seq<Entry>) {
    forall i :: 0 <= i < |plan| && plan[i].kind.Miss? ==> plan[i].hash !in v.byHash && IsFirst(plan, i)
  }

  lemma GoodHeld(H: Block -> Digest, U: iset<Block>, sys: Sys, t: Tid, i: nat)
    requires Good(H, U, sys) && t in sys.threads && Held(sys.threads[t], i)
    ensures var e := sys.threads[t].plan[i]; e.info in sys.v.infos && sys.v.infos[e.info].hash == e.hash
  {
    hide SlotInv, InfoInv, RefInv, ContentInv, Held;
    var g :| Inv(H, U, sys, g);
    HeldInfo(sys, g, t, i);
  }

  ghost predicate PublishedUpTo(v: Volume, plan: seq<Entry>, n: nat, v': Volume)
    requires n <= |plan|
  {
    && v' == v.(byHash := v'.byHash)
    && (forall h :: h in v.byHash ==> h in v'.byHash && v'.byHash[h] == v.byHash[h])
    && (forall h ::
          h in v'.byHash && h !in v.byHash ==> exists j :: 0 <= j < n && plan[j].kind.Miss? && plan[j].hash == h)
  }

  /** Alone, a writer never loses the race to publish: the loop only extends the hash
      index, redirects nothing and gives no slot back. */
  lemma {:induction false} PublishPhase(H: Block -> Digest, U: iset<Block>, v0: Volume, v: Volume, path: Path,
                                        start: nat, blocks: seq<Block>,
                                        plan: seq<Entry>, n: nat)
    requires Follows(H, U, v0, v, WriterAt(Publishing, path, start, blocks, plan, [], 0, []))
    requires RaceFree(v, plan) && n <= |plan|
    ensures var (v', plan', rel) := PublishAll(v, plan, n);
            && plan' == plan && rel == [] && PublishedUpTo(v, plan, n, v')
            && Follows(H, U, v0, v', WriterAt(Publishing, path, start, blocks, plan, [], n, [])) && View(v') == View(v)
  {
    hide Follows, View, RaceFree, Publish;
    if n > 0 {
      PublishPhase(H, U, v0, v, path, start, blocks, plan, n - 1);
      var v1 := PublishAll(v, plan, n - 1).0;
      NotYetIndexed(v, plan, n - 1, v1);
      assert plan[n - 1 := plan[n - 1]] == plan;
      PublishStep(H, U, v0, v1, path, start, blocks, plan, n - 1);
    }
  }

  /** Publishing an entry whose hash is not indexed. */
  lemma PublishStep(H: Block -> Digest, U: iset<Block>, v0: Volume, v: Volume, path: Path, start: nat,
                    blocks: seq<Block>, plan: seq<Entry>, n: nat)
    requires Follows(H, U, v0, v, WriterAt(Publishing, path, start, blocks, plan, [], n, [])) && n < |plan|
    requires plan[n].kind.Miss? ==> plan[n].hash !in v.byHash
    ensures var (v', e, rel) := Publish(v, plan[n], []);
            && e == plan[n] && rel == []
            && v' == (if e.kind.Miss? then v.(byHash := v.byHash[e.hash := e.info]) else v)
            && Follows(H, U, v0, v', WriterAt(Publishing, path, start, blocks, plan, [], n + 1, []))
            && View(v') == View(v)
  {
    hide Good, Extends, View, Held;
    var th := WriterAt(Publishing, path, start, blocks, plan, [], n, []);
    PublishingHolds(th, n);
    GoodHeld(H, U, Alone(v, th), 0, n);
    assert plan[n := plan[n]] == plan;
    SoloStep(H, U, v0, v, th, PublishOne(0));
  }

  lemma PublishingHolds(th: Thread, i: nat)
    requires th.pc.Publishing? && i < |th.plan|
    ensures Held(th, i)
  {
  }

  lemma NotYetIndexed(v: Volume, plan: seq<Entry>, i: nat, v1: Volume)
    requires RaceFree(v, plan) && i < |plan| && PublishedUpTo(v, plan, i, v1)
    ensures plan[i].kind.Miss? ==> plan[i].hash !in v1.byHash
  {
    if plan[i].kind.Miss? {
      assert IsFirst(plan, i);
    }
  }

  // ---- Mapping ----

  function Overlay(m: map<Key, seq<Byte>>, v: Volume, path: Path, plan: seq<Entry>, n: nat): map<Key, seq<Byte>>
    requires n <= |plan|
  {
    if n == 0 then m else Overlay(m, v, path, plan, n - 1)[Key(path, plan[n - 1].blk) := Content(v, plan[n - 1].info)]
  }

  lemma MappingIndexed(H: Block -> Digest, U: iset<Block>, v: Volume, th: Thread, i: nat)
    requires Good(H, U, Alone(v, th)) && th.pc.Mapping? && th.pos <= i < |th.plan|
    ensures Indexed(v, th.plan[i].info) && th.plan[i].info < v.nextRef
  {
    hide SlotInv, RefInv, ContentInv, ThreadsOk, Indexed;
    var g :| Inv(H, U, Alone(v, th), g);
    assert Held(th, i);
    HeldInfo(Alone(v, th), g, 0, i);
  }

  lemma {:induction false} MapPhase(H: Block -> Digest, U: iset<Block>, v: Volume, path: Path, start: nat,
                                    blocks: seq<Block>, plan: seq<Entry>, n: nat)
    requires Good(H, U, Alone(v, WriterAt(Mapping, path, start, blocks, plan, [], 0, []))) && n <= |plan|
    ensures var (v', rel) := MapAll(v, path, plan, [], n);
            && Follows(H, U, v, v', WriterAt(Mapping, path, start, blocks, plan, [], n, rel))
            && View(v') == Overlay(View(v), v, path, plan, n)
  {
    hide Good, Extends, View, MapBlock, Indexed, Content;
    if n == 0 {
      SelfExtends(v);
    } else {
      MapPhase(H, U, v, path, start, blocks, plan, n - 1);
      var (v1, rel1) := MapAll(v, path, plan, [], n - 1);
      var th, e := WriterAt(Mapping, path, start, blocks, plan, [], n - 1, rel1), plan[n - 1];
      SoloStep(H, U, v, v1, th, MapOne(0));
      StepViewRaw(H, U, Alone(v1, th), MapOne(0));
      var (v2, rel2) := MapBlock(v1, path, e, rel1);
      MappingIndexed(H, U, v, WriterAt(Mapping, path, start, blocks, plan, [], 0, []), n - 1);
      MapBlockMaps(v1, path, e, rel1);
      MappedIsIndexed(H, U, Alone(v2, th.(pos := n, rel := rel2)), Key(path, e.blk));
      IndexedIsAllocated(v2, e.info);
      ExtendedContent(v, v2, e.info);
    }
  }

  lemma MapBlockMaps(v: Volume, path: Path, e: Entry, rel: seq<nat>)
    ensures var v' := MapBlock(v, path, e, rel).0;
            Key(path, e.blk) in v'.byBlock && v'.byBlock[Key(path, e.blk)] == e.info
  {
  }

  lemma ExtendedContent(v: Volume, v': Volume, r: Ref)
    requires Extends(v, v') && Indexed(v, r) && r < v.nextRef && r in v'.infos
    ensures Indexed(v', r) && Content(v', r) == Content(v, r)
  {
    hide Indexed, Content;
  }

  /** From a finished flush to the end of the request. */
  lemma ConsolidatePhase(H: Block -> Digest, U: iset<Block>, v0: Volume, v: Volume, path: Path, start: nat,
                         blocks: seq<Block>,
                         plan: seq<Entry>, j: nat) returns (vp: Volume)
    requires Follows(H, U, v0, v, WriterAt(Flushing, path, start, blocks, plan, [], j, []))
    requires j <= |plan| && SkipHits(plan, j) == |plan| && RaceFree(v, plan)
    ensures PublishedUpTo(v, plan, |plan|, vp) && View(vp) == View(v)
    ensures Follows(H, U, v0, vp, WriterAt(Mapping, path, start, blocks, plan, [], 0, []))
    ensures var v' := Consolidate(v, path, plan, (start + |blocks|) * BLOCK_SIZE);
            Valid(H, U, v') && View(v') == Overlay(View(v), vp, path, plan, |plan|)
  {
    hide Good, Extends, View, RaceFree, PublishAll, MapAll, PublishedUpTo, GrowSize, Apply, Enabled;
    var n := |plan|;
    StartPublishing(H, U, v0, v, path, start, blocks, plan, j);
    PublishPhase(H, U, v0, v, path, start, blocks, plan, n);
    vp := PublishAll(v, plan, n).0;
    StartMapping(H, U, v0, vp, path, start, blocks, plan);
    MapPhase(H, U, vp, path, start, blocks, plan, n);
    var (v2, rel) := MapAll(vp, path, plan, [], n);
    FinishPhase(H, U, vp, v2, path, start, blocks, plan, rel);
  }

  lemma StartPublishing(H: Block -> Digest, U: iset<Block>, v0: Volume, v: Volume, path: Path, start: nat,
                        blocks: seq<Block>, plan: seq<Entry>, j: nat)
    requires Follows(H, U, v0, v, WriterAt(Flushing, path, start, blocks, plan, [], j, [])) && j <= |plan| &&
             SkipHits(plan, j) == |plan|
    ensures Follows(H, U, v0, v, WriterAt(Publishing, path, start, blocks, plan, [], 0, []))
  {
    hide Good, Extends, View;
    SoloAdvance(H, U, v0, v, WriterAt(Flushing, path, start, blocks, plan, [], j, []));
  }

  lemma StartMapping(H: Block -> Digest, U: iset<Block>, v0: Volume, v: Volume, path: Path, start: nat,
                     blocks: seq<Block>, plan: seq<Entry>)
    requires Follows(H, U, v0, v, WriterAt(Publishing, path, start, blocks, plan, [], |plan|, []))
    ensures Follows(H, U, v0, v, WriterAt(Mapping, path, start, blocks, plan, [], 0, []))
  {
    hide Good, Extends, View;
    SoloAdvance(H, U, v0, v, WriterAt(Publishing, path, start, blocks, plan, [], |plan|, []));
  }

  lemma FinishPhase(H: Block -> Digest, U: iset<Block>, v0: Volume, v: Volume, path: Path, start: nat,
                    blocks: seq<Block>, plan: seq<Entry>, rel: seq<nat>)
    requires Follows(H, U, v0, v, WriterAt(Mapping, path, start, blocks, plan, [], |plan|, rel))
    ensures var v' := Release(GrowSize(v, path, (start + |blocks|) * BLOCK_SIZE), rel);
            Valid(H, U, v') && View(v') == View(v)
  {
    hide Good, Extends, View, GrowSize;
    var n := |plan|;
    SoloAdvance(H, U, v0, v, WriterAt(Mapping, path, start, blocks, plan, [], n, rel));
    SoloStep(H, U, v0, v, WriterAt(Growing, path, start, blocks, plan, [], n, rel), Grow(0));
    var v1 := GrowSize(v, path, (start + |blocks|) * BLOCK_SIZE);
    SoloGiveBack(H, U, v0, v1, WriterAt(Releasing, path, start, blocks, plan, [], n, rel));
  }

  // ---- The write as a whole ----

  /** Index of the first block of the request with the hash of block i. */
  function FirstWith(H: Block -> Digest, blocks: seq<Block>, i: nat, j: nat): (f: nat)
    requires j <= i < |blocks|
    ensures j <= f <= i && H(blocks[f]) == H(blocks[i]) && forall k :: j <= k < f ==> H(blocks[k]) != H(blocks[i])
    decreases i - j
  {
    if H(blocks[j]) == H(blocks[i]) then j else FirstWith(H, blocks, i, j + 1)
  }

  /** What block i of a request reads back as: what the index already stores under its
      hash, or else the first block of the request with that hash. */
  function Chosen(H: Block -> Digest, v: Volume, blocks: seq<Block>, i: nat): seq<Byte>
    requires i < |blocks|
  {
    if H(blocks[i]) in v.byHash then Content(v, v.byHash[H(blocks[i])]) else blocks[FirstWith(H, blocks, i, 0)]
  }

  function KeysOf(path: Path, start: nat, n: nat): (ks: set<Key>)
    ensures forall k :: k in ks <==> k.path == path && start <= k.blk < start + n
  {
    if n == 0 then {} else KeysOf(path, start, n - 1) + {Key(path, start + (n - 1))}
  }

  function Stored(H: Block -> Digest, v: Volume, path: Path, start: nat, blocks: seq<Block>): map<Key, seq<Byte>> {
    map k | k in KeysOf(path, start, |blocks|) :: Chosen(H, v, blocks, k.blk - start)
  }

  /** After the flush, a MISS info stores the payload of its entry. */
  lemma FlushedContent(H: Block -> Digest, U: iset<Block>, v: Volume, th: Thread, i: nat)
    requires Good(H, U, Alone(v, th)) && Flushed(th, i)
    ensures Content(v, th.plan[i].info) == th.plan[i].payload
  {
    hide SlotInv, RefInv, TablesOk, KeepersOk, PlanOk, BlockAt, InFile, Flushed, Held, Pending, Slotted;
    var g :| Inv(H, U, Alone(v, th), g);
    var sys := Alone(v, th);
    assert sys.threads[0] == th;
    assert ThreadContents(H, U, v, sys.threads[0]) && ThreadInfos(v, 0, sys.threads[0], g.infos);
  }

  lemma ChosenContent(H: Block -> Digest, U: iset<Block>, v0: Volume, v: Volume, vp: Volume, path: Path, start: nat,
                      blocks: seq<Block>,
                      plan: seq<Entry>, j: nat, i: nat)
    requires |plan| == |blocks| && i < |plan|
    requires LabelsFit(H, start, blocks, plan) && KindsFit(v0, plan) && SharesFit(v0, plan)
    requires Follows(H, U, v0, v, WriterAt(Flushing, path, start, blocks, plan, [], j, [])) && j <= |plan| &&
             SkipHits(plan, j) == |plan|
    requires Follows(H, U, v0, vp, WriterAt(Mapping, path, start, blocks, plan, [], 0, [])) &&
             PublishedUpTo(v, plan, |plan|, vp)
    requires Valid(H, U, v0)
    ensures Content(vp, plan[i].info) == Chosen(H, v0, blocks, i)
  {
    hide Good, Extends, Indexed, Content, KindsFit, PublishedUpTo, Flushed;
    MappingIndexed(H, U, vp, WriterAt(Mapping, path, start, blocks, plan, [], 0, []), i);
    IndexedIsAllocated(vp, plan[i].info);
    if plan[i].hash in v0.byHash {
      HashIndexed(H, U, v0, plan[i].hash);
      ExtendedContent(v0, vp, plan[i].info);
    } else {
      var f := FirstWith(H, blocks, i, 0);
      FirstIsMiss(H, v0, start, blocks, plan, i);
      assert f < i ==> plan[f].info == plan[i].info;
      AllFlushed(path, start, blocks, plan, j, f);
      FlushedContent(H, U, v, WriterAt(Flushing, path, start, blocks, plan, [], j, []), f);
      PublishingKeepsContent(v, plan, vp, plan[f].info);
    }
  }

  lemma HashIndexed(H: Block -> Digest, U: iset<Block>, v: Volume, h: Digest)
    requires Valid(H, U, v) && h in v.byHash
    ensures Indexed(v, v.byHash[h]) && v.byHash[h] < v.nextRef
  {
    hide SlotInv, RefInv, ContentInv, ThreadsOk, KeepersOk;
    var g :| Inv(H, U, Alone(v, IDLE), g);
  }

  lemma FirstIsMiss(H: Block -> Digest, v: Volume, start: nat, blocks: seq<Block>, plan: seq<Entry>, i: nat)
    requires |plan| == |blocks| && i < |plan| && LabelsFit(H, start, blocks, plan) && KindsFit(v, plan) &&
             plan[i].hash !in v.byHash
    ensures var f := FirstWith(H, blocks, i, 0);
            plan[f].kind.Miss? && plan[f].hash == plan[i].hash && plan[f].payload == blocks[f]
  {
    var f := FirstWith(H, blocks, i, 0);
    assert IsFirst(plan, f);
  }

  lemma AllFlushed(path: Path, start: nat, blocks: seq<Block>, plan: seq<Entry>, j: nat, f: nat)
    requires j <= |plan| && SkipHits(plan, j) == |plan| && f < |plan| && plan[f].kind.Miss?
    ensures Flushed(WriterAt(Flushing, path, start, blocks, plan, [], j, []), f)
  {
  }

  lemma PublishingKeepsContent(v: Volume, plan: seq<Entry>, vp: Volume, r: Ref)
    requires PublishedUpTo(v, plan, |plan|, vp)
    ensures Content(vp, r) == Content(v, r)
  {
  }

  lemma {:induction false} OverlayIs(H: Block -> Digest, v0: Volume, v: Volume, path: Path, start: nat,
                                     blocks: seq<Block>, plan: seq<Entry>, n: nat)
    requires |plan| == |blocks| && n <= |plan| && LabelsFit(H, start, blocks, plan)
    requires forall i :: 0 <= i < |plan| ==> Content(v, plan[i].info) == Chosen(H, v0, blocks, i)
    ensures var m := Overlay(View(v0), v, path, plan, n);
            && (forall k :: k in m <==> k in View(v0) || (k.path == path && start <= k.blk < start + n))
            && (forall k ::
                  k in m ==> m[k] == if k.path == path && start <= k.blk < start + n
                                     then Chosen(H, v0, blocks, k.blk - start) else View(v0)[k])
  {
    hide Content, Chosen, View, LabelsFit;
    if n > 0 {
      OverlayIs(H, v0, v, path, start, blocks, plan, n - 1);
      LabelAt(H, start, blocks, plan, n - 1);
      var m0, m := Overlay(View(v0), v, path, plan, n - 1), Overlay(View(v0), v, path, plan, n);
      var k0 := Key(path, start + (n - 1));
      assert m == m0[k0 := Chosen(H, v0, blocks, n - 1)];
      forall k | k in m
        ensures m[k] == if k.path == path && start <= k.blk < start + n
                        then Chosen(H, v0, blocks, k.blk - start) else View(v0)[k]
      {
        assert k != k0 ==> m[k] == m0[k];
      }
    }
  }

  lemma LabelAt(H: Block -> Digest, start: nat, blocks: seq<Block>, plan: seq<Entry>, i: nat)
    requires LabelsFit(H, start, blocks, plan) && i < |plan|
    ensures plan[i].blk == start + i && plan[i].payload == blocks[i] && plan[i].hash == H(blocks[i])
  {
  }

  lemma KindsAreRaceFree(v: Volume, v': Volume, plan: seq<Entry>)
    requires KindsFit(v, plan) && v'.byHash == v.byHash
    ensures RaceFree(v', plan)
  {
    hide IsFirst;
  }

  lemma RunTables(v: Volume, plan: seq<Entry>, s: nat)
    requires s < |plan|
    ensures forall got: nat :: FlushRun(v, plan, s, got) == v.(master := FlushRun(v, plan, s, got).master)
  {
  }

  lemma {:induction false} FlushTables(v: Volume, plan: seq<Entry>, i: nat, io: nat -> int, k: nat)
    requires i <= |plan|
    ensures FlushAll(v, plan, i, io, k).0 == v.(master := FlushAll(v, plan, i, io, k).0.master)
    decreases |plan| - i
  {
    hide FlushRun, RunBytes;
    var s := SkipHits(plan, i);
    if s < |plan| {
      RunTables(v, plan, s);
    }
    if s < |plan| && io(k) >= RunBytes(plan, s) {
      FlushTables(FlushRun(v, plan, s, RunBytes(plan, s)), plan, RunEnd(plan, s + 1), io, k + 1);
    }
  }

  /** A successful write changes exactly its own blocks, and each of them reads back as
      what the index or the request already has under its hash. */
  lemma WriteStores(H: Block -> Digest, U: iset<Block>, v: Volume, path: Path, start: nat, blocks: seq<Block>,
                    io: nat -> int)
    requires Valid(H, U, v) && Within(U, blocks) && blocks != []
    requires WriteBlocks(H, v, path, start, blocks, io).1 >= 0
    ensures var v' := WriteBlocks(H, v, path, start, blocks, io).0;
            Valid(H, U, v') && View(v') == View(v) + Stored(H, v, path, start, blocks)
  {
    hide Valid, Follows, View, Prepare, FlushAll, Consolidate, Chosen, LabelsFit, KindsFit, SharesFit, RaceFree,
         Content, PublishedUpTo, Overlay;
    var (v1, plan) := Prepare(H, v, start, blocks);
    PreparePhase(H, U, v, path, start, blocks);
    PrepareFits(H, v, start, blocks);
    var j := FlushPhase(H, U, v, v1, path, start, blocks, plan, 0, io, 0);
    var v2 := FlushAll(v1, plan, 0, io, 0).0;
    KindsAreRaceFree(v, v2, plan);
    var vp := ConsolidatePhase(H, U, v, v2, path, start, blocks, plan, j);
    forall i | 0 <= i < |plan| ensures Content(vp, plan[i].info) == Chosen(H, v, blocks, i) {
      ChosenContent(H, U, v, v2, vp, path, start, blocks, plan, j, i);
    }
    OverlayIs(H, v, vp, path, start, blocks, plan, |plan|);
    assert Overlay(View(v), vp, path, plan, |plan|) == View(v) + Stored(H, v, path, start, blocks);
  }
}
