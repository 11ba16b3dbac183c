/** What Pass 1, the allocator, the flush and the hash contribute to a write. */
module Deduplication {
  import opened MasterFile
  import opened Volumes
  import opened Protocol
  import opened Invariant
  import opened Actions
  import opened Commits
  import opened Safety
  import opened Requests
  import opened Solo
  import opened Writes
  import opened Quiescence

  // ---- Hash collisions ----

  /** Some block of the request has the hash of a different block, already indexed or
      earlier in the request. */
  predicate Clashes(H: Block -> Digest, v: Volume, blocks: seq<Block>) {
    || (exists i :: 0 <= i < |blocks| && H(blocks[i]) in v.byHash && Content(v, v.byHash[H(blocks[i])]) != blocks[i])
    || (exists i, j ::
          0 <= i < j < |blocks| && H(blocks[i]) == H(blocks[j]) && H(blocks[i]) !in v.byHash && blocks[i] != blocks[j])
  }

  lemma ChosenUnlessClash(H: Block -> Digest, v: Volume, blocks: seq<Block>)
    ensures (forall i :: 0 <= i < |blocks| ==> Chosen(H, v, blocks, i) == blocks[i]) <==> !Clashes(H, v, blocks)
  {
    hide Content;
    if !Clashes(H, v, blocks) {
      forall i | 0 <= i < |blocks| ensures Chosen(H, v, blocks, i) == blocks[i] {
        var f := FirstWith(H, blocks, i, 0);
        assert f < i && H(blocks[i]) !in v.byHash ==> blocks[f] == blocks[i];
      }
    } else if i, j :|
        0 <= i < j < |blocks| && H(blocks[i]) == H(blocks[j]) && H(blocks[i]) !in v.byHash && blocks[i] != blocks[j] {
      assert FirstWith(H, blocks, i, 0) == FirstWith(H, blocks, j, 0);
      assert Chosen(H, v, blocks, i) == Chosen(H, v, blocks, j);
    } else {
      var i :| 0 <= i < |blocks| && H(blocks[i]) in v.byHash && Content(v, v.byHash[H(blocks[i])]) != blocks[i];
      assert Chosen(H, v, blocks, i) != blocks[i];
    }
  }

  function Puts(path: Path, start: nat, blocks: seq<Block>): map<Key, seq<Byte>> {
    map k | k in KeysOf(path, start, |blocks|) :: blocks[k.blk - start]
  }

  /** A successful write makes the file system the old one with the request written
      over it, exactly if no hash collides; nothing else is ever affected. */
  lemma WriteIsFaithful(H: Block -> Digest, U: iset<Block>, v: Volume, path: Path, start: nat, blocks: seq<Block>,
                        io: nat -> int)
    requires Valid(H, U, v) && Within(U, blocks) && blocks != []
    requires WriteBlocks(H, v, path, start, blocks, io).1 >= 0
    ensures var v' := WriteBlocks(H, v, path, start, blocks, io).0;
            (View(v') == View(v) + Puts(path, start, blocks)) <==> !Clashes(H, v, blocks)
  {
    hide Valid, WriteBlocks, Chosen, Clashes, View, KeysOf;
    WriteStores(H, U, v, path, start, blocks, io);
    ChosenUnlessClash(H, v, blocks);
    var a, b := View(v) + Stored(H, v, path, start, blocks), View(v) + Puts(path, start, blocks);
    if a == b {
      forall i | 0 <= i < |blocks| ensures Chosen(H, v, blocks, i) == blocks[i] {
        assert a[Key(path, start + i)] == b[Key(path, start + i)];
      }
    } else {
      assert exists k ::
               k in KeysOf(path, start, |blocks|) &&
               Stored(H, v, path, start, blocks)[k] != Puts(path, start, blocks)[k];
    }
  }

  lemma NoCollisionNoClash(H: Block -> Digest, U: iset<Block>, v: Volume, blocks: seq<Block>)
    requires Valid(H, U, v) && Within(U, blocks) && CollisionFree(H, U)
    ensures !Clashes(H, v, blocks)
  {
    hide Valid, SlotsSettled, BlockAt, InFile;
    ValidIsSettled(H, U, v);
    forall i | 0 <= i < |blocks| && H(blocks[i]) in v.byHash ensures Content(v, v.byHash[H(blocks[i])]) == blocks[i] {
      var r := v.byHash[H(blocks[i])];
      assert StoredOk(H, U, v, v.infos[r]);
    }
  }

  // ---- Pass 1: counts and misses ----

  function Occurrences(H: Block -> Digest, blocks: seq<Block>, h: Digest, n: nat): (s: set<nat>)
    requires n <= |blocks|
    ensures forall i :: i in s <==> 0 <= i < n && H(blocks[i]) == h
  {
    if n == 0 then {} else Occurrences(H, blocks, h, n - 1) + if H(blocks[n - 1]) == h then {n - 1} else {}
  }

  lemma {:induction false} EntryCardinality(idx: set<nat>, hs: set<Holder>)
    requires forall h :: h in hs <==> h.ByEntry? && h.t == 0 && h.i in idx
    ensures |hs| == |idx|
  {
    if idx == {} {
      assert hs == {};
    } else {
      var i :| i in idx;
      EntryCardinality(idx - {i}, hs - {ByEntry(0, i)});
      assert ByEntry(0, i) in hs;
    }
  }

  lemma DecidingHolds(path: Path, start: nat, blocks: seq<Block>, plan: seq<Entry>, i: nat)
    ensures Held(WriterAt(Deciding, path, start, blocks, plan, [], 0, []), i) <==> i < |plan|
  {
  }

  lemma PendingDeciding(path: Path, start: nat, blocks: seq<Block>, plan: seq<Entry>, i: nat)
    requires i < |plan| && plan[i].kind.Miss?
    ensures Pending(WriterAt(Deciding, path, start, blocks, plan, [], 0, []), i)
  {
  }

  /** A new info is held, after Pass 1, once for each block of the request that has its
      hash; the MISS entry among them is the first. */
  lemma PendingCount(H: Block -> Digest, U: iset<Block>, v: Volume, path: Path, start: nat, blocks: seq<Block>, i: nat)
    requires Valid(H, U, v) && Within(U, blocks) && i < |blocks|
    requires DecideAll(H, v, start, blocks, |blocks|).1[i].kind.Miss?
    ensures var (v', plan) := DecideAll(H, v, start, blocks, |blocks|);
            && plan[i].info in v'.infos
            && v'.infos[plan[i].info].refs == |Occurrences(H, blocks, H(blocks[i]), |blocks|)|
  {
    hide Good, Extends, DecideAll, View, Held, SharesFit, LabelsFit, KindsFit;
    DecidePhase(H, U, v, path, start, blocks, |blocks|);
    DecideFits(H, v, start, blocks, |blocks|);
    var (v', plan) := DecideAll(H, v, start, blocks, |blocks|);
    var th := WriterAt(Deciding, path, start, blocks, plan, [], 0, []);
    DecidingHolds(path, start, blocks, plan, i);
    HoldersOfPending(H, U, v, v', path, start, blocks, plan, i);
    EntryCardinality(Occurrences(H, blocks, H(blocks[i]), |blocks|), Holders(Alone(v', th), plan[i].info));
    CountIsHolders(H, U, Alone(v', th), i);
  }

  lemma CountIsHolders(H: Block -> Digest, U: iset<Block>, sys: Sys, i: nat)
    requires Good(H, U, sys) && 0 in sys.threads && Held(sys.threads[0], i)
    ensures var r := sys.threads[0].plan[i].info; r in sys.v.infos && sys.v.infos[r].refs == |Holders(sys, r)|
  {
    hide SlotInv, InfoInv, ContentInv, Held;
    var g :| Inv(H, U, sys, g);
    HeldInfo(sys, g, 0, i);
  }

  lemma HoldersOfPending(H: Block -> Digest, U: iset<Block>, v: Volume, v': Volume, path: Path, start: nat,
                         blocks: seq<Block>, plan: seq<Entry>, i: nat)
    requires |plan| == |blocks| && i < |plan| && plan[i].kind.Miss?
    requires LabelsFit(H, start, blocks, plan) && KindsFit(v, plan) && SharesFit(v, plan) && v'.byHash == v.byHash
    requires Good(H, U, Alone(v', WriterAt(Deciding, path, start, blocks, plan, [], 0, [])))
    ensures forall h ::
              h in Holders(Alone(v', WriterAt(Deciding, path, start, blocks, plan, [], 0, [])), plan[i].info) <==>
              h.ByEntry? && h.t == 0 && h.i in Occurrences(H, blocks, H(blocks[i]), |blocks|)
  {
    hide KindsFit, SharesFit, LabelsFit, SlotInv, InfoInv, RefInv, ContentInv, Held, Pending, Occurrences;
    var th := WriterAt(Deciding, path, start, blocks, plan, [], 0, []);
    var sys, r := Alone(v', th), plan[i].info;
    var g :| Inv(H, U, sys, g);
    PendingDeciding(path, start, blocks, plan, i);
    forall h ensures Holds(sys, r, h) <==>
          h.ByEntry? && h.t == 0 && h.i in Occurrences(H, blocks, H(blocks[i]), |blocks|) {
      if h.ByKey? {
        NotMapped(sys, g, 0, i, h.k);
      } else if h.t == 0 && h.i < |plan| {
        DecidingHolds(path, start, blocks, plan, h.i);
        DecidingHolds(path, start, blocks, plan, i);
        SameInfoIffSameHash(H, U, sys, v, start, blocks, plan, h.i, i);
      }
    }
  }

  lemma NotMapped(sys: Sys, g: Ledger, t: Tid, i: nat, k: Key)
    requires InfoInv(sys, g) && t in sys.threads && Pending(sys.threads[t], i)
    ensures k in sys.v.byBlock ==> sys.v.byBlock[k] != sys.threads[t].plan[i].info
  {
    hide Held, Pending, Slotted, ThreadsOk, KeepersOk, Indexed;
    PendingIsUnpublished(sys, g, t, i);
  }

  lemma SameInfoIffSameHash(H: Block -> Digest, U: iset<Block>, sys: Sys, v: Volume, start: nat, blocks: seq<Block>,
                            plan: seq<Entry>, j: nat, i: nat)
    requires |plan| == |blocks| && i < |plan| && j < |plan|
    requires LabelsFit(H, start, blocks, plan) && SharesFit(v, plan)
    requires Good(H, U, sys) && 0 in sys.threads && sys.threads[0].plan == plan && Held(sys.threads[0], i) &&
             Held(sys.threads[0], j)
    ensures plan[j].info == plan[i].info <==> H(blocks[j]) == H(blocks[i])
  {
    hide Good, Held;
    GoodHeld(H, U, sys, 0, i);
    GoodHeld(H, U, sys, 0, j);
  }
}
