/** The allocator and the flush. */
module FlushPlan {
  import opened MasterFile
  import opened Volumes
  import opened Protocol
  import opened Invariant
  import opened Safety
  import opened Requests
  import opened Solo
  import opened Actions

  // ---- Allocator ----

  /** Whatever requests are in flight: the batch is the head of the free list followed by
      new slots; no slot in it is repeated or still free, none belongs to a published
      object or to any thread, and the master grows only by what was missing. */
  lemma AllocatorIsStorageFirst(H: Block -> Digest, U: iset<Block>, sys: Sys, want: nat)
    requires Good(H, U, sys)
    ensures var (v', out) := Allocate(sys.v, want);
            && |out| == want && NoDup(out)
            && out[..Min(want, |sys.v.free|)] + v'.free == sys.v.free
            && v'.next == sys.v.next + (want - Min(want, |sys.v.free|))
            && (forall i :: 0 <= i < want ==> out[i] < v'.next && out[i] !in v'.free)
            && (forall i, who :: 0 <= i < want && Owns(sys, out[i], who) ==> who.Free?)
            && v' == sys.v.(free := v'.free, next := v'.next)
  {
    hide Inv, Owns, Owned;
    var g :| Inv(H, U, sys, g);
    PartitionFromInv(H, U, sys, g);
    var v := sys.v;
    var (v', out) := Allocate(v, want);
    var k := Min(want, |v.free|);
    assert forall i :: 0 <= i < k ==> out[i] == v.free[i];
    assert forall i :: k <= i < want ==> out[i] == v.next + (i - k);
    assert forall i :: 0 <= i < |v'.free| ==> v'.free[i] == v.free[k + i];
    forall i | 0 <= i < |v.free| ensures v.free[i] < v.next && Owns(sys, v.free[i], Free) {
      FreeIsFree(sys, v.free[i]);
    }
  }

  lemma FreeIsFree(sys: Sys, q: nat)
    requires q in sys.v.free
    ensures Owns(sys, q, Free)
  {
  }

  /** In particular where the allocator is called: after Pass 1, with pending objects. */
  lemma AllocatorAfterPassOne(H: Block -> Digest, U: iset<Block>, v: Volume, path: Path, start: nat, blocks: seq<Block>,
                              want: nat)
    requires Valid(H, U, v) && Within(U, blocks) && blocks != []
    ensures var v1 := DecideAll(H, v, start, blocks, |blocks|).0;
            var (v', out) := Allocate(v1, want);
            && NoDup(out) && (forall i :: 0 <= i < want ==> out[i] < v'.next && out[i] !in v'.free)
            && (forall i, r :: 0 <= i < want && Indexed(v1, r) ==> v1.infos[r].slot != out[i])
  {
    hide Good, Extends, View, DecideAll, Allocate, NoDup;
    DecidePhase(H, U, v, path, start, blocks, |blocks|);
    var (v1, plan) := DecideAll(H, v, start, blocks, |blocks|);
    var sys := Alone(v1, WriterAt(Deciding, path, start, blocks, plan, [], 0, []));
    AllocatorIsStorageFirst(H, U, sys, want);
    forall r | Indexed(v1, r) ensures Owns(sys, v1.infos[r].slot, Live(r)) {
    }
  }

  // ---- One pwrite per run is one pwrite per MISS ----

  function WriteEach(m: seq<Byte>, plan: seq<Entry>, i: nat): seq<Byte>
    requires i <= |plan|
    decreases |plan| - i
  {
    if i == |plan| then m
    else if plan[i].kind.Hit? then WriteEach(m, plan, i + 1)
    else WriteEach(Pwrite(m, plan[i].slot * BLOCK_SIZE, plan[i].payload), plan, i + 1)
  }

  lemma {:induction false} SkipIsSilent(m: seq<Byte>, plan: seq<Entry>, i: nat)
    requires i <= |plan|
    ensures WriteEach(m, plan, i) == WriteEach(m, plan, SkipHits(plan, i))
    decreases |plan| - i
  {
    hide Pwrite;
    if i < |plan| && plan[i].kind.Hit? {
      SkipIsSilent(m, plan, i + 1);
    }
  }

  lemma FlattenSnoc(bs: seq<Block>, b: Block)
    ensures Flatten(bs + [b]) == Flatten(bs) + b
  {
    assert (bs + [b])[..|bs|] == bs;
  }

  /** Writing entries [i, e) of a run at once and then the rest is writing them singly. */
  lemma {:induction false} RunIsEach(m: seq<Byte>, plan: seq<Entry>, i: nat, e: nat)
    requires i < |plan| && plan[i].kind.Miss? && i < e <= RunEnd(plan, i + 1)
    ensures WriteEach(m, plan, i) ==
              WriteEach(Pwrite(m, plan[i].slot * BLOCK_SIZE, Flatten(Payloads(plan[i..e]))), plan, e)
  {
    hide Pwrite, Flatten, RunEnd;
    var off := plan[i].slot * BLOCK_SIZE;
    if e == i + 1 {
      FlattenOne(plan[i].payload);
      assert Payloads(plan[i..e]) == [plan[i].payload];
    } else {
      RunIsEach(m, plan, i, e - 1);
      RunSlots(plan, i, e - 1);
      var bs, b := Payloads(plan[i..e - 1]), plan[e - 1].payload;
      assert Payloads(plan[i..e]) == bs + [b];
      FlattenSnoc(bs, b);
      assert |Flatten(bs)| == (e - 1 - i) * BLOCK_SIZE;
      assert plan[e - 1].slot * BLOCK_SIZE == off + |Flatten(bs)|;
      PwriteSplit(m, off, Flatten(bs), b);
    }
  }

  lemma FlattenOne(b: Block)
    ensures Flatten([b]) == b
  {
    assert [b][..0] == [];
    assert Flatten([]) == [];
  }

  /** A flush that succeeds leaves the file that one pwrite per MISS, in plan order,
      would leave: byte for byte, with nothing written for a HIT. */
  lemma {:induction false} FlushIsWriteEach(v: Volume, plan: seq<Entry>, i: nat, io: nat -> int, k: nat)
    requires i <= |plan| && FlushAll(v, plan, i, io, k).1 == 0
    ensures FlushAll(v, plan, i, io, k).0.master == WriteEach(v.master, plan, i)
    decreases |plan| - i
  {
    hide FlushRun, RunBytes, Pwrite, WriteEach, RunEnd;
    SkipIsSilent(v.master, plan, i);
    var s := SkipHits(plan, i);
    if s < |plan| {
      var e, v1 := RunEnd(plan, s + 1), FlushRun(v, plan, s, RunBytes(plan, s));
      FullRun(v, plan, s);
      RunIsEach(v.master, plan, s, e);
      FlushIsWriteEach(v1, plan, e, io, k + 1);
    } else {
      NothingLeft(v.master, plan);
    }
  }

  lemma NothingLeft(m: seq<Byte>, plan: seq<Entry>)
    ensures WriteEach(m, plan, |plan|) == m
  {
  }

  // ---- Runs ----

  /** The runs that flush_plan forms from entry i on, as [start, end) pairs. */
  function Runs(plan: seq<Entry>, i: nat): seq<(nat, nat)>
    requires i <= |plan|
    decreases |plan| - i
  {
    var s := SkipHits(plan, i);
    if s == |plan| then [] else [(s, RunEnd(plan, s + 1))] + Runs(plan, RunEnd(plan, s + 1))
  }

  /** A stretch of consecutive-slot MISS entries that can be extended at neither end. */
  ghost predicate IsMaximalRun(plan: seq<Entry>, s: nat, e: nat) {
    && s < e <= |plan| && plan[s].kind.Miss?
    && (forall k :: s < k < e ==> Consecutive(plan, k))
    && (e < |plan| ==> !Consecutive(plan, e))
    && (s > 0 ==> plan[s - 1].kind.Hit? || !Consecutive(plan, s))
  }

  predicate InRun(r: (nat, nat), k: nat) { r.0 <= k < r.1 }

  predicate InAny(rs: seq<(nat, nat)>, k: nat) {
    exists r :: 0 <= r < |rs| && InRun(rs[r], k)
  }

  lemma InAnyCons(x: (nat, nat), rs: seq<(nat, nat)>, k: nat)
    ensures InAny([x] + rs, k) <==> InRun(x, k) || InAny(rs, k)
  {
    var all := [x] + rs;
    if InRun(x, k) { assert InRun(all[0], k); }
    if r :| 0 <= r < |rs| && InRun(rs[r], k) { assert InRun(all[r + 1], k); }
  }

  /** The runs are maximal, in order and disjoint. */
  lemma {:induction false} RunsAreMaximal(plan: seq<Entry>, i: nat)
    requires i <= |plan| && (0 < i < |plan| ==> plan[i - 1].kind.Hit? || !Consecutive(plan, i))
    ensures forall r ::
              0 <= r < |Runs(plan, i)| ==>
                i <= Runs(plan, i)[r].0 && IsMaximalRun(plan, Runs(plan, i)[r].0, Runs(plan, i)[r].1)
    ensures forall r, r' :: 0 <= r < r' < |Runs(plan, i)| ==> Runs(plan, i)[r].1 <= Runs(plan, i)[r'].0
    decreases |plan| - i
  {
    hide IsMaximalRun;
    var s := SkipHits(plan, i);
    if s < |plan| {
      RunsAreMaximal(plan, RunEnd(plan, s + 1));
      FirstRunIsMaximal(plan, i);
      assert Runs(plan, i) == [(s, RunEnd(plan, s + 1))] + Runs(plan, RunEnd(plan, s + 1));
    }
  }

  lemma FirstRunIsMaximal(plan: seq<Entry>, i: nat)
    requires i <= |plan| && (0 < i < |plan| ==> plan[i - 1].kind.Hit? || !Consecutive(plan, i)) &&
             SkipHits(plan, i) < |plan|
    ensures IsMaximalRun(plan, SkipHits(plan, i), RunEnd(plan, SkipHits(plan, i) + 1))
  {
  }

  /** Together the runs are exactly the MISS entries. */
  lemma {:induction false} RunsCoverMisses(plan: seq<Entry>, i: nat, k: nat)
    requires i <= k < |plan|
    ensures plan[k].kind.Miss? <==> InAny(Runs(plan, i), k)
    decreases |plan| - i
  {
    hide InAny;
    var s := SkipHits(plan, i);
    if s < |plan| {
      var e := RunEnd(plan, s + 1);
      RunIsMisses(plan, s);
      InAnyCons((s, e), Runs(plan, e), k);
      if k < e {
        RunsStartLate(plan, e, k);
      } else {
        RunsCoverMisses(plan, e, k);
      }
    } else {
      NoneIn(k);
    }
  }

  lemma NoneIn(k: nat)
    ensures !InAny([], k)
  {
  }

  lemma {:induction false} RunsStartLate(plan: seq<Entry>, i: nat, k: nat)
    requires k < i <= |plan|
    ensures !InAny(Runs(plan, i), k)
    decreases |plan| - i
  {
    hide InAny;
    var s := SkipHits(plan, i);
    if s < |plan| {
      RunsStartLate(plan, RunEnd(plan, s + 1), k);
      InAnyCons((s, RunEnd(plan, s + 1)), Runs(plan, RunEnd(plan, s + 1)), k);
    } else {
      NoneIn(k);
    }
  }

  lemma RunIsMisses(plan: seq<Entry>, s: nat)
    requires s < |plan| && plan[s].kind.Miss?
    ensures forall k :: s <= k < RunEnd(plan, s + 1) ==> plan[k].kind.Miss?
  {
    forall k | s <= k < RunEnd(plan, s + 1) ensures plan[k].kind.Miss? {
      RunSlots(plan, s, k);
    }
  }
}
