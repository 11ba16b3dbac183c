/** Every hash function of this width collides on blocks of this size, so some request is
    stored wrongly. */
module Collisions {
  import opened MasterFile
  import opened Volumes
  import opened Requests
  import opened Solo
  import opened FileSystem
  import opened Writes
  import opened Deduplication

  /** All byte strings of length n. */
  ghost function Strings(n: nat): (r: set<seq<Byte>>)
    ensures forall s: seq<Byte> :: s in r <==> |s| == n
  {
    if n == 0 then
      assert forall s: seq<Byte> :: |s| == 0 ==> s == [];
      {[]}
    else
      var shorter := Strings(n - 1);
      var r := set x: Byte, s | s in shorter && 0 <= x < 256 :: [x] + s;
      assert forall s: seq<Byte> :: |s| == n ==> s == [s[0]] + s[1..] && s[1..] in shorter;
      r
  }

  function Power(n: nat): nat { if n == 0 then 1 else 256 * Power(n - 1) }

  /** Those that start with a byte below k. */
  ghost function StartingBelow(n: nat, k: nat): (r: set<seq<Byte>>)
    requires n > 0 && k <= 256
    ensures forall s: seq<Byte> :: s in r <==> |s| == n && s[0] < k
  {
    set s | s in Strings(n) && s[0] < k
  }

  lemma {:induction false} CountBelow(n: nat, k: nat)
    requires n > 0 && k <= 256 && |Strings(n - 1)| == Power(n - 1)
    ensures |StartingBelow(n, k)| == k * Power(n - 1)
  {
    hide Strings, StartingBelow;
    if k == 0 {
      assert StartingBelow(n, 0) == {} by { BelowZero(n); }
    } else {
      CountBelow(n, k - 1);
      PrependCount(n, k);
    }
  }

  lemma BelowZero(n: nat)
    requires n > 0
    ensures StartingBelow(n, 0) == {}
  {
    hide Strings;
    forall s | s in StartingBelow(n, 0) ensures false {
    }
  }

  ghost function Prepended(x: Byte, ss: set<seq<Byte>>): (r: set<seq<Byte>>)
    ensures forall s :: s in r <==> |s| > 0 && s[0] == x && s[1..] in ss
  {
    var r := set s | s in ss :: [x] + s;
    assert forall s: seq<Byte> :: |s| > 0 && s[0] == x ==> s == [x] + s[1..];
    r
  }

  lemma {:induction false} PrependedCount(x: Byte, ss: set<seq<Byte>>)
    ensures |Prepended(x, ss)| == |ss|
  {
    if ss == {} {
      assert Prepended(x, ss) == {};
    } else {
      var s :| s in ss;
      PrependedCount(x, ss - {s});
      assert Prepended(x, ss) == Prepended(x, ss - {s}) + {[x] + s};
      assert ([x] + s)[1..] == s;
    }
  }

  lemma PrependCount(n: nat, k: nat)
    requires n > 0 && 0 < k <= 256
    ensures |StartingBelow(n, k)| == |StartingBelow(n, k - 1)| + |Strings(n - 1)|
  {
    hide Strings, StartingBelow, Prepended;
    PrependedCount(k - 1, Strings(n - 1));
    BelowSplits(n, k);
  }

  lemma BelowSplits(n: nat, k: nat)
    requires n > 0 && 0 < k <= 256
    ensures StartingBelow(n, k) == StartingBelow(n, k - 1) + Prepended(k - 1, Strings(n - 1))
    ensures StartingBelow(n, k - 1) !! Prepended(k - 1, Strings(n - 1))
  {
  }

  lemma {:induction false} StringCount(n: nat)
    ensures |Strings(n)| == Power(n)
  {
    hide StartingBelow;
    if n > 0 {
      hide Strings;
      StringCount(n - 1);
      CountBelow(n, 256);
      BelowAll(n);
    }
  }

  lemma BelowAll(n: nat)
    requires n > 0
    ensures StartingBelow(n, 256) == Strings(n)
  {
    hide Strings;
  }

  lemma {:induction false} Injective(m: map<seq<Byte>, seq<Byte>>, bound: set<seq<Byte>>)
    requires forall a, b :: a in m && b in m && m[a] == m[b] ==> a == b
    requires forall a :: a in m ==> m[a] in bound
    ensures |m| <= |bound|
  {
    if m != map[] {
      var a :| a in m;
      var m1 := m - {a};
      Injective(m1, bound - {m[a]});
      assert m1.Keys == m.Keys - {a};
    }
  }

  /** A block that starts with s and goes on with zeros. */
  function Padded(s: seq<Byte>): (b: Block)
    requires |s| <= BLOCK_SIZE
    ensures b[..|s|] == s
  {
    s + Zeros(BLOCK_SIZE - |s|)
  }

  /** Two different blocks have the same hash, whatever the hash function. */
  lemma EveryHashCollides(H: Block -> Digest)
    ensures exists a: Block, b: Block :: a != b && H(a) == H(b)
  {
    hide Strings, Power, Padded;
    var n := HASH_SIZE + 1;
    var m: map<seq<Byte>, seq<Byte>> := map s | s in Strings(n) :: H(Padded(s));
    StringCount(n);
    StringCount(HASH_SIZE);
    MoreStrings(HASH_SIZE);
    assert m.Keys == Strings(n);
    if forall a, b :: a in m && b in m && m[a] == m[b] ==> a == b {
      Injective(m, Strings(HASH_SIZE));
    } else {
      var s, s' :| s in m && s' in m && m[s] == m[s'] && s != s';
      PaddedDiffers(s, s');
      assert H(Padded(s)) == H(Padded(s'));
    }
  }

  lemma MoreStrings(n: nat)
    ensures Power(n + 1) > Power(n)
  {
    PowerPositive(n);
  }

  lemma {:induction false} PowerPositive(n: nat)
    ensures Power(n) >= 1
  {
    if n > 0 {
      PowerPositive(n - 1);
    }
  }

  lemma PaddedDiffers(s: seq<Byte>, s': seq<Byte>)
    requires |s| == |s'| <= BLOCK_SIZE && s != s'
    ensures Padded(s) != Padded(s')
  {
    assert Padded(s)[..|s|] == s && Padded(s')[..|s|] == s';
  }

  /** So for every hash function there is a request to an empty volume that, successful,
      does not store what it was given. */
  lemma SomeWriteIsUnfaithful(H: Block -> Digest, path: Path, io: nat -> int)
    requires forall k :: io(k) >= 2 * BLOCK_SIZE
    ensures exists blocks: seq<Block> ::
              && Clashes(H, EMPTY, blocks) && WriteBlocks(H, EMPTY, path, 0, blocks, io).1 >= 0
              && View(WriteBlocks(H, EMPTY, path, 0, blocks, io).0) != View(EMPTY) + Puts(path, 0, blocks)
  {
    hide FsValid, Valid, WriteBlocks, Clashes, View, Puts;
    EveryHashCollides(H);
    var a: Block, b: Block :| a != b && H(a) == H(b);
    var blocks := [a, b];
    var U := iset x: Block | |x| == BLOCK_SIZE;
    TwoClash(H, a, b);
    EmptyValid(H, U);
    TwoBlocksFlush(H, path, blocks, io);
    WriteIsFaithful(H, U, EMPTY, path, 0, blocks, io);
  }

  lemma TwoClash(H: Block -> Digest, a: Block, b: Block)
    requires a != b && H(a) == H(b)
    ensures Clashes(H, EMPTY, [a, b])
  {
    var blocks := [a, b];
    assert blocks[0] != blocks[1] && H(blocks[0]) == H(blocks[1]) && H(blocks[0]) !in EMPTY.byHash;
  }

  lemma EmptyValid(H: Block -> Digest, U: iset<Block>)
    ensures Valid(H, U, EMPTY)
  {
    hide Valid;
    EmptyIsValid(H, U);
  }

  /** A device that takes two blocks at a time does not fail a write of two blocks. */
  lemma TwoBlocksFlush(H: Block -> Digest, path: Path, blocks: seq<Block>, io: nat -> int)
    requires |blocks| == 2 && forall k :: io(k) >= 2 * BLOCK_SIZE
    ensures WriteBlocks(H, EMPTY, path, 0, blocks, io).1 >= 0
  {
    hide Prepare, FlushAll, Rollback, Consolidate, LabelsFit, KindsFit, SharesFit;
    var (v1, plan) := Prepare(H, EMPTY, 0, blocks);
    PrepareFits(H, EMPTY, 0, blocks);
    GenerousFlush(v1, plan, 0, io, 0);
  }

  lemma {:induction false} GenerousFlush(v: Volume, plan: seq<Entry>, i: nat, io: nat -> int, k: nat)
    requires i <= |plan| && forall j :: io(j) >= |plan| * BLOCK_SIZE
    ensures FlushAll(v, plan, i, io, k).1 == 0
    decreases |plan| - i
  {
    hide FlushRun;
    var s := SkipHits(plan, i);
    if s < |plan| {
      assert RunBytes(plan, s) <= |plan| * BLOCK_SIZE;
      GenerousFlush(FlushRun(v, plan, s, RunBytes(plan, s)), plan, RunEnd(plan, s + 1), io, k + 1);
    }
  }
}
