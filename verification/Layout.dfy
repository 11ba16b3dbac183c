/** The format of the five metadata files, byte by byte, and what a loader makes of bytes
    that may come from anywhere. */
module Layout {
  import opened MasterFile
  import opened Volumes
  import opened Codec
  import opened Tables
  import opened SharedTables
  import opened Persistence
  import opened Mount
  import opened Solo
  import opened Quiescence

  // ---- Numbers in place ----

  /** The w bytes from position at on are the number n, least significant byte first. */
  ghost predicate Spells(f: seq<Byte>, at: nat, w: nat, n: int) {
    at + w <= |f| && forall j :: at <= j < at + w ==> f[j] == n / Pow256(j - at) % 256
  }

  lemma LESpells(n: nat, w: nat)
    ensures Spells(LE(n, w), 0, w, n)
  {
    forall j | 0 <= j < w ensures LE(n, w)[j] == n / Pow256(j - 0) % 256 {
      LEAt(n, w, j);
    }
  }

  /** What lies in a piece of a file lies in the file. */
  lemma InPiece(f: seq<Byte>, lo: nat, piece: seq<Byte>, at: nat, w: nat, n: int)
    requires lo + |piece| <= |f| && f[lo..lo + |piece|] == piece && Spells(piece, at, w, n)
    ensures Spells(f, lo + at, w, n)
  {
    hide Pow256;
    forall j | lo + at <= j < lo + at + w ensures f[j] == n / Pow256(j - (lo + at)) % 256 {
      assert piece[j - lo] == n / Pow256(j - lo - at) % 256;
    }
  }

  lemma SubSlice(f: seq<Byte>, at: nat, w: nat, lo: nat, hi: nat)
    requires at + w <= |f| && lo <= hi <= w
    ensures f[at..at + w][lo..hi] == f[at + lo..at + hi]
  {
    var a, b := f[at..at + w][lo..hi], f[at + lo..at + hi];
    assert |a| == |b| && forall j :: 0 <= j < |a| ==> a[j] == b[j];
  }

  lemma PutAt(f: seq<Byte>, at: nat, w: nat, n: nat)
    requires at + w <= |f| && f[at..at + w] == LE(n, w)
    ensures Spells(f, at, w, n)
  {
    hide LE, Spells;
    LESpells(n, w);
    InPiece(f, at, LE(n, w), 0, w, n);
  }

  lemma LowByte(n: int, p: nat, c: nat)
    requires p > 0 && c > 0
    ensures n % (256 * p * c) / p % 256 == n / p % 256
  {
    var m := 256 * p * c;
    var t, r := n / m, n % m;
    assert n == p * (256 * (c * t) + r / p) + r % p;
    QuotientIs(n, p, 256 * (c * t) + r / p, r % p);
  }

  /** Of a number that is too large for its field the low bytes are written. */
  lemma LowBytes(f: seq<Byte>, at: nat, n: int)
    requires Spells(f, at, 4, n % 0x1_0000_0000)
    ensures Spells(f, at, 4, n)
  {
    hide Pow256;
    SmallPowers();
    LowByte(n, 1, 16777216);
    LowByte(n, 256, 65536);
    LowByte(n, 65536, 256);
    LowByte(n, 16777216, 1);
    forall j | at <= j < at + 4 ensures f[j] == n / Pow256(j - at) % 256 {
      assert j - at == 0 || j - at == 1 || j - at == 2 || j - at == 3;
    }
  }

  lemma SmallPowers()
    ensures Pow256(0) == 1 && Pow256(1) == 256 && Pow256(2) == 65536 && Pow256(3) == 16777216
  {
  }

  // ---- Records: an object, a key, a path ----

  /** struct MasterInfo at position at. */
  ghost predicate InfoAt(f: seq<Byte>, at: nat, i: Info) {
    && at + 80 <= |f| && f[at..at + 64] == i.hash && Spells(f, at + 64, 8, i.slot) && Spells(f, at + 72, 4, i.refs)
    && f[at + 76..at + 80] == [0, 0, 0, 0]
  }

  lemma InfoLayout(i: Info)
    ensures |EncodeInfo(i)| == 80 && InfoAt(EncodeInfo(i), 0, i)
  {
    hide LE, Spells;
    var b := EncodeInfo(i);
    assert b[..64] == i.hash && b[64..72] == LE(i.slot, 8) && b[72..76] == LE(i.refs % (2 * INT_LIMIT), 4);
    PutAt(b, 64, 8, i.slot);
    PutAt(b, 72, 4, i.refs % (2 * INT_LIMIT));
    LowBytes(b, 72, i.refs);
  }

  /** The path with its length before it and its terminator behind it, then the block. */
  ghost predicate KeyAt(f: seq<Byte>, at: nat, k: Key) {
    var n := |k.path|;
    && at + n + 13 <= |f| && Spells(f, at, 4, n + 1) && f[at + 4..at + 4 + n] == k.path && f[at + 4 + n] == 0
    && Spells(f, at + 5 + n, 8, k.blk)
  }

  lemma KeyLayout(k: Key)
    ensures |EncodeBlockIndice(k)| == |k.path| + 13 && KeyAt(EncodeBlockIndice(k), 0, k)
  {
    hide LE, Spells;
    var b, n := EncodeBlockIndice(k), |k.path|;
    assert b[..4] == LE(n + 1, 4) && b[4..4 + n] == k.path && b[5 + n..13 + n] == LE(k.blk, 8);
    PutAt(b, 0, 4, n + 1);
    PutAt(b, 5 + n, 8, k.blk);
  }

  // ---- Elements and entries ----

  /** An element: eight bytes of length, then its bytes. */
  lemma ElemAt(f: seq<Byte>, at: nat, b: seq<Byte>)
    requires at + 8 + |b| <= |f| && f[at..at + 8 + |b|] == Elem(b)
    ensures Spells(f, at, 8, |b|) && f[at + 8..at + 8 + |b|] == b
  {
    hide LE, Spells;
    assert f[at..at + 8] == f[at..at + 8 + |b|][..8] == LE(|b|, 8);
    assert f[at + 8..at + 8 + |b|] == f[at..at + 8 + |b|][8..];
    PutAt(f, at, 8, |b|);
  }

  /** Where entry i begins. */
  function EntryPos<T>(put: T -> seq<Byte>, xs: seq<T>, i: nat): nat
    requires i <= |xs|
  {
    if i == 0 then 4 else EntryPos(put, xs, i - 1) + |put(xs[i - 1])|
  }

  lemma {:induction false} PutAllSplit<T>(put: T -> seq<Byte>, xs: seq<T>, ys: seq<T>)
    ensures PutAll(put, xs + ys) == PutAll(put, xs) + PutAll(put, ys)
  {
    if xs == [] {
      assert xs + ys == ys;
    } else {
      assert (xs + ys)[1..] == xs[1..] + ys;
      PutAllSplit(put, xs[1..], ys);
    }
  }

  lemma {:induction false} PrefixSize<T>(put: T -> seq<Byte>, xs: seq<T>, i: nat)
    requires i <= |xs|
    ensures 4 + |PutAll(put, xs[..i])| == EntryPos(put, xs, i)
  {
    if i > 0 {
      assert xs[..i] == xs[..i - 1] + [xs[i - 1]];
      PutAllSnoc(put, xs[..i - 1], xs[i - 1]);
      PrefixSize(put, xs, i - 1);
    }
  }

  /** The file has a count, then its entries one behind the other, and nothing else. */
  lemma EntryAt<T>(put: T -> seq<Byte>, xs: seq<T>, i: nat)
    requires i < |xs|
    ensures var f, lo, hi := Saved(put, xs), EntryPos(put, xs, i), EntryPos(put, xs, i + 1);
            lo <= hi <= |f| && f[lo..hi] == put(xs[i])
  {
    hide LE;
    var f, head := Saved(put, xs), PutAll(put, xs[..i]);
    assert xs == xs[..i] + xs[i..] && xs[i..][1..] == xs[i + 1..] && xs[i..] != [];
    PutAllSplit(put, xs[..i], xs[i..]);
    PrefixSize(put, xs, i);
    assert f == LE(|xs|, INT) + head + put(xs[i]) + PutAll(put, xs[i + 1..]);
  }

  lemma FileSize<T>(put: T -> seq<Byte>, xs: seq<T>)
    ensures |Saved(put, xs)| == EntryPos(put, xs, |xs|) && Spells(Saved(put, xs), 0, 4, |xs|)
  {
    hide LE, Spells, PutAll;
    assert xs[..|xs|] == xs;
    PrefixSize(put, xs, |xs|);
    assert Saved(put, xs)[..4] == LE(|xs|, 4);
    PutAt(Saved(put, xs), 0, 4, |xs|);
  }

  lemma {:induction false} FixedPos<T>(put: T -> seq<Byte>, xs: seq<T>, w: nat, i: nat)
    requires i <= |xs| && forall x :: x in xs ==> |put(x)| == w
    ensures EntryPos(put, xs, i) == 4 + w * i
  {
    if i > 0 {
      FixedPos(put, xs, w, i - 1);
      assert w * i == w * (i - 1) + w;
    }
  }

  lemma EntryInFile<T>(put: T -> seq<Byte>, xs: seq<T>, w: nat, i: nat)
    requires i < |xs| && forall x :: x in xs ==> |put(x)| == w
    ensures var f, lo := Saved(put, xs), 4 + w * i; lo + w <= |f| && f[lo..lo + w] == put(xs[i])
  {
    hide Saved;
    EntryAt(put, xs, i);
    FixedPos(put, xs, w, i);
    FixedPos(put, xs, w, i + 1);
    assert w * (i + 1) == w * i + w;
  }

  // ---- The five files ----

  /** One slot of the free list. */
  ghost predicate SlotRecord(f: seq<Byte>, i: nat, q: nat) {
    Spells(f, 4 + 16 * i, 8, 8) && Spells(f, 12 + 16 * i, 8, q)
  }

  /** One object. */
  ghost predicate ObjectRecord(f: seq<Byte>, i: nat, info: Info) {
    Spells(f, 4 + 88 * i, 8, 80) && InfoAt(f, 12 + 88 * i, info)
  }

  /** One hash with the number of its object. */
  ghost predicate HashRecord(f: seq<Byte>, i: nat, d: Digest, m: nat) {
    && Spells(f, 4 + 88 * i, 8, 64) && 92 + 88 * i <= |f| && f[12 + 88 * i..76 + 88 * i] == d
    && Spells(f, 76 + 88 * i, 8, 8) && Spells(f, 84 + 88 * i, 8, m)
  }

  /** One block of a file with the number of its object. */
  ghost predicate KeyRecord(f: seq<Byte>, at: nat, k: Key, m: nat) {
    var n := |k.path|;
    Spells(f, at, 8, n + 13) && KeyAt(f, at + 8, k) && Spells(f, at + 21 + n, 8, 8) && Spells(f, at + 29 + n, 8, m)
  }

  function KeyPos(keys: seq<Key>, i: nat): nat
    requires i <= |keys|
  {
    if i == 0 then 4 else KeyPos(keys, i - 1) + |keys[i - 1].path| + 37
  }

  /** One path with the size of the file. */
  ghost predicate SizeRecord(f: seq<Byte>, at: nat, p: Path, size: nat) {
    var n := |p|;
    && Spells(f, at, 8, n + 1) && at + n + 25 <= |f| && f[at + 8..at + 8 + n] == p && f[at + 8 + n] == 0
    && Spells(f, at + 9 + n, 8, 8) && Spells(f, at + 17 + n, 8, size)
  }

  function SizePos(paths: seq<Path>, i: nat): nat
    requires i <= |paths|
  {
    if i == 0 then 4 else SizePos(paths, i - 1) + |paths[i - 1]| + 25
  }

  lemma {:induction false} FreeFile(free: seq<nat>)
    ensures var f := Saved(ElemPut(EncodeWord), free);
            && |f| == 4 + 16 * |free| && Spells(f, 0, 4, |free|)
            && forall i :: 0 <= i < |free| ==> SlotRecord(f, i, free[i])
  {
    hide Saved, LE, Spells, EncodeWord, Elem, SlotRecord;
    var put := ElemPut(EncodeWord);
    var f := Saved(put, free);
    forall x | x in free ensures |put(x)| == 16 {
      SlotBytes(x);
    }
    FileSize(put, free);
    FixedPos(put, free, 16, |free|);
    forall i | 0 <= i < |free| ensures SlotRecord(f, i, free[i]) {
      EntryInFile(put, free, 16, i);
      SlotInPlace(f, i, free[i]);
    }
  }

  lemma SlotBytes(q: nat)
    ensures |ElemPut(EncodeWord)(q)| == 16
  {
    hide EncodeWord, LE;
    WordBytes(q);
    assert ElemPut(EncodeWord)(q) == Elem(EncodeWord(q));
  }

  lemma SlotInPlace(f: seq<Byte>, i: nat, q: nat)
    requires 20 + 16 * i <= |f| && f[4 + 16 * i..20 + 16 * i] == Elem(EncodeWord(q))
    ensures SlotRecord(f, i, q)
  {
    hide LE, Spells, Elem;
    ElemAt(f, 4 + 16 * i, EncodeWord(q));
    PutAt(f, 12 + 16 * i, 8, q);
  }

  lemma {:induction false} ObjectFile(xs: seq<Info>)
    ensures var f := Saved(ElemPut(EncodeInfo), xs);
            && |f| == 4 + 88 * |xs| && Spells(f, 0, 4, |xs|)
            && forall i :: 0 <= i < |xs| ==> ObjectRecord(f, i, xs[i])
  {
    hide Saved, LE, Spells, EncodeInfo, InfoAt;
    var put := ElemPut(EncodeInfo);
    var f := Saved(put, xs);
    forall x | x in xs ensures |put(x)| == 88 {
      ObjectBytes(x);
    }
    FileSize(put, xs);
    FixedPos(put, xs, 88, |xs|);
    forall i | 0 <= i < |xs| ensures ObjectRecord(f, i, xs[i]) {
      EntryInFile(put, xs, 88, i);
      ObjectInPlace(f, i, xs[i]);
    }
  }

  lemma ObjectBytes(x: Info)
    ensures |ElemPut(EncodeInfo)(x)| == 88
  {
    hide EncodeInfo, LE;
    InfoBytes(x);
    assert ElemPut(EncodeInfo)(x) == Elem(EncodeInfo(x));
  }

  lemma ObjectInPlace(f: seq<Byte>, i: nat, x: Info)
    requires 92 + 88 * i <= |f| && f[4 + 88 * i..92 + 88 * i] == Elem(EncodeInfo(x))
    ensures ObjectRecord(f, i, x)
  {
    hide LE, Spells, EncodeInfo, InfoAt, Elem;
    InfoLayout(x);
    ElemAt(f, 4 + 88 * i, EncodeInfo(x));
    InfoInPiece(f, 12 + 88 * i, EncodeInfo(x), x);
  }

  lemma InfoInPiece(f: seq<Byte>, lo: nat, piece: seq<Byte>, i: Info)
    requires lo + 80 <= |f| && |piece| == 80 && f[lo..lo + 80] == piece && InfoAt(piece, 0, i)
    ensures InfoAt(f, lo, i)
  {
    hide Spells;
    InPiece(f, lo, piece, 64, 8, i.slot);
    InPiece(f, lo, piece, 72, 4, i.refs);
    SubSlice(f, lo, 80, 0, 64);
    SubSlice(f, lo, 80, 76, 80);
    assert piece[0..64] == piece[..64];
  }

  lemma KeyInPiece(f: seq<Byte>, lo: nat, piece: seq<Byte>, k: Key)
    requires |piece| == |k.path| + 13 && lo + |piece| <= |f| && f[lo..lo + |piece|] == piece && KeyAt(piece, 0, k)
    ensures KeyAt(f, lo, k)
  {
    hide Spells;
    var n := |k.path|;
    InPiece(f, lo, piece, 0, 4, n + 1);
    InPiece(f, lo, piece, 5 + n, 8, k.blk);
    SubSlice(f, lo, n + 13, 4, 4 + n);
    assert f[lo + 4 + n] == f[lo..lo + n + 13][4 + n];
  }

  /** A pair: the key's element, then the value's, which is a number. */
  lemma PairAt<K>(ek: K -> seq<Byte>, f: seq<Byte>, at: nat, e: (K, nat))
    requires var n := |ek(e.0)|; at + n + 24 <= |f| && f[at..at + n + 24] == PutPair(ek, EncodeWord, e)
    ensures var b := ek(e.0);
            && Spells(f, at, 8, |b|) && f[at + 8..at + 8 + |b|] == b
            && Spells(f, at + 8 + |b|, 8, 8) && Spells(f, at + 16 + |b|, 8, e.1)
  {
    hide LE, Spells;
    var b := ek(e.0);
    var n, whole := |b|, f[at..at + |b| + 24];
    assert whole == LE(n, 8) + b + LE(8, 8) + LE(e.1, 8);
    SubSlice(f, at, n + 24, 0, 8);
    assert whole[0..8] == LE(n, 8) && whole[8..8 + n] == b;
    assert whole[8 + n..16 + n] == LE(8, 8) && whole[16 + n..24 + n] == LE(e.1, 8);
    SubSlice(f, at, n + 24, 8, 8 + n);
    SubSlice(f, at, n + 24, 8 + n, 16 + n);
    SubSlice(f, at, n + 24, 16 + n, 24 + n);
    PutAt(f, at, 8, n);
    PutAt(f, at + 8 + n, 8, 8);
    PutAt(f, at + 16 + n, 8, e.1);
  }

  lemma {:induction false} HashFile(es: seq<(Digest, nat)>)
    ensures var f := Saved(PairPut(EncodeHash, EncodeWord), es);
            && |f| == 4 + 88 * |es| && Spells(f, 0, 4, |es|)
            && forall i :: 0 <= i < |es| ==> HashRecord(f, i, es[i].0, es[i].1)
  {
    hide Saved, LE, Spells;
    var put := PairPut(EncodeHash, EncodeWord);
    var f := Saved(put, es);
    forall e ensures |put(e)| == 88 {
      WordBytes(e.1);
    }
    FileSize(put, es);
    FixedPos(put, es, 88, |es|);
    forall i | 0 <= i < |es| ensures HashRecord(f, i, es[i].0, es[i].1) {
      EntryInFile(put, es, 88, i);
      PairAt(EncodeHash, f, 4 + 88 * i, es[i]);
    }
  }

  lemma {:induction false} KeyPositions(es: seq<(Key, nat)>, keys: seq<Key>, i: nat)
    requires |keys| == |es| && (forall j :: 0 <= j < |es| ==> keys[j] == es[j].0) && i <= |es|
    ensures EntryPos(PairPut(EncodeBlockIndice, EncodeWord), es, i) == KeyPos(keys, i)
  {
    hide LE, EncodeBlockIndice;
    if i > 0 {
      KeyPositions(es, keys, i - 1);
      KeyBytes(es[i - 1].0);
      WordBytes(es[i - 1].1);
    }
  }

  lemma {:induction false} BlockFile(es: seq<(Key, nat)>, keys: seq<Key>)
    requires |keys| == |es| && forall j :: 0 <= j < |es| ==> keys[j] == es[j].0
    ensures var f := Saved(PairPut(EncodeBlockIndice, EncodeWord), es);
            && |f| == KeyPos(keys, |keys|) && Spells(f, 0, 4, |es|)
            && forall i :: 0 <= i < |es| ==> KeyRecord(f, KeyPos(keys, i), keys[i], es[i].1)
  {
    hide Saved, LE, Spells, EncodeBlockIndice, KeyAt, KeyPos;
    var put := PairPut(EncodeBlockIndice, EncodeWord);
    var f := Saved(put, es);
    FileSize(put, es);
    KeyPositions(es, keys, |es|);
    forall i | 0 <= i < |es| ensures KeyRecord(f, KeyPos(keys, i), keys[i], es[i].1) {
      var at := KeyPos(keys, i);
      EntryAt(put, es, i);
      KeyPositions(es, keys, i);
      KeyLayout(keys[i]);
      WordBytes(es[i].1);
      PairAt(EncodeBlockIndice, f, at, es[i]);
      KeyInPiece(f, at + 8, EncodeBlockIndice(keys[i]), keys[i]);
    }
  }

  lemma {:induction false} SizePositions(es: seq<(Path, nat)>, paths: seq<Path>, i: nat)
    requires |paths| == |es| && (forall j :: 0 <= j < |es| ==> paths[j] == es[j].0) && i <= |es|
    ensures EntryPos(PairPut(EncodeStr, EncodeWord), es, i) == SizePos(paths, i)
  {
    hide LE;
    if i > 0 {
      SizePositions(es, paths, i - 1);
      WordBytes(es[i - 1].1);
    }
  }

  lemma PathInPiece(f: seq<Byte>, lo: nat, p: Path)
    requires lo + |p| + 1 <= |f| && f[lo..lo + |p| + 1] == p + [0]
    ensures f[lo..lo + |p|] == p && f[lo + |p|] == 0
  {
    var n, b := |p|, p + [0];
    SubSlice(f, lo, n + 1, 0, n);
    assert f[lo..lo + n + 1][n] == f[lo + n];
    assert b[0..n] == p;
  }

  lemma {:induction false} SizeFile(es: seq<(Path, nat)>, paths: seq<Path>)
    requires |paths| == |es| && forall j :: 0 <= j < |es| ==> paths[j] == es[j].0
    ensures var f := Saved(PairPut(EncodeStr, EncodeWord), es);
            && |f| == SizePos(paths, |paths|) && Spells(f, 0, 4, |es|)
            && forall i :: 0 <= i < |es| ==> SizeRecord(f, SizePos(paths, i), paths[i], es[i].1)
  {
    hide Saved, LE, Spells, SizePos;
    var put := PairPut(EncodeStr, EncodeWord);
    var f := Saved(put, es);
    FileSize(put, es);
    SizePositions(es, paths, |es|);
    forall i | 0 <= i < |es| ensures SizeRecord(f, SizePos(paths, i), paths[i], es[i].1) {
      var at := SizePos(paths, i);
      EntryAt(put, es, i);
      SizePositions(es, paths, i);
      WordBytes(es[i].1);
      PairAt(EncodeStr, f, at, es[i]);
      PathInPiece(f, at + 8, paths[i]);
    }
  }

  // ---- What an unmount writes ----

  lemma NumberOf(vs: seq<Ref>, r: Ref, m: nat)
    requires Distinct(vs) && m < |vs| && vs[m] == r
    ensures r in vs && IndexOf(vs, r) == m
  {
    IndexInside(vs, r);
    assert !(IndexOf(vs, r) < m) && !(m < IndexOf(vs, r));
  }

  /** The objects, each once, with their fields. */
  ghost predicate ObjectsFormat(f: seq<Byte>, v: Volume, vs: seq<Ref>) {
    && |f| == 4 + 88 * |vs| && Spells(f, 0, 4, |vs|)
    && forall m :: 0 <= m < |vs| ==> ObjectRecord(f, m, Deref(v, vs[m]))
  }

  /** The hashes, each with the number of its object in that file. */
  ghost predicate HashesFormat(f: seq<Byte>, t: map<Digest, Ref>, o: seq<Digest>, vs: seq<Ref>)
    requires forall k :: k in o ==> k in t
  {
    && |f| == 4 + 88 * |o| && Spells(f, 0, 4, |o|)
    && forall i, m :: 0 <= i < |o| && 0 <= m < |vs| && vs[m] == t[o[i]] ==> HashRecord(f, i, o[i], m)
  }

  /** The blocks of files, likewise. */
  ghost predicate BlocksFormat(f: seq<Byte>, t: map<Key, Ref>, o: seq<Key>, vs: seq<Ref>)
    requires forall k :: k in o ==> k in t
  {
    && |f| == KeyPos(o, |o|) && Spells(f, 0, 4, |o|)
    && forall i, m :: 0 <= i < |o| && 0 <= m < |vs| && vs[m] == t[o[i]] ==> KeyRecord(f, KeyPos(o, i), o[i], m)
  }

  ghost predicate SizesFormat(f: seq<Byte>, t: map<Path, nat>, o: seq<Path>)
    requires forall p :: p in o ==> p in t
  {
    && |f| == SizePos(o, |o|) && Spells(f, 0, 4, |o|)
    && forall i :: 0 <= i < |o| ==> SizeRecord(f, SizePos(o, i), o[i], t[o[i]])
  }

  ghost predicate FreeFormat(f: seq<Byte>, free: seq<nat>) {
    && |f| == 4 + 16 * |free| && Spells(f, 0, 4, |free|)
    && forall i :: 0 <= i < |free| ==> SlotRecord(f, i, free[i])
  }

  lemma HashesAre(t: map<Digest, Ref>, o: seq<Digest>, vs: seq<Ref>)
    requires Enumerates(o, t.Keys) && Distinct(vs) && forall k :: k in t ==> t[k] in vs
    ensures HashesFormat(TableFile(t, o, vs, EncodeHash), t, o, vs)
  {
    hide HashRecord, Saved, IndexOf, Spells;
    var es := Entries(Numbered(t, vs), o);
    HashFile(es);
    forall i, m | 0 <= i < |o| && 0 <= m < |vs| && vs[m] == t[o[i]]
      ensures HashRecord(TableFile(t, o, vs, EncodeHash), i, o[i], m) {
      NumberOf(vs, t[o[i]], m);
      assert es[i] == (o[i], m);
    }
  }

  lemma BlocksAre(t: map<Key, Ref>, o: seq<Key>, vs: seq<Ref>)
    requires Enumerates(o, t.Keys) && Distinct(vs) && forall k :: k in t ==> t[k] in vs
    ensures BlocksFormat(TableFile(t, o, vs, EncodeBlockIndice), t, o, vs)
  {
    hide KeyRecord, Saved, IndexOf, Spells, KeyPos;
    var es := Entries(Numbered(t, vs), o);
    BlockFile(es, o);
    forall i, m | 0 <= i < |o| && 0 <= m < |vs| && vs[m] == t[o[i]]
      ensures KeyRecord(TableFile(t, o, vs, EncodeBlockIndice), KeyPos(o, i), o[i], m) {
      NumberOf(vs, t[o[i]], m);
      assert es[i] == (o[i], m);
    }
  }

  /** Every byte of the five files, in terms of the volume alone. */
  lemma FilesLayout(v: Volume, o: Orders)
    requires OrdersOf(o, v)
    ensures var f, vs := Save(v, o), ValuesOf(v, o);
            && ObjectsFormat(f.infos, v, vs)
            && HashesFormat(f.hashes, v.byHash, o.hashes, vs) && BlocksFormat(f.blocks, v.byBlock, o.blocks, vs)
            && SizesFormat(f.sizes, v.sizes, o.sizes) && FreeFormat(f.free, v.free)
  {
    hide ObjectRecord, SizeRecord, SlotRecord, Saved, TableFile, HashesFormat, BlocksFormat, Spells, SizePos, Collect,
         Deref;
    var vs := ValuesOf(v, o);
    ObjectFile(Objects(DerefIn(v), vs));
    HashesAre(v.byHash, o.hashes, vs);
    BlocksAre(v.byBlock, o.blocks, vs);
    SizeFile(Entries(v.sizes, o.sizes), o.sizes);
    FreeFile(v.free);
  }

  // ---- What a loader makes of any bytes ----

  /** Record i of w bytes with its length before it. */
  predicate Record(w: nat, s: seq<Byte>, i: nat) {
    var lo := (8 + w) * i;
    lo + 8 + w <= |s| && FromLE(s[lo..lo + 8]) == w
  }

  function Payload(w: nat, s: seq<Byte>, i: nat): seq<Byte> {
    var lo := (8 + w) * i;
    if lo + 8 + w <= |s| then s[lo + 8..lo + 8 + w] else []
  }

  lemma NextRecord(w: nat, s: seq<Byte>, i: nat)
    requires 8 + w <= |s|
    ensures Record(w, s[8 + w..], i) <==> Record(w, s, i + 1)
    ensures Payload(w, s[8 + w..], i) == Payload(w, s, i + 1)
  {
    hide FromLE;
    var t, x := s[8 + w..], (8 + w) * i;
    assert (8 + w) * (i + 1) == x + 8 + w;
    if x + 16 + 2 * w <= |s| {
      assert t[x..x + 8] == s[x + 8 + w..x + 16 + w];
      assert t[x + 8..x + 8 + w] == s[x + 16 + w..x + 16 + 2 * w];
    }
  }

  lemma FirstRecord<T(!new)>(dec: seq<Byte> -> Option<T>, w: nat, s: seq<Byte>)
    requires forall b :: dec(b).Some? <==> |b| == w
    ensures var (x, rest) := GetElem(dec, s);
            && (x.Some? <==> Record(w, s, 0))
            && (x.Some? ==> 8 + w <= |s| && x == dec(Payload(w, s, 0)) && rest == s[8 + w..])
  {
    hide FromLE;
    if |s| >= 8 {
      var n := FromLE(s[..8]);
      assert s[0..8] == s[..8];
      if 8 + n <= |s| {
        assert s[8..][..n] == s[8..8 + n] && s[8..][n..] == s[8 + n..];
      }
    }
  }

  /** Loading a list of fixed-size elements takes the first n records, up to the first
      place where there is none. */
  lemma {:induction false} RecordsLoaded<T(!new)>(dec: seq<Byte> -> Option<T>, w: nat, s: seq<Byte>, n: int)
    requires forall b :: dec(b).Some? <==> |b| == w
    ensures var xs := GetAll(ElemGet(dec), s, n);
            && (n <= 0 ==> xs == []) && (n > 0 ==> |xs| <= n) && (|xs| < n ==> !Record(w, s, |xs|))
            && forall i :: 0 <= i < |xs| ==> Record(w, s, i) && dec(Payload(w, s, i)) == Some(xs[i])
    decreases n
  {
    hide Record, Payload, GetElem;
    FirstRecord(dec, w, s);
    assert ElemGet(dec)(s) == GetElem(dec, s);
    if n > 0 && Record(w, s, 0) {
      RecordsLoaded(dec, w, s[8 + w..], n - 1);
      var ys := GetAll(ElemGet(dec), s[8 + w..], n - 1);
      NextRecord(w, s, |ys|);
      forall i | 0 < i <= |ys| ensures Record(w, s, i) && dec(Payload(w, s, i)) == Some(ys[i - 1]) {
        NextRecord(w, s, i - 1);
      }
    }
  }

  /** Bytes are read as the one number they spell. */
  lemma ReadIff(f: seq<Byte>, at: nat, w: nat, n: nat)
    requires at + w <= |f|
    ensures FromLE(f[at..at + w]) == n <==> n < Pow256(w) && Spells(f, at, w, n)
  {
    hide Pow256, LE, FromLE;
    var s := f[at..at + w];
    if FromLE(s) == n {
      BytesFit(s);
      BytesRoundTrip(s);
      PutAt(f, at, w, n);
    }
    if n < Pow256(w) && Spells(f, at, w, n) {
      forall j | 0 <= j < w ensures s[j] == LE(n, w)[j] {
        LEAt(n, w, j);
        assert f[at + j] == n / Pow256(at + j - at) % 256;
      }
      assert s == LE(n, w);
      NumberRoundTrip(n, w);
    }
  }

  lemma WordIff(b: seq<Byte>, n: nat)
    ensures DecodeWord(b) == Some(n) <==> |b| == 8 && n < Pow256(8) && Spells(b, 0, 8, n)
  {
    hide Pow256, FromLE, Spells;
    if |b| == 8 {
      ReadIff(b, 0, 8, n);
      assert b[0..8] == b;
    }
  }

  /** Any 80 bytes are an object, whatever the padding holds; nothing else is. */
  lemma InfoIff(b: seq<Byte>, i: Info)
    ensures DecodeInfo(b) == Some(i) <==>
            && |b| == 80 && InfoFits(i) && b[..64] == i.hash && Spells(b, 64, 8, i.slot) && Spells(b, 72, 4, i.refs)
  {
    hide Pow256, FromLE, Spells;
    if |b| == 80 {
      ReadIff(b, 64, 8, i.slot);
      if i.refs >= 0 {
        ReadIff(b, 72, 4, i.refs);
      }
    }
  }

  /** The free list that is loaded from any file. */
  lemma FreeListLoaded(f: seq<Byte>)
    ensures var xs := Loaded(ElemGet(DecodeWord), f);
            if |f| < 4 then xs == []
            else
              var n, s := IntOf(f[..4]), f[4..];
              && (n <= 0 ==> xs == []) && (n > 0 ==> |xs| <= n) && (|xs| < n ==> !Record(8, s, |xs|))
              && forall i :: 0 <= i < |xs| ==> Record(8, s, i) && FromLE(Payload(8, s, i)) == xs[i]
  {
    hide Record, Payload, GetAll, FromLE;
    if |f| >= 4 {
      RecordsLoaded(DecodeWord, 8, f[4..], IntOf(f[..4]));
    }
  }

  /** The objects that are loaded from any file. */
  lemma ObjectsLoaded(f: seq<Byte>)
    ensures var xs := Loaded(ElemGet(DecodeInfo), f);
            if |f| < 4 then xs == []
            else
              var n, s := IntOf(f[..4]), f[4..];
              && (n <= 0 ==> xs == []) && (n > 0 ==> |xs| <= n) && (|xs| < n ==> !Record(80, s, |xs|))
              && forall i :: 0 <= i < |xs| ==> Record(80, s, i) && DecodeInfo(Payload(80, s, i)) == Some(xs[i])
  {
    hide Record, Payload, GetAll, FromLE;
    if |f| >= 4 {
      RecordsLoaded(DecodeInfo, 80, f[4..], IntOf(f[..4]));
    }
  }

  // ---- The order of the objects ----

  /** The place where r is first met. */
  function FirstMet(refs: seq<Ref>, r: Ref): (i: nat)
    requires r in refs
    ensures i < |refs| && refs[i] == r && r !in refs[..i]
  {
    if refs[0] == r then 0
    else
      var i := 1 + FirstMet(refs[1..], r);
      assert refs[..i] == [refs[0]] + refs[1..][..i - 1];
      i
  }

  lemma FirstMetIs(refs: seq<Ref>, r: Ref, i: nat)
    requires i < |refs| && refs[i] == r && r !in refs[..i]
    ensures FirstMet(refs, r) == i
  {
    var j := FirstMet(refs, r);
    assert forall k :: 0 <= k < i ==> refs[k] in refs[..i];
    assert forall k :: 0 <= k < j ==> refs[k] in refs[..j];
  }

  /** The objects are numbered as they are first met. */
  lemma {:induction false} CollectedInOrder(refs: seq<Ref>, a: nat, b: nat)
    requires a < b < |Collect(refs)|
    ensures FirstMet(refs, Collect(refs)[a]) < FirstMet(refs, Collect(refs)[b])
  {
    var vs := Collect(refs);
    var init, last := refs[..|refs| - 1], refs[|refs| - 1];
    var c := Collect(init);
    assert vs[a] in vs && vs[b] in vs;
    assert vs[a] == c[a] && c[a] in c;
    SameFirst(refs, vs[a]);
    if b < |c| {
      CollectedInOrder(init, a, b);
      assert vs[b] == c[b] && c[b] in c;
      SameFirst(refs, vs[b]);
    } else {
      assert refs[..|refs| - 1] == init;
      FirstMetIs(refs, last, |refs| - 1);
    }
  }

  lemma SameFirst(refs: seq<Ref>, r: Ref)
    requires refs != [] && r in refs[..|refs| - 1]
    ensures FirstMet(refs, r) == FirstMet(refs[..|refs| - 1], r)
  {
    var init := refs[..|refs| - 1];
    var i := FirstMet(init, r);
    assert refs[..i] == init[..i];
    FirstMetIs(refs, r, i);
  }

  lemma {:induction false} CollectDistinct(refs: seq<Ref>)
    requires Distinct(refs)
    ensures Collect(refs) == refs
  {
    if refs != [] {
      var init := refs[..|refs| - 1];
      CollectDistinct(init);
      assert refs == init + [refs[|refs| - 1]];
    }
  }

  lemma {:induction false} CollectAgain(refs: seq<Ref>, more: seq<Ref>)
    requires forall r :: r in more ==> r in refs
    ensures Collect(refs + more) == Collect(refs)
  {
    if more == [] {
      assert refs + more == refs;
    } else {
      var n := |more| - 1;
      assert refs + more == refs + more[..n] + [more[n]] && (refs + more)[..|refs + more| - 1] == refs + more[..n];
      assert more[n] in more;
      CollectAgain(refs, more[..n]);
    }
  }

  /** Where every mapped object is indexed by its hash, object number i is that of the
      i-th hash. */
  lemma ObjectsFollowHashes(v: Volume, o: Orders)
    requires OrdersOf(o, v)
    requires forall k :: k in v.byBlock ==> v.byBlock[k] in v.byHash.Values
    requires forall h, h' :: h in v.byHash && h' in v.byHash && v.byHash[h] == v.byHash[h'] ==> h == h'
    ensures ValuesOf(v, o) == Targets(v.byHash, o.hashes)
  {
    hide Collect;
    var refs, more := Targets(v.byHash, o.hashes), Targets(v.byBlock, o.blocks);
    forall r | r in more ensures r in refs {
      var i :| 0 <= i < |more| && more[i] == r;
      assert o.blocks[i] in v.byBlock;
      var h :| h in v.byHash && v.byHash[h] == r;
      var j :| 0 <= j < |o.hashes| && o.hashes[j] == h;
      assert refs[j] == r;
    }
    CollectAgain(refs, more);
    CollectDistinct(refs);
  }

  lemma ValidObjectsFollowHashes(H: Block -> Digest, U: iset<Block>, v: Volume, o: Orders)
    requires Valid(H, U, v) && OrdersOf(o, v)
    ensures ValuesOf(v, o) == Targets(v.byHash, o.hashes)
  {
    hide Valid, SlotsSettled, KeysTo, ValuesOf, Targets, OrdersOf;
    ValidIsSettled(H, U, v);
    ObjectsFollowHashes(v, o);
  }
}
