/** The bytes of the metadata files: little-endian numbers, elements with a length in
    front, and the encodings of keys and values. */
module Codec {
  import opened MasterFile
  import opened Volumes
  import opened ByteStream

  const WORD: nat := 8            // size_t and uint64_t
  const INT: nat := 4             // int
  const INT_LIMIT: nat := 0x8000_0000
  const INFO_SIZE: nat := 80      // MasterInfo: 64 + 8 + 4, padded to a multiple of 8

  function Pow256(k: nat): (p: nat)
    ensures p >= 1
  {
    if k == 0 then 1 else 256 * Pow256(k - 1)
  }

  /** The low k bytes of n, least significant first. */
  function LE(n: nat, k: nat): (s: seq<Byte>)
    ensures |s| == k
  {
    if k == 0 then [] else [n % 256] + LE(n / 256, k - 1)
  }

  function FromLE(s: seq<Byte>): nat {
    if s == [] then 0 else s[0] + 256 * FromLE(s[1..])
  }

  lemma {:induction false} NumberRoundTrip(n: nat, k: nat)
    ensures n < Pow256(k) ==> FromLE(LE(n, k)) == n
  {
    if k > 0 {
      assert LE(n, k)[1..] == LE(n / 256, k - 1);
      NumberRoundTrip(n / 256, k - 1);
    }
  }

  // ---- What a number's bytes are, position by position ----

  lemma DivDiv(n: int, p: nat)
    requires p > 0
    ensures n / 256 / p == n / (256 * p)
  {
    var q, r := n / 256 / p, n / 256 % p;
    assert n / 256 == p * q + r;
    assert n == 256 * p * q + (256 * r + n % 256);
    QuotientIs(n, 256 * p, q, 256 * r + n % 256);
  }

  lemma QuotientIs(n: int, d: nat, q: int, r: int)
    requires n == d * q + r && 0 <= r < d
    ensures n / d == q
  {
    var e := n / d - q;
    assert d * e == r - n % d;
    assert d * e < d ==> e < 1;
    assert 0 < d * e + d ==> -1 < e;
  }

  /** Byte i is the digit of 256 to the power of i. */
  lemma {:induction false} LEAt(n: nat, k: nat, i: nat)
    requires i < k
    ensures LE(n, k)[i] == n / Pow256(i) % 256
  {
    if i > 0 {
      LEAt(n / 256, k - 1, i - 1);
      DivDiv(n, Pow256(i - 1));
    }
  }

  /** The sum of s[i] times 256 to the power of i, for i below k. */
  function Weighted(s: seq<Byte>, k: nat): nat
    requires k <= |s|
  {
    if k == 0 then 0 else Weighted(s, k - 1) + s[k - 1] * Pow256(k - 1)
  }

  lemma {:induction false} WeightedTail(s: seq<Byte>, k: nat)
    requires 0 < k <= |s|
    ensures Weighted(s, k) == s[0] + 256 * Weighted(s[1..], k - 1)
  {
    if k > 1 {
      WeightedTail(s, k - 1);
      assert s[1..][k - 2] == s[k - 1] && s[k - 1] * (256 * Pow256(k - 2)) == 256 * (s[k - 1] * Pow256(k - 2));
    } else {
      assert Weighted(s, 1) == Weighted(s, 0) + s[0] * Pow256(0);
    }
  }

  lemma {:induction false} FromLEIsSum(s: seq<Byte>)
    ensures FromLE(s) == Weighted(s, |s|)
  {
    if s != [] {
      FromLEIsSum(s[1..]);
      WeightedTail(s, |s|);
    }
  }

  lemma Widths()
    ensures Pow256(INT) == 2 * INT_LIMIT && Pow256(WORD) == Pow256(INT) * Pow256(INT)
  {
    assert Pow256(2) == 65536 && Pow256(3) == 256 * 65536;
    assert Pow256(6) == 65536 * Pow256(4) && Pow256(7) == 256 * Pow256(6);
  }

  /** A C int in two's complement. */
  function IntOf(s: seq<Byte>): int {
    var u := FromLE(s);
    if u < INT_LIMIT then u else u - 2 * INT_LIMIT
  }

  /** The one number of the signed range that the bytes stand for. */
  lemma IntIsSigned(s: seq<Byte>)
    requires |s| == INT
    ensures -0x8000_0000 <= IntOf(s) < 0x8000_0000 && (FromLE(s) - IntOf(s)) % 0x1_0000_0000 == 0
  {
    hide LE;
    Widths();
    BytesFit(s);
  }

  /** Every string of k bytes is the number it stands for, in k bytes. */
  lemma {:induction false} BytesRoundTrip(s: seq<Byte>)
    ensures LE(FromLE(s), |s|) == s
  {
    if s != [] {
      BytesRoundTrip(s[1..]);
      assert s == [s[0]] + s[1..];
    }
  }

  lemma {:induction false} BytesFit(s: seq<Byte>)
    ensures FromLE(s) < Pow256(|s|)
  {
    if s != [] {
      BytesFit(s[1..]);
    }
  }

  lemma IntRoundTrip(n: nat)
    requires n < INT_LIMIT
    ensures IntOf(LE(n, INT)) == n
  {
    Widths();
    NumberRoundTrip(n, INT);
  }

  // ---- write_elem_buffered and read_elem_buffered ----

  function Elem(b: seq<Byte>): seq<Byte> {
    LE(|b|, WORD) + b
  }

  function TakeElem(s: seq<Byte>): (r: (Option<seq<Byte>>, seq<Byte>)) {
    var (len, s1) := TakeBytes(s, WORD);
    if len.None? then (None, s1) else TakeBytes(s1, FromLE(len.value))
  }

  lemma ElemRoundTrip(b: seq<Byte>, rest: seq<Byte>)
    requires |b| < Pow256(WORD)
    ensures TakeElem(Elem(b) + rest) == (Some(b), rest)
  {
    NumberRoundTrip(|b|, WORD);
    var s := Elem(b) + rest;
    assert s[..WORD] == LE(|b|, WORD) && s[WORD..] == b + rest;
  }

  lemma ElemTruncated(b: seq<Byte>, m: nat)
    requires |b| < Pow256(WORD) && m < |Elem(b)|
    ensures TakeElem(Elem(b)[..m]) == (None, [])
  {
    NumberRoundTrip(|b|, WORD);
    var s := Elem(b)[..m];
    if m >= WORD {
      assert s[..WORD] == LE(|b|, WORD);
    }
  }

  // ---- encode_* and decode_* ----

  /** strlen up to the terminator. */
  function CString(b: seq<Byte>): (p: Option<Path>) {
    if b == [] then None
    else if b[0] == 0 then Some([])
    else
      match CString(b[1..])
      case None => None
      case Some(p) => Some([b[0]] + p)
  }

  lemma {:induction false} CStringRoundTrip(p: Path, rest: seq<Byte>)
    ensures CString(p + [0] + rest) == Some(p)
  {
    if p != [] {
      var tail: Path := p[1..];
      assert (p + [0] + rest)[1..] == tail + [0] + rest;
      CStringRoundTrip(tail, rest);
      assert p[0] in p && p == [p[0]] + tail;
    }
  }

  /** The path that the bytes begin with is the one that a terminator follows. */
  lemma {:induction false} CStringIff(b: seq<Byte>, p: Path)
    ensures CString(b) == Some(p) <==> |p| < |b| && b[..|p|] == p && b[|p|] == 0
  {
    if b != [] && b[0] != 0 && p != [] {
      var tail: Path := p[1..];
      CStringIff(b[1..], tail);
      assert p == [p[0]] + tail && p[0] in p;
      assert |p| <= |b| ==> b[..|p|] == [b[0]] + b[1..][..|tail|];
    }
  }

  function EncodeHash(d: Digest): seq<Byte> { d }

  function DecodeHash(b: seq<Byte>): Option<Digest> {
    if |b| != HASH_SIZE then None else Some(b)
  }

  function EncodeInfo(i: Info): (b: seq<Byte>)
    ensures |b| == INFO_SIZE
  {
    i.hash + LE(i.slot, WORD) + LE(i.refs % (2 * INT_LIMIT), INT) + [0, 0, 0, 0]
  }

  function DecodeInfo(b: seq<Byte>): Option<Info> {
    if |b| != INFO_SIZE then None
    else Some(Info(b[..HASH_SIZE], FromLE(b[HASH_SIZE..HASH_SIZE + WORD]),
        FromLE(b[HASH_SIZE + WORD..HASH_SIZE + WORD + INT])))
  }

  function EncodeBlockIndice(k: Key): (b: seq<Byte>)
    ensures |b| == |k.path| + 13
  {
    LE(|k.path| + 1, INT) + k.path + [0] + LE(k.blk, WORD)
  }

  /** The size argument is not looked at; bytes that no encoder wrote are refused here,
      where the program would read past them. */
  function DecodeBlockIndice(b: seq<Byte>): Option<Key> {
    if |b| < INT then None
    else
      var len := IntOf(b[..INT]);
      if len < 0 || INT + len + WORD > |b| then None
      else
        match CString(b[INT..INT + len])
        case None => None
        case Some(p) => Some(Key(p, FromLE(b[INT + len..INT + len + WORD])))
  }

  /** encode_free_block, encode_size and encode_size_elem. */
  function EncodeWord(n: nat): (b: seq<Byte>)
    ensures |b| == WORD
  {
    LE(n, WORD)
  }

  /** decode_free_block and decode_size_elem. */
  function DecodeWord(b: seq<Byte>): Option<nat> {
    if |b| != WORD then None else Some(FromLE(b))
  }

  /** decode_size does not look at the size argument. */
  function DecodeSize(b: seq<Byte>): Option<nat> {
    if |b| < WORD then None else Some(FromLE(b[..WORD]))
  }

  function EncodeStr(p: Path): seq<Byte> { p + [0] }

  function DecodeStr(b: seq<Byte>): Option<Path> { CString(b) }

  predicate InfoFits(i: Info) { i.slot < Pow256(WORD) && 0 <= i.refs < Pow256(INT) }
  predicate KeyFits(k: Key) { k.blk < Pow256(WORD) && |k.path| + 13 < INT_LIMIT }

  lemma InfoRoundTrip(i: Info)
    ensures InfoFits(i) ==> DecodeInfo(EncodeInfo(i)) == Some(i)
  {
    if InfoFits(i) {
      NumberRoundTrip(i.slot, WORD);
      NumberRoundTrip(i.refs, INT);
      Widths();
      var b := EncodeInfo(i);
      assert b[..HASH_SIZE] == i.hash && b[HASH_SIZE..HASH_SIZE + WORD] == LE(i.slot, WORD);
      assert b[HASH_SIZE + WORD..HASH_SIZE + WORD + INT] == LE(i.refs, INT);
    }
  }

  lemma KeyRoundTrip(k: Key)
    ensures KeyFits(k) ==> DecodeBlockIndice(EncodeBlockIndice(k)) == Some(k)
  {
    if KeyFits(k) {
      var b, n := EncodeBlockIndice(k), |k.path| + 1;
      IntRoundTrip(n);
      NumberRoundTrip(k.blk, WORD);
      CStringRoundTrip(k.path, []);
      assert b[..INT] == LE(n, INT);
      assert b[INT..INT + n] == k.path + [0] + [];
      assert b[INT + n..INT + n + WORD] == LE(k.blk, WORD);
    }
  }

  lemma WordRoundTrip(n: nat)
    ensures n < Pow256(WORD) ==> DecodeWord(EncodeWord(n)) == Some(n) && DecodeSize(EncodeWord(n)) == Some(n)
  {
    NumberRoundTrip(n, WORD);
    assert EncodeWord(n)[..WORD] == EncodeWord(n);
  }

  lemma StrRoundTrip(p: Path)
    ensures DecodeStr(EncodeStr(p)) == Some(p)
  {
    CStringRoundTrip(p, []);
    assert p + [0] + [] == EncodeStr(p);
  }
}
