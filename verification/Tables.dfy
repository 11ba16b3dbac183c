/** Saving and loading lists and tables of length-prefixed entries, as values. */
module Tables {
  import opened MasterFile
  import opened Volumes
  import opened ByteStream
  import opened Codec

  // ---- Entries ----

  function GetElem<T>(dec: seq<Byte> -> Option<T>, s: seq<Byte>): (Option<T>, seq<Byte>) {
    var (b, rest) := TakeElem(s);
    (if b.None? then None else dec(b.value), rest)
  }

  /** A key, then its value. The value is read even if the key was not. */
  function GetPair<K, V>(dk: seq<Byte> -> Option<K>, dv: seq<Byte> -> Option<V>, s: seq<Byte>): (Option<(K, V)>,
                         seq<Byte>) {
    var (k, s1) := GetElem(dk, s);
    var (x, s2) := GetElem(dv, s1);
    (if k.None? || x.None? then None else Some((k.value, x.value)), s2)
  }

  function PutPair<K, V>(ek: K -> seq<Byte>, ev: V -> seq<Byte>, e: (K, V)): seq<Byte> {
    Elem(ek(e.0)) + Elem(ev(e.1))
  }

  function ElemPut<T>(enc: T -> seq<Byte>): T -> seq<Byte> { x => Elem(enc(x)) }
  function ElemGet<T>(dec: seq<Byte> -> Option<T>): seq<Byte> -> (Option<T>, seq<Byte>) { s => GetElem(dec, s) }
  function PairPut<K, V>(ek: K -> seq<Byte>, ev: V -> seq<Byte>): ((K, V)) -> seq<Byte> { e => PutPair(ek, ev, e) }
  function PairGet<K, V>(dk: seq<Byte> -> Option<K>, dv: seq<Byte> -> Option<V>): seq<Byte> -> (Option<(K, V)>,
                         seq<Byte>) {
    s => GetPair(dk, dv, s)
  }

  /** An entry is read back whole, whatever follows it, and not at all when cut short. */
  ghost predicate Faithful<T(!new)>(put: T -> seq<Byte>, get: seq<Byte> -> (Option<T>, seq<Byte>), x: T) {
    && (forall rest :: get(put(x) + rest) == (Some(x), rest))
    && (forall m :: 0 <= m < |put(x)| ==> get(put(x)[..m]).0 == None)
  }

  ghost predicate Decodes<T(!new)>(enc: T -> seq<Byte>, dec: seq<Byte> -> Option<T>, x: T) {
    |enc(x)| < Pow256(WORD) && dec(enc(x)) == Some(x)
  }

  lemma ElemFaithful<T(!new)>(enc: T -> seq<Byte>, dec: seq<Byte> -> Option<T>, x: T)
    requires Decodes(enc, dec, x)
    ensures Faithful(ElemPut(enc), ElemGet(dec), x)
  {
    hide Elem, TakeElem, Pow256;
    forall rest: seq<Byte> ensures TakeElem(Elem(enc(x)) + rest) == (Some(enc(x)), rest) {
      ElemRoundTrip(enc(x), rest);
    }
    forall m | 0 <= m < |Elem(enc(x))| ensures TakeElem(Elem(enc(x))[..m]) == (None, []) {
      ElemTruncated(enc(x), m);
    }
  }

  lemma PairFaithful<K(!new), V(!new)>(ek: K -> seq<Byte>, dk: seq<Byte> -> Option<K>, ev: V -> seq<Byte>,
                                       dv: seq<Byte> -> Option<V>, e: (K, V))
    requires Decodes(ek, dk, e.0) && Decodes(ev, dv, e.1)
    ensures Faithful(PairPut(ek, ev), PairGet(dk, dv), e)
  {
    hide Elem, TakeElem, Pow256;
    var a, b := Elem(ek(e.0)), Elem(ev(e.1));
    forall rest: seq<Byte> ensures GetPair(dk, dv, a + b + rest) == (Some(e), rest) {
      assert a + b + rest == a + (b + rest);
      ElemRoundTrip(ek(e.0), b + rest);
      ElemRoundTrip(ev(e.1), rest);
    }
    forall m | 0 <= m < |a + b| ensures GetPair(dk, dv, (a + b)[..m]).0 == None {
      if m < |a| {
        assert (a + b)[..m] == a[..m];
        ElemTruncated(ek(e.0), m);
      } else {
        assert (a + b)[..m] == a + b[..m - |a|];
        ElemRoundTrip(ek(e.0), b[..m - |a|]);
        ElemTruncated(ev(e.1), m - |a|);
      }
    }
  }

  // ---- Files of entries ----

  function PutAll<T>(put: T -> seq<Byte>, xs: seq<T>): seq<Byte> {
    if xs == [] then [] else put(xs[0]) + PutAll(put, xs[1..])
  }

  /** Up to n entries; an entry that cannot be read ends the loading. */
  function GetAll<T>(get: seq<Byte> -> (Option<T>, seq<Byte>), s: seq<Byte>, n: int): seq<T>
    decreases n
  {
    if n <= 0 then []
    else
      var (x, rest) := get(s);
      if x.None? then [] else [x.value] + GetAll(get, rest, n - 1)
  }

  /** The number of entries, as an int, then the entries. */
  function Saved<T>(put: T -> seq<Byte>, xs: seq<T>): seq<Byte> {
    LE(|xs|, INT) + PutAll(put, xs)
  }

  function Loaded<T>(get: seq<Byte> -> (Option<T>, seq<Byte>), s: seq<Byte>): seq<T> {
    var (n, rest) := TakeBytes(s, INT);
    if n.None? then [] else GetAll(get, rest, IntOf(n.value))
  }

  /** How many entries lie whole in the first m bytes. */
  function Whole<T>(put: T -> seq<Byte>, xs: seq<T>, m: nat): (j: nat)
    ensures j <= |xs|
  {
    if xs == [] || m < |put(xs[0])| then 0 else 1 + Whole(put, xs[1..], m - |put(xs[0])|)
  }

  lemma {:induction false} GetPrefix<T(!new)>(put: T -> seq<Byte>, get: seq<Byte> -> (Option<T>, seq<Byte>), xs: seq<T>,
                                              m: nat)
    requires m <= |PutAll(put, xs)| && forall x :: x in xs ==> Faithful(put, get, x)
    ensures GetAll(get, PutAll(put, xs)[..m], |xs|) == xs[..Whole(put, xs, m)]
    ensures m == |PutAll(put, xs)| ==> Whole(put, xs, m) == |xs|
  {
    if xs != [] {
      var head, tail := put(xs[0]), PutAll(put, xs[1..]);
      assert Faithful(put, get, xs[0]);
      if m < |head| {
        assert (head + tail)[..m] == head[..m];
      } else {
        assert (head + tail)[..m] == head + tail[..m - |head|];
        GetPrefix(put, get, xs[1..], m - |head|);
        var j := Whole(put, xs[1..], m - |head|);
        assert [xs[0]] + xs[1..][..j] == xs[..j + 1];
      }
    }
  }

  /** A file cut anywhere loads as a prefix of what was saved: the entries that lie in
      it whole. An uncut file loads as what was saved. */
  lemma CutFileLoadsPrefix<T(!new)>(put: T -> seq<Byte>, get: seq<Byte> -> (Option<T>, seq<Byte>), xs: seq<T>, m: nat)
    requires |xs| < INT_LIMIT && m <= |Saved(put, xs)| && forall x :: x in xs ==> Faithful(put, get, x)
    ensures Loaded(get, Saved(put, xs)[..m]) == if m < INT then [] else xs[..Whole(put, xs, m - INT)]
    ensures m == |Saved(put, xs)| ==> Loaded(get, Saved(put, xs)) == xs
  {
    hide Whole, PutAll, GetAll, Faithful;
    var file := Saved(put, xs);
    if m >= INT {
      var cut := file[..m];
      IntRoundTrip(|xs|);
      assert cut[..INT] == LE(|xs|, INT) && cut[INT..] == PutAll(put, xs)[..m - INT];
      GetPrefix(put, get, xs, m - INT);
    }
    if m == |file| {
      assert file[..m] == file;
      assert xs[..|xs|] == xs;
    }
  }

  lemma {:induction false} PutAllSnoc<T>(put: T -> seq<Byte>, xs: seq<T>, x: T)
    ensures PutAll(put, xs + [x]) == PutAll(put, xs) + put(x)
  {
    if xs == [] {
      assert [x][1..] == [];
    } else {
      assert (xs + [x])[1..] == xs[1..] + [x];
      PutAllSnoc(put, xs[1..], x);
    }
  }

  // ---- Tables ----

  ghost predicate Distinct<T>(o: seq<T>) {
    forall i, j :: 0 <= i < j < |o| ==> o[i] != o[j]
  }

  /** An order in which a hash table may be iterated. */
  ghost predicate Enumerates<T(!new)>(o: seq<T>, keys: set<T>) {
    Distinct(o) && forall x :: x in o <==> x in keys
  }

  function Entries<K(==), V>(t: map<K, V>, o: seq<K>): (es: seq<(K, V)>)
    requires forall k :: k in o ==> k in t
    ensures |es| == |o|
  {
    seq(|o|, i requires 0 <= i < |o| => (o[i], t[o[i]]))
  }

  /** Inserting the entries one after the other. */
  function MapOf<K(==), V>(es: seq<(K, V)>): map<K, V> {
    if es == [] then map[] else MapOf(es[..|es| - 1])[es[|es| - 1].0 := es[|es| - 1].1]
  }

  lemma {:induction false} MapOfEntries<K, V>(t: map<K, V>, o: seq<K>, j: nat)
    requires Distinct(o) && j <= |o| && forall k :: k in o ==> k in t
    ensures forall k :: k in MapOf(Entries(t, o)[..j]) <==> k in o[..j]
    ensures forall k :: k in MapOf(Entries(t, o)[..j]) ==> MapOf(Entries(t, o)[..j])[k] == t[k]
  {
    if j > 0 {
      var es := Entries(t, o);
      MapOfEntries(t, o, j - 1);
      assert es[..j][..j - 1] == es[..j - 1];
      assert o[..j] == o[..j - 1] + [o[j - 1]];
    }
  }

  /** A key that comes twice has the value of its last entry. */
  lemma {:induction false} LastEntryWins<K, V>(es: seq<(K, V)>, i: nat)
    requires i < |es| && forall j :: i < j < |es| ==> es[j].0 != es[i].0
    ensures es[i].0 in MapOf(es) && MapOf(es)[es[i].0] == es[i].1
  {
    var n := |es| - 1;
    if i < n {
      LastEntryWins(es[..n], i);
    }
  }

  lemma {:induction false} EnumerationSize<T(!new)>(o: seq<T>, keys: set<T>)
    requires Enumerates(o, keys)
    ensures |o| == |keys|
  {
    if o == [] {
      assert keys == {};
    } else {
      var n := |o| - 1;
      assert o == o[..n] + [o[n]];
      EnumerationSize(o[..n], keys - {o[n]});
    }
  }

  // ---- Cut files ----

  lemma CutList<T(!new)>(enc: T -> seq<Byte>, dec: seq<Byte> -> Option<T>, xs: seq<T>, file: seq<Byte>)
    requires |xs| < INT_LIMIT && (forall x :: x in xs ==> Decodes(enc, dec, x)) && file <= Saved(ElemPut(enc), xs)
    ensures Loaded(ElemGet(dec), file) <= xs
    ensures file == Saved(ElemPut(enc), xs) ==> Loaded(ElemGet(dec), file) == xs
  {
    hide Decodes, Faithful, Loaded, Saved, Whole;
    forall x | x in xs ensures Faithful(ElemPut(enc), ElemGet(dec), x) {
      ElemFaithful(enc, dec, x);
    }
    CutFileLoadsPrefix(ElemPut(enc), ElemGet(dec), xs, |file|);
    assert file == Saved(ElemPut(enc), xs)[..|file|];
  }

  lemma CutPairs<K(!new), V(!new)>(ek: K -> seq<Byte>, dk: seq<Byte> -> Option<K>, ev: V -> seq<Byte>,
                                   dv: seq<Byte> -> Option<V>,
                                   es: seq<(K, V)>, file: seq<Byte>)
    requires |es| < INT_LIMIT && (forall e :: e in es ==> Decodes(ek, dk, e.0) && Decodes(ev, dv, e.1))
    requires file <= Saved(PairPut(ek, ev), es)
    ensures Loaded(PairGet(dk, dv), file) <= es
    ensures file == Saved(PairPut(ek, ev), es) ==> Loaded(PairGet(dk, dv), file) == es
  {
    hide Decodes, Faithful, Loaded, Saved, Whole;
    forall e | e in es ensures Faithful(PairPut(ek, ev), PairGet(dk, dv), e) {
      PairFaithful(ek, dk, ev, dv, e);
    }
    CutFileLoadsPrefix(PairPut(ek, ev), PairGet(dk, dv), es, |file|);
    assert file == Saved(PairPut(ek, ev), es)[..|file|];
  }

  /** A table rebuilt from some first entries is part of the table. */
  lemma FirstEntries<K(!new), V>(t: map<K, V>, o: seq<K>, es: seq<(K, V)>)
    requires Enumerates(o, t.Keys) && es <= Entries(t, o)
    ensures (forall k :: k in MapOf(es) ==> k in t && MapOf(es)[k] == t[k]) && (es == Entries(t, o) ==> MapOf(es) == t)
  {
    hide MapOf;
    MapOfEntries(t, o, |es|);
    assert es == Entries(t, o)[..|es|];
    assert forall k :: k in o[..|es|] ==> k in o;
    if es == Entries(t, o) {
      assert o[..|o|] == o;
    }
  }
}
