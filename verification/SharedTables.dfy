/** Two tables whose values are shared objects: the objects are numbered, saved once,
    and the tables are saved with the numbers. */
module SharedTables {
  import opened MasterFile
  import opened Volumes
  import opened Codec
  import opened Tables

  /** The distinct objects, in the order in which they are first met. */
  function Collect(refs: seq<Ref>): (vs: seq<Ref>)
    ensures Distinct(vs) && forall r :: r in vs <==> r in refs
  {
    if refs == [] then []
    else
      var init, last := refs[..|refs| - 1], refs[|refs| - 1];
      var c := Collect(init);
      assert refs == init + [last];
      if last in c then c else c + [last]
  }

  function IndexOf(vs: seq<Ref>, r: Ref): (i: nat)
    requires r in vs
    ensures i < |vs| && vs[i] == r
  {
    if vs[0] == r then 0 else 1 + IndexOf(vs[1..], r)
  }

  function Targets<K>(t: map<K, Ref>, o: seq<K>): (refs: seq<Ref>)
    requires forall k :: k in o ==> k in t
    ensures |refs| == |o| && forall i :: 0 <= i < |o| ==> refs[i] == t[o[i]]
  {
    seq(|o|, i requires 0 <= i < |o| => t[o[i]])
  }

  /** The table with numbers for objects. */
  function Numbered<K>(t: map<K, Ref>, vs: seq<Ref>): map<K, nat>
    requires forall k :: k in t ==> t[k] in vs
  {
    map k | k in t :: IndexOf(vs, t[k])
  }

  /** The table with the n loaded objects for numbers; a number without object is dropped. */
  function Attached<K>(idx: map<K, nat>, n: nat): map<K, Ref> {
    map k | k in idx && idx[k] < n :: idx[k]
  }

  function TableFile<K>(t: map<K, Ref>, o: seq<K>, vs: seq<Ref>, ek: K -> seq<Byte>): seq<Byte>
    requires (forall k :: k in o ==> k in t) && forall k :: k in t ==> t[k] in vs
  {
    Saved(PairPut(ek, EncodeWord), Entries(Numbered(t, vs), o))
  }

  /** From some first entries, and with only the first n objects, a table has no binding
      that was not saved; with nothing missing it has all of them. */
  lemma FirstBindings<K(!new)>(t: map<K, Ref>, o: seq<K>, vs: seq<Ref>, es: seq<(K, nat)>, n: nat)
    requires Enumerates(o, t.Keys) && (forall k :: k in t ==> t[k] in vs) && n <= |vs|
    requires es <= Entries(Numbered(t, vs), o)
    ensures var t' := Attached(MapOf(es), n);
            && (forall k :: k in t' ==> k in t && t'[k] == IndexOf(vs, t[k]) < n)
            && (es == Entries(Numbered(t, vs), o) && n == |vs| ==> t'.Keys == t.Keys)
  {
    hide MapOf, IndexOf, Entries;
    var num := Numbered(t, vs);
    var all := Entries(num, o);
    EntriesSize(num, o);
    assert es == all[..|es|];
    MapOfEntries(num, o, |es|);
    assert forall k :: k in o[..|es|] ==> k in o;
    if es == all {
      assert o[..|o|] == o;
    }
    forall k | k in t ensures IndexOf(vs, t[k]) < |vs| {
      IndexInside(vs, t[k]);
    }
  }

  lemma EntriesSize<K(!new), V>(t: map<K, V>, o: seq<K>)
    requires forall k :: k in o ==> k in t
    ensures |Entries(t, o)| == |o|
  {
  }

  lemma IndexInside(vs: seq<Ref>, r: Ref)
    requires r in vs
    ensures IndexOf(vs, r) < |vs| && vs[IndexOf(vs, r)] == r
  {
  }

  /** The entries of a table of numbers decode to themselves. */
  lemma NumbersDecode<K(!new)>(t: map<K, Ref>, o: seq<K>, vs: seq<Ref>, ek: K -> seq<Byte>, dk: seq<Byte> -> Option<K>,
                               e: (K, nat))
    requires Enumerates(o, t.Keys) && (forall k :: k in t ==> t[k] in vs && Decodes(ek, dk, k))
    requires |vs| < Pow256(WORD) && e in Entries(Numbered(t, vs), o)
    ensures Decodes(ek, dk, e.0) && Decodes(EncodeWord, DecodeWord, e.1)
  {
    hide Decodes, Pow256, Entries;
    EntryOf(Numbered(t, vs), o, e);
    NumberDecodes(e.1);
  }

  lemma EntryOf<K(!new)>(t: map<K, nat>, o: seq<K>, e: (K, nat))
    requires (forall k :: k in o ==> k in t) && e in Entries(t, o)
    ensures e.0 in t && e.1 == t[e.0]
  {
  }

  lemma NumberDecodes(n: nat)
    requires n < Pow256(WORD)
    ensures Decodes(EncodeWord, DecodeWord, n)
  {
    Widths();
    WordRoundTrip(n);
  }
}
