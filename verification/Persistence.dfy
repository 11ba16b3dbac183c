/** The savers and loaders as the loops over a buffered stream that they are. Every one
    works for any buffer size, and every loader for any pattern of short reads. */
module Persistence {
  import opened MasterFile
  import opened Volumes
  import opened ByteStream
  import opened Codec
  import opened Tables
  import opened SharedTables

  /** Every saver reports an overrun of the buffer, after which nothing is promised. */
  method WriteElem(io: BufferedIO, b: seq<Byte>) returns (overrun: bool)
    requires io.Writing()
    modifies io, io.buffer
    ensures io.Writing() && (!overrun ==> io.Written() == old(io.Written()) + Elem(b))
    ensures TakesAll(io.device, io.buffer.Length) ==> !overrun
  {
    hide LE, BufferedIO.Writing, BufferedIO.Written, TakesAll, StaysInBuffer;
    overrun := io.Write(LE(|b|, WORD));
    if !overrun {
      overrun := io.Write(b);
    }
  }

  method ReadElem<T>(io: BufferedIO, dec: seq<Byte> -> Option<T>) returns (x: Option<T>)
    requires io.Reading()
    modifies io, io.buffer
    ensures io.Reading()
    ensures x.Some? || Answers(io.device) ==> (x, io.Rest()) == GetElem(dec, old(io.Rest()))
  {
    hide BufferedIO.Reading, BufferedIO.Rest;
    var ok, len := io.Read(WORD);
    if !ok {
      return None;
    }
    var ok2, b := io.Read(FromLE(len));
    if !ok2 {
      return None;
    }
    x := dec(b);
  }

  /** The flush that ends a file. If it is short, the end of the file is missing. */
  method FinishFile(io: BufferedIO) returns (file: seq<Byte>)
    requires io.Writing()
    modifies io, io.buffer
    ensures file <= old(io.Written()) && (TakesAll(io.device, io.buffer.Length) ==> file == old(io.Written()))
  {
    io.Flush();
    file := io.file;
  }

  method SaveElems<T>(io: BufferedIO, list: seq<T>, enc: T -> seq<Byte>) returns (overrun: bool)
    requires io.Writing()
    modifies io, io.buffer
    ensures io.Writing()
    ensures !overrun ==> io.Written() == old(io.Written()) + PutAll(ElemPut(enc), list)
    ensures TakesAll(io.device, io.buffer.Length) ==> !overrun
  {
    hide PutAll, Elem, BufferedIO.Writing, BufferedIO.Written, TakesAll, ElemPut;
    PutNone(ElemPut(enc));
    for i := 0 to |list|
      invariant io.Writing() && io.Written() == old(io.Written()) + PutAll(ElemPut(enc), list[..i])
    {
      overrun := WriteElem(io, enc(list[i]));
      if overrun {
        return;
      }
      PutElem(list, enc, i);
    }
    overrun := false;
    assert list[..|list|] == list;
  }

  lemma PutElem<T>(list: seq<T>, enc: T -> seq<Byte>, i: nat)
    requires i < |list|
    ensures PutAll(ElemPut(enc), list[..i + 1]) == PutAll(ElemPut(enc), list[..i]) + Elem(enc(list[i]))
  {
    hide PutAll, Elem;
    PutAllSnoc(ElemPut(enc), list[..i], list[i]);
    assert list[..i + 1] == list[..i] + [list[i]];
  }

  /** gslist_save, and save_values_array, which writes the same format. */
  method GslistSave<T>(list: seq<T>, enc: T -> seq<Byte>, bufferSize: nat, device: nat -> int)
    returns (file: seq<Byte>, overrun: bool)
    requires bufferSize > 0
    ensures !overrun ==> file <= Saved(ElemPut(enc), list)
    ensures TakesAll(device, bufferSize) ==> !overrun && file == Saved(ElemPut(enc), list)
  {
    hide PutAll, LE, BufferedIO.Writing, BufferedIO.Written, TakesAll, StaysInBuffer, ElemPut, Saved;
    var io := new BufferedIO([], bufferSize, device);
    overrun := io.Write(LE(|list|, INT));
    if overrun {
      return io.file, overrun;
    }
    overrun := SaveElems(io, list, enc);
    if overrun {
      return io.file, overrun;
    }
    ElemsFileIs(list, enc);
    file := FinishFile(io);
  }

  lemma ElemsFileIs<T>(list: seq<T>, enc: T -> seq<Byte>)
    ensures [] + LE(|list|, INT) + PutAll(ElemPut(enc), list) == Saved(ElemPut(enc), list)
  {
    hide PutAll, LE;
    assert [] + LE(|list|, INT) == LE(|list|, INT);
  }

  lemma PutNone<T>(put: T -> seq<Byte>)
    ensures PutAll(put, []) == []
  {
  }

  /** gslist_load, and load_values_array. Elements are appended, so the order is kept; a
      failed pread ends the list early. */
  method GslistLoad<T>(file: seq<Byte>, dec: seq<Byte> -> Option<T>, bufferSize: nat, device: nat -> int)
    returns (list: seq<T>)
    requires bufferSize > 0
    ensures list <= Loaded(ElemGet(dec), file)
    ensures Answers(device) ==> list == Loaded(ElemGet(dec), file)
  {
    hide GetAll, IntOf, GetElem, Answers, BufferedIO.Reading, BufferedIO.Rest;
    var io := new BufferedIO(file, bufferSize, device);
    list := [];
    var ok, count := io.Read(INT);
    if !ok {
      return;
    }
    var n := IntOf(count);
    var i := 0;
    ghost var body := io.Rest();
    while i < n
      invariant io.Reading() && fresh(io) && fresh(io.buffer)
      invariant GetAll(ElemGet(dec), body, n) == list + GetAll(ElemGet(dec), io.Rest(), n - i)
    {
      ghost var rest := io.Rest();
      GetOne(ElemGet(dec), rest, n - i);
      var x := ReadElem(io, dec);
      if x.None? {
        return;
      }
      assert (x, io.Rest()) == ElemGet(dec)(rest);
      list := list + [x.value];
      i := i + 1;
    }
    GetOne(ElemGet(dec), io.Rest(), n - i);
  }

  lemma GetOne<T>(get: seq<Byte> -> (Option<T>, seq<Byte>), s: seq<Byte>, n: int)
    ensures GetAll(get, s, n) ==
              if n <= 0 || get(s).0.None? then [] else [get(s).0.value] + GetAll(get, get(s).1, n - 1)
  {
  }

  method SaveEntry(io: BufferedIO, key: seq<Byte>, value: seq<Byte>) returns (overrun: bool)
    requires io.Writing()
    modifies io, io.buffer
    ensures io.Writing() && (!overrun ==> io.Written() == old(io.Written()) + (Elem(key) + Elem(value)))
    ensures TakesAll(io.device, io.buffer.Length) ==> !overrun
  {
    hide Elem, BufferedIO.Writing, BufferedIO.Written, TakesAll;
    overrun := WriteElem(io, key);
    if !overrun {
      overrun := WriteElem(io, value);
    }
  }

  /** The foreach of ghash_save with save_entry. */
  method SaveEntries<K, V>(io: BufferedIO, table: map<K, V>, order: seq<K>, ek: K -> seq<Byte>, ev: V -> seq<Byte>)
    returns (overrun: bool)
    requires io.Writing() && forall k :: k in order ==> k in table
    modifies io, io.buffer
    ensures io.Writing()
    ensures !overrun ==> io.Written() == old(io.Written()) + PutAll(PairPut(ek, ev), Entries(table, order))
    ensures TakesAll(io.device, io.buffer.Length) ==> !overrun
  {
    hide PutAll, Elem, BufferedIO.Writing, BufferedIO.Written, TakesAll, PairPut, Entries;
    ghost var put, es := PairPut(ek, ev), Entries(table, order);
    PutNone(put);
    for i := 0 to |order|
      invariant io.Writing() && io.Written() == old(io.Written()) + PutAll(put, es[..i])
    {
      overrun := SaveEntry(io, ek(order[i]), ev(table[order[i]]));
      if overrun {
        return;
      }
      PutEntry(table, order, ek, ev, i);
    }
    overrun := false;
    assert es[..|order|] == es;
  }

  /** ghash_save, for a table iterated in the given order. */
  method GhashSave<K(!new), V>(table: map<K, V>, order: seq<K>, ek: K -> seq<Byte>, ev: V -> seq<Byte>, bufferSize: nat,
                               device: nat -> int)
    returns (file: seq<Byte>, overrun: bool)
    requires bufferSize > 0 && Enumerates(order, table.Keys)
    ensures !overrun ==> file <= Saved(PairPut(ek, ev), Entries(table, order))
    ensures TakesAll(device, bufferSize) ==> !overrun && file == Saved(PairPut(ek, ev), Entries(table, order))
  {
    hide PutAll, LE, BufferedIO.Writing, BufferedIO.Written, TakesAll, StaysInBuffer, Distinct, Enumerates, PairPut,
         Entries, Saved;
    EnumerationIn(order, table);
    var io := new BufferedIO([], bufferSize, device);
    overrun := io.Write(LE(|table|, INT));
    if overrun {
      return io.file, overrun;
    }
    overrun := SaveEntries(io, table, order, ek, ev);
    if overrun {
      return io.file, overrun;
    }
    EntriesFileIs(table, order, ek, ev);
    file := FinishFile(io);
  }

  lemma EntriesFileIs<K(!new), V>(table: map<K, V>, order: seq<K>, ek: K -> seq<Byte>, ev: V -> seq<Byte>)
    requires Enumerates(order, table.Keys)
    ensures var es := Entries(table, order);
            [] + LE(|table|, INT) + PutAll(PairPut(ek, ev), es) == Saved(PairPut(ek, ev), es)
  {
    hide PutAll, LE, PairPut;
    EnumerationSize(order, table.Keys);
    assert [] + LE(|table|, INT) == LE(|table|, INT);
  }

  lemma EnumerationIn<K(!new), V>(order: seq<K>, table: map<K, V>)
    requires Enumerates(order, table.Keys)
    ensures (forall k :: k in order ==> k in table) && |Entries(table, order)| == |order|
  {
  }

  lemma PutEntry<K, V>(table: map<K, V>, order: seq<K>, ek: K -> seq<Byte>, ev: V -> seq<Byte>, i: nat)
    requires (forall k :: k in order ==> k in table) && i < |order|
    ensures var put, es := PairPut(ek, ev), Entries(table, order);
            PutAll(put, es[..i + 1]) == PutAll(put, es[..i]) + (Elem(ek(order[i])) + Elem(ev(table[order[i]])))
  {
    hide PutAll, Elem;
    var put, es := PairPut(ek, ev), Entries(table, order);
    PutAllSnoc(put, es[..i], es[i]);
    assert es[..i + 1] == es[..i] + [es[i]];
  }

  /** ghash_load. The entries it inserts are the first ones of the file, all that are
      whole unless a pread fails. */
  method GhashLoad<K(==), V>(file: seq<Byte>, dk: seq<Byte> -> Option<K>, dv: seq<Byte> -> Option<V>, bufferSize: nat,
                             device: nat -> int)
    returns (table: map<K, V>, ghost es: seq<(K, V)>)
    requires bufferSize > 0
    ensures table == MapOf(es) && es <= Loaded(PairGet(dk, dv), file)
    ensures Answers(device) ==> es == Loaded(PairGet(dk, dv), file)
  {
    hide GetAll, IntOf, GetElem, MapOf, Answers, BufferedIO.Reading, BufferedIO.Rest;
    var io := new BufferedIO(file, bufferSize, device);
    es, table := [], map[];
    NoEntries<K, V>();
    var ok, count := io.Read(INT);
    if !ok {
      return;
    }
    var n := IntOf(count);
    var i := 0;
    ghost var body := io.Rest();
    while i < n
      invariant io.Reading() && fresh(io) && fresh(io.buffer) && table == MapOf(es)
      invariant GetAll(PairGet(dk, dv), body, n) == es + GetAll(PairGet(dk, dv), io.Rest(), n - i)
    {
      ghost var rest := io.Rest();
      GetOne(PairGet(dk, dv), rest, n - i);
      var key := ReadElem(io, dk);
      var val := ReadElem(io, dv);
      if key.None? || val.None? {
        assert Answers(device) ==> GetAll(PairGet(dk, dv), body, n) == es;
        return;
      }
      table := table[key.value := val.value];
      OneEntry(es, key.value, val.value);
      es := es + [(key.value, val.value)];
      i := i + 1;
    }
    GetOne(PairGet(dk, dv), io.Rest(), n - i);
    assert GetAll(PairGet(dk, dv), body, n) == es;
  }

  lemma NoEntries<K, V>()
    ensures MapOf<K, V>([]) == map[]
  {
  }

  lemma OneEntry<K, V>(es: seq<(K, V)>, k: K, x: V)
    ensures MapOf(es + [(k, x)]) == MapOf(es)[k := x]
  {
    assert (es + [(k, x)])[..|es|] == es;
  }

  /** get_or_create_value_index. */
  method GetOrCreateValueIndex(valueToIndex: map<Ref, nat>, values: seq<Ref>, value: Ref)
    returns (valueToIndex': map<Ref, nat>, values': seq<Ref>, idx: nat)
    requires Numbers(valueToIndex, values)
    ensures Numbers(valueToIndex', values') && idx < |values'| && values'[idx] == value
    ensures values' == if value in values then values else values + [value]
  {
    if value in valueToIndex {
      return valueToIndex, values, valueToIndex[value];
    }
    idx := |values|;
    values' := values + [value];
    valueToIndex' := valueToIndex[value := idx];
  }

  /** The hash table from objects to numbers agrees with the array of objects. */
  ghost predicate Numbers(valueToIndex: map<Ref, nat>, values: seq<Ref>) {
    && Distinct(values)
    && (forall r :: r in valueToIndex <==> r in values)
    && forall i :: 0 <= i < |values| ==> valueToIndex[values[i]] == i
  }

  lemma NumbersIsIndexOf(valueToIndex: map<Ref, nat>, values: seq<Ref>, r: Ref)
    requires Numbers(valueToIndex, values) && r in values
    ensures r in valueToIndex && valueToIndex[r] == IndexOf(values, r)
  {
    hide IndexOf;
    IndexInside(values, r);
  }

  method CollectValueIndex<K>(table: map<K, Ref>, order: seq<K>, valueToIndex: map<Ref, nat>, values: seq<Ref>,
                              ghost seen: seq<Ref>)
    returns (valueToIndex': map<Ref, nat>, values': seq<Ref>)
    requires Numbers(valueToIndex, values) && values == Collect(seen) && forall k :: k in order ==> k in table
    ensures Numbers(valueToIndex', values') && values' == Collect(seen + Targets(table, order))
  {
    hide Numbers, Collect, Targets;
    valueToIndex', values' := valueToIndex, values;
    ghost var refs := Targets(table, order);
    CollectStart(seen, table, order);
    for i := 0 to |order|
      invariant Numbers(valueToIndex', values') && values' == Collect(seen + refs[..i])
    {
      var idx;
      valueToIndex', values', idx := GetOrCreateValueIndex(valueToIndex', values', table[order[i]]);
      CollectNext(seen, table, order, i);
    }
  }

  lemma CollectStart<K>(seen: seq<Ref>, table: map<K, Ref>, order: seq<K>)
    requires forall k :: k in order ==> k in table
    ensures var refs := Targets(table, order); |refs| == |order| && seen + refs[..0] == seen && refs[..|order|] == refs
  {
  }

  lemma CollectNext<K>(seen: seq<Ref>, table: map<K, Ref>, order: seq<K>, i: nat)
    requires (forall k :: k in order ==> k in table) && i < |order|
    ensures var refs := Targets(table, order);
            var c := Collect(seen + refs[..i]);
            Collect(seen + refs[..i + 1]) == if table[order[i]] in c then c else c + [table[order[i]]]
  {
    hide Collect;
    var refs := Targets(table, order);
    assert seen + refs[..i + 1] == seen + refs[..i] + [refs[i]];
    CollectOne(seen + refs[..i], refs[i]);
  }

  lemma CollectOne(s: seq<Ref>, r: Ref)
    ensures Collect(s + [r]) == if r in Collect(s) then Collect(s) else Collect(s) + [r]
  {
    assert (s + [r])[..|s|] == s;
  }

  /** The foreach over one table with save_indexed_entry. */
  method SaveIndexedEntries<K>(io: BufferedIO, table: map<K, Ref>, order: seq<K>, valueToIndex: map<Ref, nat>,
                               ghost num: map<K, nat>,
                               ek: K -> seq<Byte>, ew: nat -> seq<Byte>) returns (overrun: bool)
    requires io.Writing() && num.Keys == table.Keys && forall k :: k in order ==> k in table
    requires forall k :: k in table ==> table[k] in valueToIndex && num[k] == valueToIndex[table[k]]
    modifies io, io.buffer
    ensures io.Writing()
    ensures !overrun ==> io.Written() == old(io.Written()) + PutAll(PairPut(ek, ew), Entries(num, order))
    ensures TakesAll(io.device, io.buffer.Length) ==> !overrun
  {
    hide PutAll, Elem, BufferedIO.Writing, BufferedIO.Written, TakesAll, PairPut, Entries;
    ghost var put, es := PairPut(ek, ew), Entries(num, order);
    PutNone(put);
    for i := 0 to |order|
      invariant io.Writing() && io.Written() == old(io.Written()) + PutAll(put, es[..i])
    {
      var r := table[order[i]];
      if r in valueToIndex {
        overrun := SaveEntry(io, ek(order[i]), ew(valueToIndex[r]));
        if overrun {
          return;
        }
      }
      PutEntry(num, order, ek, ew, i);
    }
    overrun := false;
    assert es[..|order|] == es;
  }

  /** One table of ghash_save_indexed_pair. */
  method SaveIndexedTable<K(!new)>(table: map<K, Ref>, order: seq<K>, valueToIndex: map<Ref, nat>,
                                   ghost values: seq<Ref>,
                                   ek: K -> seq<Byte>, bufferSize: nat, device: nat -> int)
                                     returns (file: seq<Byte>, overrun: bool)
    requires bufferSize > 0 && Enumerates(order, table.Keys) && Numbers(valueToIndex, values)
    requires forall k :: k in table ==> table[k] in values
    ensures !overrun ==> file <= TableFile(table, order, values, ek)
    ensures TakesAll(device, bufferSize) ==> !overrun && file == TableFile(table, order, values, ek)
  {
    hide PutAll, LE, BufferedIO.Writing, BufferedIO.Written, TakesAll, StaysInBuffer, Numbers, Numbered, Enumerates,
         PairPut, Entries, EncodeWord, TableFile, Distinct;
    ghost var num := Numbered(table, values);
    NumberedKeys(table, values, valueToIndex);
    EnumerationIn(order, num);
    var io := new BufferedIO([], bufferSize, device);
    overrun := io.Write(LE(|table|, INT));
    if overrun {
      return io.file, overrun;
    }
    overrun := SaveIndexedEntries(io, table, order, valueToIndex, num, ek, EncodeWord);
    if overrun {
      return io.file, overrun;
    }
    TableFileIs(table, order, values, ek);
    file := FinishFile(io);
  }

  lemma TableFileIs<K(!new)>(table: map<K, Ref>, order: seq<K>, values: seq<Ref>, ek: K -> seq<Byte>)
    requires Enumerates(order, table.Keys) && forall k :: k in table ==> table[k] in values
    ensures var num := Numbered(table, values);
            && num.Keys == table.Keys && (forall k :: k in order ==> k in num)
            && [] + LE(|table|, INT) + PutAll(PairPut(ek, EncodeWord), Entries(num, order)) ==
                 TableFile(table, order, values, ek)
  {
    hide PutAll, LE, IndexOf, PairPut;
    EnumerationSize(order, table.Keys);
    assert [] + LE(|table|, INT) == LE(|table|, INT);
  }

  lemma NumberedKeys<K(!new)>(table: map<K, Ref>, values: seq<Ref>, valueToIndex: map<Ref, nat>)
    requires Numbers(valueToIndex, values) && forall k :: k in table ==> table[k] in values
    ensures Numbered(table, values).Keys == table.Keys
    ensures forall k :: k in table ==> table[k] in valueToIndex && Numbered(table, values)[k] == valueToIndex[table[k]]
  {
    hide Numbers, IndexOf;
    forall k | k in table ensures table[k] in valueToIndex && IndexOf(values, table[k]) == valueToIndex[table[k]] {
      NumbersIsIndexOf(valueToIndex, values, table[k]);
    }
  }

  /** ghash_save_indexed_pair, with a device under each of the three files. */
  method GhashSaveIndexedPair<K1(!new), K2(!new), T>(
      table1: map<K1, Ref>, order1: seq<K1>, table2: map<K2, Ref>, order2: seq<K2>, deref: Ref -> T,
      e1: K1 -> seq<Byte>, e2: K2 -> seq<Byte>, ev: T -> seq<Byte>, bufferSize: nat, devices: nat -> nat -> int)
    returns (file1: seq<Byte>, file2: seq<Byte>, valuesFile: seq<Byte>, overrun: bool)
    requires bufferSize > 0 && Enumerates(order1, table1.Keys) && Enumerates(order2, table2.Keys)
    ensures var vs := Collect(Targets(table1, order1) + Targets(table2, order2));
            && (forall k :: k in table1 ==> table1[k] in vs) && (forall k :: k in table2 ==> table2[k] in vs)
            && (!overrun ==> file1 <= TableFile(table1, order1, vs, e1) && file2 <= TableFile(table2, order2, vs, e2)
                             && valuesFile <= Saved(ElemPut(ev), Objects(deref, vs)))
            && ((forall i :: TakesAll(devices(i), bufferSize)) ==>
                  !overrun && file1 == TableFile(table1, order1, vs, e1) && file2 == TableFile(table2, order2, vs, e2)
                  && valuesFile == Saved(ElemPut(ev), Objects(deref, vs)))
  {
    hide Collect, Numbers, Saved, TableFile, TakesAll;
    NothingCollected();
    var valueToIndex: map<Ref, nat>, values: seq<Ref> := map[], [];
    valueToIndex, values := CollectValueIndex(table1, order1, valueToIndex, values, []);
    assert [] + Targets(table1, order1) == Targets(table1, order1);
    valueToIndex, values := CollectValueIndex(table2, order2, valueToIndex, values, Targets(table1, order1));
    AllCollected(table1, order1, table2, order2);
    file1, file2 := [], [];
    valuesFile, overrun := GslistSave(Objects(deref, values), ev, bufferSize, devices(0));
    if !overrun {
      file1, overrun := SaveIndexedTable(table1, order1, valueToIndex, values, e1, bufferSize, devices(1));
    }
    if !overrun {
      file2, overrun := SaveIndexedTable(table2, order2, valueToIndex, values, e2, bufferSize, devices(2));
    }
  }

  function Objects<T>(deref: Ref -> T, vs: seq<Ref>): (xs: seq<T>)
    ensures |xs| == |vs| && forall i :: 0 <= i < |vs| ==> xs[i] == deref(vs[i])
  {
    seq(|vs|, i requires 0 <= i < |vs| => deref(vs[i]))
  }

  lemma NothingCollected()
    ensures Collect([]) == [] && Numbers(map[], [])
  {
  }

  lemma AllCollected<K1(!new), K2(!new)>(table1: map<K1, Ref>, order1: seq<K1>, table2: map<K2, Ref>, order2: seq<K2>)
    requires Enumerates(order1, table1.Keys) && Enumerates(order2, table2.Keys)
    ensures var vs := Collect(Targets(table1, order1) + Targets(table2, order2));
            (forall k :: k in table1 ==> table1[k] in vs) && (forall k :: k in table2 ==> table2[k] in vs)
  {
    var a, b := Targets(table1, order1), Targets(table2, order2);
    forall k | k in table1 ensures table1[k] in a + b {
      var i :| 0 <= i < |order1| && order1[i] == k;
      assert (a + b)[i] == table1[k];
    }
    forall k | k in table2 ensures table2[k] in a + b {
      var i :| 0 <= i < |order2| && order2[i] == k;
      assert (a + b)[|a| + i] == table2[k];
    }
  }

  /** Replacing the numbers by the loaded objects, the entries in any order. */
  method AttachValues<K(==, !new)>(idx: map<K, nat>, n: nat) returns (table: map<K, Ref>)
    ensures table == Attached(idx, n)
  {
    table := map[];
    var todo := idx.Keys;
    while todo != {}
      invariant todo <= idx.Keys && table == map k | k in idx && k !in todo && idx[k] < n :: idx[k]
      decreases |todo|
    {
      var key :| key in todo;
      if idx[key] < n {
        table := table[key := idx[key]];
      }
      todo := todo - {key};
    }
  }

  /** ghash_load_indexed_pair: the objects, and the tables with their places in that list. */
  method GhashLoadIndexedPair<K1(==, !new), K2(==, !new), T>(
      file1: seq<Byte>, file2: seq<Byte>, valuesFile: seq<Byte>, d1: seq<Byte> -> Option<K1>,
      d2: seq<Byte> -> Option<K2>, dv: seq<Byte> -> Option<T>, bufferSize: nat, devices: nat -> nat -> int)
    returns (table1: map<K1, Ref>, table2: map<K2, Ref>, values: seq<T>,
             ghost es1: seq<(K1, nat)>, ghost es2: seq<(K2, nat)>)
    requires bufferSize > 0
    ensures values <= Loaded(ElemGet(dv), valuesFile)
    ensures table1 == Attached(MapOf(es1), |values|) && es1 <= Loaded(PairGet(d1, DecodeWord), file1)
    ensures table2 == Attached(MapOf(es2), |values|) && es2 <= Loaded(PairGet(d2, DecodeWord), file2)
    ensures (forall i :: Answers(devices(i))) ==>
              && values == Loaded(ElemGet(dv), valuesFile)
              && es1 == Loaded(PairGet(d1, DecodeWord), file1) && es2 == Loaded(PairGet(d2, DecodeWord), file2)
  {
    hide Loaded, MapOf, Attached, Answers;
    values := GslistLoad(valuesFile, dv, bufferSize, devices(0));
    var idx1, idx2;
    idx1, es1 := GhashLoad(file1, d1, DecodeWord, bufferSize, devices(1));
    idx2, es2 := GhashLoad(file2, d2, DecodeWord, bufferSize, devices(2));
    table1 := AttachValues(idx1, |values|);
    table2 := AttachValues(idx2, |values|);
  }
}
