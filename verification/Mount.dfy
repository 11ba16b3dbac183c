/** Unmounting saves the index to five files; mounting loads it from them and recomputes
    the append counter from the length of the master file. */
module Mount {
  import opened MasterFile
  import opened Volumes
  import opened ByteStream
  import opened Codec
  import opened Tables
  import opened SharedTables
  import opened Persistence

  datatype Files = Files(hashes: seq<Byte>, blocks: seq<Byte>, infos: seq<Byte>, sizes: seq<Byte>, free: seq<Byte>)

  /** The orders in which the three hash tables happen to be iterated. */
  datatype Orders = Orders(hashes: seq<Digest>, blocks: seq<Key>, sizes: seq<Path>)

  ghost predicate OrdersOf(o: Orders, v: Volume) {
    Enumerates(o.hashes, v.byHash.Keys) && Enumerates(o.blocks, v.byBlock.Keys) && Enumerates(o.sizes, v.sizes.Keys)
  }

  function DerefIn(v: Volume): Ref -> Info { (r: Ref) => Deref(v, r) }

  /** The MasterInfo objects in the order in which they are saved. */
  ghost function ValuesOf(v: Volume, o: Orders): (vs: seq<Ref>)
    requires OrdersOf(o, v)
    ensures Distinct(vs)
    ensures forall h :: h in v.byHash ==> v.byHash[h] in vs
    ensures forall k :: k in v.byBlock ==> v.byBlock[k] in vs
  {
    AllCollected(v.byHash, o.hashes, v.byBlock, o.blocks);
    Collect(Targets(v.byHash, o.hashes) + Targets(v.byBlock, o.blocks))
  }

  ghost function Save(v: Volume, o: Orders): Files
    requires OrdersOf(o, v)
  {
    var vs := ValuesOf(v, o);
    Files(TableFile(v.byHash, o.hashes, vs, EncodeHash), TableFile(v.byBlock, o.blocks, vs, EncodeBlockIndice),
          Saved(ElemPut(EncodeInfo), Objects(DerefIn(v), vs)),
          Saved(PairPut(EncodeStr, EncodeWord), Entries(v.sizes, o.sizes)), Saved(ElemPut(EncodeWord), v.free))
  }

  function Heap(values: seq<Info>): map<Ref, Info> {
    map r: Ref | r < |values| :: values[r]
  }

  /** The entries read from the five files. */
  datatype Parts = Parts(values: seq<Info>, hashes: seq<(Digest, nat)>, blocks: seq<(Key, nat)>,
      sizes: seq<(Path, nat)>, free: seq<nat>)

  /** All entries that are whole. */
  function Parse(f: Files): Parts {
    Parts(Loaded(ElemGet(DecodeInfo), f.infos), Loaded(PairGet(DecodeHash, DecodeWord), f.hashes),
          Loaded(PairGet(DecodeBlockIndice, DecodeWord), f.blocks), Loaded(PairGet(DecodeStr, DecodeSize), f.sizes),
          Loaded(ElemGet(DecodeWord), f.free))
  }

  /** Of each file only some first entries. */
  ghost predicate FirstOf(p: Parts, q: Parts) {
    p.values <= q.values && p.hashes <= q.hashes && p.blocks <= q.blocks && p.sizes <= q.sizes && p.free <= q.free
  }

  /** What is mounted: the loaded objects get new addresses, and the append counter is
      recomputed. */
  function Assemble(p: Parts, master: seq<Byte>): Volume {
    var n := |p.values|;
    Volume(Heap(p.values), n, Attached(MapOf(p.hashes), n), Attached(MapOf(p.blocks), n), MapOf(p.sizes), p.free,
           |master| / BLOCK_SIZE, master)
  }

  function Load(f: Files, master: seq<Byte>): Volume { Assemble(Parse(f), master) }

  // ---- index_destroy, index_init, xmp_init ----

  /** Unless a buffer overruns, each file is a beginning of what it should be, and all of
      it if the devices take every flush in full. */
  method IndexDestroy(v: Volume, o: Orders, bufferSize: nat, devices: nat -> nat -> int)
    returns (f: Files, overrun: bool)
    requires bufferSize > 0 && OrdersOf(o, v)
    ensures !overrun ==> CutShort(f, Save(v, o))
    ensures (forall i :: TakesAll(devices(i), bufferSize)) ==> !overrun && f == Save(v, o)
  {
    hide Saved, Collect, TableFile, Enumerates, TakesAll;
    var hashes, blocks, infos;
    var sizes, free := [], [];
    hashes, blocks, infos, overrun := GhashSaveIndexedPair(v.byHash, o.hashes, v.byBlock, o.blocks, DerefIn(v),
                                                          EncodeHash, EncodeBlockIndice, EncodeInfo, bufferSize,
                                                              devices);
    if !overrun {
      sizes, overrun := GhashSave(v.sizes, o.sizes, EncodeStr, EncodeWord, bufferSize, devices(3));
    }
    if !overrun {
      free, overrun := GslistSave(v.free, EncodeWord, bufferSize, devices(4));
    }
    f := Files(hashes, blocks, infos, sizes, free);
  }

  /** Whatever the devices do, what is mounted comes from some first entries of each file,
      and from all of them if every pread delivers something. */
  method XmpInit(f: Files, master: seq<Byte>, bufferSize: nat, devices: nat -> nat -> int)
    returns (v: Volume, ghost p: Parts)
    requires bufferSize > 0
    ensures v == Assemble(p, master) && FirstOf(p, Parse(f))
    ensures (forall i :: Answers(devices(i))) ==> v == Load(f, master)
  {
    hide Loaded, Attached, MapOf, Answers;
    var byHash, byBlock, values, sizes, free;
    ghost var es1, es2, es3;
    byHash, byBlock, values, es1, es2 :=
      GhashLoadIndexedPair(f.hashes, f.blocks, f.infos, DecodeHash, DecodeBlockIndice, DecodeInfo, bufferSize, devices);
    sizes, es3 := GhashLoad(f.sizes, DecodeStr, DecodeSize, bufferSize, devices(3));
    free := GslistLoad(f.free, DecodeWord, bufferSize, devices(4));
    p := Parts(values, es1, es2, es3, free);
    v := Volume(Heap(values), |values|, byHash, byBlock, sizes, free, |master| / BLOCK_SIZE, master);
  }

  // ---- What survives ----

  /** Every number fits the field it is saved in. */
  ghost predicate Fits(v: Volume, o: Orders)
    requires OrdersOf(o, v)
  {
    && |o.hashes| < INT_LIMIT && |o.blocks| < INT_LIMIT && |o.sizes| < INT_LIMIT && |v.free| < INT_LIMIT
    && |ValuesOf(v, o)| < INT_LIMIT
    && (forall r :: r in ValuesOf(v, o) ==> InfoFits(Deref(v, r)))
    && (forall k :: k in v.byBlock ==> KeyFits(k))
    && (forall p :: p in v.sizes ==> v.sizes[p] < Pow256(WORD) && |p| + 1 < INT_LIMIT)
    && (forall q :: q in v.free ==> q < Pow256(WORD))
  }

  /** Files of which only a beginning is left. */
  ghost predicate CutShort(f: Files, g: Files) {
    f.hashes <= g.hashes && f.blocks <= g.blocks && f.infos <= g.infos && f.sizes <= g.sizes && f.free <= g.free
  }

  /** The table t' has no binding that t has not, each to a copy of the object. */
  ghost predicate Copies<K(!new)>(v: Volume, t: map<K, Ref>, v': Volume, t': map<K, Ref>) {
    forall k :: k in t' ==> k in t && t'[k] in v'.infos && v'.infos[t'[k]] == Deref(v, t[k])
  }

  /** Two keys share an object in the new tables exactly when they did in the old ones. */
  ghost predicate SharesAlike<K(!new), L(!new)>(t: map<K, Ref>, t': map<K, Ref>, u: map<L, Ref>, u': map<L, Ref>) {
    forall k, l :: k in t' && k in t && l in u' && l in u ==> (t'[k] == u'[l] <==> t[k] == u[l])
  }

  ghost predicate PartOf(v': Volume, v: Volume) {
    && Copies(v, v.byHash, v', v'.byHash) && Copies(v, v.byBlock, v', v'.byBlock)
    && SharesAlike(v.byHash, v'.byHash, v.byHash, v'.byHash)
    && SharesAlike(v.byBlock, v'.byBlock, v.byBlock, v'.byBlock)
    && SharesAlike(v.byHash, v'.byHash, v.byBlock, v'.byBlock)
    && (forall p :: p in v'.sizes ==> p in v.sizes && v'.sizes[p] == v.sizes[p])
    && v'.free <= v.free
  }

  /** The same index, up to the addresses of its objects. */
  ghost predicate SameIndex(v': Volume, v: Volume) {
    PartOf(v', v) && v'.byHash.Keys == v.byHash.Keys && v'.byBlock.Keys == v.byBlock.Keys && v'.sizes == v.sizes &&
           v'.free == v.free
  }

  lemma CodecsDecode()
    ensures forall d: Digest :: Decodes(EncodeHash, DecodeHash, d)
    ensures forall k :: KeyFits(k) ==> Decodes(EncodeBlockIndice, DecodeBlockIndice, k)
    ensures forall i :: InfoFits(i) ==> Decodes(EncodeInfo, DecodeInfo, i)
    ensures forall n: nat ::
              n < Pow256(WORD) ==> Decodes(EncodeWord, DecodeWord, n) && Decodes(EncodeWord, DecodeSize, n)
    ensures forall p: Path :: |p| + 1 < INT_LIMIT ==> Decodes(EncodeStr, DecodeStr, p)
  {
    hide DecodeInfo, EncodeInfo, DecodeBlockIndice, EncodeBlockIndice, DecodeWord, EncodeWord, DecodeStr, DecodeSize,
         Pow256;
    Widths();
    forall k | KeyFits(k) ensures Decodes(EncodeBlockIndice, DecodeBlockIndice, k) {
      KeyRoundTrip(k);
      KeyBytes(k);
    }
    forall i | InfoFits(i) ensures Decodes(EncodeInfo, DecodeInfo, i) {
      InfoRoundTrip(i);
      InfoBytes(i);
    }
    forall n: nat | n < Pow256(WORD) ensures Decodes(EncodeWord, DecodeWord, n) && Decodes(EncodeWord, DecodeSize, n) {
      WordRoundTrip(n);
      WordBytes(n);
    }
    forall p: Path | |p| + 1 < INT_LIMIT ensures Decodes(EncodeStr, DecodeStr, p) {
      StrRoundTrip(p);
    }
  }

  lemma KeyBytes(k: Key) ensures |EncodeBlockIndice(k)| == |k.path| + 13 {}
  lemma InfoBytes(i: Info) ensures |EncodeInfo(i)| == INFO_SIZE {}
  lemma WordBytes(n: nat) ensures |EncodeWord(n)| == WORD {}

  /** The entries that an unmount saves. */
  ghost function SavedParts(v: Volume, o: Orders): Parts
    requires OrdersOf(o, v)
  {
    var vs := ValuesOf(v, o);
    Parts(Objects(DerefIn(v), vs), Entries(Numbered(v.byHash, vs), o.hashes),
          Entries(Numbered(v.byBlock, vs), o.blocks),
          Entries(v.sizes, o.sizes), v.free)
  }

  /** What is read from files of which any tails are missing is some first entries of
      what was saved; from whole files it is all of them. */
  lemma CutFilesParse(v: Volume, o: Orders, f: Files)
    requires OrdersOf(o, v) && Fits(v, o) && CutShort(f, Save(v, o))
    ensures FirstOf(Parse(f), SavedParts(v, o))
    ensures f == Save(v, o) ==> Parse(f) == SavedParts(v, o)
  {
    hide Loaded, Saved, IndexOf, Decodes, ValuesOf, InfoFits, KeyFits, Pow256, Entries, Enumerates;
    var vs := ValuesOf(v, o);
    CodecsDecode();
    Widths();
    ValuesCover(v, o);
    EnumerationIn(o.hashes, v.byHash);
    EnumerationIn(o.blocks, v.byBlock);
    EnumerationIn(o.sizes, v.sizes);
    CutList(EncodeInfo, DecodeInfo, Objects(DerefIn(v), vs), f.infos);
    CutList(EncodeWord, DecodeWord, v.free, f.free);
    CutNumbers(v.byHash, o.hashes, vs, EncodeHash, DecodeHash, f.hashes);
    CutNumbers(v.byBlock, o.blocks, vs, EncodeBlockIndice, DecodeBlockIndice, f.blocks);
    CutSizes(v, o, f.sizes);
  }

  lemma CutNumbers<K(!new)>(t: map<K, Ref>, o: seq<K>, vs: seq<Ref>, ek: K -> seq<Byte>, dk: seq<Byte> -> Option<K>,
                            file: seq<Byte>)
    requires Enumerates(o, t.Keys) && (forall k :: k in t ==> t[k] in vs && Decodes(ek, dk, k))
    requires |o| < INT_LIMIT && |vs| < Pow256(WORD) && file <= TableFile(t, o, vs, ek)
    ensures var es := Entries(Numbered(t, vs), o);
            && Loaded(PairGet(dk, DecodeWord), file) <= es
            && (file == TableFile(t, o, vs, ek) ==> Loaded(PairGet(dk, DecodeWord), file) == es)
  {
    hide Loaded, Saved, IndexOf, Decodes, Pow256, Entries;
    var es := Entries(Numbered(t, vs), o);
    EntriesSize(Numbered(t, vs), o);
    forall e | e in es ensures Decodes(ek, dk, e.0) && Decodes(EncodeWord, DecodeWord, e.1) {
      NumbersDecode(t, o, vs, ek, dk, e);
    }
    CutPairs(ek, dk, EncodeWord, DecodeWord, es, file);
  }

  lemma CutSizes(v: Volume, o: Orders, file: seq<Byte>)
    requires OrdersOf(o, v) && Fits(v, o) && file <= Saved(PairPut(EncodeStr, EncodeWord), Entries(v.sizes, o.sizes))
    ensures var es := Entries(v.sizes, o.sizes);
            && Loaded(PairGet(DecodeStr, DecodeSize), file) <= es
            && (file == Saved(PairPut(EncodeStr, EncodeWord), es) ==>
                  Loaded(PairGet(DecodeStr, DecodeSize), file) == es)
  {
    hide Loaded, Saved, Decodes, ValuesOf, InfoFits, KeyFits, Pow256;
    CodecsDecode();
    CutPairs(EncodeStr, DecodeStr, EncodeWord, DecodeSize, Entries(v.sizes, o.sizes), file);
  }

  /** The tables of a mount from some first entries, in terms of the saving order. */
  lemma MountedTables(v: Volume, o: Orders, p: Parts, master: seq<Byte>)
    requires OrdersOf(o, v) && FirstOf(p, SavedParts(v, o))
    ensures var v', vs := Assemble(p, master), ValuesOf(v, o);
            && v'.nextRef <= |vs| && (forall r: Ref :: r in v'.infos <==> r < v'.nextRef)
            && (forall r: Ref :: r < v'.nextRef ==> v'.infos[r] == Deref(v, vs[r]))
            && (forall h :: h in v'.byHash ==> h in v.byHash && v'.byHash[h] == IndexOf(vs, v.byHash[h]) < v'.nextRef)
            && (forall k ::
                  k in v'.byBlock ==> k in v.byBlock && v'.byBlock[k] == IndexOf(vs, v.byBlock[k]) < v'.nextRef)
            && (p == SavedParts(v, o) ==>
                  v'.byHash.Keys == v.byHash.Keys && v'.byBlock.Keys == v.byBlock.Keys && v'.nextRef == |vs|)
  {
    hide MapOf, Attached, Enumerates, IndexOf, ValuesOf, Entries;
    ValuesCover(v, o);
    FirstBindings(v.byHash, o.hashes, ValuesOf(v, o), p.hashes, |p.values|);
    FirstBindings(v.byBlock, o.blocks, ValuesOf(v, o), p.blocks, |p.values|);
  }

  lemma ValuesCover(v: Volume, o: Orders)
    requires OrdersOf(o, v)
    ensures Distinct(ValuesOf(v, o))
    ensures forall h :: h in v.byHash ==> v.byHash[h] in ValuesOf(v, o)
    ensures forall k :: k in v.byBlock ==> v.byBlock[k] in ValuesOf(v, o)
  {
  }

  /** Mounting some first entries of each file gives only bindings that were saved, each
      to its own object, and never splits or merges objects. */
  lemma FirstPartsMount(v: Volume, o: Orders, p: Parts, master: seq<Byte>)
    requires OrdersOf(o, v) && FirstOf(p, SavedParts(v, o))
    ensures PartOf(Assemble(p, master), v)
    ensures p == SavedParts(v, o) ==> SameIndex(Assemble(p, master), v)
  {
    hide Assemble, SavedParts, OrdersOf, IndexOf, ValuesOf, FirstOf, SharesAlike, Copies;
    var v', vs := Assemble(p, master), ValuesOf(v, o);
    MountedTables(v, o, p, master);
    ValuesCover(v, o);
    MountedRest(v, o, p, master);
    SharedAlike(vs, v.byHash, v'.byHash, v.byHash, v'.byHash);
    SharedAlike(vs, v.byBlock, v'.byBlock, v.byBlock, v'.byBlock);
    SharedAlike(vs, v.byHash, v'.byHash, v.byBlock, v'.byBlock);
    Copied(vs, v, v.byHash, v', v'.byHash);
    Copied(vs, v, v.byBlock, v', v'.byBlock);
  }

  lemma FirstOfFirst(p: Parts, q: Parts, r: Parts)
    requires FirstOf(p, q) && FirstOf(q, r)
    ensures FirstOf(p, r)
  {
  }

  /** So for files of which any tails are missing, read over a device whose preads may
      fail: every binding mounted was saved. */
  lemma CutFilesLoadPart(v: Volume, o: Orders, f: Files, p: Parts, master: seq<Byte>)
    requires OrdersOf(o, v) && Fits(v, o) && CutShort(f, Save(v, o)) && FirstOf(p, Parse(f))
    ensures PartOf(Assemble(p, master), v)
    ensures f == Save(v, o) && p == Parse(f) ==> SameIndex(Assemble(p, master), v)
  {
    hide Assemble, SavedParts, Save, Parse, Fits, OrdersOf, FirstOf, CutShort, PartOf, SameIndex;
    CutFilesParse(v, o, f);
    FirstOfFirst(p, Parse(f), SavedParts(v, o));
    FirstPartsMount(v, o, p, master);
  }

  lemma Copied<K(!new)>(vs: seq<Ref>, v: Volume, t: map<K, Ref>, v': Volume, t': map<K, Ref>)
    requires v'.nextRef <= |vs| && (forall r: Ref :: r in v'.infos <==> r < v'.nextRef)
    requires forall r: Ref :: r < v'.nextRef ==> v'.infos[r] == Deref(v, vs[r])
    requires forall k :: k in t' ==> k in t && t[k] in vs && t'[k] == IndexOf(vs, t[k]) < v'.nextRef
    ensures Copies(v, t, v', t')
  {
    hide IndexOf, Deref;
    forall k | k in t' ensures t'[k] in v'.infos && v'.infos[t'[k]] == Deref(v, t[k]) {
      IndexInside(vs, t[k]);
    }
  }

  lemma MountedRest(v: Volume, o: Orders, p: Parts, master: seq<Byte>)
    requires OrdersOf(o, v) && FirstOf(p, SavedParts(v, o))
    ensures var v' := Assemble(p, master);
            && (forall q :: q in v'.sizes ==> q in v.sizes && v'.sizes[q] == v.sizes[q])
            && v'.free <= v.free && (p == SavedParts(v, o) ==> v'.sizes == v.sizes && v'.free == v.free)
  {
    hide MapOf, Attached, Enumerates, ValuesOf, Entries, Heap;
    FirstEntries(v.sizes, o.sizes, p.sizes);
  }

  lemma SharedAlike<K(!new), L(!new)>(vs: seq<Ref>, t: map<K, Ref>, t': map<K, Ref>, u: map<L, Ref>, u': map<L, Ref>)
    requires forall k :: k in t' ==> k in t && t[k] in vs && t'[k] == IndexOf(vs, t[k])
    requires forall l :: l in u' ==> l in u && u[l] in vs && u'[l] == IndexOf(vs, u[l])
    ensures SharesAlike(t, t', u, u')
  {
    hide IndexOf;
    forall k, l | k in t' && l in u' ensures t'[k] == u'[l] <==> t[k] == u[l] {
      IndexInside(vs, t[k]);
      IndexInside(vs, u[l]);
    }
  }

  /** Unmount then mount: the same index, whatever the iteration orders. */
  lemma RemountSame(v: Volume, o: Orders)
    requires OrdersOf(o, v) && Fits(v, o)
    ensures SameIndex(Load(Save(v, o), v.master), v)
  {
    hide Save, Parse, Assemble, SameIndex, PartOf, Fits, OrdersOf;
    CutFilesLoadPart(v, o, Save(v, o), Parse(Save(v, o)), v.master);
  }
}
