/** Batch removal, unlink and truncate. */
module Removals {
  import opened MasterFile
  import opened Volumes
  import opened Protocol
  import opened Safety
  import opened Refinement
  import opened Requests
  import opened Solo
  import opened Writes

  // ---- The batch is the loop ----

  lemma RemoveThenRelease(v: Volume, path: Path, blk: nat, rel: seq<nat>)
    ensures var (v1, rel1) := RemoveBlock(v, path, blk, rel);
            RemoveSingle(Release(v, rel), path, blk) == Release(v1, rel1)
  {
    var k := Key(path, blk);
    if k in v.byBlock {
      var slot := Deref(v, v.byBlock[k]).slot;
      assert [slot] + (rel + v.free) == ([slot] + rel) + v.free;
    }
    assert [] + (rel + v.free) == rel + v.free;
  }

  /** Removing a range in one batch gives exactly the state of removing its blocks one
      by one, free-list order included. */
  lemma {:induction false} BatchIsLoop(v: Volume, path: Path, from: nat, until: nat)
    ensures RemoveBatch(v, path, from, until) == RemoveEach(v, path, from, until)
    decreases until
  {
    hide RemoveSingle, RemoveBlock;
    if from >= until {
      assert [] + v.free == v.free;
    } else {
      BatchIsLoop(v, path, from, until - 1);
      var (v1, rel) := RemoveRange(v, path, from, until - 1);
      RemoveThenRelease(v1, path, until - 1, rel);
    }
  }

  // ---- A remover, phase by phase ----

  function RemoverAt(pc: PC, path: Path, pos: nat, stop: nat, after: After, rel: seq<nat>): Thread {
    Thread(pc, path, 0, [], [], [], pos, rel, stop, after)
  }

  lemma RemoveStep(H: Block -> Digest, U: iset<Block>, v0: Volume, v: Volume, path: Path, blk: nat, stop: nat,
                   after: After, rel: seq<nat>)
    requires Follows(H, U, v0, v, RemoverAt(Removing, path, blk, stop, after, rel)) && blk < stop
    ensures var (v', rel') := RemoveBlock(v, path, blk, rel);
            Follows(H, U, v0, v', RemoverAt(Removing, path, blk + 1, stop, after, rel')) &&
                    View(v') == View(v) - {Key(path, blk)}
  {
    hide Good, Extends, View, RemoveBlock;
    var th := RemoverAt(Removing, path, blk, stop, after, rel);
    SoloStep(H, U, v0, v, th, RemoveOne(0));
    StepViewRaw(H, U, Alone(v, th), RemoveOne(0));
  }

  lemma {:induction false} RemovePhase(H: Block -> Digest, U: iset<Block>, v: Volume, path: Path, from: nat, stop: nat,
                                       after: After, n: nat)
    requires Follows(H, U, v, v, RemoverAt(Removing, path, from, stop, after, [])) && (from <= n <= stop || n == from)
    ensures var (v', rel) := RemoveRange(v, path, from, n);
            && Follows(H, U, v, v', RemoverAt(Removing, path, n, stop, after, rel))
            && View(v') == View(v) - KeysOf(path, from, n - from) && v'.sizes == v.sizes && v'.next == v.next &&
               v'.master == v.master
    decreases n
  {
    hide Follows, View, RemoveBlock, KeysOf;
    if n == from {
      assert KeysOf(path, from, 0) == {};
      assert View(v) - {} == View(v);
    } else {
      RemovePhase(H, U, v, path, from, stop, after, n - 1);
      var (v1, rel1) := RemoveRange(v, path, from, n - 1);
      RemoveStep(H, U, v, v1, path, n - 1, stop, after, rel1);
      RemoveFrame(v1, path, n - 1, rel1);
      assert KeysOf(path, from, n - from) == KeysOf(path, from, n - 1 - from) + {Key(path, n - 1)};
      assert View(v) - KeysOf(path, from, n - 1 - from) - {Key(path, n - 1)} == View(v) - KeysOf(path, from, n - from);
    }
  }

  lemma RemoveFrame(v: Volume, path: Path, blk: nat, rel: seq<nat>)
    ensures var v' := RemoveBlock(v, path, blk, rel).0;
            v'.sizes == v.sizes && v'.next == v.next && v'.master == v.master
  {
  }

  lemma StartRemoving(H: Block -> Digest, U: iset<Block>, v: Volume, path: Path, after: After)
    requires Valid(H, U, v) && path in v.sizes
    requires after.Shrink? ==> after.size % BLOCK_SIZE == 0 && after.size < v.sizes[path]
    ensures var from := if after.Shrink? then RoundUp(after.size) else 0;
            Follows(H, U, v, v, RemoverAt(Removing, path, from, RoundUp(v.sizes[path]), after, []))
  {
    hide Good, Extends, View;
    SelfExtends(v);
    BeginRemoving(H, U, v, path, after);
    SoloAdvance(H, U, v, v,
                RemoverAt(Sized, path, if after.Shrink? then RoundUp(after.size) else 0, RoundUp(v.sizes[path]), after,
                []));
  }

  lemma BeginRemoving(H: Block -> Digest, U: iset<Block>, v: Volume, path: Path, after: After)
    requires Follows(H, U, v, v, IDLE) && path in v.sizes
    requires after.Shrink? ==> after.size % BLOCK_SIZE == 0 && after.size < v.sizes[path]
    ensures var from := if after.Shrink? then RoundUp(after.size) else 0;
            Follows(H, U, v, v, RemoverAt(Sized, path, from, RoundUp(v.sizes[path]), after, []))
  {
    hide Good, Extends, View;
    SoloStep(H, U, v, v, IDLE, if after.Shrink? then BeginTruncate(0, path, after.size) else BeginUnlink(0, path));
  }

  lemma EndRemoving(H: Block -> Digest, U: iset<Block>, v0: Volume, v: Volume, path: Path, pos: nat, stop: nat,
                    after: After, rel: seq<nat>)
    requires Follows(H, U, v0, v, RemoverAt(Removing, path, pos, stop, after, rel)) && pos >= stop
    ensures var v' := Resized(Release(v, rel), path, after); Valid(H, U, v') && View(v') == View(v)
  {
    hide Good, Extends, View, Resized;
    SoloAdvance(H, U, v0, v, RemoverAt(Removing, path, pos, stop, after, rel));
    SoloGiveBack(H, U, v0, v, RemoverAt(RemReleasing, path, pos, stop, after, rel));
    SoloResize(H, U, v0, Release(v, rel), RemoverAt(Resizing, path, pos, stop, after, []));
  }

  lemma RemoveKeepsRest(H: Block -> Digest, U: iset<Block>, v: Volume, path: Path, after: After)
    requires Valid(H, U, v) && path in v.sizes
    requires after.Shrink? ==> after.size % BLOCK_SIZE == 0 && after.size < v.sizes[path]
    ensures var from, stop := if after.Shrink? then RoundUp(after.size) else 0, RoundUp(v.sizes[path]);
            var v' := Resized(RemoveBatch(v, path, from, stop), path, after);
            from <= stop && Valid(H, U, v') && View(v') == View(v) - KeysOf(path, from, stop - from) &&
            v'.next == v.next && v'.master == v.master && v'.sizes == Resized(v, path, after).sizes
  {
    hide Valid, Follows, View, RemoveRange, KeysOf;
    var from, stop := if after.Shrink? then RoundUp(after.size) else 0, RoundUp(v.sizes[path]);
    StartRemoving(H, U, v, path, after);
    RemovePhase(H, U, v, path, from, stop, after, stop);
    var (v1, rel) := RemoveRange(v, path, from, stop);
    EndRemoving(H, U, v, v1, path, stop, stop, after, rel);
  }

  // ---- Sizes ----

  function SizeOf(sizes: map<Path, nat>, path: Path): nat { if path in sizes then sizes[path] else 0 }

  /** The sizes after a write that ends at `end`: no file shrinks, and only this one grows. */
  function SizesAfterWrite(sizes: map<Path, nat>, path: Path, end: nat): map<Path, nat> {
    sizes[path := Max(SizeOf(sizes, path), end)]
  }

  /** Every recorded size is whole blocks, and every mapped block of a file lies below
      the file's recorded size. */
  ghost predicate SizesFit(v: Volume) {
    && (forall p :: p in v.sizes ==> v.sizes[p] % BLOCK_SIZE == 0)
    && (forall k :: k in v.byBlock ==> k.path in v.sizes && (k.blk + 1) * BLOCK_SIZE <= v.sizes[k.path])
  }

  function Without(m: map<Key, seq<Byte>>, path: Path): map<Key, seq<Byte>> {
    map k | k in m && k.path != path :: m[k]
  }

  /** The file system with one file cut to its first n blocks. */
  function Prefix(m: map<Key, seq<Byte>>, path: Path, n: nat): map<Key, seq<Byte>> {
    map k | k in m && (k.path == path ==> k.blk < n) :: m[k]
  }

  /** unlink leaves no block of the file mapped and touches no other file. */
  lemma UnlinkForgets(H: Block -> Digest, U: iset<Block>, v: Volume, path: Path)
    requires Valid(H, U, v) && SizesFit(v)
    ensures var v' := Unlink(v, path);
            && Valid(H, U, v') && SizesFit(v') && v'.sizes == v.sizes - {path}
            && View(v') == Without(View(v), path)
            && v'.next == v.next && v'.master == v.master
  {
    hide Valid, RemoveBatch, Content;
    if path in v.sizes {
      RemoveKeepsRest(H, U, v, path, Forget);
      var v', stop := Unlink(v, path), RoundUp(v.sizes[path]);
      assert View(v').Keys == v'.byBlock.Keys && View(v).Keys == v.byBlock.Keys;
      forall k | k in v.byBlock && k.path == path ensures k in KeysOf(path, 0, stop) {
        BelowSize(k.blk, v.sizes[path]);
      }
    }
  }

  lemma BelowSize(blk: nat, size: nat)
    requires size % BLOCK_SIZE == 0
    ensures (blk + 1) * BLOCK_SIZE <= size <==> blk < RoundUp(size)
    ensures RoundUp(size) * BLOCK_SIZE == size
  {
  }

  /** truncate to whole blocks keeps exactly the blocks below the new size. */
  lemma TruncateKeepsPrefix(H: Block -> Digest, U: iset<Block>, v: Volume, path: Path, size: nat)
    requires Valid(H, U, v) && SizesFit(v) && size % BLOCK_SIZE == 0
    ensures var v' := Truncate(v, path, size).0;
            && Valid(H, U, v') && SizesFit(v') && Truncate(v, path, size).1 == 0
            && v'.sizes == (if path in v.sizes && size < v.sizes[path] then v.sizes[path := size] else v.sizes)
            && View(v') == Prefix(View(v), path, size / BLOCK_SIZE)
            && v'.next == v.next && v'.master == v.master
  {
    hide Valid, RemoveBatch, Content;
    if path in v.sizes && size < v.sizes[path] {
      RemoveKeepsRest(H, U, v, path, Shrink(size));
      var v', from, stop := Truncate(v, path, size).0, RoundUp(size), RoundUp(v.sizes[path]);
      assert View(v').Keys == v'.byBlock.Keys && View(v).Keys == v.byBlock.Keys;
      assert from == size / BLOCK_SIZE;
      forall k | k in v.byBlock && k.path == path
        ensures (k in KeysOf(path, from, stop - from) <==> k.blk >= size / BLOCK_SIZE)
        ensures k.blk < from ==> (k.blk + 1) * BLOCK_SIZE <= size
      {
        BelowSize(k.blk, v.sizes[path]);
        BelowSize(k.blk, size);
      }
    } else {
      forall k | k in v.byBlock && k.path == path ensures k.blk < size / BLOCK_SIZE {
      }
    }
  }
}
