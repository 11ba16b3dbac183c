/** read_dedup: looks the blocks up, sorts them by slot, reads each stretch of
    consecutive slots with one pread and scatters it into the caller's buffer. */
module BatchedRead {
  import opened MasterFile
  import opened Volumes
  import opened Protocol
  import opened Requests
  import opened PairSort
  import opened Solo
  import opened Safety
  import opened Refinement
  import opened Quiescence

  const INSERTION_SORT_THRESHOLD: nat := 32

  /** The master file as one pread finds it: its bytes, and the slots that the device
      fails to deliver. */
  datatype Disk = Disk(bytes: seq<Byte>, bad: set<nat>)

  predicate Readable(d: Disk, slot: nat) { InFile(d.bytes, slot) && slot !in d.bad }

  /** How many bytes a pread of n slots delivers. */
  function Delivered(d: Disk, slot: nat, n: nat): (k: nat)
    ensures k <= n * BLOCK_SIZE && (k > 0 ==> slot * BLOCK_SIZE + k <= |d.bytes|)
    ensures k == n * BLOCK_SIZE <==> forall q :: slot <= q < slot + n ==> Readable(d, q)
    decreases n
  {
    if n == 0 then 0
    else if slot in d.bad then assert !Readable(d, slot); 0
    else if InFile(d.bytes, slot) then
      assert Readable(d, slot);
      BLOCK_SIZE + Delivered(d, slot + 1, n - 1)
    else
      assert !Readable(d, slot);
      if slot * BLOCK_SIZE < |d.bytes| then |d.bytes| - slot * BLOCK_SIZE else 0
  }

  function Pread(d: Disk, slot: nat, n: nat): (data: seq<Byte>)
    ensures |data| == Delivered(d, slot, n)
  {
    var k := Delivered(d, slot, n);
    if k == 0 then [] else d.bytes[slot * BLOCK_SIZE .. slot * BLOCK_SIZE + k]
  }

  lemma PreadSlot(d: Disk, slot: nat, n: nat, i: nat)
    requires |Pread(d, slot, n)| == n * BLOCK_SIZE && i < n
    ensures Readable(d, slot + i) && BlockAt(Pread(d, slot, n), i) == BlockAt(d.bytes, slot + i)
  {
    hide Delivered;
    assert Delivered(d, slot, n) == n * BLOCK_SIZE;
    var at := slot * BLOCK_SIZE;
    Subslice(d.bytes, at, n * BLOCK_SIZE, i * BLOCK_SIZE, (i + 1) * BLOCK_SIZE);
    assert at + i * BLOCK_SIZE == (slot + i) * BLOCK_SIZE && at + (i + 1) * BLOCK_SIZE == (slot + i + 1) * BLOCK_SIZE;
  }

  lemma Subslice(m: seq<Byte>, at: nat, n: nat, lo: nat, hi: nat)
    requires lo <= hi <= n && at + n <= |m|
    ensures m[at .. at + n][lo..hi] == m[at + lo .. at + hi]
  {
    var cut := m[at .. at + n][lo..hi];
    assert forall j :: 0 <= j < hi - lo ==> cut[j] == m[at + lo + j];
  }

  /** The block is mapped, and to this slot. */
  predicate FindsAt(v: Volume, path: Path, blk: nat, slot: nat) {
    Key(path, blk) in v.byBlock && Deref(v, v.byBlock[Key(path, blk)]).slot == slot
  }

  /** The slots of the mapped blocks from `start` on, up to the first block that is
      not mapped: that is where the file ends for this read. */
  function Lookup(v: Volume, path: Path, start: nat, n: nat): (slots: seq<nat>)
    ensures |slots| <= n
    ensures forall i: nat :: i < |slots| ==> FindsAt(v, path, start + i, slots[i])
    ensures |slots| < n ==> Key(path, start + |slots|) !in v.byBlock
  {
    if n == 0 then []
    else
      var s := Lookup(v, path, start, n - 1);
      var k := Key(path, start + n - 1);
      if |s| == n - 1 && k in v.byBlock then s + [Deref(v, v.byBlock[k]).slot] else s
  }

  lemma LookupFinds(v: Volume, path: Path, start: nat, n: nat, i: nat)
    requires i < |Lookup(v, path, start, n)|
    ensures Key(path, start + i) in v.byBlock
    ensures Lookup(v, path, start, n)[i] == Deref(v, v.byBlock[Key(path, start + i)]).slot
  {
    hide Lookup;
    LookupFindsAt(v, path, start, n, i);
  }

  lemma LookupFindsAt(v: Volume, path: Path, start: nat, n: nat, i: nat)
    requires i < |Lookup(v, path, start, n)|
    ensures FindsAt(v, path, start + i, Lookup(v, path, start, n)[i])
  {
    hide FindsAt;
  }

  lemma LookupEnds(v: Volume, path: Path, start: nat, n: nat)
    ensures var valid := |Lookup(v, path, start, n)|; valid <= n && (valid < n ==> Key(path, start + valid) !in View(v))
  {
  }

  function Paired(slots: seq<nat>): (s: seq<BlockPair>)
    ensures |s| == |slots|
  {
    seq(|slots|, i requires 0 <= i < |slots| => BlockPair(i, slots[i]))
  }

  /** qsort: sorted and a permutation, blocks of one slot in any order. */
  ghost predicate Sorts(f: seq<BlockPair> -> seq<BlockPair>) {
    forall s :: Sorted(f(s)) && Permutation(f(s), s)
  }

  /** p lists every block of the request once, with its slot. */
  ghost predicate Shuffle(p: seq<BlockPair>, slots: seq<nat>)
    ensures Shuffle(p, slots) ==> |p| == |slots|
  {
    && |p| == |slots|
    && (forall k :: 0 <= k < |p| ==> p[k].logical < |slots| && p[k].slot == slots[p[k].logical])
    && (forall j, k :: 0 <= j < k < |p| ==> p[j].logical != p[k].logical)
    && (forall i :: 0 <= i < |slots| ==> BlockPair(i, slots[i]) in p)
  }

  lemma TwiceInMultiset(p: seq<BlockPair>, j: nat, k: nat)
    requires j < k < |p| && p[j] == p[k]
    ensures multiset(p)[p[j]] >= 2
  {
    assert p == p[..k] + p[k..];
    assert p[j] in p[..k] && p[k] in p[k..];
  }

  lemma {:induction false} OnceInPaired(slots: seq<nat>, n: nat, x: BlockPair)
    requires n <= |slots|
    ensures multiset(Paired(slots)[..n])[x] <= 1
    ensures multiset(Paired(slots)[..n])[x] == 1 ==> x.logical < n
  {
    if n > 0 {
      OnceInPaired(slots, n - 1, x);
      assert Paired(slots)[..n] == Paired(slots)[..n - 1] + [Paired(slots)[n - 1]];
    }
  }

  lemma PermutationShuffles(p: seq<BlockPair>, slots: seq<nat>)
    requires Permutation(p, Paired(slots))
    ensures Shuffle(p, slots)
  {
    var q := Paired(slots);
    assert q[..|slots|] == q;
    forall k | 0 <= k < |p|
      ensures p[k].logical < |slots| && p[k].slot == slots[p[k].logical]
    {
      assert p[k] in multiset(q);
    }
    forall j, k | 0 <= j < k < |p|
      ensures p[j].logical != p[k].logical
    {
      OnceInPaired(slots, |slots|, p[j]);
      if p[j] == p[k] {
        TwiceInMultiset(p, j, k);
        assert false;
      }
    }
    forall i | 0 <= i < |slots|
      ensures BlockPair(i, slots[i]) in p
    {
      assert q[i] in multiset(p);
    }
  }

  // ---- What a read may do ----

  /** The bytes of block i, found on disk(times[i]). */
  ghost predicate FoundAt(disk: nat -> Disk, slots: seq<nat>, times: seq<nat>, buf: seq<Byte>) {
    && |times| == |slots|
    && forall i :: 0 <= i < |slots| ==>
         && Readable(disk(times[i]), slots[i]) && InFile(buf, i)
         && BlockAt(buf, i) == BlockAt(disk(times[i]).bytes, slots[i])
  }

  /** The number of the pread that fetches the k-th pair of the sorted list: neighbours
      share one exactly when their slots are consecutive. */
  function PreadOf(p: seq<BlockPair>, k: nat): nat
    requires k < |p|
  {
    if k == 0 then 0 else PreadOf(p, k - 1) + if p[k].slot == p[k - 1].slot + 1 then 0 else 1
  }

  /** Two pairs share a pread exactly if the slots from one to the other have no gap; the
      preads are numbered in order, without a gap. */
  lemma {:induction false} SamePreadIff(p: seq<BlockPair>, i: nat, j: nat)
    requires i <= j < |p|
    ensures PreadOf(p, i) <= PreadOf(p, j) <= PreadOf(p, i) + (j - i)
    ensures PreadOf(p, i) == PreadOf(p, j) <==> forall k :: i <= k <= j ==> p[k].slot == p[i].slot + (k - i)
  {
    if i < j {
      SamePreadIff(p, i, j - 1);
    }
  }

  /** times[i] is the number of the pread that fetches block i. */
  ghost predicate Scheduled(p: seq<BlockPair>, slots: seq<nat>, times: seq<nat>)
    ensures Scheduled(p, slots, times) ==> |times| == |slots| == |p|
  {
    && Shuffle(p, slots) && Sorted(p) && |times| == |slots|
    && forall k :: 0 <= k < |p| ==> times[p[k].logical] == PreadOf(p, k)
  }

  /** What read_dedup returns, and leaves in the buffer, when its k-th pread sees disk(k):
      it succeeds if and only if every slot is readable when its own pread comes, and then
      each block has the bytes its pread found. */
  ghost predicate Outcome(slots: seq<nat>, disk: nat -> Disk, before: seq<Byte>, after: seq<Byte>, ret: int,
                          times: seq<nat>) {
    && SameTail(before, after, |slots| * BLOCK_SIZE)
    && (exists p :: Scheduled(p, slots, times))
    && ret == (if AllReadable(disk, slots, times) then |slots| * BLOCK_SIZE else -EIO)
    && (ret >= 0 ==> FoundAt(disk, slots, times, after))
  }

  ghost predicate AllReadable(disk: nat -> Disk, slots: seq<nat>, times: seq<nat>) {
    |times| == |slots| && forall i :: 0 <= i < |slots| ==> Readable(disk(times[i]), slots[i])
  }

  // ---- The imperative read ----

  /** pread and memcpy into the caller's buffer. */
  method Memcpy(dst: array<Byte>, off: nat, src: seq<Byte>)
    requires off + |src| <= dst.Length
    modifies dst
    ensures dst[..] == Pwrite(old(dst[..]), off, src)
  {
    forall j | 0 <= j < |src| {
      dst[off + j] := src[j];
    }
  }

  /** Phase 1. */
  method LookupBlocks(v: Volume, path: Path, start: nat, pairs: array<BlockPair>) returns (valid: nat)
    modifies pairs
    ensures var slots := Lookup(v, path, start, pairs.Length);
            valid == |slots| <= pairs.Length && pairs[..valid] == Paired(slots)
  {
    valid := 0;
    ghost var n := pairs.Length;
    for i := 0 to pairs.Length
      invariant var slots := Lookup(v, path, start, i); valid == i == |slots| && pairs[..i] == Paired(slots)
    {
      var k := Key(path, start + i);
      if k !in v.byBlock {
        LookupStops(v, path, start, i, n);
        return;
      }
      ghost var slots := Lookup(v, path, start, i);
      pairs[valid] := BlockPair(i, Deref(v, v.byBlock[k]).slot);
      valid := valid + 1;
      assert pairs[..i + 1] == Paired(slots) + [pairs[i]] == Paired(Lookup(v, path, start, i + 1));
    }
  }

  lemma {:induction false} LookupStops(v: Volume, path: Path, start: nat, i: nat, n: nat)
    requires i <= n && |Lookup(v, path, start, i)| == i && Key(path, start + i) !in v.byBlock
    ensures Lookup(v, path, start, n) == Lookup(v, path, start, i)
  {
    if i < n {
      LookupStops(v, path, start, i, n - 1);
    }
  }

  /** Phase 2. The library sort is a parameter. */
  method SortPairs(pairs: array<BlockPair>, valid: nat, qsort: seq<BlockPair> -> seq<BlockPair>)
    requires valid <= pairs.Length && Sorts(qsort)
    modifies pairs
    ensures Sorted(pairs[..valid]) && Permutation(pairs[..valid], old(pairs[..valid]))
  {
    hide Sorted;
    if valid <= INSERTION_SORT_THRESHOLD {
      InsertionSort(pairs, valid);
    } else {
      var s := qsort(pairs[..valid]);
      assert Permutation(s, pairs[..valid]);
      forall j | 0 <= j < valid {
        pairs[j] := s[j];
      }
      assert pairs[..valid] == s;
    }
  }

  /** The first `done` pairs have been copied out. */
  ghost predicate Copied(disk: nat -> Disk, p: seq<BlockPair>, done: nat, buf: seq<Byte>)
    ensures Copied(disk, p, done, buf) ==> done <= |p|
  {
    && done <= |p|
    && forall k :: 0 <= k < done ==>
         && Readable(disk(PreadOf(p, k)), p[k].slot) && InFile(buf, p[k].logical)
         && BlockAt(buf, p[k].logical) == BlockAt(disk(PreadOf(p, k)).bytes, p[k].slot)
  }

  /** Copying out one more pair touches its own block of the buffer and no other. */
  lemma CopyOne(disk: nat -> Disk, p: seq<BlockPair>, slots: seq<nat>, done: nat, buf: seq<Byte>, data: seq<Byte>)
    requires Shuffle(p, slots) && |p| * BLOCK_SIZE <= |buf| && done < |p| && Copied(disk, p, done, buf)
    requires var d := disk(PreadOf(p, done)); Readable(d, p[done].slot) && data == BlockAt(d.bytes, p[done].slot)
    ensures Copied(disk, p, done + 1, Pwrite(buf, p[done].logical * BLOCK_SIZE, data))
    ensures SameTail(buf, Pwrite(buf, p[done].logical * BLOCK_SIZE, data), |p| * BLOCK_SIZE)
  {
    hide Pwrite, BlockAt, InFile, PreadOf;
    var i := p[done].logical;
    var buf' := Pwrite(buf, i * BLOCK_SIZE, data);
    forall k | 0 <= k < done
      ensures InFile(buf', p[k].logical) && BlockAt(buf', p[k].logical) == BlockAt(buf, p[k].logical)
    {
      PwriteOther(buf, i, 1, data, p[k].logical);
    }
    WriteBlock(buf, i, data);
    WriteTail(buf, i, data, |p|);
  }

  lemma WriteBlock(buf: seq<Byte>, i: nat, data: Block)
    ensures var buf' := Pwrite(buf, i * BLOCK_SIZE, data); InFile(buf', i) && BlockAt(buf', i) == data
  {
    SliceOfWrite(buf, i * BLOCK_SIZE, data, 0, BLOCK_SIZE);
    assert data[0..BLOCK_SIZE] == data;
  }

  ghost predicate SameTail(a: seq<Byte>, b: seq<Byte>, from: nat) {
    |a| == |b| && from <= |a| && a[from..] == b[from..]
  }

  lemma WriteTail(buf: seq<Byte>, i: nat, data: seq<Byte>, n: nat)
    requires i < n && n * BLOCK_SIZE <= |buf| && |data| <= BLOCK_SIZE
    ensures SameTail(buf, Pwrite(buf, i * BLOCK_SIZE, data), n * BLOCK_SIZE)
  {
    assert i * BLOCK_SIZE + |data| <= n * BLOCK_SIZE;
  }

  /** The group [lo, hi) is a stretch of consecutive slots, fetched by one pread. */
  ghost predicate Group(p: seq<BlockPair>, lo: nat, hi: nat)
    ensures Group(p, lo, hi) ==> lo < hi <= |p|
  {
    && lo < hi <= |p|
    && (forall j :: lo <= j < hi ==> p[j].slot == p[lo].slot + (j - lo))
    && (forall j :: lo <= j < hi ==> PreadOf(p, j) == PreadOf(p, lo))
  }

  /** What a group whose pread came back short leaves in the caller's buffer: a single block
      is read in place, so the bytes that did come are there; of a larger group nothing is. */
  function AfterShort(buf: seq<Byte>, d: Disk, p: seq<BlockPair>, lo: nat, hi: nat): seq<Byte>
    requires lo < |p|
  {
    if hi == lo + 1 then Pwrite(buf, p[lo].logical * BLOCK_SIZE, Pread(d, p[lo].slot, 1)) else buf
  }

  /** Phases 4 and 5 for one group; scratch is the buffer shared by all groups. */
  method ReadGroup(pairs: array<BlockPair>, lo: nat, hi: nat, buf: array<Byte>, scratch: array<Byte>, d: Disk,
                   ghost disk: nat -> Disk, ghost p: seq<BlockPair>, ghost slots: seq<nat>)
    returns (ok: bool)
    requires hi <= pairs.Length && |p| <= pairs.Length && pairs[..|p|] == p && Shuffle(p, slots) && Group(p, lo, hi)
    requires buf != scratch && |p| * BLOCK_SIZE <= buf.Length && scratch.Length == |p| * BLOCK_SIZE &&
             d == disk(PreadOf(p, lo))
    requires Copied(disk, p, lo, buf[..])
    modifies buf, scratch
    ensures SameTail(old(buf[..]), buf[..], |p| * BLOCK_SIZE)
    ensures ok <==> forall k :: lo <= k < hi ==> Readable(disk(PreadOf(p, k)), p[k].slot)
    ensures ok ==> Copied(disk, p, hi, buf[..])
    ensures !ok ==> buf[..] == AfterShort(old(buf[..]), d, p, lo, hi)
  {
    hide Copied, Shuffle, Pwrite, BlockAt, InFile, Delivered, Pread, PreadOf, Readable;
    var minMaster, blocks := pairs[lo].slot, hi - lo;
    ShufflePair(p, slots, lo);
    GroupReadable(d, p, lo, hi);
    if blocks == 1 {
      var i := pairs[lo].logical;
      var data := Pread(d, minMaster, 1);
      Memcpy(buf, i * BLOCK_SIZE, data);
      WriteTail(old(buf[..]), i, data, |p|);
      if |data| != BLOCK_SIZE {
        return false;
      }
      WholeSlot(d, minMaster);
      CopyOne(disk, p, slots, lo, old(buf[..]), data);
    } else {
      var data := Pread(d, minMaster, blocks);
      Memcpy(scratch, 0, data);
      if |data| != blocks * BLOCK_SIZE {
        return false;
      }
      assert scratch[..|data|] == data by { SliceOfWrite(old(scratch[..]), 0, data, 0, |data|); }
      for j := lo to hi
        invariant scratch[..|data|] == data && SameTail(old(buf[..]), buf[..], |p| * BLOCK_SIZE)
        invariant Copied(disk, p, j, buf[..])
      {
        var offsetInRange := pairs[j].slot - minMaster;
        var i := pairs[j].logical;
        assert offsetInRange == j - lo;
        var src := scratch[offsetInRange * BLOCK_SIZE .. (offsetInRange + 1) * BLOCK_SIZE];
        ScratchBlock(scratch[..], data, offsetInRange, src);
        PreadSlot(d, minMaster, blocks, offsetInRange);
        ShufflePair(p, slots, j);
        CopyOne(disk, p, slots, j, buf[..], src);
        Memcpy(buf, i * BLOCK_SIZE, src);
      }
    }
    return true;
  }

  lemma ShufflePair(p: seq<BlockPair>, slots: seq<nat>, k: nat)
    requires Shuffle(p, slots) && k < |p|
    ensures (p[k].logical + 1) * BLOCK_SIZE <= |p| * BLOCK_SIZE && p[k].slot == slots[p[k].logical]
  {
  }

  lemma WholeSlot(d: Disk, slot: nat)
    requires |Pread(d, slot, 1)| == BLOCK_SIZE
    ensures Readable(d, slot) && Pread(d, slot, 1) == BlockAt(d.bytes, slot)
  {
    PreadSlot(d, slot, 1, 0);
    assert Pread(d, slot, 1)[0..BLOCK_SIZE] == Pread(d, slot, 1);
  }

  lemma ScratchBlock(scratch: seq<Byte>, data: seq<Byte>, i: nat, src: seq<Byte>)
    requires (i + 1) * BLOCK_SIZE <= |data| <= |scratch| && scratch[..|data|] == data
    requires src == scratch[i * BLOCK_SIZE .. (i + 1) * BLOCK_SIZE]
    ensures InFile(data, i) && src == BlockAt(data, i)
  {
    assert scratch[..|data|][i * BLOCK_SIZE .. (i + 1) * BLOCK_SIZE] == src;
  }

  /** The pread of a group is complete if and only if each of its slots is readable. */
  lemma GroupReadable(d: Disk, p: seq<BlockPair>, lo: nat, hi: nat)
    requires Group(p, lo, hi)
    ensures |Pread(d, p[lo].slot, hi - lo)| == (hi - lo) * BLOCK_SIZE <==>
              forall k :: lo <= k < hi ==> Readable(d, p[k].slot)
  {
    hide Delivered, Readable, PreadOf;
    var q0 := p[lo].slot;
    if forall k :: lo <= k < hi ==> Readable(d, p[k].slot) {
      forall q | q0 <= q < q0 + (hi - lo) ensures Readable(d, q) {
        assert p[lo + (q - q0)].slot == q;
      }
    }
    PreadLength(d, q0, hi - lo);
  }

  lemma PreadLength(d: Disk, slot: nat, n: nat)
    ensures |Pread(d, slot, n)| == n * BLOCK_SIZE <==> forall q :: slot <= q < slot + n ==> Readable(d, q)
  {
  }

  /** Phases 3 to 5. A group ends where the next slot is not the successor, so a slot
      that several blocks share ends one too. */
  method ReadGroups(pairs: array<BlockPair>, buf: array<Byte>, scratch: array<Byte>, disk: nat -> Disk, valid: nat,
                    ghost slots: seq<nat>)
    returns (ok: bool)
    requires 0 < valid <= pairs.Length && Shuffle(pairs[..valid], slots)
    requires buf != scratch && valid * BLOCK_SIZE <= buf.Length && scratch.Length == valid * BLOCK_SIZE
    modifies buf, scratch
    ensures SameTail(old(buf[..]), buf[..], valid * BLOCK_SIZE)
    ensures ok <==> forall k :: 0 <= k < valid ==> Readable(disk(PreadOf(pairs[..valid], k)), pairs[k].slot)
    ensures ok ==> Copied(disk, pairs[..valid], valid, buf[..])
  {
    hide Copied, Shuffle, Readable, PreadOf, Group;
    ghost var p := pairs[..valid];
    var groupStart, g := 0, 0;
    NothingCopied(disk, p, buf[..]);
    FirstGroup(p);
    for i := 1 to valid + 1
      invariant groupStart < i && (i <= valid ==> Group(p, groupStart, i) && g == PreadOf(p, groupStart)) &&
                (i > valid ==> groupStart == valid)
      invariant SameTail(old(buf[..]), buf[..], valid * BLOCK_SIZE) && Copied(disk, p, groupStart, buf[..])
      invariant forall k :: 0 <= k < groupStart ==> Readable(disk(PreadOf(p, k)), p[k].slot)
    {
      var isLast := i == valid;
      var isConsec := !isLast && pairs[i].slot == pairs[i - 1].slot + 1;
      if i < valid {
        NextGroup(p, groupStart, i);
      }
      if isLast || !isConsec {
        ok := ReadGroup(pairs, groupStart, i, buf, scratch, disk(g), disk, p, slots);
        if !ok {
          return;
        }
        groupStart := i;
        g := g + 1;
      }
    }
    ok := true;
  }

  lemma FirstGroup(p: seq<BlockPair>)
    requires p != []
    ensures Group(p, 0, 1) && PreadOf(p, 0) == 0
  {
  }

  lemma NextGroup(p: seq<BlockPair>, lo: nat, i: nat)
    requires Group(p, lo, i) && i < |p|
    ensures if p[i].slot == p[i - 1].slot + 1 then Group(p, lo, i + 1)
            else Group(p, i, i + 1) && PreadOf(p, i) == PreadOf(p, lo) + 1
  {
    assert PreadOf(p, i - 1) == PreadOf(p, lo);
  }

  lemma NothingCopied(disk: nat -> Disk, p: seq<BlockPair>, buf: seq<Byte>)
    ensures Copied(disk, p, 0, buf)
  {
  }

  /** Which pread fetches which block. */
  lemma Schedule(p: seq<BlockPair>, slots: seq<nat>) returns (times: seq<nat>)
    requires Shuffle(p, slots) && Sorted(p)
    ensures Scheduled(p, slots, times)
  {
    hide PreadOf, Sorted;
    times := [];
    while |times| < |slots|
      invariant |times| <= |slots|
      invariant forall k :: 0 <= k < |p| && p[k].logical < |times| ==> times[p[k].logical] == PreadOf(p, k)
    {
      var k :| 0 <= k < |p| && p[k] == BlockPair(|times|, slots[|times|]);
      times := times + [PreadOf(p, k)];
    }
  }

  /** Once every pair is copied, every block of the request is in its place. */
  lemma AllCopied(disk: nat -> Disk, p: seq<BlockPair>, slots: seq<nat>, times: seq<nat>, buf: seq<Byte>)
    requires Scheduled(p, slots, times) && Copied(disk, p, |p|, buf)
    ensures FoundAt(disk, slots, times, buf)
  {
    hide BlockAt, PreadOf, Sorted;
    forall i | 0 <= i < |slots|
      ensures Readable(disk(times[i]), slots[i]) && InFile(buf, i) &&
              BlockAt(buf, i) == BlockAt(disk(times[i]).bytes, slots[i])
    {
      var k :| 0 <= k < |p| && p[k] == BlockPair(i, slots[i]);
    }
  }

  /** The groups are all readable exactly if the blocks are. */
  lemma SameReadable(disk: nat -> Disk, p: seq<BlockPair>, slots: seq<nat>, times: seq<nat>)
    requires Scheduled(p, slots, times)
    ensures AllReadable(disk, slots, times) <==> forall k :: 0 <= k < |p| ==> Readable(disk(PreadOf(p, k)), p[k].slot)
  {
    hide Readable, PreadOf, Sorted;
    forall k | 0 <= k < |p| ensures slots[p[k].logical] == p[k].slot && times[p[k].logical] == PreadOf(p, k) {
    }
    if forall k :: 0 <= k < |p| ==> Readable(disk(PreadOf(p, k)), p[k].slot) {
      forall i | 0 <= i < |slots| ensures Readable(disk(times[i]), slots[i]) {
        var k :| 0 <= k < |p| && p[k] == BlockPair(i, slots[i]);
      }
    }
  }

  /** read_dedup on a snapshot of the index taken under the read lock. */
  method ReadDedup(v: Volume, path: Path, buf: array<Byte>, size: nat, offset: nat,
                   disk: nat -> Disk, qsort: seq<BlockPair> -> seq<BlockPair>)
    returns (ret: int, ghost times: seq<nat>)
    requires size <= buf.Length && Sorts(qsort)
    modifies buf
    ensures size == 0 || size % BLOCK_SIZE != 0 ==> ret == -EOPNOTSUPP && buf[..] == old(buf[..])
    ensures size > 0 && size % BLOCK_SIZE == 0 ==>
              Outcome(Lookup(v, path, offset / BLOCK_SIZE, size / BLOCK_SIZE), disk, old(buf[..]), buf[..], ret, times)
  {
    hide Lookup, Sorts, Shuffle, Copied, FoundAt, Sorted, Permutation, PreadOf, Readable, Scheduled, AllReadable;
    var numBlocks, startBlock := size / BLOCK_SIZE, offset / BLOCK_SIZE;
    times := [];
    if numBlocks == 0 || size % BLOCK_SIZE != 0 {
      return -EOPNOTSUPP, times;
    }
    ghost var slots := Lookup(v, path, startBlock, numBlocks);
    var pairs := new BlockPair[numBlocks](_ => BlockPair(0, 0));
    var valid := LookupBlocks(v, path, startBlock, pairs);
    if valid == 0 {
      NothingFound(disk, buf[..]);
      return 0, times;
    }
    SortPairs(pairs, valid, qsort);
    ghost var p := pairs[..valid];
    PermutationShuffles(p, slots);
    times := Schedule(p, slots);
    SameReadable(disk, p, slots, times);
    var scratch := new Byte[valid * BLOCK_SIZE](_ => 0);
    var ok := ReadGroups(pairs, buf, scratch, disk, valid, slots);
    if !ok {
      return -EIO, times;
    }
    AllCopied(disk, p, slots, times, buf[..]);
    return valid * BLOCK_SIZE, times;
  }

  lemma NothingFound(disk: nat -> Disk, buf: seq<Byte>)
    ensures FoundAt(disk, [], [], buf) && Scheduled([], [], []) && AllReadable(disk, [], [])
  {
  }

  // ---- What the outcome means ----

  /** The plain form: one pread per block, in the order of the file, up to the first
      one that comes back short. */
  function ReadEach(d: Disk, slots: seq<nat>, n: nat, buf: seq<Byte>): (r: (seq<Byte>, bool))
    requires n <= |slots| && |slots| * BLOCK_SIZE <= |buf|
    ensures |r.0| == |buf|
  {
    if n == 0 then (buf, true)
    else
      var (b, ok) := ReadEach(d, slots, n - 1, buf);
      if !ok then (b, false)
      else if !Readable(d, slots[n - 1]) then (b, false)
      else (Pwrite(b, (n - 1) * BLOCK_SIZE, BlockAt(d.bytes, slots[n - 1])), true)
  }

  lemma {:induction false} ReadEachMeaning(d: Disk, slots: seq<nat>, n: nat, buf: seq<Byte>)
    requires n <= |slots| && |slots| * BLOCK_SIZE <= |buf|
    ensures var (b, ok) := ReadEach(d, slots, n, buf);
            && (ok <==> forall i :: 0 <= i < n ==> Readable(d, slots[i]))
            && (ok ==> forall i :: 0 <= i < n ==> InFile(b, i) && BlockAt(b, i) == BlockAt(d.bytes, slots[i]))
            && (ok ==> SameTail(buf, b, n * BLOCK_SIZE))
  {
    hide Pwrite, BlockAt, InFile;
    if n > 0 {
      ReadEachMeaning(d, slots, n - 1, buf);
      var (b, ok) := ReadEach(d, slots, n - 1, buf);
      if ok && Readable(d, slots[n - 1]) {
        var data := BlockAt(d.bytes, slots[n - 1]);
        var b' := Pwrite(b, (n - 1) * BLOCK_SIZE, data);
        WriteBlock(b, n - 1, data);
        WriteTail(b, n - 1, data, n);
        TailShrinks(buf, b, n);
        forall i | 0 <= i < n - 1
          ensures InFile(b', i) && BlockAt(b', i) == BlockAt(b, i)
        {
          PwriteOther(b, n - 1, 1, data, i);
        }
      }
    }
  }

  lemma TailShrinks(a: seq<Byte>, b: seq<Byte>, n: nat)
    requires n > 0 && n * BLOCK_SIZE <= |a| && SameTail(a, b, (n - 1) * BLOCK_SIZE)
    ensures SameTail(a, b, n * BLOCK_SIZE)
  {
    assert forall j :: n * BLOCK_SIZE <= j < |a| ==> a[j] == a[(n - 1) * BLOCK_SIZE..][j - (n - 1) * BLOCK_SIZE];
    assert forall j :: n * BLOCK_SIZE <= j < |a| ==> b[j] == b[(n - 1) * BLOCK_SIZE..][j - (n - 1) * BLOCK_SIZE];
  }

  /** Buffers that agree block by block and behind the blocks are equal. */
  lemma {:induction false} BlocksDetermine(a: seq<Byte>, b: seq<Byte>, n: nat)
    requires n * BLOCK_SIZE <= |a| && SameTail(a, b, n * BLOCK_SIZE)
    requires forall i :: 0 <= i < n ==> InFile(a, i) && InFile(b, i) && BlockAt(a, i) == BlockAt(b, i)
    ensures a == b
  {
    if n == 0 {
      assert a == a[0..] && b == b[0..];
    } else {
      var m := n - 1;
      assert BlockAt(a, m) == BlockAt(b, m);
      assert a[m * BLOCK_SIZE..] == BlockAt(a, m) + a[n * BLOCK_SIZE..];
      assert b[m * BLOCK_SIZE..] == BlockAt(b, m) + b[n * BLOCK_SIZE..];
      BlocksDetermine(a, b, m);
    }
  }

  /** On a master that does not change during the read, the batched read succeeds
      exactly when the plain one does, and then fills the buffer identically. */
  lemma BatchedIsPlain(slots: seq<nat>, d: Disk, disk: nat -> Disk, before: seq<Byte>, after: seq<Byte>, ret: int,
                       times: seq<nat>)
    requires Outcome(slots, disk, before, after, ret, times) && forall k :: disk(k) == d
    ensures var (b, ok) := ReadEach(d, slots, |slots|, before);
            if ok then ret == |slots| * BLOCK_SIZE && after == b else ret == -EIO
  {
    hide ReadEach, BlockAt, InFile, Scheduled;
    ReadEachMeaning(d, slots, |slots|, before);
    var (b, ok) := ReadEach(d, slots, |slots|, before);
    if ok && ret >= 0 {
      BlocksDetermine(after, b, |slots|);
    }
  }

  /** The mapped prefix of n blocks from `start` on was read, each block as the plain map
      has it; the rest of the buffer is as before. */
  ghost predicate Reads(v: Volume, path: Path, start: nat, n: nat, before: seq<Byte>, after: seq<Byte>, ret: int) {
    && ret >= 0 && ret % BLOCK_SIZE == 0 && SameTail(before, after, ret)
    && var valid := ret / BLOCK_SIZE;
    && valid <= n && (valid < n ==> Key(path, start + valid) !in View(v)) && Matches(v, path, start, valid, after)
  }

  ghost predicate Matches(v: Volume, path: Path, start: nat, valid: nat, buf: seq<Byte>) {
    forall i: nat :: i < valid ==> MatchesAt(v, path, start, i, buf)
  }

  ghost predicate MatchesAt(v: Volume, path: Path, start: nat, i: nat, buf: seq<Byte>) {
    InFile(buf, i) && Key(path, start + i) in View(v) && BlockAt(buf, i) == View(v)[Key(path, start + i)]
  }

  lemma MakeReads(v: Volume, path: Path, start: nat, n: nat, valid: nat, before: seq<Byte>, after: seq<Byte>)
    requires valid <= n && (valid < n ==> Key(path, start + valid) !in View(v)) &&
             SameTail(before, after, valid * BLOCK_SIZE)
    requires Matches(v, path, start, valid, after)
    ensures Reads(v, path, start, n, before, after, valid * BLOCK_SIZE)
  {
    hide View, SameTail, Matches;
    var ret := valid * BLOCK_SIZE;
    assert ret / BLOCK_SIZE == valid && ret % BLOCK_SIZE == 0;
  }

  /** Every pread finds the same undamaged file. */
  function Intact(master: seq<Byte>): nat -> Disk { _ => Disk(master, {}) }

  /** Between requests, a read of an intact device returns the mapped prefix of the
      file as the plain map gives it. */
  lemma ReadsView(H: Block -> Digest, U: iset<Block>, v: Volume, path: Path, start: nat, n: nat, disk: nat -> Disk,
                  before: seq<Byte>, after: seq<Byte>, ret: int, times: seq<nat>)
    requires Valid(H, U, v) && forall k :: disk(k) == Disk(v.master, {})
    requires Outcome(Lookup(v, path, start, n), disk, before, after, ret, times)
    ensures Reads(v, path, start, n, before, after, ret)
  {
    hide Valid, BlockAt, Lookup, View, Scheduled;
    var slots := Lookup(v, path, start, n);
    assert |times| == |slots|;
    LookupEnds(v, path, start, n);
    forall i | 0 <= i < |slots|
      ensures Readable(Disk(v.master, {}), slots[i])
      ensures Key(path, start + i) in View(v) && View(v)[Key(path, start + i)] == BlockAt(v.master, slots[i])
    {
      MappedIsReadable(H, U, v, path, start, n, i);
    }
    assert ret >= 0;
    assert ret / BLOCK_SIZE == |slots|;
    forall i: nat | i < |slots|
      ensures MatchesAt(v, path, start, i, after)
    {
      assert disk(times[i]) == Disk(v.master, {}) && BlockAt(after, i) == BlockAt(disk(times[i]).bytes, slots[i]);
    }
    MakeReads(v, path, start, n, |slots|, before, after);
  }

  lemma MappedIsReadable(H: Block -> Digest, U: iset<Block>, v: Volume, path: Path, start: nat, n: nat, i: nat)
    requires Valid(H, U, v) && i < |Lookup(v, path, start, n)|
    ensures var slot, k := Lookup(v, path, start, n)[i], Key(path, start + i);
            InFile(v.master, slot) && k in View(v) && View(v)[k] == BlockAt(v.master, slot)
  {
    hide Valid, BlockAt, Lookup, SlotsSettled;
    ValidIsSettled(H, U, v);
    LookupFinds(v, path, start, n, i);
  }

  /** While other threads run: a read whose lookup was in state i of the run, and whose
      k-th pread was in state when(k), returns the contents as of its lookup, if no slot is
      handed out for a new block before the pread that fetches it. */
  lemma ConcurrentReadsView(H: Block -> Digest, U: iset<Block>, run: seq<Sys>, acts: seq<Action>, i: nat,
                            when: nat -> nat,
                            path: Path, start: nat, n: nat, disk: nat -> Disk,
                            before: seq<Byte>, after: seq<Byte>, ret: int, times: seq<nat>)
    requires SafeRun(H, U, run, acts) && Good(H, U, run[0]) && i < |run|
    requires forall k :: i <= when(k) < |run| && disk(k) == Disk(run[when(k)].v.master, {})
    requires var slots := Lookup(run[i].v, path, start, n);
             && Outcome(slots, disk, before, after, ret, times)
             && forall b :: 0 <= b < |slots| ==> NotRewritten(run, i, when(times[b]), slots[b])
    ensures Reads(run[i].v, path, start, n, before, after, ret)
  {
    hide SafeRun, Good, NotRewritten, View, BlockAt, InFile, Lookup, Scheduled, MappedTo;
    var slots := Lookup(run[i].v, path, start, n);
    LookupEnds(run[i].v, path, start, n);
    var states := seq(|slots|, b requires 0 <= b < |slots| => when(times[b]));
    LookupMaps(H, U, run, acts, i, path, start, n);
    LockFreeRead(H, U, run, acts, i, path, start, slots, states);
    forall b | 0 <= b < |slots| ensures Readable(disk(times[b]), slots[b]) {
      assert states[b] == when(times[b]);
    }
    forall b: nat | b < |slots|
      ensures MatchesAt(run[i].v, path, start, b, after)
    {
      assert BlockAt(after, b) == BlockAt(run[states[b]].v.master, slots[b]);
    }
    MakeReads(run[i].v, path, start, n, |slots|, before, after);
  }

  lemma LookupMaps(H: Block -> Digest, U: iset<Block>, run: seq<Sys>, acts: seq<Action>, i: nat, path: Path, start: nat,
                   n: nat)
    requires SafeRun(H, U, run, acts) && Good(H, U, run[0]) && i < |run|
    ensures var slots := Lookup(run[i].v, path, start, n);
            forall b :: 0 <= b < |slots| ==> MappedTo(run[i].v, Key(path, start + b), slots[b])
  {
    hide SafeRun, Good, Lookup, InFile;
    RunGood(H, U, run, acts, i);
    forall b | 0 <= b < |Lookup(run[i].v, path, start, n)|
      ensures MappedTo(run[i].v, Key(path, start + b), Lookup(run[i].v, path, start, n)[b])
    {
      LookupFinds(run[i].v, path, start, n, b);
      MappedInFile(H, U, run[i], Key(path, start + b));
    }
  }
}
