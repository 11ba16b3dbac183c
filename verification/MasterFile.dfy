/** The master file: one flat byte file, addressed by the engine in slots of
    BLOCK_SIZE bytes through pread and pwrite. */
module MasterFile {
  const BLOCK_SIZE: nat := 4096

  type Byte = x: int | 0 <= x < 256
  type Block = b: seq<Byte> | |b| == BLOCK_SIZE witness seq(BLOCK_SIZE, _ => 0)

  /** The whole slot lies inside the file, so a pread of it is not short. */
  predicate InFile(m: seq<Byte>, slot: nat) {
    (slot + 1) * BLOCK_SIZE <= |m|
  }

  function BlockAt(m: seq<Byte>, slot: nat): (b: Block)
    requires InFile(m, slot)
  {
    m[slot * BLOCK_SIZE .. (slot + 1) * BLOCK_SIZE]
  }

  function Zeros(n: nat): (z: seq<Byte>)
    ensures |z| == n
  {
    seq(n, _ => 0)
  }

  /** pwrite: bytes past the end are appended after a hole of zeros; a write of
      no bytes does not extend the file. */
  function Pwrite(m: seq<Byte>, off: nat, data: seq<Byte>): (m': seq<Byte>)
    ensures |m'| == if data == [] || off + |data| <= |m| then |m| else off + |data|
    ensures forall j :: 0 <= j < |m| && !(off <= j < off + |data|) ==> m'[j] == m[j]
    ensures data != [] ==> forall j :: off <= j < off + |data| ==> m'[j] == data[j - off]
  {
    if data == [] then m
    else if off + |data| <= |m| then m[..off] + data + m[off + |data|..]
    else if off <= |m| then m[..off] + data
    else m + Zeros(off - |m|) + data
  }

  /** The blocks laid end to end, as in the caller's buffer. */
  function Flatten(bs: seq<Block>): (data: seq<Byte>)
    ensures |data| == |bs| * BLOCK_SIZE
  {
    if bs == [] then [] else Flatten(bs[..|bs| - 1]) + bs[|bs| - 1]
  }

  /** Cuts a buffer of whole blocks into its blocks. */
  function Chop(buf: seq<Byte>): (bs: seq<Block>)
    requires |buf| % BLOCK_SIZE == 0
    ensures |bs| == |buf| / BLOCK_SIZE
  {
    seq(|buf| / BLOCK_SIZE, i requires 0 <= i < |buf| / BLOCK_SIZE => BlockAt(buf, i))
  }

  lemma {:induction false} FlattenAt(bs: seq<Block>, i: nat)
    requires i < |bs|
    ensures BlockAt(Flatten(bs), i) == bs[i]
  {
    var n := |bs| - 1;
    if i < n {
      FlattenAt(bs[..n], i);
      assert BlockAt(Flatten(bs), i) == BlockAt(Flatten(bs[..n]), i);
    }
  }

  /** Consecutive blocks of the buffer are contiguous bytes of the buffer. */
  lemma {:induction false} ChopRange(buf: seq<Byte>, lo: nat, hi: nat)
    requires |buf| % BLOCK_SIZE == 0 && lo <= hi <= |buf| / BLOCK_SIZE
    ensures Flatten(Chop(buf)[lo..hi]) == buf[lo * BLOCK_SIZE .. hi * BLOCK_SIZE]
  {
    if lo == hi {
      assert Chop(buf)[lo..hi] == [];
      assert buf[lo * BLOCK_SIZE .. hi * BLOCK_SIZE] == [];
    } else {
      var bs := Chop(buf)[lo..hi];
      assert bs[..|bs| - 1] == Chop(buf)[lo..hi - 1];
      ChopRange(buf, lo, hi - 1);
      assert bs[|bs| - 1] == BlockAt(buf, hi - 1);
      assert buf[lo * BLOCK_SIZE .. hi * BLOCK_SIZE] ==
             buf[lo * BLOCK_SIZE .. (hi - 1) * BLOCK_SIZE] + buf[(hi - 1) * BLOCK_SIZE .. hi * BLOCK_SIZE];
    }
  }

  lemma ChopFlatten(buf: seq<Byte>)
    requires |buf| % BLOCK_SIZE == 0
    ensures Flatten(Chop(buf)) == buf
  {
    ChopRange(buf, 0, |buf| / BLOCK_SIZE);
    assert Chop(buf)[0..|buf| / BLOCK_SIZE] == Chop(buf);
    assert buf[0 .. |buf| / BLOCK_SIZE * BLOCK_SIZE] == buf;
  }

  /** A write confined to the slots [slot, slot + n) leaves every other slot of
      the file as it was. */
  lemma PwriteOther(m: seq<Byte>, slot: nat, n: nat, data: seq<Byte>, other: nat)
    requires |data| <= n * BLOCK_SIZE
    requires InFile(m, other) && !(slot <= other < slot + n)
    ensures InFile(Pwrite(m, slot * BLOCK_SIZE, data), other)
    ensures BlockAt(Pwrite(m, slot * BLOCK_SIZE, data), other) == BlockAt(m, other)
  {
    var m' := Pwrite(m, slot * BLOCK_SIZE, data);
    assert forall j :: other * BLOCK_SIZE <= j < (other + 1) * BLOCK_SIZE ==> m'[j] == m[j];
  }

  /** A full write of a run puts each block into its own slot. */
  lemma PwriteRun(m: seq<Byte>, slot: nat, bs: seq<Block>, i: nat)
    requires i < |bs|
    ensures InFile(Pwrite(m, slot * BLOCK_SIZE, Flatten(bs)), slot + i)
    ensures BlockAt(Pwrite(m, slot * BLOCK_SIZE, Flatten(bs)), slot + i) == bs[i]
  {
    FlattenAt(bs, i);
    hide Pwrite, Flatten;
    var data, off, lo, hi := Flatten(bs), slot * BLOCK_SIZE, i * BLOCK_SIZE, (i + 1) * BLOCK_SIZE;
    SliceOfWrite(m, off, data, lo, hi);
    assert (slot + i) * BLOCK_SIZE == off + lo && (slot + i + 1) * BLOCK_SIZE == off + hi;
    assert data[lo..hi] == bs[i];
  }

  lemma SliceOfWrite(m: seq<Byte>, off: nat, data: seq<Byte>, lo: nat, hi: nat)
    requires lo < hi <= |data|
    ensures Pwrite(m, off, data)[off + lo .. off + hi] == data[lo..hi]
  {
  }

  /** Writing a run at once is writing its blocks one after the other. */
  lemma PwriteSplit(m: seq<Byte>, off: nat, a: seq<Byte>, b: seq<Byte>)
    requires a != []
    ensures Pwrite(m, off, a + b) == Pwrite(Pwrite(m, off, a), off + |a|, b)
  {
    if b == [] {
      assert a + b == a;
    } else {
      var l := Pwrite(m, off, a + b);
      var r := Pwrite(Pwrite(m, off, a), off + |a|, b);
      forall j | 0 <= j < |l|
        ensures l[j] == r[j]
      {
        if j < off && j >= |m| {
          assert Pwrite(m, off, a)[j] == 0;
        }
      }
    }
  }
}
