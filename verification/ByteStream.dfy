/** The buffered byte stream under the metadata files. One context serves writing or
    reading, never both. */
module ByteStream {
  import opened MasterFile
  import opened Volumes

  /** The next n bytes of what is left, or nothing, with the rest used up. */
  function TakeBytes(s: seq<Byte>, n: nat): (Option<seq<Byte>>, seq<Byte>) {
    if n <= |s| then (Some(s[..n]), s[n..]) else (None, [])
  }

  // ---- When a write is transparent ----

  /** What a pwrite of n bytes reports to have taken; an error takes nothing. */
  function Taken(reply: int, n: nat): (w: nat)
    ensures w <= n
  {
    if reply <= 0 then 0 else Min(reply, n)
  }

  /** Whether writing n bytes through a buffer of `cap` bytes, of which `pos` are in use,
      stays inside the buffer, if the k-th pwrite replies device(k): each time the buffer
      is full, the flush must make room for the piece that is copied next. */
  predicate StaysInBuffer(cap: nat, pos: nat, n: nat, device: nat -> int, k: nat)
    requires 0 < cap && pos <= cap
    decreases n
  {
    if n == 0 then true
    else if pos < cap then
      var copy := Min(n, cap - pos);
      StaysInBuffer(cap, pos + copy, n - copy, device, k)
    else
      var w, copy := Taken(device(k), cap), Min(n, cap);
      w >= copy && StaysInBuffer(cap, cap - w + copy, n - copy, device, k + 1)
  }

  /** The device takes every flush of a buffer of this size in full. */
  ghost predicate TakesAll(device: nat -> int, size: nat) { forall k :: device(k) >= size }

  /** The device answers every pread, in full or short, with something. */
  ghost predicate Answers(device: nat -> int) { forall k :: device(k) > 0 }

  /** A device that takes at least a buffer at a time never causes an overrun. */
  lemma {:induction false} FullFlushesStay(cap: nat, pos: nat, n: nat, device: nat -> int, k: nat)
    requires 0 < cap && pos <= cap && TakesAll(device, cap)
    ensures StaysInBuffer(cap, pos, n, device, k)
    decreases n
  {
    if n > 0 {
      if pos < cap {
        var copy := Min(n, cap - pos);
        FullFlushesStay(cap, pos + copy, n - copy, device, k);
      } else {
        FullFlushesStay(cap, Min(n, cap), n - Min(n, cap), device, k + 1);
      }
    }
  }

  /** With the buffer full, one flush that takes less than is copied next is an overrun,
      for every buffer size and everything that follows. */
  lemma ShortFlushOverruns(cap: nat, n: nat, device: nat -> int, k: nat)
    requires 0 < cap && 0 < n && device(k) < Min(n, cap)
    ensures !StaysInBuffer(cap, cap, n, device, k)
  {
  }

  /** So a write that needs one flush from an empty buffer is transparent exactly if that
      flush takes as many bytes as are left over. */
  lemma OneFlushStaysIff(cap: nat, n: nat, device: nat -> int)
    requires 0 < cap < n <= 2 * cap
    ensures StaysInBuffer(cap, 0, n, device, 0) <==> device(0) >= n - cap
  {
    assert StaysInBuffer(cap, 0, n, device, 0) <==> StaysInBuffer(cap, cap, n - cap, device, 0);
  }

  class BufferedIO {
    const buffer: array<Byte>
    const device: nat -> int  // what the k-th system call replies, if it can
    var file: seq<Byte>
    var pos: nat
    var end: nat
    var offset: nat
    var calls: nat            // system calls so far

    constructor (file: seq<Byte>, size: nat, device: nat -> int)
      requires size > 0
      ensures fresh(buffer) && buffer.Length == size && this.device == device && calls == 0 && pos == 0
      ensures this.file == file && Reading() && Rest() == file
      ensures file == [] ==> Writing() && Written() == []
    {
      this.buffer := new Byte[size](_ => 0);
      this.device := device;
      this.file := file;
      pos, end, offset, calls := 0, 0, 0, 0;
    }

    // ---- Writing ----

    ghost predicate Writing()
      reads this
      ensures Writing() ==> 0 < buffer.Length && pos <= buffer.Length
    {
      0 < buffer.Length && pos <= buffer.Length && offset == |file|
    }

    /** Everything written so far: what is in the file, then what is in the buffer. */
    ghost function Written(): (s: seq<Byte>)
      reads this, buffer
      requires Writing()
      ensures file <= s
    {
      file + buffer[..pos]
    }

    /** flush_write_buffer. Whatever the device replies, no byte is lost, doubled or
        reordered; the buffer is empty afterwards exactly when the write was complete. */
    method Flush()
      requires Writing()
      modifies this`file, this`pos, this`offset, this`calls, buffer
      ensures Writing() && Written() == old(Written())
      ensures pos == old(pos) - Taken(device(old(calls)), old(pos))
      ensures calls == if old(pos) == 0 then old(calls) else old(calls) + 1
      ensures pos == 0 ==> file == Written()
    {
      hide Pwrite;
      if pos == 0 {
        return;
      }
      ghost var bytes := buffer[..pos];
      var written := if device(calls) < pos then device(calls) else pos;
      calls := calls + 1;
      if written > 0 {
        PwriteAtEnd(file, buffer[..written]);
        file := Pwrite(file, offset, buffer[..written]);
      }
      if written == pos {
        offset := offset + pos;
        pos := 0;
      } else if written > 0 {
        SplitBytes(old(file), bytes, written);
        assert buffer[..written] == bytes[..written];
        offset := offset + written;
        MoveDown(written, pos - written);
        pos := pos - written;
      }
    }

    /** memmove of the unwritten rest to the front of the buffer. */
    method MoveDown(from: nat, n: nat)
      requires from + n <= buffer.Length
      modifies buffer
      ensures buffer[..n] == old(buffer[from..from + n])
    {
      forall j | 0 <= j < n {
        buffer[j] := buffer[from + j];
      }
    }

    /** buffered_write. After a flush it takes the whole buffer for free; where the flush
        was too short for that, the copy would run past the end of the buffer, which is
        reported here instead. So the bytes are appended if and only if every flush made
        room for the copy after it. */
    method Write(data: seq<Byte>) returns (overrun: bool)
      requires Writing()
      modifies this`file, this`pos, this`offset, this`calls, buffer
      ensures Writing()
      ensures !overrun <==> StaysInBuffer(buffer.Length, old(pos), |data|, device, old(calls))
      ensures Written() == old(Written()) + data <==> !overrun
      ensures TakesAll(device, buffer.Length) ==> !overrun
    {
      hide Writing, Written, StaysInBuffer, TakesAll;
      ghost var cap, p0, k0, before := buffer.Length, pos, calls, Written();
      if TakesAll(device, cap) {
        FullFlushesStay(cap, p0, |data|, device, k0);
      }
      var done := 0;
      while done < |data|
        invariant done <= |data| && Writing() && Written() == before + data[..done]
        invariant StaysInBuffer(cap, p0, |data|, device, k0) <==> StaysInBuffer(cap, pos, |data| - done, device, calls)
      {
        StaysStep(cap, pos, |data| - done, device, calls);
        ghost var so := Written();
        var available := buffer.Length - pos;
        if available == 0 {
          Flush();
          available := buffer.Length;
        }
        var copy := if |data| - done < available then |data| - done else available;
        if pos + copy > buffer.Length {
          assert |Written()| < |before| + |data|;
          return true;
        }
        Fill(data[done..done + copy]);
        AppendPiece(before, so, data, done, copy);
        done := done + copy;
      }
      assert data[..done] == data;
      StaysStep(cap, pos, 0, device, calls);
      return false;
    }

    method Fill(data: seq<Byte>)
      requires Writing() && pos + |data| <= buffer.Length
      modifies this`pos, buffer
      ensures Writing() && Written() == old(Written()) + data && pos == old(pos) + |data|
    {
      forall j | 0 <= j < |data| {
        buffer[pos + j] := data[j];
      }
      assert buffer[..pos] == old(buffer[..pos]);
      assert buffer[..pos + |data|] == buffer[..pos] + data;
      pos := pos + |data|;
    }

    // ---- Reading ----

    ghost predicate Reading()
      reads this, buffer
      ensures Reading() ==> pos <= end
    {
      && 0 < buffer.Length && pos <= end <= buffer.Length
      && end - pos <= offset <= |file|
      && buffer[pos..end] == file[offset - (end - pos)..offset]
    }

    /** What a reader has not been given yet. */
    ghost function Rest(): seq<Byte>
      reads this, buffer
      requires Reading()
    {
      file[offset - (end - pos)..]
    }

    /** refill_read_buffer. A pread may be short, and it may fail before the end. */
    method Refill() returns (ok: bool)
      requires Reading() && pos == end
      modifies this`pos, this`end, this`offset, this`calls, buffer
      ensures Reading() && Rest() == old(Rest()) && calls == old(calls) + 1
      ensures ok <==> Rest() != [] && device(old(calls)) > 0
      ensures ok ==> pos < end
    {
      var most := if |file| - offset < buffer.Length then |file| - offset else buffer.Length;
      var n := if device(calls) < most then device(calls) else most;
      calls := calls + 1;
      if n <= 0 {
        return false;
      }
      var got := file[offset..offset + n];
      forall j | 0 <= j < n {
        buffer[j] := got[j];
      }
      end, pos := n, 0;
      offset := offset + n;
      assert buffer[0..n] == got;
      return true;
    }

    method Consume(n: nat) returns (piece: seq<Byte>)
      requires Reading() && n <= end - pos
      modifies this`pos
      ensures Reading() && |piece| == n && piece + Rest() == old(Rest())
    {
      ghost var at := offset - (end - pos);
      ghost var window := buffer[pos..end];
      piece := buffer[pos..pos + n];
      assert piece == window[..n] == file[at..at + n];
      pos := pos + n;
      assert buffer[pos..end] == window[n..];
    }

    /** No pread since the k-th has failed. */
    ghost predicate NoneFailed(k: nat)
      reads this
    {
      forall j :: k <= j < calls ==> device(j) > 0
    }

    /** buffered_read: succeeds exactly when n bytes are left and none of its preads
        fails, and then returns them. */
    method Read(n: nat) returns (ok: bool, data: seq<Byte>)
      requires Reading()
      modifies this`pos, this`end, this`offset, this`calls, buffer
      ensures Reading() && calls >= old(calls)
      ensures ok <==> n <= |old(Rest())| && NoneFailed(old(calls))
      ensures NoneFailed(old(calls)) ==> (if ok then Some(data) else None, Rest()) == TakeBytes(old(Rest()), n)
      ensures Answers(device) ==> NoneFailed(old(calls))
    {
      hide Reading, Rest, TakeBytes;
      ghost var all := Rest();
      data := [];
      while |data| < n
        invariant Reading() && |data| <= n && all == data + Rest()
        invariant calls >= old(calls) && NoneFailed(old(calls))
        decreases n - |data|
      {
        var available := end - pos;
        if available == 0 {
          var got := Refill();
          if !got {
            TakenShort(all, data, Rest(), n);
            return false, data;
          }
          available := end - pos;
          if available == 0 {
            return false, data;
          }
        }
        var copy := if n - |data| < available then n - |data| else available;
        var piece := Consume(copy);
        data := data + piece;
      }
      TakenWhole(all, data, Rest());
      return true, data;
    }
  }

  lemma AppendPiece(before: seq<Byte>, so: seq<Byte>, data: seq<Byte>, done: nat, copy: nat)
    requires done + copy <= |data| && so == before + data[..done]
    ensures so + data[done..done + copy] == before + data[..done + copy]
  {
    assert data[..done + copy] == data[..done] + data[done..done + copy];
  }

  lemma PwriteAtEnd(m: seq<Byte>, data: seq<Byte>)
    ensures Pwrite(m, |m|, data) == m + data
  {
  }

  lemma SplitBytes(m: seq<Byte>, bytes: seq<Byte>, w: nat)
    requires w <= |bytes|
    ensures m + bytes == m + bytes[..w] + bytes[w..]
  {
    assert bytes == bytes[..w] + bytes[w..];
  }

  lemma TakenWhole(all: seq<Byte>, data: seq<Byte>, rest: seq<Byte>)
    requires all == data + rest
    ensures TakeBytes(all, |data|) == (Some(data), rest)
  {
    assert all[..|data|] == data && all[|data|..] == rest;
  }

  lemma TakenShort(all: seq<Byte>, data: seq<Byte>, rest: seq<Byte>, n: nat)
    requires all == data + rest && |data| < n
    ensures rest == [] ==> TakeBytes(all, n) == (None, rest)
  {
  }

  /** One turn of the loop of buffered_write. */
  lemma StaysStep(cap: nat, pos: nat, n: nat, device: nat -> int, k: nat)
    requires 0 < cap && pos <= cap
    ensures StaysInBuffer(cap, pos, n, device, k) <==>
              if n == 0 then true
              else if pos < cap then StaysInBuffer(cap, pos + Min(n, cap - pos), n - Min(n, cap - pos), device, k)
              else Taken(device(k), cap) >= Min(n, cap) &&
                   StaysInBuffer(cap, cap - Taken(device(k), cap) + Min(n, cap), n - Min(n, cap), device, k + 1)
  {
  }
}
