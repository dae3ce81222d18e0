/** The write request of a stream (`_StreamWriteContext`): an array of
    pointer/length pairs that a partial send advances in place. */
module WriteContexts {
  import opened Buffers
  import opened Wrappers

  /** A `uv_buf_t`: a pointer `base` into the memory of a Python buffer, and a length. */
  datatype UvBuf<T> = UvBuf(memory: seq<T>, base: nat, len: nat) {
    ghost predicate Valid() {
      base + len <= |memory|
    }

    function View(): (r: seq<T>)
      requires Valid()
      ensures |r| == len
    {
      memory[base..base + len]
    }

    function Advanced(n: nat): UvBuf<T>
      requires n <= len
    {
      this.(base := base + n, len := len - n)
    }
  }

  ghost predicate AllValid<T>(bs: seq<UvBuf<T>>) {
    forall i :: 0 <= i < |bs| ==> bs[i].Valid()
  }

  /** The bytes a list of pointer/length pairs still has to send. */
  function Bytes<T>(bs: seq<UvBuf<T>>): seq<T>
    requires AllValid(bs)
  {
    if |bs| == 0 then [] else bs[0].View() + Bytes(bs[1..])
  }

  /** Pairs that each cover a whole buffer send the concatenation of the buffers. */
  lemma {:induction false} WholeBuffers<T>(bs: seq<UvBuf<T>>, buffers: seq<seq<T>>)
    requires |bs| == |buffers|
    requires forall i :: 0 <= i < |bs| ==> bs[i] == UvBuf(buffers[i], 0, |buffers[i]|)
    ensures AllValid(bs) && Bytes(bs) == Concat(buffers)
  {
    if |bs| == 0 {
    } else {
      assert bs[0].View() == buffers[0];
      WholeBuffers(bs[1..], buffers[1..]);
    }
  }

  /** Dropping fewer bytes than the first pair holds advances that pair; dropping
      all of its bytes leaves the rest. */
  lemma SplitFirst<T>(bs: seq<UvBuf<T>>, n: nat)
    requires AllValid(bs) && |bs| > 0
    ensures |Bytes(bs)| == bs[0].len + |Bytes(bs[1..])|
    ensures n < bs[0].len ==>
              var moved := [bs[0].Advanced(n)] + bs[1..];
              AllValid(moved) && Bytes(moved) == Bytes(bs)[n..]
    ensures Bytes(bs)[bs[0].len..] == Bytes(bs[1..])
  {
    var first, rest := bs[0].View(), Bytes(bs[1..]);
    if n < bs[0].len {
      AdvanceFirst(bs, n);
      assert (first + rest)[n..] == first[n..] + rest;
    }
    assert (first + rest)[|first|..] == rest;
  }

  lemma AdvanceFirst<T>(bs: seq<UvBuf<T>>, n: nat)
    requires AllValid(bs) && |bs| > 0 && n < bs[0].len
    ensures var moved := [bs[0].Advanced(n)] + bs[1..];
            AllValid(moved) && Bytes(moved) == bs[0].View()[n..] + Bytes(bs[1..])
  {
    var moved := [bs[0].Advanced(n)] + bs[1..];
    assert moved[1..] == bs[1..];
    assert moved[0].View() == bs[0].View()[n..];
  }

  /** The pairs left after skipping `sent` bytes, or None when there are not that many. */
  function Skip<T>(bs: seq<UvBuf<T>>, sent: nat): Option<seq<UvBuf<T>>> {
    if |bs| == 0 then None
    else if bs[0].len > sent then Some([bs[0].Advanced(sent)] + bs[1..])
    else Skip(bs[1..], sent - bs[0].len)
  }

  /** Skipping loses and repeats no byte: what is left is the original bytes
      without the first `sent`, and it fails exactly when nothing would be left. */
  lemma {:induction false} SkipDropsPrefix<T>(bs: seq<UvBuf<T>>, sent: nat)
    requires AllValid(bs)
    ensures Skip(bs, sent).Some? <==> sent < |Bytes(bs)|
    ensures Skip(bs, sent).Some? ==>
              AllValid(Skip(bs, sent).value) && Bytes(Skip(bs, sent).value) == Bytes(bs)[sent..]
  {
    if |bs| == 0 {
    } else {
      SplitFirst(bs, sent);
      if bs[0].len <= sent {
        var rest := sent - bs[0].len;
        SkipDropsPrefix(bs[1..], rest);
        assert Bytes(bs)[bs[0].len..] == Bytes(bs[1..]);
        if rest < |Bytes(bs[1..])| {
          assert Bytes(bs)[sent..] == Bytes(bs)[bs[0].len..][rest..];
        }
      }
    }
  }

  class WriteContext<T(0)> {
    const uvBufs: array<UvBuf<T>>
    var start: nat
    var length: nat

    ghost predicate Valid()
      reads this, uvBufs
    {
      && start + length <= uvBufs.Length
      && AllValid(uvBufs[start..start + length])
    }

    /** The bytes still to be sent through this context. */
    function Remaining(): seq<T>
      reads this, uvBufs
      requires Valid()
    {
      Bytes(uvBufs[start..start + length])
    }

    constructor (buffers: seq<seq<T>>)
      ensures Valid() && fresh(uvBufs)
      ensures start == 0 && length == |buffers|
      ensures Remaining() == Concat(buffers)
    {
      uvBufs := new UvBuf<T>[|buffers|](i requires 0 <= i < |buffers| => UvBuf(buffers[i], 0, |buffers[i]|));
      start, length := 0, |buffers|;
      new;
      WholeBuffers(uvBufs[0..|buffers|], buffers);
    }

    /** Makes the pair at `idx` the first one, `left` bytes into it. */
    method PointAt(idx: nat, left: nat, ghost pairs: seq<UvBuf<T>>)
      requires idx < length && start + length <= uvBufs.Length && pairs == uvBufs[start..start + length]
      requires pairs[idx].len > left
      modifies this, uvBufs
      ensures start + length <= uvBufs.Length
      ensures uvBufs[start..start + length] == [pairs[idx].Advanced(left)] + pairs[idx..][1..]
    {
      ghost var tail := uvBufs[start + idx + 1..start + length];
      assert tail == pairs[idx..][1..] && uvBufs[start + idx] == pairs[idx];
      uvBufs[start + idx] := uvBufs[start + idx].Advanced(left);
      start, length := start + idx, length - idx;
      assert uvBufs[start + 1..start + length] == tail;
    }

    /** Moves the start pointers past the first `sent` bytes.  The source's
        "could not advance" error is reported, with nothing changed, exactly
        when there is no byte left to point at. */
    method AdvanceUvBuf(sent: nat) returns (ok: bool)
      requires Valid()
      modifies this, uvBufs
      ensures Valid()
      ensures ok <==> sent < |old(Remaining())|
      ensures ok ==> Remaining() == old(Remaining())[sent..]
      ensures !ok ==> start == old(start) && length == old(length) && uvBufs[..] == old(uvBufs[..])
    {
      ghost var pairs := uvBufs[start..start + length];
      SkipDropsPrefix(pairs, sent);
      var left, idx := sent, 0;
      while idx < length && uvBufs[start + idx].len <= left
        invariant 0 <= idx <= length && 0 <= left
        invariant Skip(pairs, sent) == Skip(pairs[idx..], left)
      {
        assert pairs[idx..][1..] == pairs[idx + 1..];
        left := left - uvBufs[start + idx].len;
        idx := idx + 1;
      }
      if idx == length {
        return false;
      }
      PointAt(idx, left, pairs);
      return true;
    }
  }
}
