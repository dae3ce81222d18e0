/** Lists of byte buffers and their concatenation, used wherever the loop keeps
    a list of chunks and separately counts its bytes. */
module Buffers {

  /** The bytes of a list of buffers, in order. */
  function Concat<T>(bufs: seq<seq<T>>): seq<T> {
    if |bufs| == 0 then [] else bufs[0] + Concat(bufs[1..])
  }

  predicate NoneEmpty<T>(bufs: seq<seq<T>>) {
    forall i :: 0 <= i < |bufs| ==> |bufs[i]| > 0
  }

  lemma Assoc<T>(a: seq<T>, b: seq<T>, c: seq<T>)
    ensures a + (b + c) == a + b + c
  {
    assert a + (b + c) == a + b + c;
  }

  lemma Cancel<T>(a: seq<T>, b: seq<T>, c: seq<T>)
    requires a + b == a + c
    ensures b == c
  {
    assert (a + b)[|a|..] == b && (a + c)[|a|..] == c;
  }

  lemma {:induction false} ConcatAppend<T>(a: seq<seq<T>>, b: seq<seq<T>>)
    ensures Concat(a + b) == Concat(a) + Concat(b)
  {
    if |a| == 0 {
      assert a + b == b;
    } else {
      assert (a + b)[1..] == a[1..] + b;
      ConcatAppend(a[1..], b);
    }
  }

  lemma ConcatSnoc<T>(a: seq<seq<T>>, x: seq<T>)
    ensures Concat(a + [x]) == Concat(a) + x
  {
    ConcatAppend(a, [x]);
    ConcatOne(x);
  }

  lemma ConcatOne<T>(x: seq<T>)
    ensures Concat([x]) == x
  {
  }

  lemma ConcatNonEmpty<T>(a: seq<seq<T>>)
    requires NoneEmpty(a)
    ensures |Concat(a)| == 0 <==> |a| == 0
  {
  }

  /** Taking `n` bytes off the first buffer, and the buffer itself when nothing is left of it. */
  function Taken<T>(bufs: seq<seq<T>>, n: nat): seq<seq<T>>
    requires |bufs| > 0 && n <= |bufs[0]|
  {
    if n < |bufs[0]| then bufs[0 := bufs[0][n..]] else bufs[1..]
  }

  lemma TakenPrefix<T>(bufs: seq<seq<T>>, n: nat)
    requires |bufs| > 0 && n <= |bufs[0]|
    ensures Concat(bufs) == bufs[0][..n] + Concat(Taken(bufs, n))
  {
    var head := bufs[0];
    assert head == head[..n] + head[n..];
    Assoc(head[..n], head[n..], Concat(bufs[1..]));
    if n < |head| {
      assert Taken(bufs, n)[1..] == bufs[1..];
    }
  }
}
