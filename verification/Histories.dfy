/** Sequences of calls, and rules for which call may follow which. */
module Histories {

  /** Calls in order, newest outermost. */
  datatype History<C> = Start | Then(before: History<C>, call: C) {
    function Calls(): seq<C> {
      match this case Start => [] case Then(before, call) => before.Calls() + [call]
    }

    function Size(): (n: nat)
      ensures n == |Calls()|
    {
      match this case Start => 0 case Then(before, _) => before.Size() + 1
    }
  }

  /** Every call is one that may follow those before it. */
  ghost predicate EachMayFollow<C(!new)>(calls: seq<C>, mayFollow: (seq<C>, C) -> bool) {
    forall i :: 0 <= i < |calls| ==> mayFollow(calls[..i], calls[i])
  }

  lemma MayFollowSnoc<C(!new)>(calls: seq<C>, c: C, mayFollow: (seq<C>, C) -> bool)
    ensures EachMayFollow(calls + [c], mayFollow) <==> EachMayFollow(calls, mayFollow) && mayFollow(calls, c)
  {
    var all := calls + [c];
    assert forall i :: 0 <= i <= |calls| ==> all[..i] == calls[..i];
    assert all[|calls|] == c && calls[..|calls|] == calls;
    if EachMayFollow(all, mayFollow) {
      assert mayFollow(all[..|calls|], all[|calls|]);
      forall i | 0 <= i < |calls|
        ensures mayFollow(calls[..i], calls[i])
      {
        assert mayFollow(all[..i], all[i]);
      }
    }
  }

  /** Of the calls `on` and `off`, the last is an `on`. */
  ghost predicate LastIs<C>(calls: seq<C>, on: C, off: C) {
    exists i :: 0 <= i < |calls| && calls[i] == on && off !in calls[i..]
  }

  lemma LastIsSnoc<C>(calls: seq<C>, c: C, on: C, off: C)
    requires on != off
    ensures LastIs(calls + [c], on, off) <==> c == on || (LastIs(calls, on, off) && c != off)
  {
    var all := calls + [c];
    if c == on {
      assert all[|calls|] == on && all[|calls|..] == [c];
    } else if LastIs(calls, on, off) && c != off {
      var i :| 0 <= i < |calls| && calls[i] == on && off !in calls[i..];
      assert all[i..] == calls[i..] + [c];
    }
    if c != on && LastIs(all, on, off) {
      var i :| 0 <= i < |all| && all[i] == on && off !in all[i..];
      assert all[i..] == calls[i..] + [c];
      assert c in all[i..];
      assert forall x :: x in calls[i..] ==> x in all[i..];
      assert calls[i] == on;
    }
  }
}
