/** The ready queue of the loop: `_call_soon_handle`, `_on_idle`, `_stop`,
    `_close`, and `Handle._run` and `Handle._cancel`. */
module ReadyQueues {
  import opened Buffers

  /** What a callback does when it runs: calls on the loop, then possibly a
      BaseException that leaves `Handle._run`. */
  datatype Callback =
    | Python(acts: seq<Act>, raises: bool)
    | StopLoop                    // the handle of `Loop.stop()`

  /** Calls on the loop.  `CallSoon` stands for every way of appending: `call_soon`,
      `stop`, and `call_soon_threadsafe` from another thread meanwhile. */
  datatype Act = CallSoon(callback: Callback) | Cancel(id: nat)

  /** A handle; its number is its position in the order of appending. */
  datatype Handle = Handle(id: nat, callback: Callback)

  datatype Entry = Ran(id: nat) | Cancelled(id: nat)

  /** The callbacks that calls append, in order. */
  function Soon(acts: seq<Act>): seq<Callback> {
    if acts == [] then []
    else
      var n := |acts| - 1;
      Soon(acts[..n]) + if acts[n].CallSoon? then [acts[n].callback] else []
  }

  /** The handles that calls cancel. */
  function Cancels(acts: seq<Act>): set<nat> {
    set i | 0 <= i < |acts| && acts[i].Cancel? :: acts[i].id
  }

  function Acts(callback: Callback): seq<Act> {
    match callback case Python(acts, _) => acts case StopLoop => []
  }

  predicate Raises(callback: Callback) {
    callback.Python? && callback.raises
  }

  /** It is the handle of `stop`, or leaves a BaseException. */
  predicate Stops(callback: Callback) {
    callback == StopLoop || Raises(callback)
  }

  ghost predicate SomeStops(done: seq<Callback>) {
    exists i :: 0 <= i < |done| && Stops(done[i])
  }

  lemma SomeStopsIn(a: seq<Callback>, b: seq<Callback>)
    ensures SomeStops(a + b) <==> SomeStops(a) || SomeStops(b)
  {
    if i :| 0 <= i < |a| && Stops(a[i]) {
      assert (a + b)[i] == a[i];
    }
    if i :| 0 <= i < |b| && Stops(b[i]) {
      assert (a + b)[|a| + i] == b[i];
    }
  }

  lemma SomeStopsSnoc(done: seq<Callback>, c: Callback)
    ensures SomeStops(done + [c]) <==> SomeStops(done) || Stops(c)
  {
    SomeStopsIn(done, [c]);
    if Stops(c) {
      assert Stops([c][0]);
    }
  }

  lemma NoneYet()
    ensures !SomeStops([]) && SoonAll([]) == []
  {
  }

  /** What callbacks append, one after the other. */
  function SoonAll(done: seq<Callback>): seq<Callback> {
    if done == [] then []
    else
      var n := |done| - 1;
      SoonAll(done[..n]) + Soon(Acts(done[n]))
  }

  lemma SoonAllSnoc(done: seq<Callback>, c: Callback)
    ensures SoonAll(done + [c]) == SoonAll(done) + Soon(Acts(c))
  {
    assert (done + [c])[..|done|] == done;
  }

  ghost predicate Increasing(s: seq<nat>) {
    forall i, j :: 0 <= i < j < |s| ==> s[i] < s[j]
  }

  /** No handle runs after it was cancelled. */
  ghost predicate Respected(log: seq<Entry>) {
    forall i, j :: 0 <= i < j < |log| && log[i].Cancelled? ==> log[j] != Ran(log[i].id)
  }

  class ReadyQueue {
    var ready: seq<Handle>
    var nextId: nat
    var cancelled: set<nat>        // handles with `_cancelled` set
    var idleRunning: bool
    var stopping: bool
    var closed: bool
    ghost var popped: nat
    ghost var given: seq<Callback> // everything appended so far
    ghost var ran: seq<nat>
    ghost var did: seq<Callback>   // their callbacks
    ghost var log: seq<Entry>

    /** The queue holds the handles not popped yet, in order; whoever was popped ran
        or had been cancelled; callbacks ran in order and never after a cancellation. */
    ghost predicate Valid()
      reads this
    {
      && popped + |ready| == nextId == |given| && (|ready| > 0 ==> idleRunning)
      && (forall i :: 0 <= i < |ready| ==> ready[i] == Handle(popped + i, given[popped + i]))
      && |did| == |ran| && (forall i :: 0 <= i < |ran| ==> ran[i] < |given| && did[i] == given[ran[i]])
      && Increasing(ran) && (forall i :: 0 <= i < |ran| ==> ran[i] < popped)
      && (forall id: nat :: id < popped ==> id in ran || id in cancelled)
      && Respected(log)
      && (forall i :: 0 <= i < |log| ==> if log[i].Ran? then log[i].id in ran else log[i].id in cancelled)
    }

    /** What running a callback only adds to. */
    twostate predicate Later()
      reads this
    {
      && old(nextId) <= nextId && old(cancelled) <= cancelled
      && old(given) <= given && old(ran) <= ran && old(did) <= did
      && (old(stopping) ==> stopping) && closed == old(closed)
      && (old(idleRunning) ==> idleRunning || |ready| == 0)
    }

    constructor ()
      ensures Valid() && ready == [] && nextId == 0 && given == [] && ran == [] && did == [] && !closed && !stopping
    {
      ready, nextId, cancelled, idleRunning, stopping, closed := [], 0, {}, false, false, false;
      popped, given, ran, did, log := 0, [], [], [], [];
    }

    /** `_call_soon_handle`. */
    method CallSoon(callback: Callback) returns (ok: bool)
      requires Valid()
      modifies `ready, `nextId, `idleRunning, `given
      ensures Valid() && ok == !closed
      ensures ok ==> ready == old(ready) + [Handle(old(nextId), callback)] && nextId == old(nextId) + 1 && idleRunning
      ensures given == if ok then old(given) + [callback] else old(given)
      ensures !ok ==> ready == old(ready) && nextId == old(nextId) && idleRunning == old(idleRunning)
    {
      if closed {
        return false;
      }
      ready := ready + [Handle(nextId, callback)];
      nextId, given := nextId + 1, given + [callback];
      if !idleRunning {
        idleRunning := true;
      }
      return true;
    }

    /** `Handle.cancel`. */
    method CancelHandle(id: nat)
      requires Valid()
      modifies `cancelled, `log
      ensures Valid() && cancelled == old(cancelled) + {id} && log == old(log) + [Cancelled(id)]
    {
      cancelled := cancelled + {id};
      log := log + [Cancelled(id)];
    }

    /** `_stop`. */
    method Stop()
      modifies `stopping, `idleRunning
      ensures stopping && (idleRunning == (old(idleRunning) || !old(stopping)))
    {
      if stopping {
        return;
      }
      stopping := true;
      if !idleRunning {
        idleRunning := true;
      }
    }

    /** `popleft` of the batch loop, which never underflows; `runs` says whether the
        handle is going to run. */
    method PopLeft() returns (h: Handle, runs: bool)
      requires Valid() && |ready| > 0
      modifies `ready, `popped, `ran, `did, `log
      ensures Valid() && h == old(ready)[0] && ready == old(ready)[1..] && popped == old(popped) + 1
      ensures runs == (h.id !in cancelled)
      ensures ran == if runs then old(ran) + [h.id] else old(ran)
      ensures did == if runs then old(did) + [h.callback] else old(did)
      ensures log == if runs then old(log) + [Ran(h.id)] else old(log)
      ensures h.id == old(popped)
    {
      h := ready[0];
      runs := h.id !in cancelled;
      if runs {
        assert forall i :: 0 <= i < |log| && log[i].Cancelled? ==> log[i].id != h.id;
        ran, did, log := ran + [h.id], did + [h.callback], log + [Ran(h.id)];
      }
      ready, popped := ready[1..], popped + 1;
    }

    /** Pops a handle and, unless it was cancelled, runs it. */
    method RunNext() returns (raised: bool)
      requires Valid() && |ready| > 0
      modifies this
      ensures Valid() && Later() && popped == old(popped) + 1
      ensures ran == if old(ready[0].id in cancelled) then old(ran) else old(ran) + [old(popped)]
      ensures |ready| >= old(|ready|) - 1 && idleRunning
      ensures var h := old(ready[0]);
              if h.id in old(cancelled)
              then && !raised && stopping == old(stopping)
                   && did == old(did) && given == old(given) && cancelled == old(cancelled)
              else && raised == Raises(h.callback) && stopping == (old(stopping) || Stops(h.callback))
                   && did == old(did) + [h.callback] && Acted(Acts(h.callback))
    {
      hide Soon, SoonAll, Acts, Cancels, Increasing, Respected;
      var h, runs := PopLeft();
      raised := false;
      if runs {
        raised := RunCallback(h.callback);
      }
    }

    /** `Handle._run`; a BaseException stops the loop. */
    method RunCallback(callback: Callback) returns (raised: bool)
      requires Valid()
      modifies `ready, `nextId, `cancelled, `idleRunning, `given, `log, `stopping
      ensures Valid() && |ready| >= |old(ready)| && (old(idleRunning) ==> idleRunning)
      ensures Acted(Acts(callback))
      ensures stopping == (old(stopping) || Stops(callback)) && raised == Raises(callback)
    {
      match callback
      case StopLoop =>
        Stop();
        raised := false;
      case Python(acts, raises) =>
        RunActs(acts);
        if raises {
          Stop();
        }
        raised := raises;
    }

    /** The effect of calls: what they append, in order, and what they cancel. */
    twostate predicate Acted(acts: seq<Act>)
      reads `given, `nextId, `cancelled, `closed
    {
      && given == old(given) + (if closed then [] else Soon(acts)) && old(nextId) <= nextId
      && cancelled == old(cancelled) + Cancels(acts)
    }

    /** The body of a callback. */
    method RunActs(acts: seq<Act>)
      requires Valid()
      modifies `ready, `nextId, `cancelled, `idleRunning, `given, `log
      ensures Valid() && |ready| >= |old(ready)|
      ensures idleRunning == (old(idleRunning) || (!closed && Soon(acts) != []))
      ensures Acted(acts)
    {
      for i := 0 to |acts|
        invariant Valid() && |ready| >= |old(ready)|
        invariant idleRunning == (old(idleRunning) || (!closed && Soon(acts[..i]) != []))
        invariant Acted(acts[..i])
      {
        assert acts[..i + 1][..i] == acts[..i];
        assert Cancels(acts[..i + 1]) == Cancels(acts[..i]) + if acts[i].Cancel? then {acts[i].id} else {};
        match acts[i]
        case CallSoon(callback) => var ok := CallSoon(callback);
        case Cancel(id) => CancelHandle(id);
      }
      assert acts[..|acts|] == acts;
    }

    /** The batch of `_on_idle`: the handles that were there when it began are popped in order, until
        one raises; `done` are those that ran. */
    method RunBatch() returns (raised: bool, ghost done: seq<Callback>)
      requires Valid()
      modifies this
      ensures Valid() && Later() && (old(idleRunning) ==> idleRunning)
      ensures old(popped) <= popped <= old(nextId) && (!raised ==> popped == old(nextId))
      ensures forall i :: |old(ran)| <= i < |ran| ==> old(popped) <= ran[i] < old(nextId)
      ensures did == old(did) + done && stopping == (old(stopping) || SomeStops(done))
      ensures raised <==> done != [] && Raises(done[|done| - 1])
      ensures forall k :: 0 <= k < |done| - 1 ==> !Raises(done[k])
      ensures given == old(given) + if closed then [] else SoonAll(done)
    {
      hide Soon, SoonAll, Acts, Cancels, SomeStops, Increasing, Respected;
      var ntodo := |ready|;
      done := [];
      NoneYet();
      for i := 0 to ntodo
        invariant Valid() && Later() && (old(idleRunning) ==> idleRunning)
        invariant popped == old(popped) + i && |ready| >= ntodo - i
        invariant forall k :: |old(ran)| <= k < |ran| ==> old(popped) <= ran[k] < popped
        invariant did == old(did) + done && stopping == (old(stopping) || SomeStops(done))
        invariant forall k :: 0 <= k < |done| ==> !Raises(done[k])
        invariant given == old(given) + if closed then [] else SoonAll(done)
      {
        ghost var h, runs := ready[0], ready[0].id !in cancelled;
        raised := RunNext();
        if runs {
          SomeStopsSnoc(done, h.callback);
          Assoc(old(did), done, [h.callback]);
          SoonAllSnoc(done, h.callback);
          Assoc(old(given), SoonAll(done), Soon(Acts(h.callback)));
          done := done + [h.callback];
        }
        if raised {
          return;
        }
      }
      raised := false;
    }

    /** `_on_idle`.  `uv_stop` is called only after a complete batch, so that every handle appended before
        it, and with them all appended before the stop handle, has run or been cancelled; and then exactly
        when a handle that ran, now or earlier, was the stop handle or raised.  `writeActs` are the calls
        made by protocols while queued streams are executed. */
    method OnIdle(writeActs: seq<Act>) returns (uvStop: bool, raised: bool, ghost done: seq<Callback>)
      requires Valid()
      modifies this
      ensures Valid() && Later()
      ensures old(popped) <= popped <= old(nextId)
      ensures forall i :: |old(ran)| <= i < |ran| ==> old(popped) <= ran[i] < old(nextId)
      ensures did == old(did) + done && stopping == (old(stopping) || SomeStops(done))
      ensures raised <==> done != [] && Raises(done[|done| - 1])
      ensures forall k :: 0 <= k < |done| - 1 ==> !Raises(done[k])
      ensures raised ==> !uvStop && (old(idleRunning) ==> idleRunning)
      ensures !raised ==> popped == old(nextId) && uvStop == stopping && (|ready| == 0 ==> !idleRunning)
      ensures given == old(given) + if closed then [] else SoonAll(done) + if raised then [] else Soon(writeActs)
      ensures uvStop ==> forall id: nat :: id < old(nextId) ==> id in ran || id in cancelled
    {
      raised, done := RunBatch();
      if raised {
        return false, true, done;
      }
      RunActs(writeActs);
      if |ready| == 0 && idleRunning {
        idleRunning := false;
      }
      return stopping, false, done;
    }

    /** `_close`: every handle left is cancelled. */
    method Close()
      requires Valid()
      modifies this
      ensures Valid() && closed && nextId == old(nextId) && ran == old(ran) && did == old(did)
      ensures given == old(given) && stopping == old(stopping)
      ensures old(closed) ==> unchanged(this)
      ensures !old(closed) ==> ready == [] && popped == nextId
    {
      if closed {
        return;
      }
      closed := true;
      for i := 0 to |ready|
        invariant Valid() && closed && ready == old(ready) && nextId == old(nextId)
        invariant popped == old(popped) && ran == old(ran) && did == old(did)
        invariant given == old(given) && stopping == old(stopping) && idleRunning == old(idleRunning)
        invariant forall k :: 0 <= k < i ==> ready[k].id in cancelled
      {
        CancelHandle(ready[i].id);
      }
      forall id: nat | id < nextId ensures id in ran || id in cancelled {
        if id >= popped {
          assert ready[id - popped].id == id;
        }
      }
      ready := [];
      popped := nextId;
    }
  }

  /** What the loop's thread, and threads calling `call_soon_threadsafe`, do. */
  datatype Event = Outside(acts: seq<Act>) | Idle(writeActs: seq<Act>) | CloseLoop

  /** Every run, also with batches cut short: callbacks run in the order in which they
      were appended, each at most once, never when cancelled, and none is skipped. */
  method AnyRun(events: seq<Event>) returns (q: ReadyQueue)
    ensures fresh(q)
    ensures Increasing(q.ran) && Respected(q.log)
    ensures forall id: nat :: id < q.nextId ==>
              id in q.ran || id in q.cancelled || (exists i :: 0 <= i < |q.ready| && q.ready[i].id == id)
    // the loop is to stop exactly once the stop handle, or a handle that raised, has run
    ensures |q.did| == |q.ran| && q.stopping == SomeStops(q.did)
    ensures forall k :: 0 <= k < |q.ran| ==> q.ran[k] < |q.given| && q.did[k] == q.given[q.ran[k]]
    // and it does not sleep while a handle waits
    ensures q.ready != [] ==> q.idleRunning
    ensures forall i, j :: 0 <= i < |q.ran| && 0 <= j < |q.ready| ==> q.ran[i] < q.ready[j].id
  {
    q := new ReadyQueue();
    for i := 0 to |events|
      invariant fresh(q) && q.Valid() && q.stopping == SomeStops(q.did)
    {
      match events[i]
      case Outside(acts) => if !q.closed { q.RunActs(acts); }
      case Idle(writeActs) =>
        if q.idleRunning && !q.closed {
          ghost var before, done := q.did, [];
          var stop, raised;
          stop, raised, done := q.OnIdle(writeActs);
          SomeStopsIn(before, done);
        }
      case CloseLoop => q.Close();
    }
    forall id: nat | id < q.nextId && id !in q.ran && id !in q.cancelled
      ensures exists i :: 0 <= i < |q.ready| && q.ready[i].id == id
    {
      assert q.ready[id - q.popped].id == id;
    }
  }
}
