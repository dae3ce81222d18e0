/** The wake-up handshake between the loop and other threads, as interleaved
    steps: `call_soon_threadsafe` appends and then sends, `_on_wake` and `_on_idle`
    look at the ready queue and then start or stop the idle handle.  The source
    holds Python's global lock only during one such step. */
module LoopWakes {

  type Tid = nat

  /** Where the loop's own thread is. */
  datatype Pc =
    | Polling              // in libuv, no callback running
    | InCallback           // a callback outside `_on_idle` runs
    | Waking               // `_on_wake` was entered, the queue not looked at yet
    | WakeStarts           // `_on_wake` decided to start the idle handle
    | Batch(left: nat)     // `_on_idle` runs its batch
    | IdleWrites           // the batch is over, queued streams are executed
    | IdleChecks           // `_on_idle` has not looked at the queue again yet
    | IdleStops            // `_on_idle` saw an empty queue and will stop the handle
    | IdleEnds             // `_on_idle` goes on to `uv_stop`
    | Appended(back: Pc)   // `call_soon` appended and will look at the idle handle
    | Starting(back: Pc)   // `call_soon` or `_stop` decided to start the idle handle
    | SetStopping(back: Pc)  // `_stop` set the flag and will look at the idle handle

  datatype Loop = Loop(
    ready: nat,               // length of `_ready`
    idle: bool,               // `handler_idle.running`
    asyncPending: bool,       // libuv has a wake-up to deliver
    stopping: bool,
    stopped: bool,            // `uv_stop` was called
    senders: set<Tid>,        // threads between their append and their send
    pc: Pc)

  /** A fresh run: `_run` has started the idle handle. */
  ghost predicate Init(s: Loop) {
    s.idle && !s.stopped && s.senders == {} && s.pc == Polling
  }

  /** Another thread: `_append_ready_handle`, then `handler_async.send()`. */
  ghost predicate ThreadAppends(s: Loop, t: Loop, tid: Tid) {
    tid !in s.senders && t == s.(ready := s.ready + 1, senders := s.senders + {tid})
  }

  ghost predicate ThreadSends(s: Loop, t: Loop, tid: Tid) {
    tid in s.senders && t == s.(asyncPending := true, senders := s.senders - {tid})
  }

  /** The places from which the loop's thread runs Python callbacks. */
  predicate RunsCallbacks(pc: Pc) {
    pc.InCallback? || pc.Batch? || pc.IdleWrites?
  }

  /** One step of the loop's thread. */
  ghost predicate LoopStep(s: Loop, t: Loop) {
    match s.pc
    case Polling =>
      // libuv runs an I/O callback, delivers the wake-up, or runs the idle handle
      || t == s.(pc := InCallback)
      || (s.asyncPending && t == s.(asyncPending := false, pc := Waking))
      || (s.idle && !s.stopped && t == s.(pc := Batch(s.ready)))
    case InCallback =>
      || t == s.(pc := Polling)
      || t == s.(ready := s.ready + 1, pc := Appended(s.pc))
      || Stops(s, t)
    case Waking =>
      t == s.(pc := if (s.ready > 0 || s.stopping) && !s.idle then WakeStarts else Polling)
    case WakeStarts => t == s.(idle := true, pc := Polling)
    case Batch(left) =>
      || (left > 0 && s.ready > 0 && t == s.(ready := s.ready - 1, pc := Batch(left - 1)))
      || (left == 0 && t == s.(pc := IdleWrites))
      || t == s.(ready := s.ready + 1, pc := Appended(s.pc))
      || Stops(s, t)
      || Raises(s, t)
    case IdleWrites =>
      || t == s.(pc := IdleChecks)
      || t == s.(ready := s.ready + 1, pc := Appended(s.pc))
      || Stops(s, t)
    case IdleChecks => t == s.(pc := if s.ready == 0 && s.idle then IdleStops else IdleEnds)
    case IdleStops => t == s.(idle := false, pc := IdleEnds)
    case IdleEnds => t == s.(stopped := s.stopped || s.stopping, pc := Polling)
    case Appended(back) => t == s.(pc := if s.idle then back else Starting(back))
    case Starting(back) => t == s.(idle := true, pc := back)
    case SetStopping(back) => t == s.(pc := if s.idle then back else Starting(back))
  }

  /** `_stop`. */
  ghost predicate Stops(s: Loop, t: Loop) {
    t == (if s.stopping then s else s.(stopping := true, pc := SetStopping(s.pc)))
  }

  /** A BaseException cuts the batch short: `_stop(ex)`, and `_on_idle` returns. */
  ghost predicate Raises(s: Loop, t: Loop) {
    t == (if s.stopping then s.(pc := Polling) else s.(stopping := true, pc := SetStopping(Polling)))
  }

  ghost predicate Next(s: Loop, t: Loop) {
    || LoopStep(s, t)
    || (exists tid :: ThreadAppends(s, t, tid))
    || (exists tid :: ThreadSends(s, t, tid))
  }

  ghost predicate IsRun(run: seq<Loop>) {
    && |run| > 0 && Init(run[0])
    && forall i :: 0 <= i < |run| - 1 ==> Next(run[i], run[i + 1])
  }

  /** Somebody is about to make the loop look at its ready queue. */
  ghost predicate Noticed(s: Loop) {
    || s.idle || s.asyncPending || s.senders != {}
    || s.pc == Waking || s.pc == WakeStarts || s.pc.Appended? || s.pc.Starting?
  }

  /** Calls return to places that run callbacks, and a batch pops no more than is there. */
  ghost predicate WellPlaced(s: Loop) {
    && (s.pc.Batch? || s.pc == IdleWrites || s.pc == IdleChecks || s.pc == IdleStops ==> s.idle)
    && (s.pc.Batch? ==> s.pc.left <= s.ready)
    && (s.pc.Appended? || s.pc.Starting? || s.pc.SetStopping? ==>
          && (RunsCallbacks(s.pc.back) || s.pc.back == Polling)
          && (s.pc.back.Batch? ==> s.pc.back.left <= s.ready)
          && (s.pc.back.Batch? || s.pc.back == IdleWrites ==> s.idle))
  }

  ghost predicate Inv(s: Loop) {
    && WellPlaced(s)
    && (s.ready > 0 ==> Noticed(s))
    // what arrives after `_on_idle` saw an empty queue announces itself
    && (s.pc == IdleStops && s.ready > 0 ==> s.asyncPending || s.senders != {})
    // a stop request is always on its way to `uv_stop`
    && (s.stopping && !s.stopped ==>
          s.idle || s.pc == IdleEnds || s.pc.SetStopping? || s.pc.Starting?)
  }

  /** Every step of either side keeps the invariant. */
  lemma StepKeepsInv(s: Loop, t: Loop)
    requires Inv(s) && Next(s, t)
    ensures Inv(t)
  {
  }

  /** No lost wake-up: in every reachable state of every interleaving, a nonempty
      ready queue has been noticed.  In particular libuv never blocks on it: when
      it can, with neither the idle handle nor a wake-up, some other thread is
      between its append and its send. */
  lemma {:induction false} NoLostWakeUp(run: seq<Loop>, i: nat)
    requires IsRun(run) && i < |run|
    ensures Inv(run[i])
    ensures run[i].ready > 0 ==> Noticed(run[i])
    ensures run[i].ready > 0 && run[i].pc == Polling && !run[i].idle && !run[i].asyncPending ==> run[i].senders != {}
    ensures run[i].pc.Batch? ==> run[i].pc.left <= run[i].ready
    ensures run[i].stopping && !run[i].stopped && run[i].pc == Polling ==> run[i].idle
  {
    if i == 0 {
    } else {
      NoLostWakeUp(run, i - 1);
      assert Next(run[i - 1], run[i]);
      StepKeepsInv(run[i - 1], run[i]);
    }
  }

  /** And it is delivered: once the other threads have sent, libuv's own steps
      reach a batch that covers the whole queue. */
  lemma WakeUpDelivered(s: Loop) returns (run: seq<Loop>)
    requires Inv(s) && s.ready > 0 && !s.stopped && s.senders == {} && s.pc == Polling
    ensures 2 <= |run| <= 5 && run[0] == s
    ensures forall i :: 0 <= i < |run| - 1 ==> LoopStep(run[i], run[i + 1])
    ensures run[|run| - 1].pc == Batch(s.ready) && run[|run| - 1].ready == s.ready
  {
    if s.idle {
      run := [s, s.(pc := Batch(s.ready))];
    } else {
      var a := s.(asyncPending := false, pc := Waking);
      var b := a.(pc := WakeStarts);
      var c := b.(idle := true, pc := Polling);
      run := [s, a, b, c, c.(pc := Batch(s.ready))];
    }
  }
}
