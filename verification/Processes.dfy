/** `UVProcessTransport`: the callbacks of a subprocess are held back until its pipes are
    connected, then replayed. */
module Processes {
  import opened Wrappers
  import opened Buffers
  import opened Histories

  datatype Call =
    | ConnectionMade
    | PipeDataReceived(fd: nat, data: int)
    | PipeConnectionLost(fd: nat)
    | ProcessExited
    | ConnectionLost

  // ---- What the pipes and the process report ----

  type Reports = History<Call>

  predicate Exited(r: Reports) {
    r.Then? && (Exited(r.before) || r.call == ProcessExited)
  }

  /** The pipes that were lost. */
  function Lost(r: Reports): set<nat> {
    match r
    case Start => {}
    case Then(before, call) => Lost(before) + if call.PipeConnectionLost? then {call.fd} else {}
  }

  /** One exit, and nothing from a pipe after its loss. */
  predicate MayReport(pipes: set<nat>, r: Reports, c: Call) {
    match c
    case PipeDataReceived(fd, _) => fd in pipes - Lost(r)
    case PipeConnectionLost(fd) => fd in pipes - Lost(r)
    case ProcessExited => !Exited(r)
    case _ => false
  }

  predicate Arrivals(pipes: set<nat>, r: Reports) {
    match r case Start => true case Then(before, c) => Arrivals(pipes, before) && MayReport(pipes, before, c)
  }

  /** The process exited and every pipe is disconnected. */
  predicate Complete(pipes: set<nat>, r: Reports) {
    Exited(r) && pipes <= Lost(r)
  }

  predicate Extends(early: Reports, r: Reports) {
    r == early || (r.Then? && Extends(early, r.before))
  }

  lemma {:induction false} LostAreOfPipes(pipes: set<nat>, r: Reports)
    requires Arrivals(pipes, r)
    ensures Lost(r) <= pipes
  {
    if !r.Then? {
    } else {
      LostAreOfPipes(pipes, r.before);
    }
  }

  lemma {:induction false} NothingAfterComplete(pipes: set<nat>, early: Reports, r: Reports)
    requires Arrivals(pipes, r) && Extends(early, r) && Complete(pipes, early)
    ensures r == early
  {
    if r == early {
    } else {
      NothingAfterComplete(pipes, early, r.before);
      assert false;
    }
  }

  // ---- The order in which callbacks are scheduled ----

  predicate HasPipeLost(s: seq<Call>) {
    s != [] && (HasPipeLost(s[..|s| - 1]) || s[|s| - 1].PipeConnectionLost?)
  }

  /** `s` with `ConnectionLost` right after its first pipe loss. */
  function AfterFirstPipeLost(s: seq<Call>): seq<Call> {
    if s == [] then []
    else
      var front, last := s[..|s| - 1], s[|s| - 1];
      if HasPipeLost(front) then AfterFirstPipeLost(front) + [last]
      else if last.PipeConnectionLost? then s + [ConnectionLost]
      else s
  }

  function WithoutLost(s: seq<Call>): seq<Call> {
    if s == [] then []
    else
      var front, last := s[..|s| - 1], s[|s| - 1];
      WithoutLost(front) + if last == ConnectionLost then [] else [last]
  }

  function CountLost(s: seq<Call>): nat {
    if s == [] then 0
    else CountLost(s[..|s| - 1]) + if s[|s| - 1] == ConnectionLost then 1 else 0
  }

  lemma Snoc(s: seq<Call>, c: Call)
    ensures WithoutLost(s + [c]) == WithoutLost(s) + if c == ConnectionLost then [] else [c]
    ensures CountLost(s + [c]) == CountLost(s) + if c == ConnectionLost then 1 else 0
    ensures HasPipeLost(s + [c]) <==> HasPipeLost(s) || c.PipeConnectionLost?
    ensures AfterFirstPipeLost(s + [c]) ==
              if HasPipeLost(s) then AfterFirstPipeLost(s) + [c]
              else if c.PipeConnectionLost? then s + [c] + [ConnectionLost] else s + [c]
  {
    assert (s + [c])[..|s|] == s;
  }

  /** The pipes and the process were done before the protocol was told anything, and the exit
      came before the last pipe loss. */
  predicate ReplayedTooSoon(pipes: set<nat>, early: Reports) {
    Complete(pipes, early) && early.Then? && early.call != ProcessExited
  }

  /** What follows `connection_made`, given the reports that came before. */
  function Replayed(pipes: set<nat>, early: Reports): seq<Call> {
    if ReplayedTooSoon(pipes, early) then AfterFirstPipeLost(early.Calls())
    else if Complete(pipes, early) then early.Calls() + [ConnectionLost]
    else early.Calls()
  }

  /** All callbacks once stdio is ready, of which `early` was reported before that. */
  function Told(pipes: set<nat>, early: Reports, r: Reports): seq<Call> {
    if r == early || r.Start? then [ConnectionMade] + Replayed(pipes, early)
    else Told(pipes, early, r.before) + [r.call] + if Complete(pipes, r) then [ConnectionLost] else []
  }

  // ---- Properties of that order ----

  lemma {:induction false} NoLostInArrivals(pipes: set<nat>, r: Reports)
    requires Arrivals(pipes, r)
    ensures WithoutLost(r.Calls()) == r.Calls() && CountLost(r.Calls()) == 0 && ConnectionMade !in r.Calls()
    ensures HasPipeLost(r.Calls()) <==> Lost(r) != {}
  {
    if !r.Then? {
    } else {
      NoLostInArrivals(pipes, r.before);
      Snoc(r.before.Calls(), r.call);
    }
  }

  lemma {:induction false} AfterFirstPipeLostKeeps(pipes: set<nat>, r: Reports)
    requires Arrivals(pipes, r)
    ensures WithoutLost(AfterFirstPipeLost(r.Calls())) == r.Calls()
    ensures CountLost(AfterFirstPipeLost(r.Calls())) == if Lost(r) != {} then 1 else 0
  {
    if !r.Then? {
    } else {
      var s := r.before.Calls();
      AfterFirstPipeLostKeeps(pipes, r.before);
      NoLostInArrivals(pipes, r.before);
      Snoc(s, r.call);
      Snoc(AfterFirstPipeLost(s), r.call);
      Snoc(s + [r.call], ConnectionLost);
    }
  }

  /** A run that is complete, and not by an exit, ended with the loss of a pipe. */
  lemma LastLoss(pipes: set<nat>, r: Reports)
    requires Arrivals(pipes, r) && ReplayedTooSoon(pipes, r)
    ensures r.call.PipeConnectionLost? && r.call.fd in pipes && r.call.fd !in Lost(r.before)
    ensures Lost(r.before) == pipes - {r.call.fd}
  {
    LostAreOfPipes(pipes, r);
  }

  lemma ReplayLast(pipes: set<nat>, r: Reports)
    requires Arrivals(pipes, r) && ReplayedTooSoon(pipes, r)
    ensures
      var order := AfterFirstPipeLost(r.Calls());
      order != [] && (order[|order| - 1] == ConnectionLost <==> |pipes| < 2)
  {
    LastLoss(pipes, r);
    NoLostInArrivals(pipes, r.before);
    Snoc(r.before.Calls(), r.call);
    assert pipes == {r.call.fd} + Lost(r.before);
    assert |pipes| == 1 + |Lost(r.before)|;
  }

  /** `connection_lost` is the last callback exactly when both ends are done, unless two or more
      pipes were lost, one of them after the exit, before the protocol was connected. */
  lemma ConnectionLostComesLast(pipes: set<nat>, early: Reports, r: Reports)
    requires Arrivals(pipes, r) && Extends(early, r)
    ensures
      var order := Told(pipes, early, r);
      order != [] &&
      (order[|order| - 1] == ConnectionLost <==>
        Complete(pipes, r) && !(ReplayedTooSoon(pipes, early) && |pipes| >= 2))
  {
    if ReplayedTooSoon(pipes, early) {
      NothingAfterComplete(pipes, early, r);
      ReplayLast(pipes, early);
    }
  }

  lemma {:induction false} Cons(c: Call, s: seq<Call>)
    requires c != ConnectionLost
    ensures WithoutLost([c] + s) == [c] + WithoutLost(s)
    ensures CountLost([c] + s) == CountLost(s)
  {
    if s == [] {
      assert [c] + s == [] + [c];
      Snoc([], c);
    } else {
      var front, last := s[..|s| - 1], s[|s| - 1];
      assert s == front + [last];
      Assoc([c], front, [last]);
      Cons(c, front);
      Snoc(front, last);
      Snoc([c] + front, last);
      if last != ConnectionLost {
        Assoc([c], WithoutLost(front), [last]);
      }
    }
  }

  /** The order loses, repeats and reorders nothing that was reported. */
  lemma {:induction false} ToldKeeps(pipes: set<nat>, early: Reports, r: Reports)
    requires Arrivals(pipes, r) && Extends(early, r)
    ensures Told(pipes, early, r) != [] && Told(pipes, early, r)[0] == ConnectionMade
    ensures WithoutLost(Told(pipes, early, r)) == [ConnectionMade] + r.Calls()
    ensures CountLost(Told(pipes, early, r)) == if Complete(pipes, r) then 1 else 0
  {
    if r == early {
      Cons(ConnectionMade, Replayed(pipes, early));
      ReplayedKeeps(pipes, early);
    } else {
      ToldKeeps(pipes, early, r.before);
      assert MayReport(pipes, r.before, r.call) && !Complete(pipes, r.before);
      Extend(Told(pipes, early, r.before), r.before.Calls(), r.call, Complete(pipes, r));
    }
  }

  lemma Extend(told: seq<Call>, calls: seq<Call>, c: Call, ends: bool)
    requires told != [] && told[0] == ConnectionMade && c != ConnectionLost
    requires WithoutLost(told) == [ConnectionMade] + calls && CountLost(told) == 0
    ensures
      var t := told + [c] + if ends then [ConnectionLost] else [];
      && t[0] == ConnectionMade
      && WithoutLost(t) == [ConnectionMade] + (calls + [c])
      && CountLost(t) == if ends then 1 else 0
  {
    Snoc(told, c);
    Snoc(told + [c], ConnectionLost);
    Assoc([ConnectionMade], calls, [c]);
    assert told + [c] + [] == told + [c];
  }

  lemma ReplayedKeeps(pipes: set<nat>, early: Reports)
    requires Arrivals(pipes, early)
    ensures WithoutLost(Replayed(pipes, early)) == early.Calls()
    ensures CountLost(Replayed(pipes, early)) == if Complete(pipes, early) then 1 else 0
  {
    NoLostInArrivals(pipes, early);
    if ReplayedTooSoon(pipes, early) {
      LastLoss(pipes, early);
      AfterFirstPipeLostKeeps(pipes, early);
    } else {
      Snoc(early.Calls(), ConnectionLost);
    }
  }

  /** The exit, then the loss of two pipes with data in between, all before the protocol was
      connected: `connection_lost` is then not the last callback. */
  lemma ConnectionLostCanComeEarly(data: int)
    ensures
      var early := Then(Then(Then(Then(Start, ProcessExited), PipeConnectionLost(1)),
                           PipeDataReceived(2, data)), PipeConnectionLost(2));
      var order := Told({1, 2}, early, early);
      Arrivals({1, 2}, early) && Complete({1, 2}, early) && order != [] && order[|order| - 1] != ConnectionLost
  {
    var one := Then(Then(Start, ProcessExited), PipeConnectionLost(1));
    var early := Then(Then(one, PipeDataReceived(2, data)), PipeConnectionLost(2));
    assert Lost(one) == {1} && Lost(early) == {1, 2};
    assert Arrivals({1, 2}, one) && Arrivals({1, 2}, early.before) && Arrivals({1, 2}, early);
    ConnectionLostComesLast({1, 2}, early, early);
  }

  /** What is held back until stdio is ready. */
  function Pending(r: Reports, finished: bool): seq<Call> {
    r.Calls() + if finished then [ConnectionLost] else []
  }

  /** Replaying what was held back gives the callbacks their final order. */
  lemma ReplayMeetsOrder(pipes: set<nat>, early: Reports, finished: bool)
    requires Arrivals(pipes, early)
    requires finished == (Complete(pipes, early) && !ReplayedTooSoon(pipes, early))
    ensures
      var calls := Pending(early, finished);
      && ConnectionMade !in calls
      && Replayed(pipes, early) == (if ReplayedTooSoon(pipes, early) then AfterFirstPipeLost(calls) else calls)
      && (ReplayedTooSoon(pipes, early) ==> HasPipeLost(calls))
  {
    NoLostInArrivals(pipes, early);
    assert early.Calls() + [] == early.Calls();
    if ReplayedTooSoon(pipes, early) {
      LastLoss(pipes, early);
    }
  }

  lemma {:induction false} NotBefore(early: Reports, r: Reports, c: Call)
    requires Extends(early, r)
    ensures |early.Calls()| <= |r.Calls()| && early != Then(r, c)
  {
    if r == early {
    } else {
      NotBefore(early, r.before, r.call);
    }
    assert |Then(r, c).Calls()| == |r.Calls()| + 1;
  }

  // ---- The transport ----

  datatype Event =
    | Exit(status: int, signal: nat)
    | DataReceived(fd: nat, data: int)
    | PipeLost(fd: nat)
    | StdioInited(failed: bool)
    | RunReady(raises: bool, waiterUsable: bool)

  /** What an event adds to the reports; who is done reports nothing more. */
  function Report(pipes: set<nat>, r: Reports, event: Event): Reports {
    var c := match event
             case Exit(_, _) => ProcessExited
             case DataReceived(fd, data) => PipeDataReceived(fd, data)
             case PipeLost(fd) => PipeConnectionLost(fd)
             case _ => ConnectionMade;
    if MayReport(pipes, r, c) then Then(r, c) else r
  }

  function ReportsOf(pipes: set<nat>, events: seq<Event>): Reports {
    if events == [] then Start else Report(pipes, ReportsOf(pipes, events[..|events| - 1]), events[|events| - 1])
  }

  /** The code of the first exit; a child ended by a signal has its negated number for one. */
  function CodeAfter(code: Option<int>, event: Event): Option<int> {
    if code.None? && event.Exit? then Some(if event.signal > 0 then 0 - event.signal else event.status) else code
  }

  function CodeOf(events: seq<Event>): Option<int> {
    if events == [] then None else CodeAfter(CodeOf(events[..|events| - 1]), events[|events| - 1])
  }

  /** How far the connection of the protocol came. */
  datatype Progress =
    | Connecting   // the pipes are being connected
    | Unconnected  // which failed
    | ToRun        // connection_made is scheduled
    | Escaped      // it raised, and nobody took the exception
    | Ready        // stdio is ready

  function ProgressAfter(p: Progress, event: Event): Progress {
    match event
    case StdioInited(failed) => if !p.Connecting? then p else if failed then Unconnected else ToRun
    case RunReady(raises, waiterUsable) => if !p.ToRun? then p else if raises && !waiterUsable then Escaped else Ready
    case _ => p
  }

  /** With pipes. */
  function ProgressOf(events: seq<Event>): Progress {
    if events == [] then Connecting
    else ProgressAfter(ProgressOf(events[..|events| - 1]), events[|events| - 1])
  }

  /** What was reported before stdio was ready; without pipes it always is. */
  function EarlyOf(pipes: set<nat>, events: seq<Event>): Reports {
    if events == [] || pipes == {} then Start
    else
      var front := events[..|events| - 1];
      if ProgressOf(front).Ready? then EarlyOf(pipes, front) else ReportsOf(pipes, events)
  }

  class UVProcessTransport {
    const pipes: set<nat>          // the descriptors that are pipes
    var disconnected: set<nat>     // those whose protocol saw connection_lost
    var returncode: Option<int>
    var finished: bool
    var stdioReady: bool
    var inited: bool               // the future of all pipe connections is done
    var pendingCalls: seq<Call>
    var scheduled: seq<Call>       // every callback given to the loop
    var ran: nat                   // how many of them the loop has run
    ghost var reports: Reports     // what the pipes and the process reported
    ghost var early: Reports       // the same, until stdio was ready

    ghost predicate ArrivalsValid()
      reads `disconnected, `returncode, `reports
    {
      Arrivals(pipes, reports) && returncode.Some? == Exited(reports) && disconnected == Lost(reports)
    }

    /** Nothing but `connection_made` can be scheduled before stdio is ready. */
    ghost predicate HeldBack()
      reads `finished, `pendingCalls, `scheduled, `early, `reports
    {
      && early == reports
      && (scheduled == [] || scheduled == [ConnectionMade])
      && finished == (Complete(pipes, reports) && !ReplayedTooSoon(pipes, reports))
      && pendingCalls == Pending(reports, finished)
    }

    ghost predicate Connected()
      reads `finished, `pendingCalls, `scheduled, `early, `reports
    {
      && Extends(early, reports)
      && pendingCalls == []
      && scheduled == Told(pipes, early, reports)
      && finished == Complete(pipes, reports)
    }

    ghost predicate Valid()
      reads this
    {
      && ArrivalsValid()
      && (if stdioReady then Connected() else HeldBack())
      && (pipes == {} ==> stdioReady && early == Start)
      && (pipes != {} && stdioReady ==> ran > 0)
      && (!inited ==> scheduled == [])
      && ran <= |scheduled|
    }

    function CurrentProgress(): Progress
      reads `inited, `scheduled, `ran, `stdioReady
    {
      if !inited then Connecting
      else if scheduled == [] then Unconnected
      else if ran == 0 then ToRun
      else if stdioReady then Ready
      else Escaped
    }

    /** Nobody but the loop makes stdio ready. */
    twostate predicate Waits()
      reads `stdioReady, `scheduled
    {
      stdioReady == old(stdioReady) && (!stdioReady ==> scheduled == old(scheduled))
      && old(scheduled) <= scheduled
    }

    /** `new`. */
    constructor (pipes: set<nat>)
      ensures Valid() && this.pipes == pipes && reports == Start && ran == 0 && returncode == None
      ensures early == Start && (pipes != {} ==> CurrentProgress() == Connecting && !stdioReady)
    {
      this.pipes, disconnected, returncode, finished := pipes, {}, None, false;
      pendingCalls, ran, early, reports := [], 0, Start, Start;
      if pipes != {} {
        stdioReady, inited, scheduled := false, false, [];
      } else {
        stdioReady, inited, scheduled := true, true, [ConnectionMade];
      }
    }

    /** `__stdio_inited`; the exception goes to the waiter. */
    method OnStdioInited(failed: bool)
      requires Valid() && !inited
      modifies `inited, `scheduled
      ensures Valid() && inited && scheduled == old(scheduled) + if failed then [] else [ConnectionMade]
    {
      inited := true;
      if !failed {
        scheduled := scheduled + [ConnectionMade];
      }
    }

    predicate ReadyToFinish()
      reads `returncode, `finished, `disconnected
    {
      returncode.Some? && !finished && disconnected == pipes
    }

    method TryFinish()
      modifies `finished, `scheduled, `pendingCalls
      ensures finished == (old(finished) || old(ReadyToFinish()))
      ensures scheduled == old(scheduled) + if old(ReadyToFinish()) && stdioReady then [ConnectionLost] else []
      ensures pendingCalls == old(pendingCalls) + if old(ReadyToFinish()) && !stdioReady then [ConnectionLost] else []
    {
      if returncode.None? || finished {
        return;
      }
      if disconnected == pipes {
        finished := true;
        if stdioReady {
          scheduled := scheduled + [ConnectionLost];
        } else {
          pendingCalls := pendingCalls + [ConnectionLost];
        }
      }
    }

    method PipeConnectionLostCall(fd: nat)
      modifies `finished, `scheduled, `pendingCalls
      ensures stdioReady ==>
                && finished == (old(finished) || old(ReadyToFinish())) && pendingCalls == old(pendingCalls)
                && scheduled == old(scheduled) + [PipeConnectionLost(fd)]
                     + if old(ReadyToFinish()) then [ConnectionLost] else []
      ensures !stdioReady ==>
                && finished == old(finished) && scheduled == old(scheduled)
                && pendingCalls == old(pendingCalls) + [PipeConnectionLost(fd)]
    {
      if stdioReady {
        scheduled := scheduled + [PipeConnectionLost(fd)];
        TryFinish();
      } else {
        pendingCalls := pendingCalls + [PipeConnectionLost(fd)];
      }
    }

    method PipeDataReceivedCall(fd: nat, data: int)
      modifies `scheduled, `pendingCalls
      ensures scheduled == old(scheduled) + if stdioReady then [PipeDataReceived(fd, data)] else []
      ensures pendingCalls == old(pendingCalls) + if stdioReady then [] else [PipeDataReceived(fd, data)]
    {
      if stdioReady {
        scheduled := scheduled + [PipeDataReceived(fd, data)];
      } else {
        pendingCalls := pendingCalls + [PipeDataReceived(fd, data)];
      }
    }

    /** The loop of `_call_connection_made` over the calls held back. */
    method Replay(calls: seq<Call>)
      requires stdioReady && ConnectionMade !in calls
      modifies `finished, `scheduled, `pendingCalls
      ensures pendingCalls == old(pendingCalls)
      ensures scheduled == old(scheduled) + if old(ReadyToFinish()) then AfterFirstPipeLost(calls) else calls
      ensures finished == (old(finished) || (old(ReadyToFinish()) && HasPipeLost(calls)))
    {
      for i := 0 to |calls|
        invariant pendingCalls == old(pendingCalls)
        invariant scheduled ==
                  old(scheduled) + if old(ReadyToFinish()) then AfterFirstPipeLost(calls[..i]) else calls[..i]
        invariant finished == (old(finished) || (old(ReadyToFinish()) && HasPipeLost(calls[..i])))
      {
        assert calls[..i + 1] == calls[..i] + [calls[i]];
        match calls[i] {
          case PipeConnectionLost(fd) => PipeConnectionLostCall(fd);
          case PipeDataReceived(fd, data) => PipeDataReceivedCall(fd, data);
          case ProcessExited => scheduled := scheduled + [ProcessExited];
          case ConnectionLost => scheduled := scheduled + [ConnectionLost];
        }
      }
      assert calls[..|calls|] == calls;
    }

    lemma CompleteWhen()
      requires ArrivalsValid()
      ensures Complete(pipes, reports) <==> returncode.Some? && disconnected == pipes
    {
      LostAreOfPipes(pipes, reports);
    }

    /** Notes an event, and that the process exited or a pipe was lost. */
    method Record(c: Call, code: Option<int>, lost: set<nat>)
      requires Valid() && !Complete(pipes, reports) && MayReport(pipes, reports, c)
      requires code == if c == ProcessExited then code else returncode
      requires c == ProcessExited ==> code.Some?
      requires lost == if c.PipeConnectionLost? then disconnected + {c.fd} else disconnected
      modifies `returncode, `disconnected, `early, `reports
      ensures ArrivalsValid() && returncode == code && disconnected == lost && reports == Then(old(reports), c)
      ensures Complete(pipes, reports) <==> returncode.Some? && disconnected == pipes
      ensures if stdioReady then early == old(early) && Extends(early, reports) else early == reports
      ensures stdioReady ==> Told(pipes, early, reports) == old(Told(pipes, early, reports)) + [c] +
                               if Complete(pipes, reports) then [ConnectionLost] else []
    {
      if stdioReady {
        NotBefore(early, reports, c);
      } else {
        early := Then(early, c);
      }
      reports, returncode, disconnected := Then(reports, c), code, lost;
      CompleteWhen();
    }

    /** `_on_exit`. */
    method OnExit(status: int, signal: nat)
      requires Valid() && returncode.None?
      modifies `returncode, `disconnected, `finished, `scheduled, `pendingCalls, `early, `reports
      ensures Valid() && reports == Then(old(reports), ProcessExited)
      ensures returncode == CodeAfter(None, Exit(status, signal)) && disconnected == old(disconnected)
      ensures Waits() && early == if stdioReady then old(early) else reports
    {
      CompleteWhen();
      var code := if signal != 0 then 0 - signal else status;
      Record(ProcessExited, Some(code), disconnected);
      if stdioReady {
        scheduled := scheduled + [ProcessExited];
      } else {
        pendingCalls := pendingCalls + [ProcessExited];
      }
      assert !finished;
      TryFinish();
    }

    /** `connection_lost` of the protocol of a pipe. */
    method OnPipeLost(fd: nat)
      requires Valid() && fd in pipes - disconnected
      modifies `returncode, `disconnected, `finished, `scheduled, `pendingCalls, `early, `reports
      ensures Valid() && reports == Then(old(reports), PipeConnectionLost(fd))
      ensures disconnected == old(disconnected) + {fd} && returncode == old(returncode)
      ensures Waits() && early == if stdioReady then old(early) else reports
    {
      CompleteWhen();
      Record(PipeConnectionLost(fd), returncode, disconnected + {fd});
      PipeConnectionLostCall(fd);
    }

    /** `data_received` of the protocol of a pipe. */
    method OnDataReceived(fd: nat, data: int)
      requires Valid() && fd in pipes - disconnected
      modifies `returncode, `disconnected, `scheduled, `pendingCalls, `early, `reports
      ensures Valid() && reports == Then(old(reports), PipeDataReceived(fd, data))
      ensures disconnected == old(disconnected) && returncode == old(returncode)
      ensures Waits() && early == if stdioReady then old(early) else reports
    {
      CompleteWhen();
      Record(PipeDataReceived(fd, data), returncode, disconnected);
      PipeDataReceivedCall(fd, data);
    }

    /** `_call_connection_made`, run by the loop; with no usable waiter its exception escapes
        before stdio is marked ready. */
    method CallConnectionMade(raises: bool, waiterUsable: bool)
      requires Valid() && ran == 0 < |scheduled|
      modifies `stdioReady, `finished, `scheduled, `pendingCalls, `ran
      ensures Valid() && ran == 1
      ensures stdioReady == (old(stdioReady) || !raises || waiterUsable)
      ensures old(scheduled) <= scheduled && (!stdioReady ==> scheduled == old(scheduled))
    {
      ran := ran + 1;
      if raises && !waiterUsable {
        return;
      }
      CompleteWhen();
      if !stdioReady {
        ReplayMeetsOrder(pipes, early, finished);
      }
      stdioReady := true;
      if pendingCalls != [] {
        var calls := pendingCalls;
        pendingCalls := [];
        Replay(calls);
      }
    }

    /** The loop runs our next callback. */
    method RunNext(raises: bool, waiterUsable: bool)
      requires Valid() && ran < |scheduled|
      modifies `stdioReady, `finished, `scheduled, `pendingCalls, `ran
      ensures Valid() && ran == old(ran) + 1 && old(scheduled) <= scheduled
      ensures stdioReady == (old(stdioReady) || (old(ran) == 0 && (!raises || waiterUsable)))
      ensures !stdioReady || old(stdioReady && ran > 0) ==> scheduled == old(scheduled)
    {
      if ran == 0 {
        CallConnectionMade(raises, waiterUsable);
      } else {
        ran := ran + 1;
      }
    }

    /** One event; a pipe or a process that is done reports nothing more. */
    method Step(event: Event)
      requires Valid()
      modifies this
      ensures Valid() && reports == Report(pipes, old(reports), event)
      ensures returncode == CodeAfter(old(returncode), event)
      ensures pipes != {} ==> CurrentProgress() == ProgressAfter(old(CurrentProgress()), event)
      ensures early == if old(stdioReady) then old(early) else reports
    {
      match event {
        case Exit(status, signal) =>
          if returncode.None? {
            OnExit(status, signal);
          }
        case DataReceived(fd, data) =>
          if fd in pipes - disconnected {
            OnDataReceived(fd, data);
          }
        case PipeLost(fd) =>
          if fd in pipes - disconnected {
            OnPipeLost(fd);
          }
        case StdioInited(failed) =>
          if !inited {
            OnStdioInited(failed);
          }
        case RunReady(raises, waiterUsable) =>
          if ran < |scheduled| {
            RunNext(raises, waiterUsable);
          }
      }
    }
  }

  /** For every interleaving of exit, pipe data, pipe loss and readiness: `connection_made` comes
      first, every report is delivered once and in order, and `connection_lost` is scheduled once,
      when both the process and its pipes are done and stdio became ready. */
  method AnyRun(pipes: set<nat>, events: seq<Event>) returns (t: UVProcessTransport)
    ensures t.Valid() && t.pipes == pipes && t.reports == ReportsOf(pipes, events)
    ensures t.returncode == CodeOf(events)
    ensures t.stdioReady <==> pipes == {} || ProgressOf(events).Ready?
    ensures t.early == EarlyOf(pipes, events)
    ensures t.scheduled == if t.stdioReady then Told(pipes, EarlyOf(pipes, events), ReportsOf(pipes, events))
                           else if ProgressOf(events).ToRun? || ProgressOf(events).Escaped? then [ConnectionMade]
                           else []
    ensures t.scheduled != [] ==> t.scheduled[0] == ConnectionMade
    ensures WithoutLost(t.scheduled) == if t.stdioReady then [ConnectionMade] + t.reports.Calls() else t.scheduled
    ensures CountLost(t.scheduled) == if t.stdioReady && Complete(pipes, ReportsOf(pipes, events)) then 1 else 0
    ensures t.stdioReady ==>
              (t.scheduled[|t.scheduled| - 1] == ConnectionLost <==>
                && Complete(pipes, ReportsOf(pipes, events))
                && !(ReplayedTooSoon(pipes, EarlyOf(pipes, events)) && |pipes| >= 2))
  {
    t := new UVProcessTransport(pipes);
    assert events[..0] == [];
    for i := 0 to |events|
      invariant fresh(t) && t.Valid() && t.pipes == pipes
      invariant t.reports == ReportsOf(pipes, events[..i]) && t.returncode == CodeOf(events[..i])
      invariant pipes != {} ==> t.CurrentProgress() == ProgressOf(events[..i])
      invariant t.early == EarlyOf(pipes, events[..i])
      invariant pipes != {} ==> (t.stdioReady <==> ProgressOf(events[..i]).Ready?)
    {
      t.Step(events[i]);
      assert events[..i + 1][..i] == events[..i];
    }
    assert events[..|events|] == events;
    if t.stdioReady {
      ToldKeeps(pipes, t.early, t.reports);
      ConnectionLostComesLast(pipes, t.early, t.reports);
    } else if t.scheduled != [] {
      Cons(ConnectionMade, []);
    }
  }
}
