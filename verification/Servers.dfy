/** `Server`: counting the connections of a listening server, closing it and waiting for it. */
module Servers {
  import opened Wrappers

  datatype Future = Pending | Cancelled | Finished

  /** The server side of a connection: `_closed`, and whether `_server` is still set. */
  datatype Transport = Transport(closed: bool, attached: bool)

  datatype Event =
    | StartServing
    | Accept(factoryCloses: bool)      // a connection, whose protocol factory may close the server
    | ConnectionLost(transport: nat)   // `_call_connection_lost`, however often it was scheduled
    | Close
    | WaitClosed
    | CancelWaiter(waiter: nat)

  function Attached(ts: seq<Transport>): nat {
    if ts == [] then 0
    else Attached(ts[..|ts| - 1]) + if ts[|ts| - 1].attached then 1 else 0
  }

  lemma {:induction false} AttachedUpdate(ts: seq<Transport>, i: nat, t: Transport)
    requires i < |ts|
    ensures Attached(ts[i := t]) == Attached(ts) - (if ts[i].attached then 1 else 0) + (if t.attached then 1 else 0)
  {
    if i == |ts| - 1 {
      assert ts[i := t][..i] == ts[..i];
    } else {
      assert ts[i := t][..|ts| - 1] == ts[..|ts| - 1][i := t];
      AttachedUpdate(ts[..|ts| - 1], i, t);
    }
  }

  /** Every future that waits is finished. */
  function Woken(futures: seq<Future>): (r: seq<Future>)
    ensures |r| == |futures|
    ensures forall i :: 0 <= i < |r| ==> r[i] == if futures[i] == Pending then Finished else futures[i]
  {
    seq(|futures|, i requires 0 <= i < |futures| => if futures[i] == Pending then Finished else futures[i])
  }

  function Settled(futures: seq<Future>, over: bool): seq<Future> {
    if over then Woken(futures) else futures
  }

  class Server {
    var servers: Option<nat>           // how many listening handles; None once closed
    var waiters: Option<seq<nat>>      // futures by number; None once woken
    var activeCount: int
    var serving: bool
    var futures: seq<Future>
    var transports: seq<Transport>
    var wakeups: nat
    var rejected: nat                  // connections for which the assertion of `_attach` failed

    ghost predicate Valid()
      reads this
    {
      && activeCount == Attached(transports)
      && (waiters.None? <==> servers.None? && activeCount == 0)
      && wakeups == (if waiters.None? then 1 else 0)
      && WaitersValid()
      && (forall i :: 0 <= i < |transports| ==> transports[i].attached == !transports[i].closed)
    }

    /** Closed, and the last connection is gone. */
    predicate Over()
      reads `servers, `activeCount
    {
      servers.None? && activeCount == 0
    }

    /** Exactly the futures nobody finished are waited for. */
    ghost predicate WaitersValid()
      reads `waiters, `futures
    {
      && (waiters.Some? ==> waiters.value == seq(|futures|, i => i))
      && (forall i :: 0 <= i < |futures| ==> futures[i] == Finished ==> waiters.None?)
      && (waiters.None? ==> forall i :: 0 <= i < |futures| ==> futures[i] != Pending)
    }

    constructor (handles: nat)
      ensures Valid() && servers == Some(handles) && activeCount == 0 && !serving
      ensures futures == [] && transports == [] && rejected == 0
    {
      servers, waiters, activeCount, serving := Some(handles), Some([]), 0, false;
      futures, transports, wakeups, rejected := [], [], 0, 0;
    }

    /** `_wakeup`; the list of waiters is there to iterate over. */
    method Wakeup()
      requires waiters.Some? && WaitersValid()
      modifies `waiters, `futures, `wakeups
      ensures waiters == None && WaitersValid() && wakeups == old(wakeups) + 1
      ensures futures == Woken(old(futures))
    {
      var list := waiters.value;
      waiters := None;
      for i := 0 to |list|
        modifies `futures
        invariant |futures| == old(|futures|)
        invariant forall j :: 0 <= j < |futures| ==>
                    futures[j] == if j < i && old(futures)[j] == Pending then Finished else old(futures)[j]
      {
        if futures[list[i]] == Pending {
          futures := futures[list[i] := Finished];
        }
      }
      wakeups := wakeups + 1;
    }

    /** `_attach`; its assertion fails on a closed server. */
    method Attach() returns (ok: bool)
      modifies `activeCount
      ensures ok == servers.Some? && activeCount == old(activeCount) + if ok then 1 else 0
    {
      if servers.None? {
        return false;
      }
      activeCount := activeCount + 1;
      return true;
    }

    /** `_detach`; its assertion holds. */
    method Detach()
      requires activeCount > 0 && WaitersValid() && waiters.Some?
      modifies `activeCount, `waiters, `futures, `wakeups
      ensures activeCount == old(activeCount) - 1 && WaitersValid()
      ensures futures == Settled(old(futures), Over())
      ensures if Over() then waiters == None && wakeups == old(wakeups) + 1
              else waiters == old(waiters) && wakeups == old(wakeups)
    {
      activeCount := activeCount - 1;
      if activeCount == 0 && servers.None? {
        Wakeup();
      }
    }

    /** `close`. */
    method CloseServer()
      requires Valid()
      modifies `servers, `serving, `waiters, `futures, `wakeups
      ensures Valid() && servers == None && futures == Settled(old(futures), Over())
      ensures serving == (old(serving) && old(servers).None?)
    {
      if servers.None? {
        return;
      }
      servers := None;
      serving := false;
      if activeCount == 0 {
        Wakeup();
      }
    }

    /** `_on_listen`, up to the attachment of the new transport. */
    method OnListen(factoryCloses: bool)
      requires Valid() && servers.Some?
      modifies this
      ensures Valid() && transports == old(transports) + if factoryCloses then [] else [Transport(false, true)]
      ensures futures == Settled(old(futures), Over())
      ensures rejected == old(rejected) + if factoryCloses then 1 else 0
      ensures servers.None? == factoryCloses && activeCount == old(activeCount) + if factoryCloses then 0 else 1
      ensures serving == (old(serving) && !factoryCloses)
    {
      if factoryCloses {
        CloseServer();
      }
      var ok := Attach();
      if ok {
        transports := transports + [Transport(false, true)];
      } else {
        rejected := rejected + 1;
      }
    }

    /** `_call_connection_lost`, as far as the server is concerned. */
    method OnConnectionLost(i: nat)
      requires Valid() && i < |transports|
      modifies `transports, `activeCount, `waiters, `futures, `wakeups
      ensures Valid() && transports == old(transports)[i := Transport(true, false)]
      ensures activeCount == old(activeCount) - if old(transports)[i].closed then 0 else 1
      ensures futures == Settled(old(futures), Over())
    {
      if transports[i].closed {
        return;
      }
      AttachedUpdate(transports, i, Transport(true, false));
      if transports[i].attached {
        Detach();
      }
      transports := transports[i := Transport(true, false)];
    }

    /** `wait_closed`: returns at once on a closed server, whatever connections it still has. */
    method Wait() returns (immediate: bool)
      requires Valid()
      modifies `waiters, `futures
      ensures Valid() && immediate == servers.None?
      ensures immediate && activeCount > 0 <==> servers.None? && waiters.Some?
      ensures futures == old(futures) + if immediate then [] else [Pending]
    {
      if servers.None? || waiters.None? {
        return true;
      }
      waiters := Some(waiters.value + [|futures|]);
      futures := futures + [Pending];
      return false;
    }

    /** `_start_serving`; on a closed server the loop over `_servers` fails, with the flag set. */
    method Start() returns (ok: bool)
      modifies `serving
      ensures serving && ok == (old(serving) || servers.Some?)
    {
      if serving {
        return true;
      }
      serving := true;
      return servers.Some?;
    }

    method Step(event: Event)
      requires Valid()
      modifies this
      ensures Valid()
      ensures transports == Connections(old(transports), old(servers).None?, event)
      ensures futures == Waiters(old(futures), old(servers).None?, event, Over())
      ensures servers.None? == (old(servers).None? || Closes(event))
      ensures rejected == old(rejected) + if old(servers).Some? && event == Accept(true) then 1 else 0
      ensures serving == if event == StartServing then true
                         else old(serving) && (old(servers).None? || !Closes(event))
    {
      match event {
        case StartServing =>
          var _ := Start();
        case Accept(factoryCloses) =>
          if servers.Some? {
            OnListen(factoryCloses);
          }
        case ConnectionLost(i) =>
          if i < |transports| {
            OnConnectionLost(i);
          }
        case Close =>
          CloseServer();
        case WaitClosed =>
          var _ := Wait();
        case CancelWaiter(i) =>
          if i < |futures| && futures[i] == Pending {
            futures := futures[i := Cancelled];
          }
      }
    }
  }

  /** The transports after an event: an open server gets one for a connection, and one that is lost is
      closed and detached, once. */
  function Connections(ts: seq<Transport>, closed: bool, event: Event): seq<Transport> {
    match event
    case Accept(false) => if closed then ts else ts + [Transport(false, true)]
    case ConnectionLost(i) => if i < |ts| then ts[i := Transport(true, false)] else ts
    case _ => ts
  }

  /** The futures after an event: an open server makes one for whoever waits, and all that are not
      cancelled are finished once the server is closed and the last connection is gone. */
  function Waiters(fs: seq<Future>, closed: bool, event: Event, over: bool): seq<Future> {
    var now := match event
               case WaitClosed => if closed then fs else fs + [Pending]
               case CancelWaiter(i) => if i < |fs| && fs[i] == Pending then fs[i := Cancelled] else fs
               case _ => fs;
    Settled(now, over)
  }

  function ConnectionsOf(events: seq<Event>): seq<Transport> {
    if events == [] then []
    else
      var front := events[..|events| - 1];
      Connections(ConnectionsOf(front), Closed(front), events[|events| - 1])
  }

  function WaitersOf(events: seq<Event>): seq<Future> {
    if events == [] then []
    else
      var front := events[..|events| - 1];
      Waiters(WaitersOf(front), Closed(front), events[|events| - 1],
              Closed(events) && Attached(ConnectionsOf(events)) == 0)
  }

  /** The events that close a server that is still open. */
  predicate Closes(event: Event) {
    event == Close || event == Accept(true)
  }

  predicate Closed(events: seq<Event>) {
    events != [] && (Closed(events[..|events| - 1]) || Closes(events[|events| - 1]))
  }

  /** The server was closed by a protocol factory, while a connection was being accepted. */
  predicate ClosedInFactory(events: seq<Event>) {
    events != [] &&
    (ClosedInFactory(events[..|events| - 1]) ||
     (!Closed(events[..|events| - 1]) && events[|events| - 1] == Accept(true)))
  }

  predicate StartedAfterClose(events: seq<Event>) {
    events != [] &&
    (StartedAfterClose(events[..|events| - 1]) ||
     (Closed(events[..|events| - 1]) && events[|events| - 1] == StartServing))
  }

  /** In every run the server counts its connections, wakes its waiters once, when it is closed and
      the last connection is gone, and no waiter sooner. The assertion of `_attach` fails exactly
      when a protocol factory closed the server, and a closed server claims to be serving exactly
      when it was started after it was closed. */
  method AnyRun(handles: nat, events: seq<Event>) returns (s: Server)
    ensures s.Valid() && s.transports == ConnectionsOf(events) && s.futures == WaitersOf(events)
    ensures s.activeCount == Attached(ConnectionsOf(events))
    ensures s.servers.None? <==> Closed(events)
    ensures s.wakeups == if Closed(events) && s.activeCount == 0 then 1 else 0
    ensures forall i :: 0 <= i < |s.futures| && s.futures[i] == Finished ==> Closed(events) && s.activeCount == 0
    ensures s.rejected == if ClosedInFactory(events) then 1 else 0
    ensures s.serving && s.servers.None? <==> StartedAfterClose(events)
  {
    s := new Server(handles);
    assert events[..0] == [];
    for i := 0 to |events|
      invariant fresh(s) && s.Valid()
      invariant s.transports == ConnectionsOf(events[..i]) && s.futures == WaitersOf(events[..i])
      invariant s.servers.None? <==> Closed(events[..i])
      invariant s.rejected == if ClosedInFactory(events[..i]) then 1 else 0
      invariant ClosedInFactory(events[..i]) ==> Closed(events[..i])
      invariant s.serving && s.servers.None? <==> StartedAfterClose(events[..i])
    {
      assert events[..i + 1][..i] == events[..i];
      s.Step(events[i]);
    }
    assert events[..|events|] == events;
  }

  /** `wait_closed` after `close` does not wait for the connection that is still open. */
  method WaitAfterClose() returns (s: Server, immediate: bool)
    ensures immediate && s.activeCount == 1
  {
    s := new Server(1);
    s.OnListen(false);
    s.CloseServer();
    assert s.activeCount == 1;
    immediate := s.Wait();
  }
}
