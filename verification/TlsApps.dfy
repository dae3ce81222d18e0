/** The application above the TLS engine: what it is told, and what it does. */
module TlsApps {
  import opened Wrappers
  import opened Buffers
  import opened FlowControl
  import opened Histories
  import opened TlsObjects

  /** Callbacks of the application protocol. */
  datatype Callback =
    | ConnectionMade
    | DataReceived(data: seq<Byte>)
    | EofReceived
    | PauseWriting
    | ResumeWriting
    | ConnectionLost

  /** Calls the application makes on the TLS transport. */
  datatype Call =
    | Write(data: seq<Byte>)
    | WriteLines(list: seq<seq<Byte>>)
    | Close
    | Abort
    | PauseReading
    | ResumeReading
    | SetWriteBufferLimits(high: Option<int>, low: Option<int>)
    | SetReadBufferLimits(high: Option<int>, low: Option<int>)

  /** A call, and whether what the application writes was accepted when it was made. */
  datatype Asked = Asked(call: Call, accepted: bool)

  /** What an accepted call writes. */
  function Written(a: Asked): seq<Byte> {
    if !a.accepted then []
    else match a.call case Write(data) => data case WriteLines(list) => Concat(list) case _ => []
  }

  /** What a history of calls writes. */
  function Text(h: History<Asked>): seq<Byte> {
    match h
    case Start => []
    case Then(before, a) => Text(before) + Written(a)
  }

  /** What the application does in one callback: calls, then possibly an
      exception; for `get_buffer`, also the size of the buffer it returns. */
  datatype Reply = Reply(calls: seq<Call>, raises: bool, bufferSize: nat)

  /** An application that makes no calls in its callbacks. */
  predicate Passive(script: seq<Reply>) {
    forall i :: 0 <= i < |script| ==> script[i].calls == []
  }

  /** No buffer that the application gives is empty. */
  predicate Roomy(script: seq<Reply>) {
    forall i :: 0 <= i < |script| ==> script[i].bufferSize > 0
  }

  /** What the callbacks so far amount to; `ok` says that each came when it could. */
  datatype Seen = Seen(made: bool, eof: bool, lost: bool, paused: bool, ok: bool)

  function See(s: Seen, c: Callback): Seen {
    match c
    case ConnectionMade => s.(made := true, ok := s.ok && !s.made && !s.lost)
    case DataReceived(_) => s.(ok := s.ok && s.made && !s.eof && !s.lost)
    case EofReceived => s.(eof := true, ok := s.ok && s.made && !s.eof && !s.lost)
    case PauseWriting => s.(paused := true, ok := s.ok && s.made && !s.paused && !s.lost)
    case ResumeWriting => s.(paused := false, ok := s.ok && s.made && s.paused && !s.lost)
    case ConnectionLost => s.(lost := true, ok := s.ok && s.made && !s.lost)
  }

  /** `made` at the start: with `start_tls`, connection_made was called before. */
  function Replay(h: History<Callback>, made: bool): Seen {
    match h
    case Start => Seen(made, false, false, false, true)
    case Then(before, call) => See(Replay(before, made), call)
  }

  /** The data delivered by a history. */
  function Delivered(h: History<Callback>): seq<Byte> {
    match h
    case Start => []
    case Then(before, call) => Delivered(before) + (if call.DataReceived? then call.data else [])
  }

  /** The callback grammar of PEP 3156, "Stream Protocols", on positions:
      connection_made comes first and once, eof_received and connection_lost at
      most once, no data after eof_received, nothing after connection_lost, and
      pause_writing and resume_writing alternate. */
  ghost predicate Legal(calls: seq<Callback>, made: bool) {
    EachMayFollow(calls, Grammar(made))
  }

  ghost function Grammar(made: bool): (seq<Callback>, Callback) -> bool {
    (before, c) => LegalAt(before, c, made)
  }

  ghost predicate LegalAt(before: seq<Callback>, c: Callback, made: bool) {
    && ConnectionLost !in before
    && (made || ConnectionMade in before || c == ConnectionMade)
    && (c == ConnectionMade ==> !made && ConnectionMade !in before)
    && (c.DataReceived? || c == EofReceived ==> EofReceived !in before)
    && (c == PauseWriting ==> !LastIsPause(before))
    && (c == ResumeWriting ==> LastIsPause(before))
  }

  ghost predicate LastIsPause(calls: seq<Callback>) {
    LastIs(calls, PauseWriting, ResumeWriting)
  }

  lemma NothingYet(made: bool)
    ensures Legal([], made) && !LastIsPause([])
  {
  }

  /** Replaying a history accepts exactly the legal ones. */
  lemma {:induction false} ReplayMeaning(h: History<Callback>, made: bool)
    ensures Replay(h, made).ok <==> Legal(h.Calls(), made)
    ensures Replay(h, made).made <==> made || ConnectionMade in h.Calls()
    ensures Replay(h, made).eof <==> EofReceived in h.Calls()
    ensures Replay(h, made).lost <==> ConnectionLost in h.Calls()
    ensures Replay(h, made).ok ==> (Replay(h, made).paused <==> LastIsPause(h.Calls()))
  {
    hide LastIs, EachMayFollow;
    match h
    case Start => NothingYet(made);
    case Then(before, c) =>
      ReplayMeaning(before, made);
      LastIsSnoc(before.Calls(), c, PauseWriting, ResumeWriting);
      MayFollowSnoc(before.Calls(), c, Grammar(made));
  }

  // ---- How an application reacts when nothing it writes is accepted any more ----

  /** What its calls can still change: its own future, the write limits, whether it is paused,
      and whether it has aborted. */
  datatype Mood = Mood(script: seq<Reply>, high: int, low: int, paused: bool, aborted: bool)

  /** The calls of one piece of application code, for a fixed write size. */
  function Reacts(m: Mood, size: nat, calls: seq<Call>): (r: Mood)
    ensures |r.script| <= |m.script|
    ensures m.aborted ==> r.aborted
    decreases |m.script|, |calls|, 0
  {
    if calls == [] then m
    else Reacts(ReactsOnce(m, size, calls[0]), size, calls[1..])
  }

  function ReactsOnce(m: Mood, size: nat, call: Call): (r: Mood)
    ensures |r.script| <= |m.script|
    ensures m.aborted ==> r.aborted
    decreases |m.script|, 0, 2
  {
    match call
    case Abort => m.(aborted := true)
    case SetWriteBufferLimits(high, low) =>
      var limits := AddFlowcontrolDefaults(high, low, FLOW_CONTROL_HIGH_WATER_SSL_WRITE);
      if limits.BadLimits? then m else Settles(m.(high := limits.high, low := limits.low), size)
    case _ => m
  }

  /** A write size crosses the limit that matters to the application. */
  predicate Crosses(m: Mood, size: nat) {
    if m.paused then size <= m.low else size >= m.high
  }

  /** pause_writing or resume_writing, whichever is next. */
  function Switch(paused: bool): Callback {
    if paused then ResumeWriting else PauseWriting
  }

  /** pause_writing or resume_writing, when the size crossed a limit, and what is done in it. */
  function Settles(m: Mood, size: nat): (r: Mood)
    ensures |r.script| <= |m.script|
    ensures m.aborted ==> r.aborted
    decreases |m.script|, 0, 1
  {
    if !Crosses(m, size) then m
    else if m.script == [] then m.(paused := !m.paused)
    else Reacts(m.(paused := !m.paused, script := m.script[1..]), size, m.script[0].calls)
  }
}
