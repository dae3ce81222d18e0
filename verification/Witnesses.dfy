/** Runs that show what the code does not promise.  Each is made of steps that the loop and the
    application can make, on a stream whose kernel takes nothing by itself. */
module Witnesses {
  import opened Wrappers
  import opened Buffers
  import opened FlowControl
  import opened Histories
  import opened TlsObjects
  import opened TlsApps
  import opened SslProtocols
  import Streams

  /** A connected stream, as `start_tls` gets it, with its write limits set. */
  method ConnectedStream(high: nat) returns (s: Stream)
    requires high < 0x8000_0000
    ensures fresh(s) && Ready(s, true) && s.accepted == s.kernel == [] && s.answers == [] && s.highWater == high
    ensures s.lowWater <= high && !s.protocolPaused && !s.Dead() && !s.closing && !s.failed && s.reading
    ensures s.buffer == [] && s.requests == [] && s.AtRest() && s.calls == Then(Start, Streams.ConnectionMade)
  {
    s := new Streams.UVStream<Cipher>(false);
    s.CallConnectionMade();
    var r := s.SetLimits(Some(high), None);
  }

  /** One byte in one list of buffers is one buffer of one byte. */
  lemma OneByte<T>(bufs: seq<seq<T>>)
    requires NoneEmpty(bufs) && |Concat(bufs)| == 1
    ensures |bufs| == 1 && |bufs[0]| == 1
  {
    assert Concat(bufs) == bufs[0] + Concat(bufs[1..]);
    ConcatNonEmpty(bufs[1..]);
  }

  /** The application got the connection, was told nothing else, and reads. */
  ghost predicate Quiet(p: SSLProtocol)
    reads p, p.tls
  {
    && p.callMade && p.connected && !p.over && p.appState == STATE_CON_MADE && p.history == Start && p.seen.made
    && !p.appWritingPaused && !p.appReadingPaused && !p.transportEof
    && p.tls.records == [] && !p.tls.ended && !p.tls.broken
  }

  /** `start_tls` on a connected stream: the handshake began, and its first flight was written. */
  method Handshaking(s: Stream, script: seq<Reply>, answers: seq<Answer>) returns (p: SSLProtocol)
    requires Ready(s, true) && s.answers == [] && !s.Dead() && !s.closing && |answers| > 0 && !answers[0].Fails?
    modifies s
    ensures fresh(p) && fresh(p.tls) && p.transport == s && p.AtRest() && Quiet(p) && p.state == DO_HANDSHAKE
    ensures p.readsScheduled == 0 && (Size(answers[0]) == 0 ==> !p.sslWritingPaused)
    ensures p.script == script && p.backlog == [] && p.tls.answers == answers[1..] && !p.isBuffered
    ensures p.outgoingHigh == 512 * 1024
    ensures p.inherited == old(s.protocolPaused) && p.earlier == old(s.accepted) && !p.assertFailed
    ensures s.Lasting() && s.Alone() && s.reading && !s.Dead() && p.tls.outgoing == []
    ensures |p.tls.emitted| == Size(answers[0])
    ensures old(!s.protocolPaused && s.writeQueueSize == 0 && s.buffer == []) ==> s.buffer == []
    ensures Size(answers[0]) == 0 ==> s.buffer == old(s.buffer) && s.requests == old(s.requests)
  {
    p := new SSLProtocol(s, true, false, script, answers);
    p.Connect(true);
  }

  /** The peer's flight arrives, and the handshake is over with a last flight. */
  method Wrap(p: SSLProtocol)
    requires p.AtRest() && Quiet(p) && p.state == DO_HANDSHAKE && p.transport.reading
    requires |p.tls.answers| > 0 && p.tls.answers[0].Does? && !Head(Rest(p.tls.answers)).Fails?
    modifies p, p.tls, p.transport
    ensures p.AtRest() && Quiet(p) && p.state == WRAPPED && p.transport.reading
    ensures p.tls.answers == Rest(Rest(old(p.tls.answers)))
    ensures p.script == old(p.script) && p.backlog == old(p.backlog)
    ensures |p.tls.outgoing| == |old(p.tls.outgoing)| + Size(old(p.tls.answers)[0])
    ensures p.readsScheduled == old(p.readsScheduled) + 1
    ensures p.sslWritingPaused == old(p.sslWritingPaused)
    ensures p.outgoingHigh == old(p.outgoingHigh) && p.outgoingLow == old(p.outgoingLow)
    ensures unchanged(p.transport)
  {
    p.BufferUpdated([], 1);
  }

  /** The application does not read, and records arrive. */
  method ReceiveUnread(p: SSLProtocol, records: seq<Record>)
    requires p.AtRest() && Quiet(p) && p.state == WRAPPED && p.transport.reading && NoneBlank(records)
    modifies p, p.tls, p.transport
    ensures p.AtRest() && p.seen.made && p.state == WRAPPED && p.appState == STATE_CON_MADE && !p.tls.ended
    ensures p.appReadingPaused && p.connected && !p.over && p.history == Start && !p.appWritingPaused
    ensures p.script == old(p.script) && p.backlog == old(p.backlog) && p.tls.answers == old(p.tls.answers)
    ensures p.tls.outgoing == old(p.tls.outgoing) && p.sslWritingPaused == old(p.sslWritingPaused)
    ensures p.outgoingHigh == old(p.outgoingHigh) && p.outgoingLow == old(p.outgoingLow)
    ensures p.tls.records == records
  {
    p.PauseReading();
    assert p.transport.reading;
    p.BufferUpdated(records, 0);
  }

  /** Nothing is left to send, close_notify is unread, and the application, told of the end, aborts. */
  lemma EofMakesFlushRaise(p: SSLProtocol)
    requires p.appState == STATE_CON_MADE && p.backlog == [] && p.tls.outgoing == [] && p.tls.answers == []
    requires p.tls.records == [CloseNotify] && !p.tls.ended && p.script == [Reply([Call.Abort], false, 0)]
    ensures p.FlushRaises()
  {
  }

  /** The flight is with libuv, in one request, and made the stream pause the engine. */
  lemma OneByteSent(p: SSLProtocol)
    requires p.AtRest() && |p.earlier| + |p.tls.emitted| == 1 && p.tls.outgoing == [] && !p.over
    requires !p.transport.Dead() && !p.transport.failed && !p.transport.closed && p.transport.kernel == []
    requires p.transport.buffer == [] && p.transport.highWater == 0
    ensures p.transport.protocolPaused && |p.transport.requests| == 1 && |p.transport.requests[0]| == 1
    ensures p.sslWritingPaused == !p.inherited
  {
    OneByte(p.transport.requests);
  }

  /** `_do_flush`, called by the application's own close, raises: it finds the peer's close_notify
      among what was not read, and the application, told of it, aborts. */
  method FlushCanRaise() returns (p: SSLProtocol, raised: bool)
    ensures fresh(p) && raised && p.state == UNWRAPPED
  {
    hide SSLProtocol.AtRest, SSLProtocol.Valid, SSLProtocol.Kept, SSLProtocol.Steady, SSLProtocol.Later;
    hide Streams.UVStream.AtRest, Streams.UVStream.Later, Streams.UVStream.Valid, Ready;
    var s := ConnectedStream(64);
    p := Handshaking(s, [Reply([Call.Abort], false, 0)], [Answer.Again(0), Does(0, [])]);
    assert p.tls.answers == [Does(0, [])];
    Wrap(p);
    ReceiveUnread(p, [CloseNotify]);
    EofMakesFlushRaise(p);
    raised := p.StartShutdown();
  }

  /** The first flight is one byte, which the kernel does not take, on a stream without room. */
  method HandshakingPaused(answers: seq<Answer>) returns (p: SSLProtocol)
    requires |answers| > 0 && answers[0] == Answer.Again(1)
    ensures fresh(p) && fresh(p.tls) && fresh(p.transport) && p.AtRest() && Quiet(p) && p.state == DO_HANDSHAKE
    ensures p.script == [] && p.backlog == [] && p.tls.answers == answers[1..] && p.tls.outgoing == []
    ensures !p.isBuffered && p.outgoingHigh == 512 * 1024 && p.sslWritingPaused && !p.inherited
    ensures p.transport.protocolPaused && !p.transport.closed && !p.transport.Dead() && p.transport.reading
    ensures |p.transport.requests| == 1 && |p.transport.requests[0]| == 1 && p.transport.buffer == []
  {
    var s := ConnectedStream(0);
    p := Handshaking(s, [], answers);
    OneByteSent(p);
  }

  /** Another flight is written while the stream is paused. */
  method WritePaused(p: SSLProtocol)
    requires p.AtRest() && Quiet(p) && p.state == DO_HANDSHAKE && p.sslWritingPaused
    requires |p.tls.answers| > 0 && p.tls.answers[0].Again?
    modifies p, p.tls, p.transport
    ensures p.AtRest() && Quiet(p) && p.state == DO_HANDSHAKE && p.sslWritingPaused && unchanged(p.transport)
    ensures |p.tls.outgoing| == |old(p.tls.outgoing)| + Size(old(p.tls.answers)[0])
  {
    p.BufferUpdated([], 1);
  }

  /** The kernel takes the only byte that libuv has, and the stream resumes the engine. */
  method Drain(p: SSLProtocol) returns (assertFails: bool)
    requires p.AtRest() && Quiet(p) && p.state == DO_HANDSHAKE && p.transport.protocolPaused && !p.transport.closed
    requires !p.transport.Dead() && p.transport.buffer == [] && p.transport.lowWater >= 0
    requires |p.transport.requests| == 1 && |p.transport.requests[0]| == 1
    modifies p, p.tls, p.transport
    ensures p.AtRest() && p.state == DO_HANDSHAKE && p.tls.outgoing == old(p.tls.outgoing)
    ensures assertFails == old(p.inherited) && (p.Unsent() <==> |p.tls.outgoing| > 0)
  {
    hide SSLProtocol.Valid, SSLProtocol.Resting, SSLProtocol.Linked, SSLProtocol.ReadsOn, Streams.UVStream.Closing,
         Streams.UVStream.Lifecycle, Streams.UVStream.LimitsValid, Streams.UVStream.PausedLive,
         Streams.UVStream.Bounded, Streams.UVStream.Queued, Streams.UVStream.EndLive, Streams.UVStream.LossLive;
    p.KernelTakes(1);
    assertFails := p.WriteCompletes(true);
  }

  /** The last flight of the handshake waits although nothing is paused but the application's
      reading, and no read is scheduled. */
  method LastFlightWaits() returns (p: SSLProtocol)
    ensures fresh(p) && p.Valid() && p.Resting() && p.state == WRAPPED && p.Unsent()
    ensures p.appReadingPaused && p.readsScheduled == 0
  {
    hide SSLProtocol.AtRest, SSLProtocol.Valid, SSLProtocol.Kept, SSLProtocol.Steady, SSLProtocol.Later;
    hide Streams.UVStream.AtRest, Streams.UVStream.Later, Streams.UVStream.Valid, Ready;
    var s := ConnectedStream(64);
    p := Handshaking(s, [], [Answer.Again(0), Does(1, [])]);
    assert p.tls.answers == [Does(1, [])];
    Wrap(p);
    DoNotRead(p);
  }

  /** The application stops reading, and the scheduled read does nothing. */
  method DoNotRead(p: SSLProtocol)
    requires p.AtRest() && Quiet(p) && p.state == WRAPPED && p.readsScheduled > 0
    modifies p, p.tls, p.transport
    ensures p.Valid() && p.Resting() && p.state == WRAPPED && p.appReadingPaused && p.connected && !p.transportEof
    ensures p.readsScheduled == old(p.readsScheduled) - 1 && p.sslWritingPaused == old(p.sslWritingPaused)
    ensures unchanged(p.tls) && p.transport.connLost == old(p.transport.connLost)
  {
    p.PauseReading();
    ghost var mid, sent := p.RunScheduledRead();
  }

  /** A flight of the handshake is held back by a pause and forgotten when the pause ends: it
      waits in the BIO although the stream is not paused. */
  method HandshakeHeldBack() returns (p: SSLProtocol)
    ensures fresh(p) && p.AtRest() && p.state == DO_HANDSHAKE && |p.tls.outgoing| > 0 && p.Unsent()
  {
    p := HandshakingPaused([Answer.Again(1), Answer.Again(1)]);
    WritePaused(p);
    var assertFails := Drain(p);
  }

  /** The assertion of `resume_writing` fails: the stream had paused its first protocol, and
      resumes the engine that took its place. */
  method AssertionFails() returns (p: SSLProtocol, assertFails: bool)
    ensures fresh(p) && p.AtRest() && assertFails
  {
    var s := ConnectedStream(0);
    var r := s.WriteData([Cipher([], false)]);
    p := Handshaking(s, [], [Answer.Again(0)]);
    OneByteSent(p);
    assertFails := Drain(p);
  }

  /** The application writes during the handshake. */
  method WriteEarly(p: SSLProtocol, data: seq<Byte>)
    requires p.AtRest() && Quiet(p) && p.state == DO_HANDSHAKE && p.backlog == []
    modifies p, p.tls, p.transport
    ensures p.AtRest() && Quiet(p) && p.state == DO_HANDSHAKE && p.backlog == [data]
    ensures p.script == old(p.script) && unchanged(p.tls) && unchanged(p.transport)
    ensures p.outgoingHigh == old(p.outgoingHigh) && p.sslWritingPaused == old(p.sslWritingPaused)
  {
    p.calls, p.ownCalls := Then(p.calls, Asked(Write(data), true)), Then(p.ownCalls, Asked(Write(data), true));
    ConcatOne(data);
    p.WriteAppdata([data]);
  }

  /** The application closes, with data that OpenSSL does not take. */
  method BeginFlush(p: SSLProtocol)
    requires p.AtRest() && Quiet(p) && p.state == WRAPPED && p.tls.answers == [] && p.backlog == [[7]] && p.script == []
    modifies p, p.tls, p.transport
    ensures p.Valid() && p.seen.made && p.state == FLUSHING && p.WriteSize() > 0 && p.script == [] && !p.over
    ensures !p.appWritingPaused && p.history == Start
  {
    assert Concat(p.backlog) == [7];
    assert p.FlushStays();
    var raised := p.StartShutdown();
  }

  /** While the engine flushes, the application lowers its limits, and is told to pause. */
  method PausedWhileFlushing() returns (p: SSLProtocol)
    ensures fresh(p) && p.Valid() && p.state == FLUSHING && p.history == Then(Start, Callback.PauseWriting)
  {
    hide SSLProtocol.AtRest, SSLProtocol.Valid;
    hide Streams.UVStream.AtRest, Streams.UVStream.Later, Streams.UVStream.Valid, Ready;
    var s := ConnectedStream(64);
    p := Handshaking(s, [], [Answer.Again(0), Does(0, [])]);
    assert p.tls.answers == [Does(0, [])];
    WriteEarly(p, [7]);
    Wrap(p);
    BeginFlush(p);
    var raised := p.SetWriteLimits(Some(1), None);
    assert !raised;
  }

  /** A pass that reads close_notify, and the flush that it begins. */
  lemma CloseRead(rest: nat, answers: seq<Answer>, backlog: seq<seq<Byte>>)
    requires rest >= 0 && !Head(answers).Fails? && !Head(Rest(answers)).Fails?
    ensures
      var run := Reading(ReadRun([], ReadAgain, [CloseNotify], false, rest, answers), None, SSL_READ_MAX_SIZE);
      && run.data == [] && run.last.Empty? && run.records == []
      && FlushRun([], true, run.answers, backlog) == Writing(backlog, Rest(Rest(answers)))
  {
  }

  /** The application reads again, and the scheduled read finds close_notify. */
  method ReadClose(p: SSLProtocol) returns (ghost mid: Moment)
    requires p.AtRest() && p.state == WRAPPED && p.appReadingPaused && p.appState == STATE_CON_MADE && p.script == []
    requires p.tls.records == [CloseNotify] && !p.tls.ended && !p.isBuffered
    requires !Head(p.tls.answers).Fails? && !Head(Rest(p.tls.answers)).Fails?
    modifies p, p.tls, p.transport
    ensures p.Valid() && p.Resting() && p.Ended(mid, true) && mid.mood.script == []
    ensures mid.mood == old(p.CurrentMood()).(aborted := mid.state == UNWRAPPED)
    ensures mid.history == Then(old(p.history), EofReceived)
    ensures Flushed(old(p.Now()), old(Writing(p.backlog, Rest(Rest(p.tls.answers)))), mid)
  {
    hide PausedBy, Streams.UVStream.CurrentFlow, Reading, Writing, FlushRun, Draining, SSLProtocol.Valid;
    hide SSLProtocol.Linked, SSLProtocol.Ended, Streams.UVStream.AtRest, Streams.UVStream.Later;
    CloseRead(p.tls.rest, p.tls.answers, p.backlog);
    p.ResumeReading();
    ghost var sent;
    mid, sent := p.RunScheduledRead();
  }

  /** A flush is over and nobody notices: it began in a read, left data that OpenSSL did not take,
      and the same read sends that afterwards.  close_notify is not sent, although nothing is
      left to wait for. */
  method FlushOverlooked() returns (p: SSLProtocol)
    ensures fresh(p) && p.Valid() && p.Resting() && p.Overlooked()
  {
    hide SSLProtocol.AtRest, SSLProtocol.Valid, SSLProtocol.Kept, SSLProtocol.Steady, SSLProtocol.Later;
    hide Streams.UVStream.AtRest, Streams.UVStream.Later, Streams.UVStream.Valid, Ready;
    var s := ConnectedStream(64);
    var answers := [Answer.Again(0), Does(0, []), Answer.Again(0), Answer.Again(0), Answer.Again(0), Answer.Again(0),
                    Does(0, [])];
    p := Handshaking(s, [], answers);
    WriteEarly(p, [7]);
    Wrap(p);
    ReceiveUnread(p, [CloseNotify]);
    assert p.tls.answers == answers[3..];
    TakenLate();
    NothingPauses(p);
    assert p.tls.answers[2..] == [Answer.Again(0), Does(0, [])];
    ghost var mid := ReadClose(p);
    assert mid.state == FLUSHING && Overlooks(mid);
  }

  /** The application is paused in FLUSHING without a call of its own: it wrote a lot during the
      handshake, behind a paused stream, and then read close_notify. */
  method PausedByReading() returns (p: SSLProtocol)
    ensures fresh(p) && p.Valid() && p.state == FLUSHING
    ensures p.history == Then(Then(Start, EofReceived), Callback.PauseWriting)
  {
    hide SSLProtocol.AtRest, SSLProtocol.Valid, SSLProtocol.Kept, SSLProtocol.Steady, SSLProtocol.Later;
    hide Streams.UVStream.AtRest, Streams.UVStream.Later, Streams.UVStream.Valid;
    var data, layout := seq<Byte>(512 * 1024, i => 7), seq<nat>(512 * 1024, i => 1);
    var answers := [Answer.Again(1), Does(0, []), Answer.Again(0), Answer.Again(0), Answer.Again(0), Does(0, layout)];
    p := HandshakingPaused(answers);
    WriteEarly(p, data);
    Wrap(p);
    ReceiveUnread(p, [CloseNotify]);
    assert p.tls.answers == answers[3..];
    assert p.tls.answers[2..] == [Does(0, layout)];
    TakenWhole(data, layout);
    ghost var mid := ReadClose(p);
    assert mid.state == FLUSHING && Tells(mid);
  }

  /** OpenSSL takes all of a chunk. */
  lemma TakenWhole(data: seq<Byte>, layout: seq<nat>)
    requires |data| > 0
    ensures Writing([data], [Does(0, layout)]) == WriteRun([], |layout| + 1, false, [])
    ensures Writing([], []) == WriteRun([], 0, false, [])
  {
    assert Taken([data], |data|) == [];
  }

  /** Sending nothing pauses nobody. */
  lemma NothingPauses(p: SSLProtocol)
    requires p.Valid() && p.connected
    ensures PausedBy(p.sslWritingPaused, p.transport.CurrentFlow(), 0) == p.sslWritingPaused
  {
  }

  /** OpenSSL takes a byte when it is asked again. */
  lemma TakenLate()
    ensures Writing([[7]], [Answer.Again(0), Does(0, [])]) == WriteRun([[7]], 0, false, [Does(0, [])])
    ensures Writing([[7]], [Does(0, [])]) == WriteRun([], 1, false, [])
    ensures Concat([[7 as Byte]]) == [7]
  {
    assert Taken([[7 as Byte]], 1) == [];
  }

  /** A byte that the kernel does not take, on a stream with nothing to write and no room. */
  method WriteOneByte(s: Stream)
    requires s.Valid() && !s.closed && !s.Dead() && !s.eof && !s.failed && s.script == [] && s.answers == []
    requires s.requests == [] && s.buffer == [] && s.highWater == 0 && !s.protocolPaused
    modifies s
    ensures s.Valid() && s.Later() && s.OnlyPauses() && s.protocolPaused
    ensures s.calls == Then(old(s.calls), Streams.PauseWriting)
    ensures |s.requests| == 1 && |s.requests[0]| == 1 && s.buffer == []
  {
    var r := s.WriteData([Cipher([], false)]);
    assert |s.requests| > 0;
    OneByte(s.requests);
  }

  /** The kernel takes the byte, and the write callback runs, on a stream that is closing. */
  method EndWrite(s: Stream)
    requires s.AtRest() && !s.closed && s.closing && !s.eof && s.protocolPaused && s.buffer == []
    requires |s.requests| == 1 && |s.requests[0]| == 1 && s.script == []
    requires !s.Dead() && !s.failed && s.answers == [] && s.protocolConnected
    modifies s
    ensures s.AtRest() && s.lostScheduled > 0 && s.requests == [] && s.buffer == [] && s.answers == [] && !s.failed
    ensures !s.Dead() && !s.closed && s.protocolConnected
    ensures s.calls == Then(old(s.calls), Streams.ResumeWriting) && !s.protocolPaused && s.Alone() && s.script == []
  {
    hide Streams.UVStream.Lifecycle, Streams.UVStream.Queued;
    s.LibuvWrites(1);
    s.Retire();
    s.NoteResumed();
    s.CheckDrained();
  }

  /** The stream is closed with a byte under way. */
  method CloseWhileWriting(s: Stream)
    requires s.AtRest() && !s.closed && !s.Dead() && !s.closing && !s.eof && !s.failed && !s.everLost
    requires s.script == [] && s.answers == [] && s.protocolConnected
    requires s.requests == [] && s.buffer == [] && s.highWater == 0 && !s.protocolPaused
    modifies s
    ensures s.AtRest() && s.closing && !s.Dead() && !s.closed && !s.eof && !s.failed && s.protocolConnected
    ensures s.script == [] && s.answers == [] && s.highWater == 0 && s.protocolPaused
    ensures |s.requests| == 1 && |s.requests[0]| == 1 && s.buffer == []
  {
    hide Streams.UVStream.Lifecycle, Streams.UVStream.LimitsValid, Streams.UVStream.Bounded,
         Streams.UVStream.PausedLive;
    WriteOneByte(s);
    ConcatNonEmpty(s.requests);
    s.CloseTransport();
  }

  /** A stream calls pause_writing after connection_lost: it was closed with data under way, so
      that its end came without `_conn_lost`, and the protocol writes when it is told. */
  method PausedAfterLoss() returns (s: Stream)
    ensures fresh(s) && s.AtRest() && s.closed
    ensures exists before :: s.calls == Then(Then(before, Streams.ConnectionLost), Streams.PauseWriting)
  {
    hide Streams.UVStream.Valid, Streams.UVStream.EndLive, Streams.UVStream.Queued;
    s := ConnectedStream(0);
    CloseWhileWriting(s);
    EndWrite(s);
    var tell := s.BeginLoss();
    WriteOneByte(s);
    s.FinishLoss();
  }

  /** So it does on a lost connection, with a byte that was under way when the application aborted. */
  method PausedAfterAbort() returns (s: Stream)
    ensures fresh(s) && s.AtRest() && s.closed
    ensures exists before :: s.calls == Then(Then(before, Streams.ConnectionLost), Streams.PauseWriting)
  {
    s := ConnectedStream(64);
    s.script := [[Streams.SetWriteBufferLimits(Some(0), None)]];
    LoseByte(s);
    s.CallConnectionLost();
  }

  /** A byte is written that the kernel does not take, and then the stream is aborted. */
  method LoseByte(s: Stream)
    requires s.AtRest() && !s.closed && !s.Dead() && !s.eof && s.answers == [] && !s.protocolPaused
    requires s.protocolConnected
    requires s.requests == [] && s.buffer == [] && s.highWater == 64
    modifies s
    ensures s.AtRest() && !s.closed && s.Dead() && s.lostScheduled > 0 && !s.protocolPaused && s.Size() == 1
    ensures s.script == old(s.script) && s.protocolConnected
  {
    var r := s.WriteData([Cipher([], false)]);
    s.Abort();
  }

  /** With equal limits the application is paused although there is nothing to write. */
  method PausedWithNothing() returns (p: SSLProtocol)
    ensures fresh(p) && p.Valid() && p.state == WRAPPED && p.WriteSize() == 0 && p.appWritingPaused
    ensures p.history == Then(Start, Callback.PauseWriting)
  {
    hide SSLProtocol.AtRest, Streams.UVStream.AtRest, Streams.UVStream.Later, Streams.UVStream.Valid, Ready;
    var s := ConnectedStream(64);
    p := Handshaking(s, [], [Answer.Again(0), Does(0, [])]);
    Wrap(p);
    var raised := p.SetWriteLimits(Some(0), None);
    assert !raised;
  }
}
