/** The TLS protocol engine (`SSLProtocol`): state machine, plaintext backlog,
    three pause flags, and the handshake, flush and shutdown flows, on top of a stream
    whose protocol it is.

    Application callbacks may call back into the engine; as for streams, the
    application is a script from which every callback pops one entry.  A method
    that can raise returns `raised`. */
module SslProtocols {
  import opened Wrappers
  import opened Buffers
  import opened FlowControl
  import opened Histories
  import opened TlsObjects
  import opened TlsApps
  import Streams

  type Stream = Streams.UVStream<Cipher>

  datatype State = UNWRAPPED | DO_HANDSHAKE | WRAPPED | FLUSHING | SHUTDOWN
  datatype AppState = STATE_INIT | STATE_CON_MADE | STATE_EOF | STATE_CON_LOST

    /** `_set_state`: the transitions it does not raise for. */
  predicate Allowed(from: State, to: State) {
    || to == UNWRAPPED
    || (from == UNWRAPPED && to == DO_HANDSHAKE)
    || (from == DO_HANDSHAKE && to == WRAPPED)
    || (from == WRAPPED && to == FLUSHING)
    || (from == WRAPPED && to == SHUTDOWN)
    || (from == FLUSHING && to == SHUTDOWN)
  }

  /** Where application calls and the shutdown flow can take the engine. */
  predicate Forward(from: State, to: State) {
    || to == from || to == UNWRAPPED
    || (from == WRAPPED && (to == FLUSHING || to == SHUTDOWN))
    || (from == FLUSHING && to == SHUTDOWN)
  }

  /** What is left to send once `w` was written, with `outgoing` bytes in the BIO before: what is in
      the BIO stays there while the transport is paused. */
  function SizeAfter(w: WriteRun, paused: bool, outgoing: nat): nat {
    |Concat(w.left)| + if paused then outgoing + w.emitted else 0
  }

  /** Whether the engine is paused once `size` bytes went to a stream that was not paused. */
  predicate PausedBy(paused: bool, flow: Streams.Flow, size: nat) {
    paused || Streams.TooMuch(Streams.Writes(flow, size))
  }

  /** The engine and its stream, as far as they decide how reading and sending go. */
  datatype Moment = Moment(state: State, appState: AppState, backlog: seq<seq<Byte>>, answers: seq<Answer>,
                           outgoing: nat, paused: bool, flow: Streams.Flow, mood: Mood, history: History<Callback>)

  /** How `_do_flush` sends: what is left to read is read first. */
  function FlushRun(records: seq<Record>, ended: bool, answers: seq<Answer>, backlog: seq<seq<Byte>>): WriteRun
    requires NoneBlank(records)
  {
    var d := Draining(records, ended, answers, SSL_READ_MAX_SIZE);
    if d.result.ReadError? then WriteRun(backlog, 0, true, d.answers) else Writing(backlog, d.answers)
  }

  /** Sending fails, or leaves so much. */
  function Sending(m: Moment): Option<nat> {
    var w := Writing(m.backlog, m.answers);
    if w.failed then None else Some(SizeAfter(w, m.paused, m.outgoing))
  }

  /** Sending tells the application to pause or to resume. */
  predicate Tells(m: Moment) {
    Sending(m).Some? && Crosses(m.mood, Sending(m).value)
  }

  /** Sending leaves the engine in FLUSHING with nothing left, so that nothing ends the flush. */
  predicate Overlooks(m: Moment) {
    m.state == FLUSHING && Sending(m) == Some(0) && !Settles(m.mood, 0).aborted
  }

  /** The flush that begins at `b`, and how it is at `m`: it goes on exactly when something is left. */
  predicate Flushed(b: Moment, w: WriteRun, m: Moment) {
    && (m.state == FLUSHING <==> !w.failed && SizeAfter(w, b.paused, b.outgoing) > 0)
    && (m.state == FLUSHING ==>
          && m.backlog == w.left && m.answers == w.answers
          && m.outgoing == (if b.paused then b.outgoing + w.emitted else 0)
          && m.paused == PausedBy(b.paused, b.flow, b.outgoing + w.emitted))
  }

  /** What a pass of reading leads to, from `b` to `m`, with an application that does nothing: `run`
      is how the reads go.  After the end the flush begins, with what is left to read. */
  predicate Handed(b: Moment, run: ReadRun, m: Moment)
    requires NoneBlank(run.records)
  {
    && m.mood == b.mood.(aborted := m.state == UNWRAPPED)
    && m.history == (var h := if run.data == [] then b.history else Then(b.history, DataReceived(run.data));
                     if run.last.Empty? && b.appState == STATE_CON_MADE then Then(h, EofReceived) else h)
    && if run.last.Empty? then Flushed(b, FlushRun(run.records, true, run.answers, b.backlog), m)
       else && m.state == b.state && m.backlog == b.backlog && m.answers == run.answers
            && m.outgoing == b.outgoing && m.paused == b.paused
  }

  /** The same, and whether it comes to sending. */
  predicate PassiveRead(b: Moment, run: ReadRun, m: Moment, sent: bool)
    requires NoneBlank(run.records)
  {
    sent == !run.last.ReadError? && (sent ==> Handed(b, run, m))
  }

  /** The read that begins at `b` ends the flush without noticing it: the flush that it begins leaves
      what OpenSSL does not take, which takes it when asked again, and the stream takes it too. */
  predicate WillOverlook(b: Moment, run: ReadRun)
    requires NoneBlank(run.records)
  {
    var w := FlushRun(run.records, true, run.answers, b.backlog);
    var again := Writing(w.left, w.answers);
    var paused := PausedBy(b.paused, b.flow, b.outgoing + w.emitted);
    && run.last.Empty? && !w.failed && SizeAfter(w, b.paused, b.outgoing) > 0
    && !again.failed && SizeAfter(again, paused, if b.paused then b.outgoing + w.emitted else 0) == 0
  }

  /** And only such a read does. */
  lemma OverlooksExactly(b: Moment, run: ReadRun, m: Moment, sent: bool)
    requires NoneBlank(run.records) && PassiveRead(b, run, m, sent) && b.state == WRAPPED && b.mood.script == []
    ensures sent && Overlooks(m) <==> WillOverlook(b, run)
  {
    hide Writing, FlushRun, PausedBy, SizeAfter;
  }

  /** A buffer with `bytes` copied into it from position `at` on. */
  function Spliced(buffer: seq<Byte>, at: nat, bytes: seq<Byte>): (r: seq<Byte>)
    requires at + |bytes| <= |buffer|
    ensures |r| == |buffer| && r[..at + |bytes|] == buffer[..at] + bytes
  {
    buffer[..at] + bytes + buffer[at + |bytes|..]
  }

  /** A stream that can get the engine for its protocol: a new one, or a connected one of which
      no connection_lost is scheduled yet. */
  ghost predicate Ready(transport: Stream, callMade: bool)
    reads transport
  {
    && transport.AtRest() && transport.script == [] && !transport.eof && !transport.closed
    && (if callMade then transport.protocolConnected && !transport.madeScheduled && !transport.everLost
        else !transport.protocolConnected)
  }

  class SSLProtocol {
    const tls: Tls
    const transport: Stream
    const callMade: bool         // connection_made was called before (`start_tls`)
    const isBuffered: bool       // the application protocol has `get_buffer`
    const startedPaused: bool    // the transport was paused when it got this protocol (`start_tls`)
    ghost const earlier: seq<Cipher>   // what the transport had accepted by then
    ghost const passive: bool    // the application makes no calls in its callbacks
    ghost const roomy: bool      // its buffers are never empty
    ghost const scripted: nat    // for how many callbacks the application has code

    var state: State
    var appState: AppState
    var backlog: seq<seq<Byte>>
    var writeBufferSize: nat
    var connected: bool          // `_transport is not None`
    var over: bool               // connection_lost was called; `_app_protocol is None`
    var hasAppTransport: bool
    var connLost: nat
    var sslWritingPaused: bool
    var sslReadingPaused: bool
    var appReadingPaused: bool
    var appWritingPaused: bool
    var incomingHigh: int
    var incomingLow: int
    var outgoingHigh: int
    var outgoingLow: int
    var handshakeTimer: bool
    var shutdownTimer: bool
    // scheduled in the loop
    var readsScheduled: nat
    var lostScheduled: bool
    // the application
    var script: seq<Reply>
    // history
    ghost var plain: seq<Byte>         // plaintext accepted by `_write_appdata`
    ghost var calls: History<Asked>    // every call of the application
    ghost var ownCalls: History<Asked> // those that it did not make in a callback
    ghost var history: History<Callback>
    ghost var asked: nat               // number of get_buffer calls
    ghost var seen: Seen
    ghost var delivered: seq<Byte>
    ghost var dataCalls: nat           // number of data_received or buffer_updated calls
    ghost var received: seq<Byte>      // plaintext of all records that arrived
    ghost var discarded: seq<Byte>
    ghost var transportEof: bool       // the transport reported EOF after the handshake
    ghost var inherited: bool          // that pause still lasts
    ghost var assertFailed: bool       // the assertion of `resume_writing` failed
    ghost var unwrapClean: bool        // every `unwrap()` found the backlog empty
    ghost var drained: bool            // SHUTDOWN was entered with nothing left to send
    ghost var starved: bool            // the application gave an empty buffer last time
    ghost var measured: nat            // how often `_control_ssl_reading` ran
    ghost var lastSize: nat            // what it found in the incoming BIO
    ghost var flushed: bool            // something was sent since the handshake was over

    // ---- Invariants ----

    /** `_get_write_buffer_size`. */
    function WriteSize(): nat
      reads `writeBufferSize, tls`outgoing
    {
      |tls.outgoing| + writeBufferSize
    }

    /** Until the connection is lost the counter is right, and the plaintext accepted
        is what was encrypted and then what waits; until bytes are dropped, the
        ciphertext is what the transport accepted and then what waits. */
    ghost predicate OutValid()
      reads `over, `writeBufferSize, `backlog, `plain, tls`emitted, tls`outgoing, transport`accepted, transport`connLost
    {
      !over ==>
        && writeBufferSize == |Concat(backlog)|
        && plain == Plain(tls.emitted) + Concat(backlog)
        && (!transport.Dead() ==> earlier + tls.emitted == transport.accepted + tls.outgoing)
    }

    /** Nothing was shut down yet. */
    ghost predicate Early()
      reads `state, `connected, `over
    {
      (state == DO_HANDSHAKE || state == WRAPPED) || (!connected && !over)
    }

    /** The application has its transport, and what it writes is accepted. */
    predicate Accepting()
      reads `state, `appState
    {
      (state == DO_HANDSHAKE || state == WRAPPED) && appState != STATE_INIT
    }

    ghost predicate CloseValid()
      reads `state, `connected, `over, `backlog, `transportEof, `unwrapClean, `drained,
            tls`emitted, tls`closeSent, tls`unwrapped
    {
      && tls.WireValid() && unwrapClean && (tls.unwrapped ==> tls.closeSent)
      && (Early() || state == FLUSHING ==> !transportEof && !tls.closeSent)
      && (tls.closeSent && !transportEof ==> |Concat(backlog)| == 0)
      && (state == SHUTDOWN && !transportEof ==> |Concat(backlog)| == 0 && drained)
    }

    ghost predicate InValid()
      reads `state, `connected, `over, `delivered, `received, `discarded, tls`records, tls`broken
    {
      && NoneBlank(tls.records)
      && (!tls.broken ==> received == delivered + discarded + Unread(tls.records))
      && (!tls.broken && Early() ==> discarded == [])
    }

    /** The callbacks so far came in a legal order. */
    ghost predicate HistoryValid()
      reads `history, `seen, `delivered
    {
      seen == Replay(history, callMade) && seen.ok && delivered == Delivered(history)
    }

    /** `_app_state` tells what the application has seen. */
    ghost predicate AppValid()
      reads `appState, `over, `appWritingPaused, `lostScheduled, `seen, tls`ended
    {
      && seen.made == (appState != STATE_INIT)
      && ((appState == STATE_INIT || appState == STATE_CON_MADE) ==> !seen.eof)
      && (appState == STATE_EOF ==> seen.eof && tls.ended)
      && (if appState == STATE_CON_LOST then over && lostScheduled == !seen.lost else !lostScheduled && !seen.lost)
      && (!over ==> seen.paused == appWritingPaused)
    }

    /** The SSL state against the connection below and the application above. */
    ghost predicate ConnValid()
      reads `state, `appState, `connected, `over, `hasAppTransport, tls`fed, tls`completed, transport`connLost
    {
      && (appState == STATE_INIT ==> !callMade)
      && (Early() && state != WRAPPED && !callMade ==> appState == STATE_INIT)
      && hasAppTransport == (appState != STATE_INIT && !over)
      && (state == WRAPPED || state == FLUSHING || state == SHUTDOWN ==> hasAppTransport)
      && (if state == UNWRAPPED then connected ==> transport.Dead() else connected)
      && (over ==> !connected) && (!connected && !over ==> !tls.fed)
      && (state == WRAPPED || state == FLUSHING || state == SHUTDOWN ==> tls.completed)
      && (appState != STATE_INIT && !callMade ==> tls.completed)
    }

    ghost predicate LifeValid()
      reads `state, `appState, `connected, `over, `hasAppTransport, `appWritingPaused, `lostScheduled,
            `history, `seen, `delivered, tls`ended, tls`fed, tls`completed, transport`connLost
    {
      HistoryValid() && AppValid() && ConnValid()
    }

    /** The transport is paused by its own last call, or by one made before it got this
        protocol; the assertion of `resume_writing` fails when the latter pause ends. */
    ghost predicate FlowValid()
      reads `sslWritingPaused, `inherited, `assertFailed,
            `incomingHigh, `incomingLow, `outgoingHigh, `outgoingLow, `sslReadingPaused, `lastSize,
            transport`protocolPaused
    {
      && transport.protocolPaused == (sslWritingPaused || inherited)
      && !(sslWritingPaused && inherited) && ReadingAgrees()
      && (inherited || assertFailed <==> startedPaused) && !(inherited && assertFailed)
      && 0 <= incomingLow <= incomingHigh && 0 <= outgoingLow <= outgoingHigh
    }

    /** With limits that differ, reading was paused, or not, as the incoming BIO asked for last time. */
    ghost predicate ReadingAgrees()
      reads `sslReadingPaused, `incomingHigh, `incomingLow, `lastSize
    {
      incomingLow < incomingHigh ==>
        (lastSize >= incomingHigh ==> sslReadingPaused) && (lastSize <= incomingLow ==> !sslReadingPaused)
    }

    /** Unless it was paused, the stream reads. */
    ghost predicate ReadsOn()
      reads `connected, `sslReadingPaused, transport`closing, transport`reading
    {
      connected && !transport.closing && !sslReadingPaused ==> transport.reading
    }

    /** Neither the handshake nor the shutdown flow can go on forever: a timer is armed, or the
        transport is on its way out. */
    ghost predicate Timed()
      reads `state, `over, `transportEof, `handshakeTimer, `shutdownTimer, transport`closing, transport`connLost
    {
      && (over ==> !handshakeTimer && !shutdownTimer) && (transportEof ==> transport.closing || transport.Dead())
      && (state == DO_HANDSHAKE ==> handshakeTimer || transport.Dead())
      && (state == FLUSHING || state == SHUTDOWN ==> shutdownTimer || transport.closing || transport.Dead())
    }

    /** The stream below: it makes no calls but to this engine. */
    ghost predicate Below()
      reads `connected, transport
    {
      && transport.Valid() && transport.script == [] && !transport.eof
      && (connected ==> !transport.closed && transport.protocolConnected)
    }

    /** For every callback but `owed` ones the next piece of application code ran. */
    ghost predicate Counted(owed: nat)
      reads `history, `asked, `script
    {
      var callbacks := history.Size() + asked;
      && owed <= callbacks
      && |script| == if callbacks - owed <= scripted then scripted - (callbacks - owed) else 0
    }

    /** Only an empty buffer starves the reader. */
    ghost predicate Fed()
      reads `script, `starved
    {
      roomy ==> Roomy(script) && !starved
    }

    /** The plaintext accepted is what the application wrote, call by call. */
    ghost predicate CallsValid()
      reads `plain, `calls, `ownCalls, `history, `asked, `script, `starved
    {
      plain == Text(calls) && (passive ==> Passive(script) && calls == ownCalls) && Fed() && Counted(0)
    }

    /** A callback was made, and the application's code for it did not run yet. */
    ghost predicate Owes()
      reads `plain, `calls, `ownCalls, `history, `asked, `script, `starved
    {
      plain == Text(calls) && (passive ==> Passive(script) && calls == ownCalls) && Fed() && Counted(1)
    }

    /** `list` was written, and what is accepted of it is not counted yet. */
    ghost predicate Awaits(list: seq<seq<Byte>>)
      reads `state, `plain, `calls, `ownCalls, `history, `asked, `script, `starved
    {
      && plain + (if Deaf() then [] else Concat(list)) == Text(calls)
      && (passive ==> Passive(script) && calls == ownCalls) && Fed() && Counted(0)
    }

    /** `call` was made, and what is accepted of it is not counted yet. */
    ghost predicate Begins(call: Call)
      reads `state, `plain, `calls, `ownCalls, `history, `asked, `script, `starved
    {
      && plain + Written(Asked(call, !Deaf())) == Text(calls)
      && (passive ==> Passive(script) && calls == ownCalls) && Fed() && Counted(0)
    }

    ghost predicate Untimed()
      reads this, tls, transport
    {
      Core() && CallsValid()
    }

    ghost predicate Core()
      reads this, tls, transport
    {
      OutValid() && CloseValid() && InValid() && LifeValid() && FlowValid()
    }

    /** What holds whenever application code runs, also inside a callback. */
    ghost predicate Valid()
      reads this, tls, transport
    {
      Untimed() && Timed() && Below()
    }

    /** Decrypted or complete data waits, the application reads, and nothing will read it. */
    ghost predicate Stranded()
      reads `state, `appReadingPaused, `readsScheduled, `starved, tls`records, transport`connLost
    {
      && state == WRAPPED && !appReadingPaused && |tls.records| > 0 && readsScheduled == 0
      && !starved && !transport.Dead()
    }

    /** Ciphertext waits although the transport takes it. */
    ghost predicate Unsent()
      reads `connected, `sslWritingPaused, `transportEof, tls`outgoing, tls`broken, transport`connLost
    {
      connected && |tls.outgoing| > 0 && !sslWritingPaused && !transportEof && !tls.broken && !transport.Dead()
    }

    /** Plaintext waits although OpenSSL takes it. */
    ghost predicate Unwritten()
      reads `transportEof, `backlog, tls`broken, tls`blocked, transport`connLost
    {
      |backlog| > 0 && !tls.blocked && !transportEof && !tls.broken && !transport.Dead()
    }

    /** The handshake is over, nothing was sent since, and either a read, which sends too, is
        scheduled, or the application does not read. */
    ghost predicate Holding()
      reads `state, `flushed, `readsScheduled, `appReadingPaused
    {
      state == WRAPPED && !flushed && (readsScheduled > 0 || appReadingPaused)
    }

    /** Something waits to be sent, and nothing will send it. */
    ghost predicate Stuck()
      reads `state, `connected, `flushed, `sslWritingPaused, `appReadingPaused, `readsScheduled, `transportEof,
            `backlog, tls`outgoing, tls`broken, tls`blocked, transport`connLost
    {
      && (state == WRAPPED || state == FLUSHING || state == SHUTDOWN) && !Holding()
      && (Unsent() || (Unwritten() && state != SHUTDOWN))
    }

    /** The shutdown went past the flush without close_notify, or is over without an end. */
    ghost predicate Unclosed()
      reads `state, `transportEof, `sslWritingPaused, tls`closeSent, tls`unwrapped, tls`outgoing,
            transport`closing, transport`connLost
    {
      state == SHUTDOWN && !transport.Dead() && ((!transportEof && !tls.closeSent) || Unended())
    }

    /** `unwrap()` was over, everything is handed over or can be, and the transport stays open. */
    ghost predicate Unended()
      reads `sslWritingPaused, tls`unwrapped, tls`outgoing, transport`closing
    {
      tls.unwrapped && !transport.closing && !(sslWritingPaused && |tls.outgoing| > 0)
    }

    /** Nothing is left to flush, and the engine still waits for that. */
    ghost predicate Overlooked()
      reads `state, `writeBufferSize, tls`outgoing
    {
      state == FLUSHING && WriteSize() == 0
    }

    /** The application is paused, and nothing is left to wait for; with equal limits that is so
        whenever the size is equal to them. */
    ghost predicate Dangling()
      reads `state, `flushed, `appWritingPaused, `outgoingHigh, `outgoingLow, `writeBufferSize, tls`outgoing
    {
      state == WRAPPED && flushed && appWritingPaused && WriteSize() <= outgoingLow < outgoingHigh
    }

    /** No such thing begins. */
    twostate predicate Served()
      reads `state, `flushed, `appWritingPaused, `outgoingHigh, `outgoingLow, `writeBufferSize, tls`outgoing
    {
      (Overlooked() ==> old(Overlooked())) && (Dangling() ==> old(Dangling()))
    }

    ghost predicate Resting()
      reads this, tls, transport
    {
      !Stranded() && !Stuck() && !Unclosed() && !Dangling()
    }

    /** The engine is connected to a stream that is connected to it. */
    ghost predicate Linked()
      reads `connected, `over, transport`closed, transport`protocolConnected, transport`madeScheduled
    {
      && (over ==> transport.closed)
      && (if callMade then transport.protocolConnected && !transport.madeScheduled
          else connected == (transport.protocolConnected && !transport.closed))
    }

    /** What holds between two steps of the loop. */
    ghost predicate AtRest()
      reads this, tls, transport
    {
      Valid() && Resting() && transport.AtRest() && Linked() && ReadsOn()
    }

    /** What application calls, and so callbacks, do not undo. */
    twostate predicate Later()
      reads this, tls, transport
    {
      Kept() && dataCalls == old(dataCalls) && delivered == old(delivered)
    }

    twostate predicate Kept()
      reads this, tls, transport
    {
      && Steady()
      && (Stranded() ==> old(Stranded())) && (Unclosed() ==> old(Unclosed()))
      && (Stuck() ==> old(Stuck()) && state == old(state))
      && (flushed && !old(flushed) ==> !Stuck())
    }

    twostate predicate Steady()
      reads this, tls, transport
    {
      && |script| <= |old(script)| && ownCalls == old(ownCalls) && old(measured) <= measured && starved == old(starved)
      && (old(ReadsOn()) ==> ReadsOn())
      && old(plain) <= plain && received == old(received)
      && old(history).Calls() <= history.Calls()
      && connected == old(connected) && over == old(over) && transportEof == old(transportEof)
      && hasAppTransport == old(hasAppTransport) && inherited == old(inherited) && seen.lost == old(seen.lost)
      && (appState == old(appState) || (old(appState) == STATE_CON_MADE && appState == STATE_EOF))
      && Forward(old(state), state)
      && |tls.records| <= |old(tls.records)| && (old(tls.ended) ==> tls.ended) && (old(tls.broken) ==> tls.broken)
      && (tls.ended && !old(tls.ended) ==> |old(tls.records)| > 0)
      && (discarded == old(discarded) || tls.broken || |tls.records| == 0 || tls.ended)
      && ((old(state) != DO_HANDSHAKE && old(state) != WRAPPED) ==> |Concat(backlog)| <= |Concat(old(backlog))|)
      && (old(flushed) ==> flushed) && (Unsent() ==> old(Unsent()))
      && transport.Lasting()
    }

    /** What is over does not begin again. */
    twostate predicate Onward()
      reads `state, `appState, `connected, `over
    {
      && (old(over) ==> over) && (old(connected) ==> connected || over) && (!old(Early()) ==> !Early())
      && (old(appState) != STATE_INIT ==> appState != STATE_INIT)
    }

    // ---- The constructor ----

    /** A new engine for a stream that has not called its protocol yet, or, with `callMade`,
        for a connected one (`start_tls`). */
    constructor (transport: Stream, callMade: bool, isBuffered: bool, script: seq<Reply>, answers: seq<Answer>)
      requires Ready(transport, callMade)
      ensures AtRest() && state == UNWRAPPED && !connected && !over && fresh(tls)
      ensures this.transport == transport && this.callMade == callMade && this.isBuffered == isBuffered
      ensures this.script == script && tls.answers == answers && tls.outgoing == [] && tls.emitted == []
      ensures tls.records == [] && !tls.ended && !tls.broken && !tls.closeSent
      ensures passive == Passive(script) && calls == ownCalls == Start 
      ensures scripted == |script| && asked == 0 && roomy == Roomy(script)
      ensures plain == [] && backlog == [] && history == Start && received == [] && readsScheduled == 0
      ensures startedPaused == inherited == transport.protocolPaused && !assertFailed && !sslWritingPaused
      ensures !appWritingPaused && !appReadingPaused && earlier == transport.accepted
      ensures appState == if callMade then STATE_CON_MADE else STATE_INIT
      ensures outgoingHigh == 4 * outgoingLow == 512 * 1024 && incomingHigh == 4 * incomingLow == 256 * 1024
    {
      tls := new Tls(answers);
      this.transport, earlier := transport, transport.accepted;
      this.callMade, this.isBuffered, this.script, passive := callMade, isBuffered, script, Passive(script);
      scripted, roomy, asked := |script|, Roomy(script), 0;
      startedPaused, inherited, assertFailed := transport.protocolPaused, transport.protocolPaused, false;
      state, appState := UNWRAPPED, if callMade then STATE_CON_MADE else STATE_INIT;
      backlog, writeBufferSize, connected, over, hasAppTransport, connLost := [], 0, false, false, callMade, 0;
      sslWritingPaused, sslReadingPaused, appReadingPaused, appWritingPaused := false, false, false, false;
      incomingHigh, incomingLow := FLOW_CONTROL_HIGH_WATER_SSL_READ * 1024, FLOW_CONTROL_HIGH_WATER_SSL_READ * 256;
      outgoingHigh, outgoingLow := FLOW_CONTROL_HIGH_WATER_SSL_WRITE * 1024, FLOW_CONTROL_HIGH_WATER_SSL_WRITE * 256;
      handshakeTimer, shutdownTimer, readsScheduled, lostScheduled := false, false, 0, false;
      plain, history, seen, delivered, received, discarded := [], Start, Replay(Start, callMade), [], [], [];
      calls, ownCalls, dataCalls, flushed := Start, Start, 0, false;
      transportEof, unwrapClean, drained, starved, measured, lastSize := false, true, false, false, 0, 0;
    }

    // ---- Small steps ----

    /** `_set_state`. */
    method SetState(newState: State) returns (ok: bool)
      modifies `state
      ensures ok <==> Allowed(old(state), newState)
      ensures state == if ok then newState else old(state)
    {
      ok := Allowed(state, newState);
      if ok {
        state := newState;
      }
    }

    /** Records a callback. */
    ghost method Notify(c: Callback)
      requires seen == Replay(history, callMade) && delivered == Delivered(history)
      modifies `history, `seen, `delivered, `dataCalls
      ensures history == Then(old(history), c) && history.Calls() == old(history).Calls() + [c]
      ensures dataCalls == old(dataCalls) + (if c.DataReceived? then 1 else 0)
      ensures seen == Replay(history, callMade) && seen == See(old(seen), c)
      ensures delivered == Delivered(history)
      ensures delivered == if c.DataReceived? then old(delivered) + c.data else old(delivered)
    {
      history, seen := Then(history, c), See(seen, c);
      if c.DataReceived? {
        delivered, dataCalls := delivered + c.data, dataCalls + 1;
      }
    }

    /** `pause_writing`, called by the transport; the source asserts the precondition. */
    method PauseWriting()
      requires !sslWritingPaused
      modifies `sslWritingPaused
      ensures sslWritingPaused
    {
      sslWritingPaused := true;
    }

    /** `_process_outgoing`. */
    method ProcessOutgoing()
      requires OutValid() && FlowValid() && Below() && connected
      modifies `sslWritingPaused, tls`outgoing, transport
      ensures OutValid() && FlowValid() && Below() && transport.Lasting() && transport.Alone()
      ensures |tls.outgoing| > 0 ==> sslWritingPaused
      ensures tls.outgoing == (if old(sslWritingPaused) then old(tls.outgoing) else [])
      ensures old(sslWritingPaused || tls.outgoing == []) ==>
                sslWritingPaused == old(sslWritingPaused) && unchanged(transport)
      ensures !old(transport.protocolPaused) && old(transport.writeQueueSize) == 0 && old(transport.buffer) == [] ==>
                transport.buffer == []
      ensures PausedFor(old(|tls.outgoing|))
      ensures old(ReadsOn()) ==> ReadsOn()
    {
      hide Streams.Initiated, Concat, Plain;
      if !sslWritingPaused {
        var data := tls.TakeOutgoing();
        if |data| > 0 {
          var wasPaused := transport.protocolPaused;
          var r := transport.WriteData(data);
          if transport.protocolPaused && !wasPaused {
            PauseWriting();
          }
        }
      }
    }

    /** `_control_ssl_reading`, for the size of the incoming BIO it finds. */
    method ControlSslReading() returns (size: nat)
      requires Below()
      modifies `sslReadingPaused, `measured, `lastSize, transport`reading
      ensures Below() && transport.Lasting() && measured == old(measured) + 1 && lastSize == size == tls.held
      ensures ReadingAgrees() && (old(FlowValid()) ==> FlowValid()) && (old(ReadsOn()) ==> ReadsOn())
      ensures sslReadingPaused == if size >= incomingHigh && !old(sslReadingPaused) then true
                                  else if size <= incomingLow && old(sslReadingPaused) then false
                                  else old(sslReadingPaused)
      ensures transport.reading == if connected && !transport.closing && sslReadingPaused != old(sslReadingPaused)
                                   then !sslReadingPaused else old(transport.reading)
    {
      hide Tls.WireValid, NoneBlank, Concat, Plain, Unread, Writing, Draining, Reading, FlushRun, SizeAfter,
           Sending, Tls.Pass, PausedBy, WillOverlook, Text, Written, Passive, Roomy,
           Streams.UVStream.CurrentFlow, Streams.UVStream.SendsAll, Streams.UVStream.ResumesOnceSent,
           SSLProtocol.OutValid, SSLProtocol.CloseValid, SSLProtocol.InValid, SSLProtocol.HistoryValid,
           SSLProtocol.AppValid, SSLProtocol.ConnValid, SSLProtocol.Timed, SSLProtocol.Stranded,
           SSLProtocol.Stuck, SSLProtocol.Unsent, SSLProtocol.Unwritten, SSLProtocol.Unclosed,
           SSLProtocol.Holding, SSLProtocol.Overlooked, SSLProtocol.Dangling, SSLProtocol.CallsValid,
           SSLProtocol.Awaits, SSLProtocol.Begins, SSLProtocol.Owes, SSLProtocol.Counted, SSLProtocol.Fed;
      size := tls.IncomingPending();
      measured, lastSize := measured + 1, size;
      if size >= incomingHigh && !sslReadingPaused {
        sslReadingPaused := true;
        if connected {
          transport.PauseReading();
        }
      } else if size <= incomingLow && sslReadingPaused {
        sslReadingPaused := false;
        if connected {
          transport.ResumeReading();
        }
      }
    }

    /** `_abort`. */
    method AbortNow()
      requires Below()
      modifies `state,
               transport`closing, transport`reading, transport`connLost, transport`lostScheduled, transport`everLost
      ensures Below() && transport.Lasting()
      ensures state == UNWRAPPED && (connected ==> transport.Dead())
      ensures old(ReadsOn()) ==> ReadsOn()
    {
      var ok := SetState(UNWRAPPED);
      if connected {
        transport.Abort();
      }
    }

    /** `_fatal_error`. */
    method FatalError()
      requires Below()
      modifies `state,
               transport`closing, transport`reading, transport`connLost, transport`lostScheduled, transport`everLost
      ensures Below() && transport.Lasting()
      ensures connected ==> transport.Dead()
      ensures state == if hasAppTransport then UNWRAPPED else old(state)
      ensures old(ReadsOn()) ==> ReadsOn()
    {
      if hasAppTransport {
        AbortNow();
      } else if connected {
        transport.Abort();
      }
    }

    /** `_on_shutdown_complete`. */
    method OnShutdownComplete(error: bool)
      requires Below() && connected
      modifies `state, `shutdownTimer,
               transport`closing, transport`reading, transport`connLost, transport`lostScheduled, transport`everLost
      ensures Below() && transport.Lasting() && !shutdownTimer
      ensures state == if error && hasAppTransport then UNWRAPPED else old(state)
      ensures if error then transport.Dead() else transport.closing
      ensures old(ReadsOn()) ==> ReadsOn()
    {
      shutdownTimer := false;
      if error {
        FatalError();
      } else {
        transport.CloseTransport();
      }
    }

    /** One round of `_do_write`. */
    method WriteFirst() returns (r: WriteResult)
      requires OutValid() && tls.WireValid() && !over && |backlog| > 0 && (|Concat(backlog)| > 0 ==> !tls.closeSent)
      modifies `backlog, `writeBufferSize, tls`outgoing, tls`emitted, tls`broken, tls`blocked, tls`held, tls`answers
      ensures OutValid() && tls.WireValid() && tls.answers == Rest(old(tls.answers))
      ensures if r.WriteError? then tls.broken else tls.broken == old(tls.broken)
      ensures |Concat(backlog)| <= |Concat(old(backlog))| && tls.blocked == r.WriteAgain?
      ensures match Head(old(tls.answers))
              case Fails => r == WriteError && unchanged(`backlog) && |tls.outgoing| == |old(tls.outgoing)|
              case Again(n) => r == WriteAgain && unchanged(`backlog) && |tls.outgoing| == |old(tls.outgoing)| + n
              case Does(n, layout) =>
                var count := Count(n, |old(backlog)[0]|);
                && r == Took(count) && backlog == Taken(old(backlog), count)
                && |tls.outgoing| == |old(tls.outgoing)| + WireSize(count, layout)
    {
      ghost var extra;
      var data := backlog[0];
      ghost var sent, waiting := Plain(tls.emitted), tls.outgoing;
      r, extra := tls.Write(data);
      Assoc(earlier, old(tls.emitted), extra);
      Assoc(transport.accepted, waiting, extra);
      if r.Took? {
        var count := r.count;
        TakenPrefix(backlog, count);
        Assoc(sent, data[..count], Concat(Taken(backlog, count)));
        if count < |data| {
          backlog := backlog[0 := data[count..]];
          writeBufferSize := writeBufferSize - count;
        } else {
          backlog := backlog[1..];
          writeBufferSize := writeBufferSize - |data|;
        }
      }
    }

    /** `_do_write`: encrypts the backlog until OpenSSL stops taking it. */
    method DoWrite() returns (raised: bool)
      requires OutValid() && tls.WireValid() && !over && (|Concat(backlog)| > 0 ==> !tls.closeSent)
      modifies `backlog, `writeBufferSize, tls`outgoing, tls`emitted, tls`broken, tls`blocked, tls`held, tls`answers
      ensures OutValid() && tls.WireValid() && |Concat(backlog)| <= |Concat(old(backlog))|
      ensures if raised then tls.broken else tls.broken == old(tls.broken) && (|backlog| == 0 || tls.blocked)
      ensures var w := Writing(old(backlog), old(tls.answers));
              && raised == w.failed && tls.answers == w.answers
              && |tls.outgoing| == |old(tls.outgoing)| + w.emitted
              && (!raised ==> backlog == w.left)
    {
      while |backlog| > 0
        invariant OutValid() && tls.WireValid() && |Concat(backlog)| <= |Concat(old(backlog))|
        invariant tls.broken == old(tls.broken) && (|Concat(backlog)| > 0 ==> !tls.closeSent)
        invariant |tls.outgoing| >= |old(tls.outgoing)|
        invariant var w := Writing(backlog, tls.answers);
                  Writing(old(backlog), old(tls.answers)) ==
                    w.(emitted := w.emitted + |tls.outgoing| - |old(tls.outgoing)|)
        decreases |tls.answers|, |backlog|
      {
        var r := WriteFirst();
        match r
        case Took(_) =>
        case WriteAgain => return false;
        case WriteError => return true;
      }
      return false;
    }

    /** `_do_write`, on the whole invariant. */
    method Encrypt() returns (raised: bool)
      requires Valid() && connected && (|Concat(backlog)| > 0 ==> !tls.closeSent)
      modifies `backlog, `writeBufferSize, tls`outgoing, tls`emitted, tls`broken, tls`blocked, tls`held, tls`answers
      ensures Valid() && transport.Lasting() && (raised ==> tls.broken) && (!raised ==> !Unwritten())
      ensures |Concat(backlog)| <= |Concat(old(backlog))| && (old(tls.broken) ==> tls.broken)
      ensures var w := Writing(old(backlog), old(tls.answers));
              && raised == w.failed && tls.answers == w.answers
              && |tls.outgoing| == |old(tls.outgoing)| + w.emitted && (!raised ==> backlog == w.left)
    {
      hide Streams.UVStream.Valid, Streams.UVStream.Queued, Streams.UVStream.EndLive, Streams.UVStream.LossLive,
           Tls.WireValid, NoneBlank, Concat, Plain, Unread, Writing, Draining, Reading, FlushRun, SizeAfter,
           Sending, Tls.Pass, PausedBy, WillOverlook, Text, Written, Passive, Roomy,
           Streams.UVStream.CurrentFlow, Streams.UVStream.SendsAll, Streams.UVStream.ResumesOnceSent,
           SSLProtocol.HistoryValid, SSLProtocol.AppValid, SSLProtocol.FlowValid, SSLProtocol.Timed,
           SSLProtocol.Below, SSLProtocol.Stranded, SSLProtocol.Stuck, SSLProtocol.Unsent, SSLProtocol.Unclosed,
           SSLProtocol.Holding, SSLProtocol.Overlooked, SSLProtocol.Dangling, SSLProtocol.CallsValid,
           SSLProtocol.Awaits, SSLProtocol.Begins, SSLProtocol.Owes, SSLProtocol.Counted, SSLProtocol.Fed,
           SSLProtocol.ReadsOn, SSLProtocol.ReadingAgrees;
      raised := DoWrite();
    }

    /** `_process_outgoing`, on the whole invariant. */
    method PassOn()
      requires Valid() && connected
      modifies `sslWritingPaused, tls`outgoing, transport
      ensures Valid() && transport.Lasting() && transport.Alone() && !Unsent()
      ensures (Unwritten() ==> old(Unwritten())) && (Unclosed() ==> old(Unclosed())) && (Stranded() ==> old(Stranded()))
      ensures |tls.outgoing| == if old(sslWritingPaused) then |old(tls.outgoing)| else 0
      ensures old(sslWritingPaused) ==> sslWritingPaused
      ensures old(tls.outgoing) == [] ==> sslWritingPaused == old(sslWritingPaused) && unchanged(transport)
      ensures PausedFor(old(|tls.outgoing|))
      ensures old(ReadsOn()) ==> ReadsOn()
    {
      hide Tls.WireValid, NoneBlank, Concat, Plain, Unread, Writing, Draining, Reading, FlushRun, SizeAfter,
           Sending, Tls.Pass, PausedBy, WillOverlook, Text, Written, Passive, Roomy,
           Streams.UVStream.CurrentFlow, Streams.UVStream.SendsAll, Streams.UVStream.ResumesOnceSent,
           SSLProtocol.OutValid, SSLProtocol.CloseValid, SSLProtocol.InValid, SSLProtocol.HistoryValid,
           SSLProtocol.AppValid, SSLProtocol.FlowValid, SSLProtocol.Stuck, SSLProtocol.Holding,
           SSLProtocol.Overlooked, SSLProtocol.Dangling, SSLProtocol.CallsValid, SSLProtocol.Awaits,
           SSLProtocol.Begins, SSLProtocol.Owes, SSLProtocol.Counted, SSLProtocol.Fed, SSLProtocol.ReadsOn,
           SSLProtocol.ReadingAgrees;
      ProcessOutgoing();
    }

    /** `_do_write` and then `_process_outgoing`. */
    method SendAll() returns (raised: bool)
      requires Valid() && connected && (|Concat(backlog)| > 0 ==> !tls.closeSent)
      modifies `backlog, `writeBufferSize, `sslWritingPaused, `flushed,
               tls`outgoing, tls`emitted, tls`broken, tls`blocked, tls`held, tls`answers, transport
      ensures Valid() && transport.Lasting() && |Concat(backlog)| <= |Concat(old(backlog))|
      ensures (old(tls.broken) ==> tls.broken) && (Unclosed() ==> old(Unclosed())) && (Stranded() ==> old(Stranded()))
      ensures if raised then tls.broken && flushed == old(flushed) else flushed && !Unsent() && !Unwritten()
      ensures var w := Writing(old(backlog), old(tls.answers));
              && raised == w.failed && tls.answers == w.answers
              && (!raised ==> && backlog == w.left
                              && |tls.outgoing| == if old(sslWritingPaused) then |old(tls.outgoing)| + w.emitted else 0)
              && (old(sslWritingPaused) ==> sslWritingPaused)
              && (raised || |old(tls.outgoing)| + w.emitted == 0 ==> sslWritingPaused == old(sslWritingPaused))
      ensures !raised ==> PausedFor(old(|tls.outgoing|) + Writing(old(backlog), old(tls.answers)).emitted)
      ensures old(ReadsOn()) ==> ReadsOn()
    {
      hide Streams.UVStream.Valid, Streams.UVStream.Queued, Streams.UVStream.EndLive, Streams.UVStream.LossLive,
           Tls.WireValid, NoneBlank, Concat, Plain, Unread, Writing, Draining, Reading, FlushRun, SizeAfter,
           Sending, Tls.Pass, PausedBy, WillOverlook, Text, Written, Passive, Roomy,
           Streams.UVStream.CurrentFlow, Streams.UVStream.SendsAll, Streams.UVStream.ResumesOnceSent,
           SSLProtocol.OutValid, SSLProtocol.CloseValid, SSLProtocol.InValid, SSLProtocol.HistoryValid,
           SSLProtocol.AppValid, SSLProtocol.FlowValid, SSLProtocol.Timed, SSLProtocol.Below, SSLProtocol.Stuck,
           SSLProtocol.Holding, SSLProtocol.Overlooked, SSLProtocol.Dangling, SSLProtocol.CallsValid,
           SSLProtocol.Awaits, SSLProtocol.Begins, SSLProtocol.Owes, SSLProtocol.Counted, SSLProtocol.Fed,
           SSLProtocol.ReadsOn, SSLProtocol.ReadingAgrees;
      raised := Encrypt();
      if !raised {
        PassOn();
        flushed := true;
      }
    }

    /** The same, after which nothing is stuck. */
    method Send() returns (raised: bool)
      requires Valid() && connected && (|Concat(backlog)| > 0 ==> !tls.closeSent)
      modifies `backlog, `writeBufferSize, `sslWritingPaused, `flushed,
               tls`outgoing, tls`emitted, tls`broken, tls`blocked, tls`held, tls`answers, transport
      ensures Valid() && Later() && !Stuck()
      ensures if raised then tls.broken else flushed
      ensures var w := Writing(old(backlog), old(tls.answers));
              && raised == w.failed && tls.answers == w.answers
              && (!raised ==> && backlog == w.left
                              && |tls.outgoing| == if old(sslWritingPaused) then |old(tls.outgoing)| + w.emitted else 0)
              && (old(sslWritingPaused) ==> sslWritingPaused)
              && (raised || |old(tls.outgoing)| + w.emitted == 0 ==> sslWritingPaused == old(sslWritingPaused))
      ensures !raised ==> Sending(old(Now())) == Some(WriteSize())
      ensures raised == Sending(old(Now())).None?
      ensures !raised ==> PausedFor(old(|tls.outgoing|) + Writing(old(backlog), old(tls.answers)).emitted)
    {
      hide Streams.UVStream.Valid, Streams.UVStream.Queued, Streams.UVStream.EndLive, Streams.UVStream.LossLive,
           Tls.WireValid, NoneBlank, Concat, Plain, Unread, Writing, Draining, Reading, FlushRun, Tls.Pass,
           PausedBy, WillOverlook, Text, Written, Passive, Roomy, Streams.UVStream.CurrentFlow,
           Streams.UVStream.SendsAll, Streams.UVStream.ResumesOnceSent, SSLProtocol.CloseValid,
           SSLProtocol.InValid, SSLProtocol.HistoryValid, SSLProtocol.AppValid, SSLProtocol.FlowValid,
           SSLProtocol.Timed, SSLProtocol.Below, SSLProtocol.Stranded, SSLProtocol.Unclosed,
           SSLProtocol.Holding, SSLProtocol.Overlooked, SSLProtocol.Dangling, SSLProtocol.CallsValid,
           SSLProtocol.Awaits, SSLProtocol.Begins, SSLProtocol.Owes, SSLProtocol.Counted, SSLProtocol.Fed,
           SSLProtocol.ReadsOn, SSLProtocol.ReadingAgrees;
      raised := SendAll();
    }

    // ---- The application ----

    /** Nothing the application writes is accepted any more. */
    predicate Deaf()
      reads `state
    {
      state == FLUSHING || state == SHUTDOWN || state == UNWRAPPED
    }

    /** The engine as it is, for the outcome of sending. */
    ghost function Now(): Moment
      reads `state, `appState, `backlog, `sslWritingPaused, `script, `outgoingHigh, `outgoingLow, `appWritingPaused,
            `history, tls`answers, tls`outgoing, transport
    {
      Moment(state, appState, backlog, tls.answers, |tls.outgoing|, sslWritingPaused, transport.CurrentFlow(),
             CurrentMood(), history)
    }

    /** How the next pass of reading goes; the buffer of an application that does nothing has room
        for one byte. */
    ghost function NextPass(): (r: ReadRun)
      reads tls`records, tls`ended, tls`rest, tls`answers
      requires NoneBlank(tls.records)
      ensures NoneBlank(r.records)
    {
      tls.Pass(if isBuffered then Some(1) else None)
    }

    function CurrentMood(): Mood
      reads `script, `outgoingHigh, `outgoingLow, `appWritingPaused, `state
    {
      Mood(script, outgoingHigh, outgoingLow, appWritingPaused, state == UNWRAPPED)
    }

    /** What application code leaves alone when nothing it writes is accepted. */
    twostate predicate Frozen()
      reads `state, `backlog, `writeBufferSize, `sslWritingPaused, tls
    {
      && unchanged(tls) && backlog == old(backlog) && writeBufferSize == old(writeBufferSize)
      && sslWritingPaused == old(sslWritingPaused) && (state == old(state) || state == UNWRAPPED)
    }

    /** The application's part of a callback. */
    method Answer() returns (r: Reply)
      requires Core() && Owes() && Timed() && Below() && seen.made
      modifies this, tls, transport
      ensures Valid() && Later()
      ensures state == WRAPPED ==> appState == old(appState)
      ensures old(|script|) == 0 ==>
                unchanged(this) && unchanged(tls) && unchanged(transport) && r == Reply([], false, 1)
      ensures old(|script|) > 0 ==> r == old(script)[0]
      ensures old(|script|) > 0 && r.calls == [] ==>
                && unchanged(tls) && unchanged(transport)
                && appState == old(appState) && state == old(state) && history == old(history)
      ensures old(Deaf()) && !over && old(|script|) > 0 ==>
                && Frozen()
                && CurrentMood() == Reacts(old(CurrentMood()).(script := old(script)[1..]), old(WriteSize()), r.calls)
      ensures Served()
      ensures roomy ==> r.bufferSize > 0
      decreases |script|, 0
    {
      hide Streams.UVStream.Valid, Streams.UVStream.Queued, Streams.UVStream.EndLive, Streams.UVStream.LossLive,
           Tls.WireValid, NoneBlank, Concat, Plain, Unread, Writing, Draining, Reading, FlushRun, SizeAfter,
           Sending, Tls.Pass, PausedBy, WillOverlook, Text, Written, Streams.UVStream.CurrentFlow,
           Streams.UVStream.SendsAll, Streams.UVStream.ResumesOnceSent, SSLProtocol.OutValid,
           SSLProtocol.CloseValid, SSLProtocol.InValid, SSLProtocol.HistoryValid, SSLProtocol.AppValid,
           SSLProtocol.ConnValid, SSLProtocol.FlowValid, SSLProtocol.Timed, SSLProtocol.Below,
           SSLProtocol.Stranded, SSLProtocol.Stuck, SSLProtocol.Unsent, SSLProtocol.Unwritten,
           SSLProtocol.Unclosed, SSLProtocol.Holding, SSLProtocol.Overlooked, SSLProtocol.Dangling,
           SSLProtocol.Awaits, SSLProtocol.Begins, SSLProtocol.ReadsOn, SSLProtocol.ReadingAgrees;
      r := Reply([], false, 1);
      if |script| > 0 {
        r := script[0];
        script := script[1..];
        RunCalls(r.calls);
      }
    }

    method RunCalls(todo: seq<Call>)
      requires Valid() && seen.made && (passive ==> todo == [])
      modifies this, tls, transport
      ensures Valid() && Later()
      ensures state == WRAPPED ==> appState == old(appState)
      ensures old(Deaf()) && !over ==>
                Frozen() && CurrentMood() == Reacts(old(CurrentMood()), old(WriteSize()), todo)
      ensures todo == [] ==> unchanged(this) && unchanged(tls) && unchanged(transport)
      ensures Served()
      decreases |script|, 9
    {
      hide Streams.UVStream.Valid, Streams.UVStream.Queued, Streams.UVStream.EndLive, Streams.UVStream.LossLive,
           Tls.WireValid, NoneBlank, Concat, Plain, Unread, Writing, Draining, Reading, FlushRun, SizeAfter,
           Sending, Tls.Pass, PausedBy, WillOverlook, Text, Written, Passive, Roomy,
           Streams.UVStream.CurrentFlow, Streams.UVStream.SendsAll, Streams.UVStream.ResumesOnceSent,
           SSLProtocol.OutValid, SSLProtocol.CloseValid, SSLProtocol.InValid, SSLProtocol.HistoryValid,
           SSLProtocol.ConnValid, SSLProtocol.FlowValid, SSLProtocol.Timed, SSLProtocol.Below,
           SSLProtocol.Stranded, SSLProtocol.Stuck, SSLProtocol.Unsent, SSLProtocol.Unwritten,
           SSLProtocol.Unclosed, SSLProtocol.Holding, SSLProtocol.Overlooked, SSLProtocol.Dangling,
           SSLProtocol.CallsValid, SSLProtocol.Awaits, SSLProtocol.Begins, SSLProtocol.Owes,
           SSLProtocol.Counted, SSLProtocol.Fed, SSLProtocol.ReadsOn, SSLProtocol.ReadingAgrees;
      var i := 0;
      while i < |todo|
        invariant 0 <= i <= |todo|
        invariant Valid() && Later() && Served()
        invariant state == WRAPPED ==> appState == old(appState)
        invariant i == 0 ==> unchanged(this) && unchanged(tls) && unchanged(transport)
        invariant old(Deaf()) && !over ==>
                    && Frozen()
                    && Reacts(CurrentMood(), old(WriteSize()), todo[i..]) ==
                         Reacts(old(CurrentMood()), old(WriteSize()), todo)
        decreases |todo| - i
      {
        var raised := MakeCall(todo[i]);
        assert todo[i..][1..] == todo[i + 1..];
        i := i + 1;
      }
    }

    /** A call made in a callback is recorded, and run. */
    method MakeCall(call: Call) returns (raised: bool)
      requires Valid() && seen.made && !passive
      modifies this, tls, transport
      ensures Valid() && Later() && Served()
      ensures state == WRAPPED ==> appState == old(appState)
      ensures old(Deaf()) && !over ==>
                Frozen() && CurrentMood() == ReactsOnce(old(CurrentMood()), old(WriteSize()), call)
      decreases |script|, 8, 1
    {
      hide Streams.UVStream.Valid, Streams.UVStream.Queued, Streams.UVStream.EndLive, Streams.UVStream.LossLive,
           Tls.WireValid, NoneBlank, Concat, Plain, Unread, Writing, Draining, Reading, FlushRun, SizeAfter,
           Sending, Tls.Pass, PausedBy, WillOverlook, Written, Passive, Roomy, Streams.UVStream.CurrentFlow,
           Streams.UVStream.SendsAll, Streams.UVStream.ResumesOnceSent, SSLProtocol.OutValid,
           SSLProtocol.CloseValid, SSLProtocol.InValid, SSLProtocol.HistoryValid, SSLProtocol.ConnValid,
           SSLProtocol.FlowValid, SSLProtocol.Timed, SSLProtocol.Below, SSLProtocol.Stranded, SSLProtocol.Stuck,
           SSLProtocol.Unsent, SSLProtocol.Unwritten, SSLProtocol.Unclosed, SSLProtocol.Holding,
           SSLProtocol.Overlooked, SSLProtocol.Dangling, SSLProtocol.Awaits, SSLProtocol.Owes,
           SSLProtocol.Counted, SSLProtocol.Fed, SSLProtocol.ReadsOn, SSLProtocol.ReadingAgrees;
      calls := Then(calls, Asked(call, !Deaf()));
      raised := RunCall(call);
    }

    /** `close`: a handshake is aborted, and a running connection flushed and shut down; the flush
        goes on exactly when it leaves something. */
    twostate predicate Closed(raised: bool)
      reads this, tls, transport
      requires old(NoneBlank(tls.records))
    {
      && state != WRAPPED && state != DO_HANDSHAKE && (raised <==> old(state == WRAPPED && FlushRaises()))
      && (old(|script|) == 0 ==> plain == old(plain))
      && (old(Deaf()) ==> unchanged(this) && unchanged(tls) && unchanged(transport))
      && (old(state) == DO_HANDSHAKE ==> state == UNWRAPPED && transport.Dead() && history == old(history))
      && (old(state) == WRAPPED ==>
            && (state == FLUSHING <==> old(FlushStays())) && (state == FLUSHING ==> FlushLeft())
            && (old(FlushLeaves()).None? ==> state == UNWRAPPED))
    }

    /** What a call does, and whether it raises. */
    twostate predicate Did(call: Call, raised: bool)
      reads this, tls, transport
      requires old(NoneBlank(tls.records))
    {
      match call
      case Write(data) =>
        !raised && Wrote([data]) && (data == [] ==> unchanged(this) && unchanged(tls) && unchanged(transport))
      case WriteLines(list) => !raised && Wrote(list)
      case Close => Closed(raised)
      case Abort => !raised && state == UNWRAPPED && (connected ==> transport.Dead()) && plain == old(plain)
      case PauseReading => !raised && appReadingPaused && state == old(state) && plain == old(plain)
      case ResumeReading =>
        && !raised && !appReadingPaused && state == old(state) && plain == old(plain)
        && readsScheduled == old(readsScheduled) + (if old(appReadingPaused) && state == WRAPPED then 1 else 0)
      case SetWriteBufferLimits(high, low) => WriteLimitsSet(high, low, raised)
      case SetReadBufferLimits(high, low) => ReadLimitsSet(high, low, raised)
    }

    /** A call on the `_SSLProtocolTransport`. */
    method RunCall(call: Call) returns (raised: bool)
      requires Core() && Begins(call) && Timed() && Below() && seen.made
      modifies this, tls, transport
      ensures Valid() && Later()
      ensures state == WRAPPED ==> appState == old(appState)
      ensures old(Deaf()) && !over ==>
                Frozen() && CurrentMood() == ReactsOnce(old(CurrentMood()), old(WriteSize()), call)
      ensures Served()
      ensures Did(call, raised)
      decreases |script|, 8, 0
    {
      hide Streams.UVStream.Valid, Streams.UVStream.Queued, Streams.UVStream.EndLive, Streams.UVStream.LossLive,
           Tls.WireValid, NoneBlank, Concat, Plain, Unread, Writing, Draining, Reading, FlushRun, SizeAfter,
           Sending, Tls.Pass, PausedBy, WillOverlook, Passive, Roomy, Streams.UVStream.CurrentFlow,
           Streams.UVStream.SendsAll, Streams.UVStream.ResumesOnceSent, SSLProtocol.OutValid,
           SSLProtocol.CloseValid, SSLProtocol.HistoryValid, SSLProtocol.AppValid, SSLProtocol.ConnValid,
           SSLProtocol.FlowValid, SSLProtocol.Timed, SSLProtocol.Below, SSLProtocol.Stranded, SSLProtocol.Stuck,
           SSLProtocol.Unsent, SSLProtocol.Unwritten, SSLProtocol.Unclosed, SSLProtocol.Holding,
           SSLProtocol.Overlooked, SSLProtocol.Dangling, SSLProtocol.Owes, SSLProtocol.Counted, SSLProtocol.Fed,
           SSLProtocol.ReadsOn, SSLProtocol.ReadingAgrees;
      match call
      case Write(data) => ConcatOne(data); raised := false; if |data| > 0 { WriteAppdata([data]); }
      case WriteLines(list) => raised := false; WriteAppdata(list);
      case Close => raised := StartShutdown();
      case Abort => raised := false; AppAbort();
      case PauseReading => raised := false; PauseReading();
      case ResumeReading => raised := false; ResumeReading();
      case SetWriteBufferLimits(high, low) => raised := SetWriteLimits(high, low);
      case SetReadBufferLimits(high, low) => raised := SetReadLimits(high, low);
    }

    /** `abort`. */
    method AppAbort()
      requires Valid()
      modifies `state,
               transport`closing, transport`reading, transport`connLost, transport`lostScheduled, transport`everLost
      ensures Valid() && Later() && state == UNWRAPPED && (connected ==> transport.Dead())
      ensures Served()
    {
      hide Streams.UVStream.Valid, Streams.UVStream.Queued, Streams.UVStream.EndLive, Streams.UVStream.LossLive,
           Tls.WireValid, NoneBlank, Concat, Plain, Unread, Writing, Draining, Reading, FlushRun, SizeAfter,
           Sending, Tls.Pass, PausedBy, WillOverlook, Text, Written, Passive, Roomy,
           Streams.UVStream.CurrentFlow, Streams.UVStream.SendsAll, Streams.UVStream.ResumesOnceSent,
           SSLProtocol.HistoryValid, SSLProtocol.FlowValid, SSLProtocol.Below, SSLProtocol.Holding,
           SSLProtocol.CallsValid, SSLProtocol.Awaits, SSLProtocol.Begins, SSLProtocol.Owes,
           SSLProtocol.Counted, SSLProtocol.Fed, SSLProtocol.ReadsOn, SSLProtocol.ReadingAgrees;
      AbortNow();
    }

    /** The limits for reading change, and the flag is looked at again. */
    method SetIncoming(high: int, low: int)
      requires FlowValid() && Below() && 0 <= low <= high
      modifies `incomingHigh, `incomingLow, `sslReadingPaused, `measured, `lastSize, transport`reading
      ensures FlowValid() && Below() && incomingHigh == high && incomingLow == low && transport.Lasting()
      ensures measured == old(measured) + 1 && (old(ReadsOn()) ==> ReadsOn())
    {
      hide Streams.UVStream.Valid, Streams.UVStream.Queued, Streams.UVStream.EndLive, Streams.UVStream.LossLive,
           Tls.WireValid, NoneBlank, Concat, Plain, Unread, Writing, Draining, Reading, FlushRun, SizeAfter,
           Sending, Tls.Pass, PausedBy, WillOverlook, Text, Written, Passive, Roomy,
           Streams.UVStream.CurrentFlow, Streams.UVStream.SendsAll, Streams.UVStream.ResumesOnceSent,
           SSLProtocol.OutValid, SSLProtocol.CloseValid, SSLProtocol.InValid, SSLProtocol.HistoryValid,
           SSLProtocol.AppValid, SSLProtocol.ConnValid, SSLProtocol.Timed, SSLProtocol.Below,
           SSLProtocol.Stranded, SSLProtocol.Stuck, SSLProtocol.Unsent, SSLProtocol.Unwritten,
           SSLProtocol.Unclosed, SSLProtocol.Holding, SSLProtocol.Overlooked, SSLProtocol.Dangling,
           SSLProtocol.CallsValid, SSLProtocol.Awaits, SSLProtocol.Begins, SSLProtocol.Owes,
           SSLProtocol.Counted, SSLProtocol.Fed, SSLProtocol.ReadsOn;
      incomingHigh, incomingLow := high, low;
      var _ := ControlSslReading();
    }

    method SetOutgoing(high: int, low: int)
      requires Valid() && 0 <= low <= high
      modifies `outgoingHigh, `outgoingLow
      ensures Valid() && outgoingHigh == high && outgoingLow == low
    {
      hide Streams.UVStream.Valid, Streams.UVStream.Queued, Streams.UVStream.EndLive, Streams.UVStream.LossLive,
           Tls.WireValid, NoneBlank, Concat, Plain, Unread, Writing, Draining, Reading, FlushRun, SizeAfter,
           Sending, Tls.Pass, PausedBy, WillOverlook, Text, Written, Passive, Roomy,
           Streams.UVStream.CurrentFlow, Streams.UVStream.SendsAll, Streams.UVStream.ResumesOnceSent,
           SSLProtocol.OutValid, SSLProtocol.CloseValid, SSLProtocol.InValid, SSLProtocol.HistoryValid,
           SSLProtocol.AppValid, SSLProtocol.ConnValid, SSLProtocol.Timed, SSLProtocol.Below,
           SSLProtocol.Stranded, SSLProtocol.Stuck, SSLProtocol.Unsent, SSLProtocol.Unwritten,
           SSLProtocol.Unclosed, SSLProtocol.Holding, SSLProtocol.Overlooked, SSLProtocol.Dangling,
           SSLProtocol.CallsValid, SSLProtocol.Awaits, SSLProtocol.Begins, SSLProtocol.Owes,
           SSLProtocol.Counted, SSLProtocol.Fed, SSLProtocol.ReadsOn, SSLProtocol.ReadingAgrees;
      outgoingHigh, outgoingLow := high, low;
    }

    /** `set_write_buffer_limits`; the new limits are in force when the application, told that
        it is to pause or to resume, makes no calls of its own. */
    method SetWriteLimits(high: Option<int>, low: Option<int>) returns (raised: bool)
      requires Valid() && seen.made
      modifies this, tls, transport
      ensures Valid() && Later()
      ensures state == WRAPPED ==> appState == old(appState)
      ensures WriteLimitsSet(high, low, raised)
      ensures old(Deaf()) && !over ==>
                && Frozen()
                && CurrentMood() ==
                     ReactsOnce(old(CurrentMood()), old(WriteSize()), Call.SetWriteBufferLimits(high, low))
      ensures Served()
      decreases |script|, 2
    {
      hide Streams.UVStream.Valid, Streams.UVStream.Queued, Streams.UVStream.EndLive, Streams.UVStream.LossLive,
           Tls.WireValid, NoneBlank, Concat, Plain, Unread, Writing, Draining, Reading, FlushRun, SizeAfter,
           Sending, Tls.Pass, PausedBy, WillOverlook, Text, Written, Passive, Roomy,
           Streams.UVStream.CurrentFlow, Streams.UVStream.SendsAll, Streams.UVStream.ResumesOnceSent,
           SSLProtocol.OutValid, SSLProtocol.CloseValid, SSLProtocol.InValid, SSLProtocol.HistoryValid,
           SSLProtocol.AppValid, SSLProtocol.ConnValid, SSLProtocol.FlowValid, SSLProtocol.Timed,
           SSLProtocol.Below, SSLProtocol.Stranded, SSLProtocol.Stuck, SSLProtocol.Unsent,
           SSLProtocol.Unwritten, SSLProtocol.Unclosed, SSLProtocol.Holding, SSLProtocol.Overlooked,
           SSLProtocol.Dangling, SSLProtocol.CallsValid, SSLProtocol.Awaits, SSLProtocol.Begins,
           SSLProtocol.Owes, SSLProtocol.Counted, SSLProtocol.Fed, SSLProtocol.ReadsOn,
           SSLProtocol.ReadingAgrees;
      var limits := AddFlowcontrolDefaults(high, low, FLOW_CONTROL_HIGH_WATER_SSL_WRITE);
      if limits.BadLimits? {
        return true;
      }
      SetOutgoing(limits.high, limits.low);
      ControlAppWriting();
      return false;
    }

    /** With an application that makes no calls, the write size is within the limits that
        `_control_app_writing` watches for, or the application was told just now. */
    twostate predicate Told()
      reads `state, `over, `history, `appWritingPaused, `outgoingHigh, `outgoingLow, `writeBufferSize, tls`outgoing
    {
      && state == old(state) && WriteSize() == old(WriteSize())
      && (if appWritingPaused == old(appWritingPaused) then !Crossed() && history == old(history)
          else history == if over then old(history)
                          else Then(old(history), Switch(!appWritingPaused)))
      && (if old(appWritingPaused) then WriteSize() <= outgoingLow else WriteSize() >= outgoingHigh) ==
           (appWritingPaused != old(appWritingPaused))
    }

    /** The new limits are checked, and then in force unless the application changes them when it is
        told that the write size crosses one, which it is exactly in that case. */
    twostate predicate WriteLimitsSet(high: Option<int>, low: Option<int>, raised: bool)
      reads this, tls, transport
    {
      var limits := AddFlowcontrolDefaults(high, low, FLOW_CONTROL_HIGH_WATER_SSL_WRITE);
      && raised == limits.BadLimits?
      && (raised ==> unchanged(this) && unchanged(tls) && unchanged(transport))
      && (!raised && old(|script|) == 0 ==>
            limits == Limits(outgoingHigh, outgoingLow) && Told() && plain == old(plain))
      && (!raised && !over ==>
            if old(if appWritingPaused then WriteSize() <= limits.low else WriteSize() >= limits.high)
            then old(history).Calls() + [Switch(old(appWritingPaused))] <= history.Calls()
            else history == old(history) && limits == Limits(outgoingHigh, outgoingLow))
    }

    /** The new limits are checked, and then in force. */
    twostate predicate ReadLimitsSet(high: Option<int>, low: Option<int>, raised: bool)
      reads this
    {
      var limits := AddFlowcontrolDefaults(high, low, FLOW_CONTROL_HIGH_WATER_SSL_READ);
      && plain == old(plain) && raised == limits.BadLimits?
      && if raised then unchanged(this) else limits == Limits(incomingHigh, incomingLow)
    }

    /** `set_read_buffer_limits`. */
    method SetReadLimits(high: Option<int>, low: Option<int>) returns (raised: bool)
      requires Valid()
      modifies `incomingHigh, `incomingLow, `sslReadingPaused, `measured, `lastSize, transport`reading
      ensures Valid() && Later()
      ensures ReadLimitsSet(high, low, raised)
      ensures Served()
    {
      hide Streams.UVStream.Valid, Streams.UVStream.Queued, Streams.UVStream.EndLive, Streams.UVStream.LossLive,
           Tls.WireValid, NoneBlank, Concat, Plain, Unread, Writing, Draining, Reading, FlushRun, SizeAfter,
           Sending, Tls.Pass, PausedBy, WillOverlook, Text, Written, Passive, Roomy,
           Streams.UVStream.CurrentFlow, Streams.UVStream.SendsAll, Streams.UVStream.ResumesOnceSent,
           SSLProtocol.OutValid, SSLProtocol.CloseValid, SSLProtocol.InValid, SSLProtocol.HistoryValid,
           SSLProtocol.AppValid, SSLProtocol.ConnValid, SSLProtocol.FlowValid, SSLProtocol.Timed,
           SSLProtocol.Below, SSLProtocol.Stranded, SSLProtocol.Stuck, SSLProtocol.Unsent,
           SSLProtocol.Unwritten, SSLProtocol.Unclosed, SSLProtocol.Holding, SSLProtocol.Overlooked,
           SSLProtocol.Dangling, SSLProtocol.CallsValid, SSLProtocol.Awaits, SSLProtocol.Begins,
           SSLProtocol.Owes, SSLProtocol.Counted, SSLProtocol.Fed, SSLProtocol.ReadsOn,
           SSLProtocol.ReadingAgrees;
      var limits := AddFlowcontrolDefaults(high, low, FLOW_CONTROL_HIGH_WATER_SSL_READ);
      if limits.BadLimits? {
        return true;
      }
      SetIncoming(limits.high, limits.low);
      return false;
    }

    /** `_pause_reading`. */
    method PauseReading()
      requires Valid()
      modifies `appReadingPaused
      ensures Valid() && Later() && appReadingPaused
      ensures Served()
    {
      hide Streams.UVStream.Valid, Streams.UVStream.Queued, Streams.UVStream.EndLive, Streams.UVStream.LossLive,
           Tls.WireValid, NoneBlank, Concat, Plain, Unread, Writing, Draining, Reading, FlushRun, SizeAfter,
           Sending, Tls.Pass, PausedBy, WillOverlook, Text, Written, Passive, Roomy,
           Streams.UVStream.CurrentFlow, Streams.UVStream.SendsAll, Streams.UVStream.ResumesOnceSent,
           SSLProtocol.OutValid, SSLProtocol.CloseValid, SSLProtocol.InValid, SSLProtocol.HistoryValid,
           SSLProtocol.AppValid, SSLProtocol.ConnValid, SSLProtocol.FlowValid, SSLProtocol.Timed,
           SSLProtocol.Below, SSLProtocol.Unsent, SSLProtocol.Unwritten, SSLProtocol.Unclosed,
           SSLProtocol.Overlooked, SSLProtocol.Dangling, SSLProtocol.CallsValid, SSLProtocol.Awaits,
           SSLProtocol.Begins, SSLProtocol.Owes, SSLProtocol.Counted, SSLProtocol.Fed, SSLProtocol.ReadsOn,
           SSLProtocol.ReadingAgrees;
      appReadingPaused := true;
    }

    /** `_resume_reading`. */
    method ResumeReading()
      requires Valid()
      modifies `appReadingPaused, `readsScheduled
      ensures Valid() && Later() && !appReadingPaused
      ensures readsScheduled == old(readsScheduled) + (if old(appReadingPaused) && state == WRAPPED then 1 else 0)
      ensures Served()
    {
      hide Streams.UVStream.Valid, Streams.UVStream.Queued, Streams.UVStream.EndLive, Streams.UVStream.LossLive,
           Tls.WireValid, NoneBlank, Concat, Plain, Unread, Writing, Draining, Reading, FlushRun, SizeAfter,
           Sending, Tls.Pass, PausedBy, WillOverlook, Text, Written, Passive, Roomy,
           Streams.UVStream.CurrentFlow, Streams.UVStream.SendsAll, Streams.UVStream.ResumesOnceSent,
           SSLProtocol.OutValid, SSLProtocol.CloseValid, SSLProtocol.InValid, SSLProtocol.HistoryValid,
           SSLProtocol.AppValid, SSLProtocol.ConnValid, SSLProtocol.FlowValid, SSLProtocol.Timed,
           SSLProtocol.Below, SSLProtocol.Unsent, SSLProtocol.Unwritten, SSLProtocol.Unclosed,
           SSLProtocol.Overlooked, SSLProtocol.Dangling, SSLProtocol.CallsValid, SSLProtocol.Awaits,
           SSLProtocol.Begins, SSLProtocol.Owes, SSLProtocol.Counted, SSLProtocol.Fed, SSLProtocol.ReadsOn,
           SSLProtocol.ReadingAgrees;
      if appReadingPaused {
        appReadingPaused := false;
        if state == WRAPPED {
          readsScheduled := readsScheduled + 1;
        }
      }
    }

    /** The write size crossed the limit that `_control_app_writing` watches for. */
    predicate Crossed()
      reads `appWritingPaused, `outgoingHigh, `outgoingLow, `writeBufferSize, tls`outgoing
    {
      Crosses(Mood([], outgoingHigh, outgoingLow, appWritingPaused, false), WriteSize())
    }

    /** `_control_app_writing`, in whatever state: exactly when the size crossed a limit, the
        application is told, and may make calls in its callback. */
    method ControlAppWriting()
      requires Valid() && seen.made
      modifies this, tls, transport
      ensures Valid() && Later()
      ensures state == WRAPPED ==> appState == old(appState)
      ensures !old(Crossed()) ==> unchanged(this) && unchanged(tls) && unchanged(transport)
      ensures old(Crossed()) && !over ==>
                old(history).Calls() + [Switch(old(appWritingPaused))]
                  <= history.Calls()
      ensures old(Crossed()) && old(|script|) == 0 ==>
                && appWritingPaused == !old(appWritingPaused) && unchanged(tls) && unchanged(transport)
                && history == (if over then old(history)
                               else Then(old(history), Switch(!appWritingPaused)))
                && Unmoved()
      ensures old(Deaf()) && !over ==> Frozen() && CurrentMood() == Settles(old(CurrentMood()), old(WriteSize()))
      ensures (Overlooked() ==> old(Overlooked())) && !Dangling()
      decreases |script|, 1
    {
      hide Streams.UVStream.Valid, Streams.UVStream.Queued, Streams.UVStream.EndLive, Streams.UVStream.LossLive,
           Tls.WireValid, NoneBlank, Concat, Plain, Unread, Writing, Draining, Reading, FlushRun, SizeAfter,
           Sending, Tls.Pass, PausedBy, WillOverlook, Text, Written, Passive, Roomy,
           Streams.UVStream.CurrentFlow, Streams.UVStream.SendsAll, Streams.UVStream.ResumesOnceSent,
           SSLProtocol.OutValid, SSLProtocol.CloseValid, SSLProtocol.InValid, SSLProtocol.HistoryValid,
           SSLProtocol.AppValid, SSLProtocol.ConnValid, SSLProtocol.FlowValid, SSLProtocol.Timed,
           SSLProtocol.Below, SSLProtocol.Stranded, SSLProtocol.Stuck, SSLProtocol.Unsent,
           SSLProtocol.Unwritten, SSLProtocol.Unclosed, SSLProtocol.Holding, SSLProtocol.CallsValid,
           SSLProtocol.Awaits, SSLProtocol.Begins, SSLProtocol.Owes, SSLProtocol.Counted, SSLProtocol.Fed,
           SSLProtocol.ReadsOn, SSLProtocol.ReadingAgrees;
      if Crossed() {
        TellPause();
      }
    }

    /** pause_writing or resume_writing, and what the application does in it. */
    method TellPause()
      requires Valid() && seen.made && Crossed()
      modifies this, tls, transport
      ensures Valid() && Later()
      ensures state == WRAPPED ==> appState == old(appState)
      ensures !over ==>
                old(history).Calls() + [Switch(old(appWritingPaused))]
                  <= history.Calls()
      ensures old(|script|) == 0 ==>
                && appWritingPaused == !old(appWritingPaused) && unchanged(tls) && unchanged(transport)
                && history == (if over then old(history)
                               else Then(old(history), Switch(!appWritingPaused)))
                && Unmoved()
      ensures old(Deaf()) && !over ==>
                && Frozen()
                && CurrentMood() ==
                     (var m := old(CurrentMood()).(paused := !old(appWritingPaused));
                      if m.script == [] then m
                      else Reacts(m.(script := m.script[1..]), old(WriteSize()), m.script[0].calls))
      ensures (Overlooked() ==> old(Overlooked())) && !Dangling()
      decreases |script|, 1, 0
    {
      hide Streams.UVStream.Valid, Streams.UVStream.Queued, Streams.UVStream.EndLive, Streams.UVStream.LossLive,
           Tls.WireValid, NoneBlank, Concat, Plain, Unread, Writing, Draining, Reading, FlushRun, SizeAfter,
           Sending, Tls.Pass, PausedBy, WillOverlook, Text, Written, Passive, Roomy,
           Streams.UVStream.CurrentFlow, Streams.UVStream.SendsAll, Streams.UVStream.ResumesOnceSent,
           SSLProtocol.OutValid, SSLProtocol.CloseValid, SSLProtocol.InValid, SSLProtocol.HistoryValid,
           SSLProtocol.AppValid, SSLProtocol.ConnValid, SSLProtocol.FlowValid, SSLProtocol.Timed,
           SSLProtocol.Below, SSLProtocol.Stranded, SSLProtocol.Stuck, SSLProtocol.Unsent,
           SSLProtocol.Unwritten, SSLProtocol.Unclosed, SSLProtocol.Holding, SSLProtocol.Awaits,
           SSLProtocol.Begins, SSLProtocol.Fed, SSLProtocol.ReadsOn, SSLProtocol.ReadingAgrees;
      ToggleWriting();
      if !over {
        var r := Answer();
      }
    }

    /** The engine's own state but for the flag that tells whether the application is paused. */
    twostate predicate Unmoved()
      reads `state, `appState, `script, `backlog, `writeBufferSize, `sslWritingPaused, `flushed,
            `outgoingHigh, `outgoingLow, `appReadingPaused, `plain
    {
      && state == old(state) && appState == old(appState) && script == old(script)
      && backlog == old(backlog) && writeBufferSize == old(writeBufferSize)
      && sslWritingPaused == old(sslWritingPaused) && flushed == old(flushed)
      && outgoingHigh == old(outgoingHigh) && outgoingLow == old(outgoingLow)
      && appReadingPaused == old(appReadingPaused) && plain == old(plain)
    }

    /** Flips the flag and calls pause_writing or resume_writing, unless the
        application protocol is gone. */
    method ToggleWriting()
      requires LifeValid() && InValid() && seen.made
      modifies `appWritingPaused, `history, `seen, `delivered, `dataCalls
      ensures LifeValid() && InValid() && seen.made
      ensures appWritingPaused == !old(appWritingPaused) && seen.lost == old(seen.lost)
      ensures dataCalls == old(dataCalls) && delivered == old(delivered)
      ensures if over then history == old(history)
              else var c := Switch(!appWritingPaused);
                   history == Then(old(history), c) && history.Calls() == old(history).Calls() + [c]
    {
      appWritingPaused := !appWritingPaused;
      if !over {
        Notify(Switch(!appWritingPaused));
      }
    }

    // ---- Outgoing flow ----

    /** The buffering loop of `_write_appdata`. */
    method Buffer(list: seq<seq<Byte>>)
      requires OutValid() && !over
      modifies `backlog, `writeBufferSize, `plain
      ensures OutValid() && plain == old(plain) + Concat(list) && backlog == old(backlog) + list
    {
      var i := 0;
      while i < |list|
        invariant 0 <= i <= |list|
        invariant OutValid() && plain == old(plain) + Concat(list[..i]) && backlog == old(backlog) + list[..i]
      {
        ConcatSnoc(backlog, list[i]);
        ConcatSnoc(list[..i], list[i]);
        assert list[..i] + [list[i]] == list[..i + 1];
        Assoc(Plain(tls.emitted), Concat(backlog), list[i]);
        Assoc(old(plain), Concat(list[..i]), list[i]);
        Assoc(old(backlog), list[..i], [list[i]]);
        backlog := backlog + [list[i]];
        writeBufferSize := writeBufferSize + |list[i]|;
        plain := plain + list[i];
        i := i + 1;
      }
      assert list[..i] == list;
    }

    /** The same while the engine accepts data. */
    method Accept(list: seq<seq<Byte>>)
      requires Core() && Awaits(list) && Timed() && Below() && (state == DO_HANDSHAKE || state == WRAPPED)
      modifies `backlog, `writeBufferSize, `plain
      ensures Valid() && plain == old(plain) + Concat(list) && backlog == old(backlog) + list && !tls.closeSent
    {
      Buffer(list);
      assert InValid() && HistoryValid() && AppValid() && ConnValid() && FlowValid() && Timed() && Below();
    }

    /** Before the shutdown flow all of `list` is accepted, once and at once; an application that
        does nothing in its callbacks adds nothing to it. */
    twostate predicate Wrote(list: seq<seq<Byte>>)
      reads `plain
    {
      if old(Deaf()) then plain == old(plain)
      else old(plain) + Concat(list) <= plain && (old(|script|) == 0 ==> plain == old(plain) + Concat(list))
    }

    /** `_write_appdata`. */
    method WriteAppdata(list: seq<seq<Byte>>)
      requires Core() && Awaits(list) && Timed() && Below() && seen.made
      modifies this, tls, transport
      ensures Valid() && Later()
      ensures state == WRAPPED ==> appState == old(appState)
      ensures old(Deaf()) ==>
                && plain == old(plain) && backlog == old(backlog) && unchanged(tls) && unchanged(transport)
                && Unmoved() && appWritingPaused == old(appWritingPaused) && history == old(history)
                && connLost == old(connLost) + 1
      ensures Wrote(list)
      ensures old(state) == DO_HANDSHAKE ==>
                && backlog == old(backlog) + list && unchanged(tls) && unchanged(transport)
                && state == DO_HANDSHAKE && script == old(script) && history == old(history)
                && appState == old(appState) && sslWritingPaused == old(sslWritingPaused)
                && appWritingPaused == old(appWritingPaused) && readsScheduled == old(readsScheduled)
                && appReadingPaused == old(appReadingPaused)
                && outgoingHigh == old(outgoingHigh) && outgoingLow == old(outgoingLow)
      ensures old(state) == WRAPPED ==> !Stuck() && (flushed || transport.Dead())
      ensures Served()
      decreases |script|, 7
    {
      hide Streams.UVStream.Valid, Streams.UVStream.Queued, Streams.UVStream.EndLive, Streams.UVStream.LossLive,
           Tls.WireValid, NoneBlank, Concat, Plain, Unread, Writing, Draining, Reading, FlushRun, SizeAfter,
           Sending, Tls.Pass, PausedBy, WillOverlook, Text, Written, Passive, Roomy,
           Streams.UVStream.CurrentFlow, Streams.UVStream.SendsAll, Streams.UVStream.ResumesOnceSent,
           SSLProtocol.OutValid, SSLProtocol.CloseValid, SSLProtocol.InValid, SSLProtocol.HistoryValid,
           SSLProtocol.AppValid, SSLProtocol.FlowValid, SSLProtocol.Timed, SSLProtocol.Below,
           SSLProtocol.Stranded, SSLProtocol.Unclosed, SSLProtocol.Begins, SSLProtocol.Owes,
           SSLProtocol.Counted, SSLProtocol.Fed, SSLProtocol.ReadsOn, SSLProtocol.ReadingAgrees;
      if state == FLUSHING || state == SHUTDOWN || state == UNWRAPPED {
        connLost := connLost + 1;
        return;
      }
      Accept(list);
      if state == WRAPPED {
        var raised := SendOrFail();
      }
    }

    /** The guarded part of `_write_appdata`, and the end of `_do_read`. */
    method SendOrFail() returns (raised: bool)
      requires Valid() && seen.made && connected && (|Concat(backlog)| > 0 ==> !tls.closeSent)
      modifies this, tls, transport
      ensures Valid() && Later() && !Stuck()
      ensures state == WRAPPED ==> appState == old(appState)
      ensures if raised then transport.Dead() else flushed
      ensures raised == Sending(old(Now())).None? && !Dangling() && (Overlooked() <==> Overlooks(old(Now())))
      ensures if Tells(old(Now()))
              then && old(history).Calls() + [Switch(old(appWritingPaused))] <= history.Calls()
                   && (old(|script|) == 0 ==> history == Then(old(history), Switch(old(appWritingPaused))))
              else history == old(history)
      ensures old(|script|) == 0 && !raised ==> state == old(state)
      ensures old(|script|) == 0 ==> plain == old(plain) && script == []
      decreases |script|, 2
    {
      hide Streams.UVStream.Valid, Streams.UVStream.Queued, Streams.UVStream.EndLive, Streams.UVStream.LossLive,
           Tls.WireValid, NoneBlank, Concat, Plain, Unread, Writing, Draining, Reading, FlushRun, SizeAfter,
           Sending, Tls.Pass, PausedBy, WillOverlook, Text, Written, Passive, Roomy,
           Streams.UVStream.CurrentFlow, Streams.UVStream.SendsAll, Streams.UVStream.ResumesOnceSent,
           SSLProtocol.OutValid, SSLProtocol.CloseValid, SSLProtocol.InValid, SSLProtocol.HistoryValid,
           SSLProtocol.AppValid, SSLProtocol.FlowValid, SSLProtocol.Timed, SSLProtocol.Below,
           SSLProtocol.Stranded, SSLProtocol.Stuck, SSLProtocol.Unsent, SSLProtocol.Unwritten,
           SSLProtocol.Unclosed, SSLProtocol.Holding, SSLProtocol.CallsValid, SSLProtocol.Awaits,
           SSLProtocol.Begins, SSLProtocol.Owes, SSLProtocol.Counted, SSLProtocol.Fed, SSLProtocol.ReadsOn,
           SSLProtocol.ReadingAgrees;
      raised := Send();
      if raised {
        Fail();
      } else {
        ControlAppWriting();
      }
    }

    // ---- Shutdown flow ----

    /** Told of the end, the application aborts, or raises, which aborts too. */
    predicate EofAborts()
      reads `script, `outgoingHigh, `outgoingLow, `appWritingPaused, `writeBufferSize, tls`outgoing
    {
      && script != []
      && (script[0].raises
          || (var m := Mood(script[1..], outgoingHigh, outgoingLow, appWritingPaused, false);
              Reacts(m, WriteSize(), script[0].calls).aborted))
    }

    /** `_call_eof_received`. */
    method CallEofReceived()
      requires Valid() && seen.made && tls.ended && connected && hasAppTransport
      modifies this, tls, transport
      ensures Valid() && Later()
      ensures old(appState) == STATE_CON_MADE ==> appState == STATE_EOF
      ensures old(appState) != STATE_CON_MADE ==> unchanged(this) && unchanged(tls) && unchanged(transport)
      ensures old(Deaf()) ==> Frozen()
      ensures old(state) == FLUSHING ==>
                (state == UNWRAPPED <==> old(appState) == STATE_CON_MADE && old(EofAborts()))
      ensures old(appState) == STATE_CON_MADE && old(|script|) == 0 ==>
                ToldEnd() && Frozen() && state == old(state)
      ensures Served()
      ensures old(appState) == STATE_CON_MADE && old(|script|) == 0 ==> unchanged(transport)
      decreases |script|, 2
    {
      hide Streams.UVStream.Valid, Streams.UVStream.Queued, Streams.UVStream.EndLive, Streams.UVStream.LossLive,
           Tls.WireValid, NoneBlank, Concat, Plain, Unread, Writing, Draining, Reading, FlushRun, SizeAfter,
           Sending, Tls.Pass, PausedBy, WillOverlook, Text, Written, Passive, Roomy,
           Streams.UVStream.CurrentFlow, Streams.UVStream.SendsAll, Streams.UVStream.ResumesOnceSent,
           SSLProtocol.OutValid, SSLProtocol.CloseValid, SSLProtocol.InValid, SSLProtocol.HistoryValid,
           SSLProtocol.AppValid, SSLProtocol.ConnValid, SSLProtocol.FlowValid, SSLProtocol.Timed,
           SSLProtocol.Below, SSLProtocol.Stranded, SSLProtocol.Stuck, SSLProtocol.Unsent,
           SSLProtocol.Unwritten, SSLProtocol.Unclosed, SSLProtocol.Holding, SSLProtocol.Overlooked,
           SSLProtocol.Dangling, SSLProtocol.CallsValid, SSLProtocol.Awaits, SSLProtocol.Begins,
           SSLProtocol.Owes, SSLProtocol.Counted, SSLProtocol.Fed, SSLProtocol.ReadsOn,
           SSLProtocol.ReadingAgrees;
      if appState == STATE_CON_MADE {
        var raised := ReportEof();
        if raised {
          Fail();
        }
      }
    }

    /** The callback, and what the application does in it. */
    method ReportEof() returns (raised: bool)
      requires Valid() && tls.ended && connected && appState == STATE_CON_MADE
      modifies this, tls, transport
      ensures Valid() && Later() && appState == STATE_EOF
      ensures old(Deaf()) ==> Frozen()
      ensures old(state) == FLUSHING ==> (raised || state == UNWRAPPED <==> old(EofAborts()))
      ensures old(|script|) == 0 ==>
                ToldEnd() && Frozen() && state == old(state) && !raised
      ensures Served()
      ensures old(appState) == STATE_CON_MADE && old(|script|) == 0 ==> unchanged(transport)
      decreases |script|, 1
    {
      hide Streams.UVStream.Valid, Streams.UVStream.Queued, Streams.UVStream.EndLive, Streams.UVStream.LossLive,
           Tls.WireValid, NoneBlank, Concat, Plain, Unread, Writing, Draining, Reading, FlushRun, SizeAfter,
           Sending, Tls.Pass, PausedBy, WillOverlook, Text, Written, Passive, Roomy,
           Streams.UVStream.CurrentFlow, Streams.UVStream.SendsAll, Streams.UVStream.ResumesOnceSent,
           SSLProtocol.OutValid, SSLProtocol.CloseValid, SSLProtocol.InValid, SSLProtocol.HistoryValid,
           SSLProtocol.AppValid, SSLProtocol.FlowValid, SSLProtocol.Timed, SSLProtocol.Below,
           SSLProtocol.Stranded, SSLProtocol.Stuck, SSLProtocol.Unsent, SSLProtocol.Unwritten,
           SSLProtocol.Unclosed, SSLProtocol.Holding, SSLProtocol.Overlooked, SSLProtocol.Dangling,
           SSLProtocol.Awaits, SSLProtocol.Begins, SSLProtocol.Fed, SSLProtocol.ReadsOn,
           SSLProtocol.ReadingAgrees;
      NoteEof();
      var r := Answer();
      return r.raises;
    }

    method NoteEof()
      requires LifeValid() && InValid() && appState == STATE_CON_MADE && tls.ended
      modifies `appState, `history, `seen, `delivered, `dataCalls
      ensures LifeValid() && InValid() && appState == STATE_EOF && seen.lost == old(seen.lost) && seen.made
      ensures dataCalls == old(dataCalls) && delivered == old(delivered)
      ensures history == Then(old(history), EofReceived) && history.Calls() == old(history).Calls() + [EofReceived]
    {
      appState := STATE_EOF;
      Notify(EofReceived);
    }

    /** One round of `_do_read_into_void`. */
    method DiscardOne() returns (r: ReadResult)
      requires InValid() && !Early()
      modifies `discarded, tls`records, tls`rest, tls`held, tls`ended, tls`broken, tls`answers
      ensures InValid() && tls.answers == Rest(old(tls.answers)) && (!r.Chunk? ==> discarded == old(discarded))
      ensures if Head(old(tls.answers)).Fails?
              then r == ReadError && tls.broken && unchanged(tls`records) && unchanged(tls`ended)
              else && ReadStep(r, tls.records, tls.ended) == ReadOf(old(tls.records), old(tls.ended), SSL_READ_MAX_SIZE)
                   && tls.broken == old(tls.broken)
    {
      r := tls.Read(SSL_READ_MAX_SIZE);
      if r.Chunk? {
        Assoc(delivered + discarded, r.bytes, Unread(tls.records));
        Assoc(delivered, discarded, r.bytes);
        discarded := discarded + r.bytes;
      }
    }

    /** The loop of `_do_read_into_void`. */
    method DiscardAll() returns (r: ReadResult)
      requires InValid() && !Early()
      modifies `discarded, tls`records, tls`rest, tls`held, tls`ended, tls`broken, tls`answers
      ensures InValid() && !r.Chunk?
      ensures DrainRun(r, tls.answers) ==
                Draining(old(tls.records), old(tls.ended), old(tls.answers), SSL_READ_MAX_SIZE)
      ensures |tls.records| <= |old(tls.records)| && (old(tls.ended) ==> tls.ended)
      ensures tls.ended && !old(tls.ended) ==> |old(tls.records)| > 0
      ensures if r.ReadError? then tls.broken else tls.broken == old(tls.broken)
      ensures if r.Empty? then tls.ended else r.ReadAgain? ==> |tls.records| == 0 && !tls.ended
      ensures |old(tls.records)| == 0 ==> discarded == old(discarded)
    {
      r := DiscardOne();
      while r.Chunk?
        invariant InValid()
        invariant |tls.records| <= |old(tls.records)| && (old(tls.ended) ==> tls.ended && !r.Chunk?)
        invariant tls.ended && !old(tls.ended) ==> |old(tls.records)| > 0
        invariant if r.ReadError? then tls.broken else tls.broken == old(tls.broken)
        invariant if r.Empty? then tls.ended else r.ReadAgain? ==> |tls.records| == 0 && !tls.ended
        invariant |old(tls.records)| == 0 ==> discarded == old(discarded) && !r.Chunk?
        invariant Draining(old(tls.records), old(tls.ended), old(tls.answers), SSL_READ_MAX_SIZE) ==
                    if r.Chunk? then Draining(tls.records, tls.ended, tls.answers, SSL_READ_MAX_SIZE)
                    else DrainRun(r, tls.answers)
        decreases r.Chunk?, |Unread(tls.records)|
      {
        r := DiscardOne();
      }
    }

    method Discard() returns (r: ReadResult)
      requires Valid() && !Early()
      modifies `discarded, tls`records, tls`rest, tls`held, tls`ended, tls`broken, tls`answers
      ensures Valid() && Later() && !r.Chunk?
      ensures DrainRun(r, tls.answers) ==
                Draining(old(tls.records), old(tls.ended), old(tls.answers), SSL_READ_MAX_SIZE)
      ensures r.ReadError? ==> tls.broken
      ensures if r.Empty? then tls.ended else r.ReadAgain? ==> |tls.records| == 0 && !tls.ended
      ensures Served()
    {
      hide Streams.UVStream.Valid, Streams.UVStream.Queued, Streams.UVStream.EndLive, Streams.UVStream.LossLive,
           Tls.WireValid, NoneBlank, Concat, Plain, Unread, Writing, Draining, Reading, FlushRun, SizeAfter,
           Sending, Tls.Pass, PausedBy, WillOverlook, Text, Written, Passive, Roomy,
           Streams.UVStream.CurrentFlow, Streams.UVStream.SendsAll, Streams.UVStream.ResumesOnceSent,
           SSLProtocol.OutValid, SSLProtocol.InValid, SSLProtocol.HistoryValid, SSLProtocol.FlowValid,
           SSLProtocol.Below, SSLProtocol.Holding, SSLProtocol.Overlooked, SSLProtocol.Dangling,
           SSLProtocol.CallsValid, SSLProtocol.Awaits, SSLProtocol.Begins, SSLProtocol.Owes,
           SSLProtocol.Counted, SSLProtocol.Fed, SSLProtocol.ReadsOn, SSLProtocol.ReadingAgrees;
      r := DiscardAll();
      assert OutValid() && CloseValid() && HistoryValid() && AppValid() && ConnValid() && FlowValid() && Timed();
      assert Below();
    }

    /** `_do_read_into_void`. */
    method DoReadIntoVoid() returns (raised: bool)
      requires Valid() && connected && (state == FLUSHING || state == SHUTDOWN)
      modifies this, tls, transport
      ensures Valid() && Later() && (raised ==> tls.broken)
      ensures state == old(state) || (state == UNWRAPPED && appState == STATE_EOF && old(appState) == STATE_CON_MADE)
      ensures !raised ==> if tls.ended then appState != STATE_CON_MADE else |tls.records| == 0
      ensures var d := Draining(old(tls.records), old(tls.ended), old(tls.answers), SSL_READ_MAX_SIZE);
              && raised == d.result.ReadError? && tls.answers == d.answers
              && (old(state) == FLUSHING ==>
                    (state == UNWRAPPED <==> d.result.Empty? && old(appState) == STATE_CON_MADE && old(EofAborts())))
              && (!(d.result.Empty? && old(appState) == STATE_CON_MADE) ==>
                    Unmoved() && appWritingPaused == old(appWritingPaused) && history == old(history))
              && (d.result.Empty? && old(appState) == STATE_CON_MADE && old(|script|) == 0 ==>
                    ToldEnd() && state == old(state))
      ensures backlog == old(backlog) && sslWritingPaused == old(sslWritingPaused)
      ensures tls.outgoing == old(tls.outgoing) && writeBufferSize == old(writeBufferSize)
      ensures Served()
      ensures old(|script|) == 0 ==> unchanged(transport)
      decreases |script|, 3
    {
      hide Streams.UVStream.Valid, Streams.UVStream.Queued, Streams.UVStream.EndLive, Streams.UVStream.LossLive,
           Tls.WireValid, NoneBlank, Concat, Plain, Unread, Writing, Draining, Reading, FlushRun, SizeAfter,
           Sending, Tls.Pass, PausedBy, WillOverlook, Text, Written, Passive, Roomy,
           Streams.UVStream.CurrentFlow, Streams.UVStream.SendsAll, Streams.UVStream.ResumesOnceSent,
           SSLProtocol.OutValid, SSLProtocol.CloseValid, SSLProtocol.InValid, SSLProtocol.HistoryValid,
           SSLProtocol.FlowValid, SSLProtocol.Timed, SSLProtocol.Below, SSLProtocol.Stranded, SSLProtocol.Stuck,
           SSLProtocol.Unsent, SSLProtocol.Unwritten, SSLProtocol.Unclosed, SSLProtocol.Holding,
           SSLProtocol.CallsValid, SSLProtocol.Awaits, SSLProtocol.Begins, SSLProtocol.Owes,
           SSLProtocol.Counted, SSLProtocol.Fed, SSLProtocol.ReadsOn, SSLProtocol.ReadingAgrees;
      var r := Discard();
      if r.Empty? {
        CallEofReceived();
      }
      raised := r.ReadError?;
    }

    /** One round of the shutdown, with `records` to read before it: what is left to read is read, and
        `unwrap` asked; an error ends the connection, and so does success once nothing is left to send. */
    twostate predicate ShutDown(records: seq<Record>)
      reads this, tls, transport
      requires NoneBlank(records)
    {
      var d := Draining(records, old(tls.ended), old(tls.answers), SSL_READ_MAX_SIZE);
      if d.result.ReadError? then tls.answers == d.answers && transport.Dead()
      else
        && tls.answers == Rest(d.answers)
        && (Head(d.answers).Fails? ==> transport.Dead())
        && (Head(d.answers).Does? && WriteSize() == 0 ==> transport.closing && !shutdownTimer)
    }

    /** `_do_shutdown`. */
    method DoShutdown()
      requires Valid() && connected && state == SHUTDOWN
      modifies this, tls, transport
      ensures Valid() && Later() && !Stuck() && (tls.closeSent || transport.Dead())
      ensures old(|script|) == 0 ==>
                SameMood() && history == if old(EndsNow()) then Then(old(history), EofReceived) else old(history)
      ensures Served()
      ensures !Unclosed()
      ensures ShutDown(old(tls.records))
      decreases |script|, 4
    {
      hide Streams.UVStream.Valid, Streams.UVStream.Queued, Streams.UVStream.EndLive, Streams.UVStream.LossLive,
           Tls.WireValid, NoneBlank, Concat, Plain, Unread, Writing, Draining, Reading, FlushRun, SizeAfter,
           Sending, Tls.Pass, PausedBy, WillOverlook, Text, Written, Passive, Roomy,
           Streams.UVStream.CurrentFlow, Streams.UVStream.SendsAll, Streams.UVStream.ResumesOnceSent,
           SSLProtocol.OutValid, SSLProtocol.InValid, SSLProtocol.HistoryValid, SSLProtocol.FlowValid,
           SSLProtocol.Timed, SSLProtocol.Below, SSLProtocol.Stranded, SSLProtocol.Stuck, SSLProtocol.Unsent,
           SSLProtocol.Unwritten, SSLProtocol.Holding, SSLProtocol.CallsValid, SSLProtocol.Awaits,
           SSLProtocol.Begins, SSLProtocol.Owes, SSLProtocol.Counted, SSLProtocol.Fed, SSLProtocol.ReadsOn,
           SSLProtocol.ReadingAgrees;
      var raised := DoReadIntoVoid();
      if raised {
        FailShutdown();
      } else {
        SendCloseNotify();
      }
    }

    /** `_on_shutdown_complete` with an exception. */
    method FailShutdown()
      requires Valid() && connected
      modifies `state, `shutdownTimer,
               transport`closing, transport`reading, transport`connLost, transport`lostScheduled, transport`everLost
      ensures Valid() && Later() && !Stuck() && transport.Dead()
      ensures state == if hasAppTransport then UNWRAPPED else old(state)
    {
      hide Streams.UVStream.Valid, Streams.UVStream.Queued, Streams.UVStream.EndLive, Streams.UVStream.LossLive,
           Tls.WireValid, NoneBlank, Concat, Plain, Unread, Writing, Draining, Reading, FlushRun, SizeAfter,
           Sending, Tls.Pass, PausedBy, WillOverlook, Text, Written, Passive, Roomy,
           Streams.UVStream.CurrentFlow, Streams.UVStream.SendsAll, Streams.UVStream.ResumesOnceSent,
           SSLProtocol.HistoryValid, SSLProtocol.FlowValid, SSLProtocol.Below, SSLProtocol.Holding,
           SSLProtocol.Overlooked, SSLProtocol.Dangling, SSLProtocol.CallsValid, SSLProtocol.Awaits,
           SSLProtocol.Begins, SSLProtocol.Owes, SSLProtocol.Counted, SSLProtocol.Fed, SSLProtocol.ReadsOn,
           SSLProtocol.ReadingAgrees;
      OnShutdownComplete(true);
    }

    /** The second half of `_do_shutdown`: close_notify is written, and the transport is closed
        once nothing is left to hand over. */
    method SendCloseNotify()
      requires Valid() && connected && (|Concat(backlog)| == 0 || transportEof) && !Early() && state != FLUSHING
      modifies `state, `shutdownTimer, `unwrapClean, `sslWritingPaused, transport,
               tls`outgoing, tls`emitted, tls`closeSent, tls`broken, tls`held, tls`answers, tls`unwrapped
      ensures Valid() && Later() && !Stuck() && (tls.closeSent || transport.Dead())
      ensures transport.closing && !old(transport.closing) ==>
                transport.failed || tls.broken || (tls.unwrapped && WriteSize() == 0)
      ensures !Unclosed()
      ensures Head(old(tls.answers)).Does? && WriteSize() == 0 ==> transport.closing && !shutdownTimer
      ensures tls.answers == Rest(old(tls.answers)) && (Head(old(tls.answers)).Fails? ==> transport.Dead())
    {
      hide Streams.UVStream.Valid, Streams.UVStream.Queued, Streams.UVStream.EndLive, Streams.UVStream.LossLive,
           Tls.WireValid, NoneBlank, Concat, Plain, Unread, Writing, Draining, Reading, FlushRun, SizeAfter,
           Sending, Tls.Pass, PausedBy, WillOverlook, Text, Written, Passive, Roomy,
           Streams.UVStream.CurrentFlow, Streams.UVStream.SendsAll, Streams.UVStream.ResumesOnceSent,
           SSLProtocol.InValid, SSLProtocol.HistoryValid, SSLProtocol.AppValid, SSLProtocol.FlowValid,
           SSLProtocol.Below, SSLProtocol.Stranded, SSLProtocol.Stuck, SSLProtocol.Unsent,
           SSLProtocol.Unwritten, SSLProtocol.Holding, SSLProtocol.Overlooked, SSLProtocol.Dangling,
           SSLProtocol.CallsValid, SSLProtocol.Awaits, SSLProtocol.Begins, SSLProtocol.Owes,
           SSLProtocol.Counted, SSLProtocol.Fed, SSLProtocol.ReadsOn, SSLProtocol.ReadingAgrees;
      var r := UnwrapAndSend();
      if r == StepError {
        FailShutdown();
      } else if r == Complete && WriteSize() == 0 {
        CompleteShutdown();
      }
    }

    /** `_on_shutdown_complete` without an exception. */
    method CompleteShutdown()
      requires Valid() && connected
      modifies `shutdownTimer,
               transport`closing, transport`reading, transport`connLost, transport`lostScheduled, transport`everLost
      ensures Valid() && Later() && transport.closing && !shutdownTimer
    {
      hide Streams.UVStream.Valid, Streams.UVStream.Queued, Streams.UVStream.EndLive, Streams.UVStream.LossLive,
           Tls.WireValid, NoneBlank, Concat, Plain, Unread, Writing, Draining, Reading, FlushRun, SizeAfter,
           Sending, Tls.Pass, PausedBy, WillOverlook, Text, Written, Passive, Roomy,
           Streams.UVStream.CurrentFlow, Streams.UVStream.SendsAll, Streams.UVStream.ResumesOnceSent,
           SSLProtocol.CloseValid, SSLProtocol.InValid, SSLProtocol.HistoryValid, SSLProtocol.AppValid,
           SSLProtocol.FlowValid, SSLProtocol.Holding, SSLProtocol.Overlooked, SSLProtocol.Dangling,
           SSLProtocol.CallsValid, SSLProtocol.Awaits, SSLProtocol.Begins, SSLProtocol.Owes,
           SSLProtocol.Counted, SSLProtocol.Fed, SSLProtocol.ReadingAgrees;
      shutdownTimer := false;
      transport.CloseTransport();
    }

    /** `unwrap()`: writes close_notify unless it was written before. */
    method Unwrap() returns (r: StepResult)
      requires OutValid() && tls.WireValid() && unwrapClean && (|Concat(backlog)| == 0 || transportEof)
      modifies `unwrapClean, tls`outgoing, tls`emitted, tls`closeSent, tls`broken, tls`held, tls`answers, tls`unwrapped
      ensures OutValid() && tls.WireValid() && unwrapClean
      ensures tls.emitted == old(tls.emitted) +
                if r == StepError || old(tls.closeSent) then [] else Closing(Head(old(tls.answers)))
      ensures r == StepError ==> tls.broken && tls.closeSent == old(tls.closeSent)
      ensures r != StepError ==> tls.closeSent && tls.broken == old(tls.broken)
      ensures r == (match Head(old(tls.answers)) case Fails => StepError case Again(_) => StepAgain
                                                 case Does(_, _) => Complete)
      ensures tls.unwrapped == (r == Complete)
      ensures tls.answers == Rest(old(tls.answers))
    {
      unwrapClean := unwrapClean && (|Concat(backlog)| == 0 || transportEof);
      ghost var extra, waiting := [], tls.outgoing;
      r, extra := tls.Unwrap();
      Assoc(earlier, old(tls.emitted), extra);
      Assoc(transport.accepted, waiting, extra);
    }

    /** `unwrap()` and, unless it failed, `_process_outgoing`. */
    method UnwrapAndSend() returns (r: StepResult)
      requires Valid() && connected && (|Concat(backlog)| == 0 || transportEof) && !Early() && state != FLUSHING
      modifies `unwrapClean, `sslWritingPaused, transport,
               tls`outgoing, tls`emitted, tls`closeSent, tls`broken, tls`held, tls`answers, tls`unwrapped
      ensures Valid() && Steady() && !Stuck() && (Stranded() ==> old(Stranded()))
      ensures dataCalls == old(dataCalls) && delivered == old(delivered) && flushed == old(flushed)
      ensures if r == StepError then tls.broken else tls.closeSent
      ensures transport.closing && !old(transport.closing) ==> transport.failed
      ensures r == (match Head(old(tls.answers)) case Fails => StepError case Again(_) => StepAgain
                                                 case Does(_, _) => Complete)
      ensures tls.unwrapped == (r == Complete) && (|tls.outgoing| > 0 && r != StepError ==> sslWritingPaused)
      ensures tls.answers == Rest(old(tls.answers))
    {
      hide Streams.UVStream.Valid, Streams.UVStream.Queued, Streams.UVStream.EndLive, Streams.UVStream.LossLive,
           Tls.WireValid, NoneBlank, Concat, Plain, Unread, Writing, Draining, Reading, FlushRun, SizeAfter,
           Sending, Tls.Pass, PausedBy, WillOverlook, Text, Written, Passive, Roomy,
           Streams.UVStream.CurrentFlow, Streams.UVStream.SendsAll, Streams.UVStream.ResumesOnceSent,
           SSLProtocol.HistoryValid, SSLProtocol.AppValid, SSLProtocol.FlowValid, SSLProtocol.Timed,
           SSLProtocol.Below, SSLProtocol.Overlooked, SSLProtocol.Dangling, SSLProtocol.CallsValid,
           SSLProtocol.Awaits, SSLProtocol.Begins, SSLProtocol.Owes, SSLProtocol.Counted, SSLProtocol.Fed,
           SSLProtocol.ReadsOn, SSLProtocol.ReadingAgrees;
      r := Unwrap();
      assert CloseValid() && InValid() && HistoryValid() && AppValid() && ConnValid() && FlowValid() && Timed();
      assert Below();
      if r != StepError {
        PassOn();
      }
    }

    /** The end of the stream is read, and was not reported yet. */
    predicate EndsNow()
      reads `appState, tls`records, tls`ended, tls`answers
      requires NoneBlank(tls.records)
    {
      appState == STATE_CON_MADE && Draining(tls.records, tls.ended, tls.answers, SSL_READ_MAX_SIZE).result.Empty?
    }

    /** How much the flush leaves, unless it fails. */
    function FlushLeaves(): Option<nat>
      reads `backlog, `sslWritingPaused, tls`outgoing, tls`records, tls`ended, tls`answers
      requires NoneBlank(tls.records)
    {
      var w := FlushRun(tls.records, tls.ended, tls.answers, backlog);
      if w.failed then None else Some(SizeAfter(w, sslWritingPaused, |tls.outgoing|))
    }

    /** What makes `_do_flush` raise: the first report of the peer's close_notify makes the
        application abort, and nothing fails or is left to send. */
    predicate FlushRaises()
      reads `appState, `script, `outgoingHigh, `outgoingLow, `appWritingPaused, `writeBufferSize, `backlog,
            `sslWritingPaused, tls`outgoing, tls`records, tls`ended, tls`answers
      requires NoneBlank(tls.records)
    {
      EndsNow() && EofAborts() && FlushLeaves() == Some(0)
    }

    /** The flush goes on: the application does not abort, no error is met, and something is left. */
    predicate FlushStays()
      reads `appState, `script, `outgoingHigh, `outgoingLow, `appWritingPaused, `writeBufferSize, `backlog,
            `sslWritingPaused, tls`outgoing, tls`records, tls`ended, tls`answers
      requires NoneBlank(tls.records)
    {
      !(EndsNow() && EofAborts()) && FlushLeaves().Some? && FlushLeaves().value > 0
    }

    /** The stream paused the engine, or not, as writing so much to it leads to. */
    twostate predicate PausedFor(size: nat)
      reads `sslWritingPaused
    {
      sslWritingPaused == PausedBy(old(sslWritingPaused), old(transport.CurrentFlow()), size)
    }

    /** What was sent, and how it went, was as `w` says. */
    twostate predicate Sent(w: WriteRun)
      reads `backlog, `sslWritingPaused, tls`answers, tls`outgoing
    {
      && backlog == w.left && tls.answers == w.answers
      && |tls.outgoing| == (if old(sslWritingPaused) then |old(tls.outgoing)| + w.emitted else 0)
      && (old(sslWritingPaused) ==> sslWritingPaused)
      && (|old(tls.outgoing)| + w.emitted == 0 ==> sslWritingPaused == old(sslWritingPaused))
    }

    twostate predicate SameMood()
      reads `script, `appWritingPaused, `outgoingHigh, `outgoingLow, `plain
    {
      && script == old(script) && appWritingPaused == old(appWritingPaused) && plain == old(plain)
      && outgoingHigh == old(outgoingHigh) && outgoingLow == old(outgoingLow)
    }

    /** The application was told nothing. */
    twostate predicate Untold()
      reads `script, `history, `appState, `appWritingPaused, `outgoingHigh, `outgoingLow, `plain
    {
      SameMood() && history == old(history) && appState == old(appState)
    }

    /** An application that does nothing was told of the end, and of nothing else. */
    twostate predicate ToldEnd()
      reads `script, `history, `appState, `appWritingPaused, `outgoingHigh, `outgoingLow, `plain
    {
      SameMood() && history == Then(old(history), EofReceived) && appState == STATE_EOF
    }

    /** What the flush leaves when it goes on. */
    twostate predicate FlushLeft()
      reads this, tls
      requires old(NoneBlank(tls.records))
    {
      && state == FLUSHING && Sent(old(FlushRun(tls.records, tls.ended, tls.answers, backlog)))
      && (if old(EndsNow()) then old(|script|) == 0 ==> ToldEnd() else Untold())
    }

    /** `_do_flush`.  It raises, since it cannot enter SHUTDOWN, exactly when `FlushRaises` held
        before.  By itself it never calls pause_writing or resume_writing. */
    method DoFlush() returns (raised: bool)
      requires Valid() && seen.made && state == FLUSHING
      modifies this, tls, transport
      ensures Valid() && Later() && !Stuck()
      ensures raised <==> old(FlushRaises())
      ensures raised ==> state == UNWRAPPED && WriteSize() == 0 && transport.Dead()
      ensures state == FLUSHING ==> WriteSize() > 0
      ensures state == SHUTDOWN ==> tls.closeSent || transport.Dead()
      ensures (state == FLUSHING <==> old(FlushStays())) && (state == FLUSHING ==> FlushLeft())
      ensures old(|script|) == 0 ==>
                SameMood() && history == if old(EndsNow()) then Then(old(history), EofReceived) else old(history)
      ensures Served()
      ensures state == FLUSHING && old(|script|) == 0 ==>
                PausedFor(old(|tls.outgoing| + FlushRun(tls.records, tls.ended, tls.answers, backlog).emitted))
      ensures old(FlushLeaves()).None? ==> state == UNWRAPPED
      ensures old(FlushLeaves()).Some? ==> measured > old(measured)
      decreases |script|, 5
    {
      hide Streams.UVStream.Valid, Streams.UVStream.Queued, Streams.UVStream.EndLive, Streams.UVStream.LossLive,
           Tls.WireValid, NoneBlank, Concat, Plain, Unread, Writing, Draining, Reading, FlushRun, Sending,
           Tls.Pass, PausedBy, WillOverlook, Text, Written, Passive, Roomy, Streams.UVStream.CurrentFlow,
           Streams.UVStream.SendsAll, Streams.UVStream.ResumesOnceSent, SSLProtocol.InValid,
           SSLProtocol.HistoryValid, SSLProtocol.AppValid, SSLProtocol.FlowValid, SSLProtocol.Timed,
           SSLProtocol.Below, SSLProtocol.Unsent, SSLProtocol.Unwritten, SSLProtocol.Holding,
           SSLProtocol.CallsValid, SSLProtocol.Awaits, SSLProtocol.Begins, SSLProtocol.Owes,
           SSLProtocol.Counted, SSLProtocol.Fed, SSLProtocol.ReadsOn, SSLProtocol.ReadingAgrees;
      var failed := FlushAll();
      if failed {
        return false;
      }
      if WriteSize() == 0 {
        var ok := EnterShutdown();
        if !ok {
          return true;
        }
        DoShutdown();
      }
      return false;
    }

    /** The guarded part of `_do_flush`, with its exception handler. */
    method FlushAll() returns (failed: bool)
      requires Valid() && seen.made && state == FLUSHING
      modifies this, tls, transport
      ensures Valid() && Later() && !Stuck()
      ensures failed == old(FlushLeaves()).None?
      ensures if failed then state == UNWRAPPED
              else && state == (if old(EndsNow() && EofAborts()) then UNWRAPPED else FLUSHING)
                   && Sent(old(FlushRun(tls.records, tls.ended, tls.answers, backlog)))
      ensures !failed ==> if old(EndsNow()) then old(|script|) == 0 ==> ToldEnd() else Untold()
      ensures !failed ==> if tls.ended then appState != STATE_CON_MADE else |tls.records| == 0
      ensures old(|script|) == 0 ==>
                SameMood() && history == if old(EndsNow()) then Then(old(history), EofReceived) else old(history)
      ensures !failed && old(|script|) == 0 ==>
                PausedFor(old(|tls.outgoing| + FlushRun(tls.records, tls.ended, tls.answers, backlog).emitted))
      ensures !failed ==> measured > old(measured)
      decreases |script|, 4
    {
      hide Streams.UVStream.Valid, Streams.UVStream.Queued, Streams.UVStream.EndLive, Streams.UVStream.LossLive,
           Tls.WireValid, NoneBlank, Concat, Plain, Unread, Writing, Draining, Reading, SizeAfter, Sending,
           Tls.Pass, PausedBy, WillOverlook, Text, Written, Passive, Roomy, Streams.UVStream.CurrentFlow,
           Streams.UVStream.SendsAll, Streams.UVStream.ResumesOnceSent, SSLProtocol.InValid,
           SSLProtocol.HistoryValid, SSLProtocol.AppValid, SSLProtocol.FlowValid, SSLProtocol.Timed,
           SSLProtocol.Below, SSLProtocol.Stranded, SSLProtocol.Stuck, SSLProtocol.Unsent,
           SSLProtocol.Unwritten, SSLProtocol.Unclosed, SSLProtocol.Holding, SSLProtocol.Overlooked,
           SSLProtocol.Dangling, SSLProtocol.CallsValid, SSLProtocol.Awaits, SSLProtocol.Begins,
           SSLProtocol.Owes, SSLProtocol.Counted, SSLProtocol.Fed, SSLProtocol.ReadsOn,
           SSLProtocol.ReadingAgrees;
      failed := DoReadIntoVoid();
      if failed {
        FailShutdown();
      } else {
        failed := FlushBacklog();
      }
    }

    /** The sending half of `_do_flush`, with its exception handler. */
    method FlushBacklog() returns (failed: bool)
      requires Valid() && connected && (state == FLUSHING || state == UNWRAPPED)
      requires |Concat(backlog)| > 0 ==> !tls.closeSent
      modifies `backlog, `writeBufferSize, `sslWritingPaused, `sslReadingPaused, `measured, `lastSize, `flushed,
               `state, `shutdownTimer,
               tls`outgoing, tls`emitted, tls`broken, tls`blocked, tls`held, tls`answers, transport
      ensures Valid() && Later() && !Stuck()
      ensures state == if failed then UNWRAPPED else old(state)
      ensures var w := Writing(old(backlog), old(tls.answers)); failed == w.failed && (!failed ==> Sent(w))
      ensures !failed ==> PausedFor(old(|tls.outgoing|) + Writing(old(backlog), old(tls.answers)).emitted)
      ensures !failed ==> measured > old(measured)
    {
      hide Streams.UVStream.Valid, Streams.UVStream.Queued, Streams.UVStream.EndLive, Streams.UVStream.LossLive,
           Tls.WireValid, NoneBlank, Concat, Plain, Unread, Writing, Draining, Reading, FlushRun, SizeAfter,
           Sending, Tls.Pass, PausedBy, WillOverlook, Text, Written, Passive, Roomy,
           Streams.UVStream.CurrentFlow, Streams.UVStream.SendsAll, Streams.UVStream.ResumesOnceSent,
           SSLProtocol.OutValid, SSLProtocol.CloseValid, SSLProtocol.InValid, SSLProtocol.HistoryValid,
           SSLProtocol.AppValid, SSLProtocol.FlowValid, SSLProtocol.Timed, SSLProtocol.Below,
           SSLProtocol.Stranded, SSLProtocol.Stuck, SSLProtocol.Unsent, SSLProtocol.Unwritten,
           SSLProtocol.Unclosed, SSLProtocol.Holding, SSLProtocol.Overlooked, SSLProtocol.Dangling,
           SSLProtocol.CallsValid, SSLProtocol.Awaits, SSLProtocol.Begins, SSLProtocol.Owes,
           SSLProtocol.Counted, SSLProtocol.Fed, SSLProtocol.ReadsOn, SSLProtocol.ReadingAgrees;
      failed := Send();
      if failed {
        FailShutdown();
      } else {
        var _ := ControlSslReading();
      }
    }

    /** `_set_state(SHUTDOWN)` in `_do_flush`. */
    method EnterShutdown() returns (ok: bool)
      requires Valid() && connected && WriteSize() == 0 && (state == FLUSHING || state == UNWRAPPED)
      modifies `state, `drained
      ensures Valid() && Steady() && !Stranded() && (ok ==> state == SHUTDOWN && !Stuck())
      ensures dataCalls == old(dataCalls) && delivered == old(delivered)
      ensures ok <==> old(state) == FLUSHING
      ensures !ok ==> unchanged(this)
    {
      hide Streams.UVStream.Valid, Streams.UVStream.Queued, Streams.UVStream.EndLive, Streams.UVStream.LossLive,
           Tls.WireValid, NoneBlank, Concat, Plain, Unread, Writing, Draining, Reading, FlushRun, SizeAfter,
           Sending, Tls.Pass, PausedBy, WillOverlook, Text, Written, Passive, Roomy,
           Streams.UVStream.CurrentFlow, Streams.UVStream.SendsAll, Streams.UVStream.ResumesOnceSent,
           SSLProtocol.HistoryValid, SSLProtocol.FlowValid, SSLProtocol.Below, SSLProtocol.Overlooked,
           SSLProtocol.Dangling, SSLProtocol.CallsValid, SSLProtocol.Awaits, SSLProtocol.Begins,
           SSLProtocol.Owes, SSLProtocol.Counted, SSLProtocol.Fed, SSLProtocol.ReadsOn,
           SSLProtocol.ReadingAgrees;
      ok := SetState(SHUTDOWN);
      if ok {
        drained := |tls.outgoing| == 0 && |Concat(backlog)| == 0;
      }
    }

    /** FLUSHING begins, and its deadline with it. */
    method BeginFlush()
      requires Valid() && state == WRAPPED
      modifies `state, `shutdownTimer
      ensures Valid() && Steady() && state == FLUSHING && shutdownTimer
    {
      hide Streams.UVStream.Valid, Streams.UVStream.Queued, Streams.UVStream.EndLive, Streams.UVStream.LossLive,
           Tls.WireValid, NoneBlank, Concat, Plain, Unread, Writing, Draining, Reading, FlushRun, SizeAfter,
           Sending, Tls.Pass, PausedBy, WillOverlook, Text, Written, Passive, Roomy,
           Streams.UVStream.CurrentFlow, Streams.UVStream.SendsAll, Streams.UVStream.ResumesOnceSent,
           SSLProtocol.OutValid, SSLProtocol.HistoryValid, SSLProtocol.FlowValid, SSLProtocol.Below,
           SSLProtocol.Stranded, SSLProtocol.Stuck, SSLProtocol.Unwritten, SSLProtocol.Unclosed,
           SSLProtocol.Holding, SSLProtocol.Overlooked, SSLProtocol.Dangling, SSLProtocol.CallsValid,
           SSLProtocol.Awaits, SSLProtocol.Begins, SSLProtocol.Owes, SSLProtocol.Counted, SSLProtocol.Fed,
           SSLProtocol.ReadsOn, SSLProtocol.ReadingAgrees;
      var ok := SetState(FLUSHING);
      shutdownTimer := true;
    }

    /** `_start_shutdown`. */
    method StartShutdown() returns (raised: bool)
      requires Valid() && seen.made
      modifies this, tls, transport
      ensures Valid() && Later() && state != WRAPPED
      ensures Closed(raised)
      ensures raised ==> state == UNWRAPPED && WriteSize() == 0 && transport.Dead()
      ensures old(state) == WRAPPED ==> !Stuck() && (state == FLUSHING ==> WriteSize() > 0)
      ensures Served()
      ensures old(|script|) == 0 && old(state) == WRAPPED ==>
                SameMood() && history == if old(EndsNow()) then Then(old(history), EofReceived) else old(history)
      ensures old(state) == WRAPPED && state == FLUSHING && old(|script|) == 0 ==>
                PausedFor(old(|tls.outgoing| + FlushRun(tls.records, tls.ended, tls.answers, backlog).emitted))
      decreases |script|, 6
    {
      hide Streams.UVStream.Valid, Streams.UVStream.Queued, Streams.UVStream.EndLive, Streams.UVStream.LossLive,
           Tls.WireValid, NoneBlank, Concat, Plain, Unread, Writing, Draining, Reading, FlushRun, SizeAfter,
           Sending, Tls.Pass, PausedBy, WillOverlook, Text, Written, Passive, Roomy,
           Streams.UVStream.CurrentFlow, Streams.UVStream.SendsAll, Streams.UVStream.ResumesOnceSent,
           SSLProtocol.OutValid, SSLProtocol.CloseValid, SSLProtocol.InValid, SSLProtocol.HistoryValid,
           SSLProtocol.AppValid, SSLProtocol.FlowValid, SSLProtocol.Timed, SSLProtocol.Below,
           SSLProtocol.Unsent, SSLProtocol.Unwritten, SSLProtocol.Holding, SSLProtocol.CallsValid,
           SSLProtocol.Awaits, SSLProtocol.Begins, SSLProtocol.Owes, SSLProtocol.Counted, SSLProtocol.Fed,
           SSLProtocol.ReadsOn, SSLProtocol.ReadingAgrees;
      raised := false;
      if state == FLUSHING || state == SHUTDOWN || state == UNWRAPPED {
        return;
      }
      if state == DO_HANDSHAKE {
        AppAbort();
      } else {
        BeginFlush();
        raised := DoFlush();
      }
    }

    // ---- Incoming flow ----

    /** Reads until OpenSSL wants more; `_do_read__copied` collects the chunks. */
    method ReadChunks() returns (chunks: seq<seq<Byte>>, r: ReadResult)
      requires NoneBlank(tls.records)
      modifies tls`records, tls`rest, tls`held, tls`ended, tls`broken, tls`answers
      ensures NoneBlank(tls.records) && NoneEmpty(chunks)
      ensures |tls.records| <= |old(tls.records)| && (old(tls.ended) ==> tls.ended && |chunks| == 0)
      ensures tls.ended && !old(tls.ended) ==> |old(tls.records)| > 0
      ensures if r.ReadError? then tls.broken else tls.broken == old(tls.broken)
      ensures Unread(old(tls.records)) == Concat(chunks) + Unread(tls.records)
      ensures r.ReadAgain? || r.Chunk? ==> |tls.records| == 0 && tls.ended == old(tls.ended)
      ensures r.Empty? ==> tls.ended
      ensures ReadRun(Concat(chunks), r, tls.records, tls.ended, tls.rest, tls.answers) == old(tls.Pass(None))
    {
      chunks := [];
      r := ReadAgain;
      var pending := tls.Pending();
      if pending == 0 {
        return;
      }
      while pending > 0
        invariant NoneBlank(tls.records) && NoneEmpty(chunks)
        invariant |tls.records| <= |old(tls.records)| && tls.ended == old(tls.ended)
        invariant old(tls.ended) ==> |chunks| == 0
        invariant tls.broken == old(tls.broken)
        invariant Unread(old(tls.records)) == Concat(chunks) + Unread(tls.records)
        invariant pending == 0 ==> |tls.records| == 0
        invariant !r.ReadError? && !r.Empty?
        invariant pending == tls.rest + |tls.records|
        invariant Reading(ReadRun(Concat(chunks), r, tls.records, tls.ended, tls.rest, tls.answers), None,
                          SSL_READ_MAX_SIZE)
                    == old(tls.Pass(None))
        decreases pending > 0, |Unread(tls.records)|
      {
        r := tls.Read(SSL_READ_MAX_SIZE);
        if !r.Chunk? {
          return;
        }
        ConcatSnoc(chunks, r.bytes);
        Assoc(Concat(chunks), r.bytes, Unread(tls.records));
        chunks := chunks + [r.bytes];
        pending := tls.Pending();
      }
    }

    /** Calls data_received, or buffer_updated, with `data`. */
    method Deliver(data: seq<Byte>) returns (raised: bool)
      requires CloseValid() && OutValid() && LifeValid() && FlowValid() && CallsValid() && Timed() && Below()
      requires NoneBlank(tls.records)
      requires appState == STATE_CON_MADE && connected
      requires !tls.broken ==> discarded == [] && received == delivered + data + Unread(tls.records)
      modifies this, tls, transport
      ensures Valid() && Kept() && dataCalls == old(dataCalls) + 1 && delivered == old(delivered) + data
      ensures state == WRAPPED ==> appState == old(appState)
      ensures Served()
      ensures old(|script|) == 0 ==>
                && !raised && Unmoved() && appWritingPaused == old(appWritingPaused) && unchanged(tls)
                && history == Then(old(history), DataReceived(data))
      ensures old(|script|) == 0 ==> unchanged(transport)
      ensures raised == (old(|script|) > 0 && old(script)[0].raises)
      ensures old(|script|) > 0 && old(script)[0].calls == [] ==>
                history == Then(old(history), DataReceived(data)) && state == old(state) && appState == old(appState)
    {
      hide Streams.UVStream.Valid, Streams.UVStream.Queued, Streams.UVStream.EndLive, Streams.UVStream.LossLive,
           Tls.WireValid, NoneBlank, Concat, Plain, Unread, Writing, Draining, Reading, FlushRun, SizeAfter,
           Sending, Tls.Pass, PausedBy, WillOverlook, Text, Written, Passive, Roomy,
           Streams.UVStream.CurrentFlow, Streams.UVStream.SendsAll, Streams.UVStream.ResumesOnceSent,
           SSLProtocol.OutValid, SSLProtocol.CloseValid, SSLProtocol.FlowValid, SSLProtocol.Timed,
           SSLProtocol.Below, SSLProtocol.Stranded, SSLProtocol.Stuck, SSLProtocol.Unsent,
           SSLProtocol.Unwritten, SSLProtocol.Unclosed, SSLProtocol.Holding, SSLProtocol.Overlooked,
           SSLProtocol.Dangling, SSLProtocol.Awaits, SSLProtocol.Begins, SSLProtocol.Fed, SSLProtocol.ReadsOn,
           SSLProtocol.ReadingAgrees;
      Notify(DataReceived(data));
      var r := Answer();
      return r.raises;
    }

    /** What a pass of reading leaves to `_do_read`. */
    twostate predicate Passed(raised: bool)
      reads this, tls, transport
    {
      && |script| <= |old(script)| && received == old(received)
      && connected == old(connected) && over == old(over) && transportEof == old(transportEof)
      && seen.made && (raised || !Stranded()) && (Unclosed() ==> old(Unclosed())) && ownCalls == old(ownCalls)
      && (old(ReadsOn()) ==> ReadsOn()) && old(measured) <= measured
      && |tls.records| <= |old(tls.records)| && (old(tls.broken) ==> tls.broken) && Forward(old(state), state)
      && transport.Lasting()
    }

    /** What a pass of reading tells the application: `data` first, if there is any, and the end
        of the stream after it, exactly after an empty read. */
    twostate predicate Assembled(raised: bool, data: seq<Byte>, last: ReadResult)
      reads this, tls
    {
      && delivered == old(delivered) + data
      && dataCalls == old(dataCalls) + (if |data| > 0 then 1 else 0)
      && (!raised && last.Empty? ==> state != WRAPPED && (old(appState) == STATE_CON_MADE ==> appState == STATE_EOF))
      && (!raised && !last.Empty? && state == WRAPPED ==> appState == old(appState))
    }

    /** The end of both readers, after an empty read. */
    method FinishRead() returns (raised: bool)
      requires Valid() && seen.made && tls.ended && connected && hasAppTransport
      modifies this, tls, transport
      ensures Valid() && Passed(raised) && state != WRAPPED
      ensures dataCalls == old(dataCalls) && delivered == old(delivered)
      ensures old(appState) == STATE_CON_MADE || old(appState) == STATE_EOF ==> appState == STATE_EOF
      ensures Served()
      ensures old(|script|) == 0 && old(state) == WRAPPED ==>
                && Flushed(old(Now()), old(FlushRun(tls.records, true, tls.answers, backlog)), Now())
                && !raised && SameMood()
                && history == if old(appState) == STATE_CON_MADE then Then(old(history), EofReceived) else old(history)
      ensures starved == old(starved)
    {
      hide Streams.UVStream.Valid, Streams.UVStream.Queued, Streams.UVStream.EndLive, Streams.UVStream.LossLive,
           Tls.WireValid, NoneBlank, Concat, Plain, Unread, Writing, Draining, Reading, FlushRun, SizeAfter,
           Sending, Tls.Pass, PausedBy, WillOverlook, Text, Written, Passive, Roomy,
           Streams.UVStream.CurrentFlow, Streams.UVStream.SendsAll, Streams.UVStream.ResumesOnceSent,
           SSLProtocol.OutValid, SSLProtocol.CloseValid, SSLProtocol.InValid, SSLProtocol.HistoryValid,
           SSLProtocol.FlowValid, SSLProtocol.Timed, SSLProtocol.Below, SSLProtocol.Stuck, SSLProtocol.Unsent,
           SSLProtocol.Unwritten, SSLProtocol.Unclosed, SSLProtocol.Holding, SSLProtocol.Overlooked,
           SSLProtocol.Dangling, SSLProtocol.CallsValid, SSLProtocol.Awaits, SSLProtocol.Begins,
           SSLProtocol.Owes, SSLProtocol.Counted, SSLProtocol.Fed, SSLProtocol.ReadsOn,
           SSLProtocol.ReadingAgrees;
      CallEofReceived();
      raised := StartShutdown();
    }

    /** Hands the data of one pass to the application, at most one callback, and
        ends the stream after an empty read. */
    method HandOver(data: seq<Byte>, last: ReadResult) returns (raised: bool)
      requires CloseValid() && OutValid() && LifeValid() && FlowValid() && CallsValid() && Timed() && Below()
      requires NoneBlank(tls.records)
      requires connected && hasAppTransport
      requires if |data| == 0 then InValid()
               else appState == STATE_CON_MADE
                    && (!tls.broken ==> discarded == [] && received == delivered + data + Unread(tls.records))
      requires if last.Empty? then tls.ended else !Stranded()
      modifies this, tls, transport
      ensures Valid() && Passed(raised) && Assembled(raised, data, last)
      ensures |data| == 0 && !last.Empty? ==> unchanged(this) && unchanged(tls) && unchanged(transport) && !raised
      ensures !last.Empty? && |old(tls.records)| == 0 && !old(tls.ended) ==> appState == old(appState)
      ensures Served()
      ensures old(|script|) == 0 && old(state) == WRAPPED ==>
                && !raised
                && Handed(old(Now()), old(ReadRun(data, last, tls.records, tls.ended, tls.rest, tls.answers)), Now())
      ensures !last.Empty? ==> raised == (|data| > 0 && old(|script|) > 0 && old(script)[0].raises)
      ensures |data| > 0 && old(|script|) > 0 && old(script)[0].raises && old(script)[0].calls == [] ==>
                && raised && history == Then(old(history), DataReceived(data))
                && state == old(state) && appState == old(appState)
      ensures starved == old(starved)
    {
      hide Streams.UVStream.Valid, Streams.UVStream.Queued, Streams.UVStream.EndLive, Streams.UVStream.LossLive,
           Tls.WireValid, NoneBlank, Concat, Plain, Unread, Writing, Draining, Reading, FlushRun, SizeAfter,
           Sending, Tls.Pass, PausedBy, WillOverlook, Text, Written, Passive, Roomy,
           Streams.UVStream.CurrentFlow, Streams.UVStream.SendsAll, Streams.UVStream.ResumesOnceSent,
           SSLProtocol.OutValid, SSLProtocol.CloseValid, SSLProtocol.InValid, SSLProtocol.HistoryValid,
           SSLProtocol.FlowValid, SSLProtocol.Timed, SSLProtocol.Below, SSLProtocol.Stuck, SSLProtocol.Unsent,
           SSLProtocol.Unwritten, SSLProtocol.Unclosed, SSLProtocol.Holding, SSLProtocol.Overlooked,
           SSLProtocol.Dangling, SSLProtocol.CallsValid, SSLProtocol.Awaits, SSLProtocol.Begins,
           SSLProtocol.Owes, SSLProtocol.Counted, SSLProtocol.Fed, SSLProtocol.ReadsOn,
           SSLProtocol.ReadingAgrees;
      raised := false;
      if |data| > 0 {
        raised := Deliver(data);
      }
      if !raised && last.Empty? {
        raised := FinishRead();
      }
    }

    /** `_do_read__copied`: at most one data_received, with exactly the plaintext read, joined;
        EOF is reported exactly after an empty read. */
    method DoReadCopied() returns (raised: bool, ghost data: seq<Byte>, ghost last: ReadResult)
      requires Valid() && state == WRAPPED
      modifies this, tls, transport
      ensures Valid() && Passed(raised) && Assembled(raised, data, last)
      ensures data <= Unread(old(tls.records))
      ensures !raised && state == WRAPPED ==> |tls.records| == 0 && data == Unread(old(tls.records))
      ensures !raised && old(appState) == STATE_CON_MADE && !old(tls.ended) ==> (appState == STATE_EOF <==> last.Empty?)
      ensures Served()
      ensures raised && last.ReadError? ==> history == old(history)
      ensures old(|script|) == 0 ==>
                && raised == old(tls.Pass(None)).last.ReadError?
                && (!raised ==> Handed(old(Now()), old(tls.Pass(None)), Now()))
    {
      hide Streams.UVStream.Valid, Streams.UVStream.Queued, Streams.UVStream.EndLive, Streams.UVStream.LossLive,
           Tls.WireValid, NoneBlank, Plain, Writing, Draining, Reading, FlushRun, SizeAfter, Sending, Tls.Pass,
           PausedBy, WillOverlook, Text, Written, Passive, Roomy, Streams.UVStream.CurrentFlow,
           Streams.UVStream.SendsAll, Streams.UVStream.ResumesOnceSent, SSLProtocol.OutValid,
           SSLProtocol.CloseValid, SSLProtocol.HistoryValid, SSLProtocol.FlowValid, SSLProtocol.Timed,
           SSLProtocol.Below, SSLProtocol.Stuck, SSLProtocol.Unsent, SSLProtocol.Unwritten,
           SSLProtocol.Unclosed, SSLProtocol.Holding, SSLProtocol.Overlooked, SSLProtocol.Dangling,
           SSLProtocol.CallsValid, SSLProtocol.Awaits, SSLProtocol.Begins, SSLProtocol.Owes,
           SSLProtocol.Counted, SSLProtocol.Fed, SSLProtocol.ReadsOn, SSLProtocol.ReadingAgrees;
      var chunks, r := ReadChunks();
      assert OutValid() && CloseValid() && HistoryValid() && AppValid() && ConnValid() && FlowValid() && Timed();
      assert Below();
      last := r;
      if r.ReadError? {
        data := [];
        return true, data, last;
      }
      data := Concat(chunks);
      raised := HandOver(Concat(chunks), r);
    }

    /** The loop of `_do_read__buffered`: fills the application's buffer from the
        start, without gaps and not past its end, and schedules another pass when
        it is full. */
    method FillBuffer(pending: nat, size: nat) returns (data: seq<Byte>, last: ReadResult)
      requires NoneBlank(tls.records) && size > 0 && (pending == 0 ==> |tls.records| == 0)
      modifies `readsScheduled, tls`records, tls`rest, tls`held, tls`ended, tls`broken, tls`answers
      ensures NoneBlank(tls.records) && |data| <= size
      ensures |tls.records| <= |old(tls.records)| && (old(tls.ended) ==> tls.ended && data == [])
      ensures tls.ended && !old(tls.ended) ==> |old(tls.records)| > 0
      ensures old(|tls.records| == 0) ==> data == []
      ensures if last.ReadError? then tls.broken else tls.broken == old(tls.broken)
      ensures Unread(old(tls.records)) == data + Unread(tls.records)
      ensures last.Empty? ==> tls.ended
      ensures readsScheduled == old(readsScheduled) + (if |data| == size && last.Chunk? then 1 else 0)
      ensures !last.ReadError? && !last.Empty? ==> |tls.records| == 0 || readsScheduled > 0
      ensures pending == old(tls.rest + |tls.records|) ==>
                ReadRun(data, last, tls.records, tls.ended, tls.rest, tls.answers) == old(tls.Pass(Some(size)))
    {
      var buffer: seq<Byte> := seq(size, i => 0);
      var total: nat, left: nat := 0, pending;
      last := ReadAgain;
      while left > 0
        invariant |buffer| == size && total < size
        invariant NoneBlank(tls.records) && readsScheduled == old(readsScheduled)
        invariant |tls.records| <= |old(tls.records)| && tls.ended == old(tls.ended) && (tls.ended ==> total == 0)
        invariant old(|tls.records| == 0) ==> total == 0
        invariant tls.broken == old(tls.broken)
        invariant Unread(old(tls.records)) == buffer[..total] + Unread(tls.records)
        invariant left == 0 ==> |tls.records| == 0
        invariant last.Chunk? || last.ReadAgain?
        invariant pending == old(tls.rest + |tls.records|) ==>
                    && left == tls.rest + |tls.records|
                    && Reading(ReadRun(buffer[..total], last, tls.records, tls.ended, tls.rest, tls.answers),
                               Some(size - total), SSL_READ_MAX_SIZE)
                         == old(tls.Pass(Some(size)))
        decreases left > 0, |Unread(tls.records)|
      {
        last := tls.Read(size - total);
        if !last.Chunk? {
          break;
        }
        var end := total + |last.bytes|;
        Assoc(buffer[..total], last.bytes, Unread(tls.records));
        buffer := Spliced(buffer, total, last.bytes);
        total := end;
        if total == size {
          readsScheduled := readsScheduled + 1;
          break;
        }
        left := tls.Pending();
      }
      data := buffer[..total];
    }

    /** `get_buffer`: what was unread is unread afterwards, but for what its calls made the engine discard. */
    method AskBuffer() returns (r: Reply, ghost dropped: seq<Byte>)
      requires Valid() && state == WRAPPED && seen.made
      modifies this, tls, transport
      ensures Valid() && Passed(true) && Served() && delivered == old(delivered) && dataCalls == old(dataCalls)
      ensures connected && hasAppTransport && (discarded == [] || tls.broken || |tls.records| == 0 || tls.ended)
      ensures state == WRAPPED ==> appState == old(appState)
      ensures old(|script|) == 0 ==>
                Unmoved() && history == old(history) && appWritingPaused == old(appWritingPaused)
                && unchanged(tls) && unchanged(transport) && r == Reply([], false, 1)
      ensures old(|script|) > 0 ==> r == old(script)[0]
      ensures old(|script|) > 0 && r.calls == [] ==>
                && unchanged(tls) && unchanged(transport)
                && appState == old(appState) && state == old(state) && history == old(history)
      ensures !tls.broken ==>
                Unread(old(tls.records)) == dropped + Unread(tls.records) && (state == WRAPPED ==> dropped == [])
      ensures starved == old(starved)
      ensures roomy ==> r.bufferSize > 0
    {
      hide Streams.UVStream.Valid, Streams.UVStream.Queued, Streams.UVStream.EndLive, Streams.UVStream.LossLive,
           Tls.WireValid, NoneBlank, Concat, Plain, Unread, Writing, Draining, Reading, FlushRun, SizeAfter,
           Sending, Tls.Pass, PausedBy, WillOverlook, Text, Written, Passive, Roomy,
           Streams.UVStream.CurrentFlow, Streams.UVStream.SendsAll, Streams.UVStream.ResumesOnceSent,
           SSLProtocol.OutValid, SSLProtocol.CloseValid, SSLProtocol.HistoryValid, SSLProtocol.FlowValid,
           SSLProtocol.Timed, SSLProtocol.Below, SSLProtocol.Stuck, SSLProtocol.Unsent, SSLProtocol.Unwritten,
           SSLProtocol.Holding, SSLProtocol.Overlooked, SSLProtocol.Dangling, SSLProtocol.Awaits,
           SSLProtocol.Begins, SSLProtocol.Fed, SSLProtocol.ReadsOn, SSLProtocol.ReadingAgrees;
      asked := asked + 1;
      r := Answer();
      dropped := discarded;
      if !tls.broken {
        assert old(delivered) + Unread(old(tls.records)) == delivered + (dropped + Unread(tls.records)) by {
          Assoc(delivered, dropped, Unread(tls.records));
        }
        Cancel(delivered, Unread(old(tls.records)), dropped + Unread(tls.records));
      }
    }

    /** `_do_read__buffered`: get_buffer, one filling pass, at most one buffer_updated, of the
        start of what is left to read after that call: all that was there, but for what the call made
        the engine discard.  An empty buffer ends the pass. */
    method DoReadBuffered()
      returns (raised: bool, ghost data: seq<Byte>, ghost last: ReadResult, ghost dropped: seq<Byte>,
               ghost offered: seq<Byte>)
      requires Valid() && state == WRAPPED
      modifies this, tls, transport
      ensures Valid() && Passed(raised) && data <= offered
      ensures delivered == old(delivered) + data && dataCalls == old(dataCalls) + (if |data| > 0 then 1 else 0)
      ensures old(|script|) == 0 || old(script)[0].calls == [] ==>
                && offered == Unread(old(tls.records))
                && (old(|script|) == 0 || old(script)[0].bufferSize > 0 ==> Assembled(raised, data, last))
      ensures !tls.broken ==> Unread(old(tls.records)) == dropped + offered && (state == WRAPPED ==> dropped == [])
      ensures Served()
      ensures old(|script|) == 0 ==>
                && raised == old(tls.Pass(Some(1))).last.ReadError?
                && (!raised ==> Handed(old(Now()), old(tls.Pass(Some(1))), Now()))
      ensures old(|script|) > 0 && (old(script)[0].raises || old(script)[0].bufferSize == 0) ==>
                && raised == old(script)[0].raises && data == []
                && (old(script)[0].calls == [] ==> unchanged(tls) && history == old(history) && state == old(state))
      ensures old(|script|) == 0 || !old(script)[0].raises ==>
                starved == (old(|script|) > 0 && old(script)[0].bufferSize == 0)
    {
      hide Streams.UVStream.Valid, Streams.UVStream.Queued, Streams.UVStream.EndLive, Streams.UVStream.LossLive,
           Tls.WireValid, NoneBlank, Concat, Plain, Unread, Writing, Draining, Reading, FlushRun, SizeAfter,
           Sending, Tls.Pass, PausedBy, WillOverlook, Text, Written, Passive, Roomy,
           Streams.UVStream.CurrentFlow, Streams.UVStream.SendsAll, Streams.UVStream.ResumesOnceSent,
           SSLProtocol.OutValid, SSLProtocol.CloseValid, SSLProtocol.InValid, SSLProtocol.HistoryValid,
           SSLProtocol.FlowValid, SSLProtocol.Timed, SSLProtocol.Below, SSLProtocol.Stuck, SSLProtocol.Unsent,
           SSLProtocol.Unwritten, SSLProtocol.Unclosed, SSLProtocol.Holding, SSLProtocol.Overlooked,
           SSLProtocol.Dangling, SSLProtocol.CallsValid, SSLProtocol.Awaits, SSLProtocol.Begins,
           SSLProtocol.Owes, SSLProtocol.Counted, SSLProtocol.Fed, SSLProtocol.ReadsOn,
           SSLProtocol.ReadingAgrees;
      var pending := tls.Pending();
      var r;
      r, dropped := AskBuffer();
      data, last, offered := [], ReadAgain, Unread(tls.records);
      if r.raises {
        last := ReadError;
        return true, data, last, dropped, offered;
      }
      NoteBuffer(r.bufferSize);
      if r.bufferSize == 0 {
        return false, data, last, dropped, offered;
      }
      raised, data, last := ReadInto(pending, r.bufferSize);
    }

    /** An empty buffer leaves what is there unread. */
    method NoteBuffer(size: nat)
      requires Valid() && (roomy ==> size > 0)
      modifies `starved
      ensures Valid() && starved == (size == 0)
    {
      hide Streams.UVStream.Valid, Streams.UVStream.Queued, Streams.UVStream.EndLive, Streams.UVStream.LossLive,
           Tls.WireValid, NoneBlank, Concat, Plain, Unread, Writing, Draining, Reading, FlushRun, SizeAfter,
           Sending, Tls.Pass, PausedBy, WillOverlook, Text, Written, Passive, Roomy,
           Streams.UVStream.CurrentFlow, Streams.UVStream.SendsAll, Streams.UVStream.ResumesOnceSent,
           SSLProtocol.OutValid, SSLProtocol.CloseValid, SSLProtocol.InValid, SSLProtocol.HistoryValid,
           SSLProtocol.AppValid, SSLProtocol.ConnValid, SSLProtocol.FlowValid, SSLProtocol.Timed,
           SSLProtocol.Below, SSLProtocol.Stranded, SSLProtocol.Stuck, SSLProtocol.Unsent,
           SSLProtocol.Unwritten, SSLProtocol.Unclosed, SSLProtocol.Holding, SSLProtocol.Overlooked,
           SSLProtocol.Dangling, SSLProtocol.Awaits, SSLProtocol.Begins, SSLProtocol.Owes, SSLProtocol.Counted,
           SSLProtocol.ReadsOn, SSLProtocol.ReadingAgrees;
      starved := size == 0;
    }

    /** `_do_read__buffered` once it has a buffer; the application may have left WRAPPED. */
    method ReadInto(pending: nat, size: nat) returns (raised: bool, ghost data: seq<Byte>, ghost last: ReadResult)
      requires Valid() && connected && hasAppTransport && size > 0 && (pending == 0 ==> |tls.records| == 0)
      requires discarded == [] || tls.broken || |tls.records| == 0 || tls.ended
      modifies this, tls, transport
      ensures Valid() && Passed(raised) && Assembled(raised, data, last)
      ensures data <= Unread(old(tls.records)) && |data| <= size
      ensures Served()
      ensures old(|script|) == 0 && old(state) == WRAPPED && pending == old(tls.rest + |tls.records|) ==>
                && raised == old(tls.Pass(Some(size))).last.ReadError?
                && (!raised ==> Handed(old(Now()), old(tls.Pass(Some(size))), Now()))
      ensures starved == old(starved)
    {
      hide Streams.UVStream.Valid, Streams.UVStream.Queued, Streams.UVStream.EndLive, Streams.UVStream.LossLive,
           Tls.WireValid, NoneBlank, Concat, Plain, Unread, Writing, Draining, Reading, FlushRun, SizeAfter,
           Sending, Tls.Pass, PausedBy, WillOverlook, Text, Written, Passive, Roomy,
           Streams.UVStream.CurrentFlow, Streams.UVStream.SendsAll, Streams.UVStream.ResumesOnceSent,
           SSLProtocol.OutValid, SSLProtocol.CloseValid, SSLProtocol.HistoryValid, SSLProtocol.FlowValid,
           SSLProtocol.Timed, SSLProtocol.Below, SSLProtocol.Stuck, SSLProtocol.Unsent, SSLProtocol.Unwritten,
           SSLProtocol.Unclosed, SSLProtocol.Holding, SSLProtocol.Overlooked, SSLProtocol.Dangling,
           SSLProtocol.CallsValid, SSLProtocol.Awaits, SSLProtocol.Begins, SSLProtocol.Owes,
           SSLProtocol.Counted, SSLProtocol.Fed, SSLProtocol.ReadsOn, SSLProtocol.ReadingAgrees;
      var filled, r := FillBuffer(pending, size);
      assert OutValid() && CloseValid() && HistoryValid() && AppValid() && ConnValid() && FlowValid() && Timed();
      assert Below();
      data, last := filled, r;
      raised := r.ReadError?;
      if raised {
        data := [];
      } else {
        assert |filled| > 0 ==> appState == STATE_CON_MADE;
        assert |filled| == 0 ==> InValid();
        raised := HandOver(filled, r);
      }
    }

    /** `_do_read`. */
    method DoRead() returns (ghost mid: Moment, ghost sent: bool)
      requires Valid() && !Unclosed() && !Dangling() && (state != WRAPPED || appReadingPaused ==> !Stuck())
      requires state != WRAPPED ==> !Stranded()
      modifies this, tls, transport
      ensures Valid() && Resting() && connected == old(connected) && over == old(over) && transport.Lasting()
      ensures old(state == WRAPPED && appReadingPaused) ==>
                && unchanged(tls) && Unmoved() && history == old(history) && appWritingPaused == old(appWritingPaused)
                && readsScheduled == old(readsScheduled) && transport.connLost == old(transport.connLost)
      ensures old(state == WRAPPED && !appReadingPaused) ==> flushed || transport.Dead()
      ensures Overlooked() ==> old(Overlooked()) || old(state == WRAPPED && !appReadingPaused)
      ensures old(state == WRAPPED && !appReadingPaused) ==>
                Ended(mid, sent) && (old(|script|) == 0 ==> PassiveRead(old(Now()), old(NextPass()), mid, sent))
      ensures old(state == WRAPPED && !appReadingPaused && |script| == 0) ==>
                (Overlooked() <==> WillOverlook(old(Now()), old(NextPass())))
      ensures Onward() && ownCalls == old(ownCalls)
      ensures received == old(received)
      ensures old(ReadsOn()) ==> ReadsOn()
      ensures old(state == WRAPPED && appReadingPaused) || (sent && Sending(mid).Some?) ==> measured > old(measured)
    {
      hide Streams.UVStream.Valid, Streams.UVStream.Queued, Streams.UVStream.EndLive, Streams.UVStream.LossLive,
           Tls.WireValid, NoneBlank, Concat, Plain, Unread, Writing, Draining, Reading, FlushRun, SizeAfter,
           Sending, Tls.Pass, PausedBy, WillOverlook, Text, Written, Passive, Roomy,
           Streams.UVStream.CurrentFlow, Streams.UVStream.SendsAll, Streams.UVStream.ResumesOnceSent,
           SSLProtocol.OutValid, SSLProtocol.CloseValid, SSLProtocol.InValid, SSLProtocol.HistoryValid,
           SSLProtocol.AppValid, SSLProtocol.FlowValid, SSLProtocol.Timed, SSLProtocol.Below,
           SSLProtocol.Unsent, SSLProtocol.Unwritten, SSLProtocol.Unclosed, SSLProtocol.Holding,
           SSLProtocol.Overlooked, SSLProtocol.Dangling, SSLProtocol.CallsValid, SSLProtocol.Awaits,
           SSLProtocol.Begins, SSLProtocol.Owes, SSLProtocol.Counted, SSLProtocol.Fed, SSLProtocol.ReadsOn,
           SSLProtocol.ReadingAgrees;
      mid, sent := Now(), false;
      if state != WRAPPED {
        return;
      }
      if appReadingPaused {
        var _ := ControlSslReading();
      } else {
        mid, sent := ReadAndSend();
      }
    }

    /** How sending ends a pass of reading, if it comes to that: `mid` is what is there before.  The
        flush is overlooked exactly when it began in this pass, left something, and this is sent now. */
    ghost predicate Ended(mid: Moment, sent: bool)
      reads this, tls
    {
      && (Overlooked() <==> sent && Overlooks(mid))
      && (if sent && Tells(mid)
          then && mid.history.Calls() + [Switch(mid.mood.paused)] <= history.Calls()
               && (mid.mood.script == [] ==> history == Then(mid.history, Switch(mid.mood.paused)))
          else history == mid.history)
      && (sent && Sending(mid).Some? && mid.mood.script == [] ==> state == mid.state)
    }

    /** One pass of the reader that the application protocol asks for. */
    method ReadOnce() returns (raised: bool)
      requires Valid() && state == WRAPPED
      modifies this, tls, transport
      ensures Valid() && Passed(raised) && connected && seen.made && hasAppTransport
      ensures |Concat(backlog)| > 0 ==> !tls.closeSent
      ensures old(|script|) == 0 ==>
                raised == old(NextPass()).last.ReadError? && (!raised ==> Handed(old(Now()), old(NextPass()), Now()))
    {
      hide Streams.UVStream.Valid, Streams.UVStream.Queued, Streams.UVStream.EndLive, Streams.UVStream.LossLive,
           Tls.WireValid, NoneBlank, Concat, Plain, Unread, Writing, Draining, Reading, FlushRun, SizeAfter,
           Sending, Tls.Pass, PausedBy, WillOverlook, Text, Written, Passive, Roomy,
           Streams.UVStream.CurrentFlow, Streams.UVStream.SendsAll, Streams.UVStream.ResumesOnceSent,
           SSLProtocol.OutValid, SSLProtocol.InValid, SSLProtocol.HistoryValid, SSLProtocol.FlowValid,
           SSLProtocol.Timed, SSLProtocol.Below, SSLProtocol.Stranded, SSLProtocol.Stuck, SSLProtocol.Unsent,
           SSLProtocol.Unwritten, SSLProtocol.Unclosed, SSLProtocol.Holding, SSLProtocol.Overlooked,
           SSLProtocol.Dangling, SSLProtocol.CallsValid, SSLProtocol.Awaits, SSLProtocol.Begins,
           SSLProtocol.Owes, SSLProtocol.Counted, SSLProtocol.Fed, SSLProtocol.ReadsOn,
           SSLProtocol.ReadingAgrees;
      ghost var data, last, dropped, offered;
      if isBuffered {
        raised, data, last, dropped, offered := DoReadBuffered();
      } else {
        raised, data, last := DoReadCopied();
      }
    }

    /** `_do_read` with the application reading. */
    method ReadAndSend() returns (ghost mid: Moment, ghost sent: bool)
      requires Valid() && !Unclosed() && state == WRAPPED
      modifies this, tls, transport
      ensures Valid() && Resting() && connected == old(connected) && over == old(over) && transport.Lasting()
      ensures flushed || transport.Dead()
      ensures Ended(mid, sent)
      ensures old(|script|) == 0 ==> PassiveRead(old(Now()), old(NextPass()), mid, sent)
      ensures old(|script|) == 0 ==>
                (Overlooked() <==> WillOverlook(old(Now()), old(NextPass())))
      ensures Onward() && ownCalls == old(ownCalls)
      ensures received == old(received)
      ensures old(ReadsOn()) ==> ReadsOn()
      ensures sent && Sending(mid).Some? ==> measured > old(measured)
    {
      hide Streams.UVStream.Valid, Streams.UVStream.Queued, Streams.UVStream.EndLive, Streams.UVStream.LossLive,
           Tls.WireValid, NoneBlank, Concat, Plain, Unread, Writing, Draining, Reading, FlushRun, SizeAfter,
           Sending, Tls.Pass, PausedBy, WillOverlook, Text, Written, Passive, Roomy,
           Streams.UVStream.CurrentFlow, Streams.UVStream.SendsAll, Streams.UVStream.ResumesOnceSent,
           SSLProtocol.OutValid, SSLProtocol.CloseValid, SSLProtocol.HistoryValid, SSLProtocol.AppValid,
           SSLProtocol.FlowValid, SSLProtocol.Timed, SSLProtocol.Below, SSLProtocol.Stranded, SSLProtocol.Stuck,
           SSLProtocol.Unsent, SSLProtocol.Unwritten, SSLProtocol.Unclosed, SSLProtocol.Holding,
           SSLProtocol.Dangling, SSLProtocol.CallsValid, SSLProtocol.Awaits, SSLProtocol.Begins,
           SSLProtocol.Owes, SSLProtocol.Counted, SSLProtocol.Fed, SSLProtocol.ReadsOn,
           SSLProtocol.ReadingAgrees;
      var raised := ReadOnce();
      sent := !raised;
      if raised {
        Fail();
        mid := Now();
      } else {
        mid := Now();
        raised := SendOrFail();
        if !raised {
          var _ := ControlSslReading();
        }
      }
      if |old(script)| == 0 {
        OverlooksExactly(old(Now()), old(NextPass()), mid, sent);
      }
    }

    method Fail()
      requires Valid() && connected
      modifies `state,
               transport`closing, transport`reading, transport`connLost, transport`lostScheduled, transport`everLost
      ensures Valid() && Later() && Resting() && transport.Dead()
      ensures state == if hasAppTransport then UNWRAPPED else old(state)
      ensures Served()
    {
      hide Streams.UVStream.Valid, Streams.UVStream.Queued, Streams.UVStream.EndLive, Streams.UVStream.LossLive,
           Tls.WireValid, NoneBlank, Concat, Plain, Unread, Writing, Draining, Reading, FlushRun, SizeAfter,
           Sending, Tls.Pass, PausedBy, WillOverlook, Text, Written, Passive, Roomy,
           Streams.UVStream.CurrentFlow, Streams.UVStream.SendsAll, Streams.UVStream.ResumesOnceSent,
           SSLProtocol.HistoryValid, SSLProtocol.FlowValid, SSLProtocol.Below, SSLProtocol.Holding,
           SSLProtocol.CallsValid, SSLProtocol.Awaits, SSLProtocol.Begins, SSLProtocol.Owes,
           SSLProtocol.Counted, SSLProtocol.Fed, SSLProtocol.ReadsOn, SSLProtocol.ReadingAgrees;
      FatalError();
    }

    // ---- Handshake flow ----

    /** `connection_made`; `wraps` says whether `wrap_bio` succeeds. */
    method MakeConnection(wraps: bool)
      requires Valid() && Resting() && !connected && !over && transport.protocolConnected && !transport.closed
      requires !tls.fed
      modifies this, tls, transport
      ensures Valid() && Resting() && connected && !over && transport.Lasting()
      ensures state == DO_HANDSHAKE ==>
                && handshakeTimer && (|tls.outgoing| > 0 ==> sslWritingPaused)
      ensures wraps && !Head(old(tls.answers)).Fails? ==>
                && state == DO_HANDSHAKE && HandshakeGoesOn() && readsScheduled == old(readsScheduled)
                && tls.records == old(tls.records)
      ensures Overlooked() ==> old(Overlooked())
      ensures !wraps || Head(old(tls.answers)).Fails? ==> Failed()
      ensures Onward() && ownCalls == old(ownCalls)
    {
      hide Streams.UVStream.Valid, Streams.UVStream.Queued, Streams.UVStream.EndLive, Streams.UVStream.LossLive,
           Tls.WireValid, NoneBlank, Concat, Plain, Unread, Writing, Draining, Reading, FlushRun, SizeAfter,
           Sending, Tls.Pass, PausedBy, WillOverlook, Text, Written, Passive, Roomy,
           Streams.UVStream.CurrentFlow, Streams.UVStream.SendsAll, Streams.UVStream.ResumesOnceSent,
           SSLProtocol.HistoryValid, SSLProtocol.FlowValid, SSLProtocol.Unsent, SSLProtocol.Unwritten,
           SSLProtocol.Holding, SSLProtocol.CallsValid, SSLProtocol.Awaits, SSLProtocol.Begins,
           SSLProtocol.Owes, SSLProtocol.Counted, SSLProtocol.Fed, SSLProtocol.ReadingAgrees;
      connected := true;
      var ok := SetState(DO_HANDSHAKE);
      handshakeTimer := true;
      assert Valid();
      if wraps {
        var raised := DoHandshake();
      } else {
        var raised := OnHandshakeComplete(false);
      }
    }

    /** Nothing but one more flight of the handshake happened: its bytes are with the transport,
        or wait while the transport is paused. */
    twostate predicate HandshakeGoesOn()
      reads this, tls, transport
    {
      && appState == old(appState) && script == old(script) && backlog == old(backlog) && history == old(history)
      && appWritingPaused == old(appWritingPaused) && appReadingPaused == old(appReadingPaused)
      && outgoingHigh == old(outgoingHigh) && outgoingLow == old(outgoingLow)
      && inherited == old(inherited) && assertFailed == old(assertFailed)
      && tls.answers == Rest(old(tls.answers)) && tls.ended == old(tls.ended) && tls.broken == old(tls.broken)
      && transport.Alone() && |tls.emitted| == |old(tls.emitted)| + Size(Head(old(tls.answers)))
      && (old(sslWritingPaused) ==>
            && sslWritingPaused
            && |tls.outgoing| == |old(tls.outgoing)| + Size(Head(old(tls.answers))))
      && (!old(sslWritingPaused) ==> tls.outgoing == [])
      && (!old(transport.protocolPaused) && old(transport.writeQueueSize) == 0 && old(transport.buffer) == [] ==>
            transport.buffer == [])
      && (Size(Head(old(tls.answers))) == 0 && old(tls.outgoing) == [] ==>
            && transport.buffer == old(transport.buffer) && transport.requests == old(transport.requests)
            && sslWritingPaused == old(sslWritingPaused))
    }

    /** `_do_handshake`. */
    method DoHandshake() returns (raised: bool)
      requires Valid() && Resting() && state == DO_HANDSHAKE
      modifies this, tls, transport
      ensures Valid() && connected && over == old(over) && transport.Lasting() && (!raised ==> Resting())
      ensures state == DO_HANDSHAKE ==>
                handshakeTimer == old(handshakeTimer) && (|tls.outgoing| > 0 ==> sslWritingPaused)
      ensures var a := Head(old(tls.answers));
              && (a.Again? || (a.Does? && !old(tls.fed)) ==>
                    && !raised && state == DO_HANDSHAKE && HandshakeGoesOn()
                    && tls.records == old(tls.records) && readsScheduled == old(readsScheduled)
                    && (old(sslWritingPaused) ==> unchanged(transport)))
              && (a.Does? && old(tls.fed) && !Head(Rest(old(tls.answers))).Fails? && callMade ==>
                    !raised && Completed())
      ensures raised ==> old(tls.fed)
      ensures !Dangling()
      ensures Overlooked() ==> old(Overlooked())
      ensures var a, next := Head(old(tls.answers)), Head(Rest(old(tls.answers)));
              if a.Fails? || (a.Does? && old(tls.fed) && next.Fails?) then Failed() && !raised
              else a.Does? && old(tls.fed) ==> Made()
      ensures Onward() && ownCalls == old(ownCalls)
      ensures raised <==>
                && Head(old(tls.answers)).Does? && old(tls.fed) && !Head(Rest(old(tls.answers))).Fails?
                && !callMade && old(|script|) > 0 && old(script)[0].raises
      ensures received == old(received)
      ensures old(ReadsOn()) ==> ReadsOn()
    {
      hide Streams.UVStream.Valid, Streams.UVStream.Queued, Streams.UVStream.EndLive, Streams.UVStream.LossLive,
           Tls.WireValid, NoneBlank, Concat, Plain, Unread, Writing, Draining, Reading, FlushRun, SizeAfter,
           Sending, Tls.Pass, PausedBy, WillOverlook, Text, Written, Passive, Roomy,
           Streams.UVStream.CurrentFlow, Streams.UVStream.SendsAll, Streams.UVStream.ResumesOnceSent,
           SSLProtocol.HistoryValid, SSLProtocol.AppValid, SSLProtocol.FlowValid, SSLProtocol.Below,
           SSLProtocol.Unsent, SSLProtocol.Unwritten, SSLProtocol.Holding, SSLProtocol.CallsValid,
           SSLProtocol.Awaits, SSLProtocol.Begins, SSLProtocol.Owes, SSLProtocol.Counted, SSLProtocol.Fed,
           SSLProtocol.ReadsOn, SSLProtocol.ReadingAgrees;
      ghost var extra, waiting := [], tls.outgoing;
      var r: StepResult;
      r, extra := tls.DoHandshake();
      Assoc(earlier, old(tls.emitted), extra);
      Assoc(transport.accepted, waiting, extra);
      assert Valid();
      if r == StepAgain {
        ProcessOutgoing();
        raised := false;
      } else {
        raised := OnHandshakeComplete(r == Complete);
      }
    }

    /** The handshake is over, under `start_tls`: a first read is scheduled, and that is all. */
    twostate predicate Completed()
      reads this, tls, transport
    {
      && state == WRAPPED && readsScheduled == old(readsScheduled) + 1
      && appState == old(appState) && script == old(script) && backlog == old(backlog) && history == old(history)
      && appWritingPaused == old(appWritingPaused) && appReadingPaused == old(appReadingPaused)
      && outgoingHigh == old(outgoingHigh) && outgoingLow == old(outgoingLow)
      && sslWritingPaused == old(sslWritingPaused)
      && tls.answers == Rest(Rest(old(tls.answers))) && tls.ended == old(tls.ended) && tls.records == old(tls.records)
      && tls.broken == old(tls.broken)
      && |tls.outgoing| == |old(tls.outgoing)| + Size(Head(old(tls.answers)))
      && unchanged(transport)
    }

    /** `_on_handshake_complete`; fetching the peer's certificate may fail too. */
    method OnHandshakeComplete(ok: bool) returns (raised: bool)
      requires Valid() && Resting() && state == DO_HANDSHAKE && (ok ==> tls.completed)
      modifies this, tls, transport
      ensures Valid() && connected && over == old(over) && transport.Lasting() && (!raised ==> Resting())
      ensures !ok ==> state == UNWRAPPED && transport.Dead() && !raised && OnlyClosed()
      ensures state != DO_HANDSHAKE && (raised ==> ok)
      ensures ok && !Head(old(tls.answers)).Fails? && callMade ==>
                && !raised && state == WRAPPED && readsScheduled == old(readsScheduled) + 1 && OnlyCompleted()
                && tls.answers == Rest(old(tls.answers)) && unchanged(transport)
      ensures !Dangling()
      ensures Overlooked() ==> old(Overlooked())
      ensures if ok && !Head(old(tls.answers)).Fails? then Made() else Failed() && !raised
      ensures Onward() && ownCalls == old(ownCalls)
      ensures raised <==>
                && ok && !Head(old(tls.answers)).Fails?
                && !callMade && old(|script|) > 0 && old(script)[0].raises
      ensures received == old(received)
      ensures old(ReadsOn()) ==> ReadsOn()
    {
      hide Streams.UVStream.Valid, Streams.UVStream.Queued, Streams.UVStream.EndLive, Streams.UVStream.LossLive,
           Tls.WireValid, NoneBlank, Concat, Plain, Unread, Writing, Draining, Reading, FlushRun, SizeAfter,
           Sending, Tls.Pass, PausedBy, WillOverlook, Text, Written, Passive, Roomy,
           Streams.UVStream.CurrentFlow, Streams.UVStream.SendsAll, Streams.UVStream.ResumesOnceSent,
           SSLProtocol.OutValid, SSLProtocol.CloseValid, SSLProtocol.InValid, SSLProtocol.HistoryValid,
           SSLProtocol.AppValid, SSLProtocol.FlowValid, SSLProtocol.Below, SSLProtocol.Stranded,
           SSLProtocol.Stuck, SSLProtocol.Unsent, SSLProtocol.Unwritten, SSLProtocol.Unclosed,
           SSLProtocol.Holding, SSLProtocol.CallsValid, SSLProtocol.Awaits, SSLProtocol.Begins,
           SSLProtocol.Owes, SSLProtocol.Counted, SSLProtocol.Fed, SSLProtocol.ReadsOn,
           SSLProtocol.ReadingAgrees;
      handshakeTimer := false;
      if !ok {
        FailHandshake();
        return false;
      }
      var a := tls.Ask();
      assert Untimed() && Below();
      if a == Fails {
        FailHandshake();
        raised := false;
      } else {
        raised := StartWrapped();
      }
    }

    /** The handshake failed, and nobody was told. */
    twostate predicate Failed()
      reads `state, `history, transport`connLost
    {
      state == UNWRAPPED && transport.Dead() && history == old(history)
    }

    /** The application was told that the connection is made, before anything else. */
    twostate predicate Made()
      reads `seen, `state, `history, `readsScheduled
    {
      && seen.made
      && (!callMade ==> old(history).Calls() + [Callback.ConnectionMade] <= history.Calls())
      && (old(|script|) == 0 ==>
            && state == WRAPPED && readsScheduled == old(readsScheduled) + 1
            && history == if callMade then old(history) else Then(old(history), Callback.ConnectionMade))
    }

    /** When it failed, nothing changed but what closing the connection changes. */
    twostate predicate OnlyClosed()
      reads this, tls, transport
    {
      && unchanged(tls) && !handshakeTimer && transport.accepted == old(transport.accepted)
      && appState == old(appState) && backlog == old(backlog) && history == old(history) && script == old(script)
      && transportEof == old(transportEof)
    }

    /** All is as before the handshake ended, but for the state and the scheduled read. */
    twostate predicate OnlyCompleted()
      reads this, tls
    {
      && appState == old(appState) && script == old(script) && backlog == old(backlog) && history == old(history)
      && appWritingPaused == old(appWritingPaused) && appReadingPaused == old(appReadingPaused)
      && outgoingHigh == old(outgoingHigh) && outgoingLow == old(outgoingLow)
      && sslWritingPaused == old(sslWritingPaused)
      && tls.ended == old(tls.ended) && tls.records == old(tls.records) && tls.outgoing == old(tls.outgoing)
      && tls.broken == old(tls.broken)
    }

    method FailHandshake()
      requires Untimed() && Below() && state == DO_HANDSHAKE
      modifies `state,
               transport`closing, transport`reading, transport`connLost, transport`lostScheduled, transport`everLost
      ensures Valid() && Resting() && transport.Lasting() && state == UNWRAPPED && transport.Dead()
      ensures old(ReadsOn()) ==> ReadsOn()
    {
      hide Streams.UVStream.Valid, Streams.UVStream.Queued, Streams.UVStream.EndLive, Streams.UVStream.LossLive,
           Tls.WireValid, NoneBlank, Concat, Plain, Unread, Writing, Draining, Reading, FlushRun, SizeAfter,
           Sending, Tls.Pass, PausedBy, WillOverlook, Text, Written, Passive, Roomy,
           Streams.UVStream.CurrentFlow, Streams.UVStream.SendsAll, Streams.UVStream.ResumesOnceSent,
           SSLProtocol.HistoryValid, SSLProtocol.FlowValid, SSLProtocol.Holding, SSLProtocol.CallsValid,
           SSLProtocol.Awaits, SSLProtocol.Begins, SSLProtocol.Owes, SSLProtocol.Counted, SSLProtocol.Fed,
           SSLProtocol.ReadsOn, SSLProtocol.ReadingAgrees;
      var done := SetState(UNWRAPPED);
      FatalError();
    }

    /** The handshake is done: connection_made, unless it was called before, and
        then a first `_do_read`. */
    method StartWrapped() returns (raised: bool)
      requires Untimed() && Below() && state == DO_HANDSHAKE && tls.completed
      modifies this, tls, transport
      ensures Valid() && connected && over == old(over) && transport.Lasting() && (!raised ==> Resting())
      ensures appState != STATE_INIT && state != DO_HANDSHAKE && (!raised ==> readsScheduled > 0)
      ensures callMade ==>
                && !raised && state == WRAPPED && readsScheduled == old(readsScheduled) + 1 && OnlyCompleted()
                && unchanged(tls) && unchanged(transport)
      ensures !Dangling()
      ensures Overlooked() ==> old(Overlooked())
      ensures Made()
      ensures Onward() && ownCalls == old(ownCalls)
      ensures raised == (!callMade && old(|script|) > 0 && old(script)[0].raises)
      ensures received == old(received)
      ensures old(ReadsOn()) ==> ReadsOn()
    {
      hide Streams.UVStream.Valid, Streams.UVStream.Queued, Streams.UVStream.EndLive, Streams.UVStream.LossLive,
           Tls.WireValid, NoneBlank, Concat, Plain, Unread, Writing, Draining, Reading, FlushRun, SizeAfter,
           Sending, Tls.Pass, PausedBy, WillOverlook, Text, Written, Passive, Roomy,
           Streams.UVStream.CurrentFlow, Streams.UVStream.SendsAll, Streams.UVStream.ResumesOnceSent,
           SSLProtocol.OutValid, SSLProtocol.CloseValid, SSLProtocol.InValid, SSLProtocol.HistoryValid,
           SSLProtocol.FlowValid, SSLProtocol.Timed, SSLProtocol.Below, SSLProtocol.Unsent,
           SSLProtocol.Unwritten, SSLProtocol.CallsValid, SSLProtocol.Awaits, SSLProtocol.Begins,
           SSLProtocol.Owes, SSLProtocol.Counted, SSLProtocol.Fed, SSLProtocol.ReadsOn,
           SSLProtocol.ReadingAgrees;
      var first := appState == STATE_INIT;
      NoteMade();
      raised := false;
      if first {
        var r := Answer();
        raised := r.raises;
      }
      if !raised {
        readsScheduled := readsScheduled + 1;
      }
    }

    method NoteMade()
      requires Untimed() && Below() && state == DO_HANDSHAKE && tls.completed
      modifies `state, `flushed, `appState, `hasAppTransport, `history, `seen, `delivered, `dataCalls
      ensures Core() && Timed() && Below() && (if callMade then CallsValid() else Owes())
      ensures state == WRAPPED && seen.made && !flushed
      ensures history == if callMade then old(history) else Then(old(history), Callback.ConnectionMade)
      ensures callMade ==> appState == old(appState) && hasAppTransport == old(hasAppTransport)
    {
      hide Streams.UVStream.Valid, Streams.UVStream.Queued, Streams.UVStream.EndLive, Streams.UVStream.LossLive,
           Tls.WireValid, NoneBlank, Concat, Plain, Unread, Writing, Draining, Reading, FlushRun, SizeAfter,
           Sending, Tls.Pass, PausedBy, WillOverlook, Text, Written, Passive, Roomy,
           Streams.UVStream.CurrentFlow, Streams.UVStream.SendsAll, Streams.UVStream.ResumesOnceSent,
           SSLProtocol.HistoryValid, SSLProtocol.FlowValid, SSLProtocol.Below, SSLProtocol.Stranded,
           SSLProtocol.Stuck, SSLProtocol.Unsent, SSLProtocol.Unwritten, SSLProtocol.Unclosed,
           SSLProtocol.Holding, SSLProtocol.Overlooked, SSLProtocol.Dangling, SSLProtocol.Awaits,
           SSLProtocol.Begins, SSLProtocol.Fed, SSLProtocol.ReadsOn, SSLProtocol.ReadingAgrees;
      var done := SetState(WRAPPED);
      flushed := false;
      if appState == STATE_INIT {
        TellMade();
      }
    }

    /** The transport for the application exists, and its connection_made is called. */
    method TellMade()
      requires InValid() && HistoryValid() && AppValid() && appState == STATE_INIT && !over && !callMade
      modifies `appState, `hasAppTransport, `history, `seen, `delivered, `dataCalls
      ensures InValid() && HistoryValid() && AppValid() && appState == STATE_CON_MADE && hasAppTransport && seen.made
      ensures history == Then(old(history), Callback.ConnectionMade)
    {
      hide Streams.UVStream.Valid, Streams.UVStream.Queued, Streams.UVStream.EndLive, Streams.UVStream.LossLive,
           Tls.WireValid, NoneBlank, Concat, Plain, Unread, Writing, Draining, Reading, FlushRun, SizeAfter,
           Sending, Tls.Pass, PausedBy, WillOverlook, Text, Written, Passive, Roomy,
           Streams.UVStream.CurrentFlow, Streams.UVStream.SendsAll, Streams.UVStream.ResumesOnceSent,
           SSLProtocol.OutValid, SSLProtocol.CloseValid, SSLProtocol.ConnValid, SSLProtocol.FlowValid,
           SSLProtocol.Timed, SSLProtocol.Below, SSLProtocol.Stranded, SSLProtocol.Stuck, SSLProtocol.Unsent,
           SSLProtocol.Unwritten, SSLProtocol.Unclosed, SSLProtocol.Holding, SSLProtocol.Overlooked,
           SSLProtocol.Dangling, SSLProtocol.CallsValid, SSLProtocol.Awaits, SSLProtocol.Begins,
           SSLProtocol.Owes, SSLProtocol.Counted, SSLProtocol.Fed, SSLProtocol.ReadsOn,
           SSLProtocol.ReadingAgrees;
      appState, hasAppTransport := STATE_CON_MADE, true;
      Notify(Callback.ConnectionMade);
    }

    // ---- The transport calls ----

    /** An exception reached the transport, which force-closes itself. */
    method Escaped()
      requires Valid() && connected && !Dangling()
      modifies transport`closing, transport`reading, transport`connLost, transport`lostScheduled, transport`everLost
      ensures Valid() && Resting() && transport.Lasting()
      ensures old(ReadsOn()) ==> ReadsOn()
    {
      hide Streams.UVStream.Valid, Streams.UVStream.Queued, Streams.UVStream.EndLive, Streams.UVStream.LossLive,
           Tls.WireValid, NoneBlank, Concat, Plain, Unread, Writing, Draining, Reading, FlushRun, SizeAfter,
           Sending, Tls.Pass, PausedBy, WillOverlook, Text, Written, Passive, Roomy,
           Streams.UVStream.CurrentFlow, Streams.UVStream.SendsAll, Streams.UVStream.ResumesOnceSent,
           SSLProtocol.CloseValid, SSLProtocol.InValid, SSLProtocol.HistoryValid, SSLProtocol.AppValid,
           SSLProtocol.FlowValid, SSLProtocol.Holding, SSLProtocol.Overlooked, SSLProtocol.Dangling,
           SSLProtocol.CallsValid, SSLProtocol.Awaits, SSLProtocol.Begins, SSLProtocol.Owes,
           SSLProtocol.Counted, SSLProtocol.Fed, SSLProtocol.ReadingAgrees;
      transport.Abort();
    }

    /** `buffer_updated`: `records` became complete, `rest` more raw bytes arrived. */
    method BufferUpdated(records: seq<Record>, rest: nat)
      requires Valid() && Resting() && connected && NoneBlank(records)
      modifies this, tls, transport
      ensures Valid() && Resting() && connected && over == old(over) && transport.Lasting()
      ensures old(state) == DO_HANDSHAKE && Head(old(tls.answers)).Again? ==>
                && state == DO_HANDSHAKE && HandshakeGoesOn() && tls.records == old(tls.records) + records
                && (old(sslWritingPaused) ==> unchanged(transport))
      ensures (old(state) == DO_HANDSHAKE && Head(old(tls.answers)).Does? && !Head(Rest(old(tls.answers))).Fails?
               && callMade && records == []) ==> Completed()
      ensures old(state == WRAPPED && appReadingPaused) ==>
                && Unmoved() && history == old(history) && tls.records == old(tls.records) + records
                && tls.ended == old(tls.ended) && tls.answers == old(tls.answers) && tls.outgoing == old(tls.outgoing)
                && appWritingPaused == old(appWritingPaused)
      ensures Overlooked() ==> old(state == WRAPPED && !appReadingPaused)
      ensures old(state) == DO_HANDSHAKE ==>
                var a, next := Head(old(tls.answers)), Head(Rest(old(tls.answers)));
                if a.Fails? || (a.Does? && next.Fails?) then Failed() else a.Does? ==> seen.made
      ensures Onward() && ownCalls == old(ownCalls)
      ensures old(state) == SHUTDOWN ==> ShutDown(old(tls.records) + records)
      ensures received == old(received) + Unread(records)
      ensures old(ReadsOn()) ==> ReadsOn()
    {
      hide Streams.UVStream.Valid, Streams.UVStream.Queued, Streams.UVStream.EndLive, Streams.UVStream.LossLive,
           Tls.WireValid, NoneBlank, Concat, Plain, Unread, Writing, Draining, Reading, FlushRun, SizeAfter,
           Sending, Tls.Pass, PausedBy, WillOverlook, Text, Written, Passive, Roomy,
           Streams.UVStream.CurrentFlow, Streams.UVStream.SendsAll, Streams.UVStream.ResumesOnceSent,
           SSLProtocol.OutValid, SSLProtocol.CloseValid, SSLProtocol.InValid, SSLProtocol.HistoryValid,
           SSLProtocol.AppValid, SSLProtocol.FlowValid, SSLProtocol.Timed, SSLProtocol.Below, SSLProtocol.Stuck,
           SSLProtocol.Unsent, SSLProtocol.Unwritten, SSLProtocol.Unclosed, SSLProtocol.Holding,
           SSLProtocol.Overlooked, SSLProtocol.Dangling, SSLProtocol.CallsValid, SSLProtocol.Awaits,
           SSLProtocol.Begins, SSLProtocol.Owes, SSLProtocol.Counted, SSLProtocol.Fed, SSLProtocol.ReadsOn,
           SSLProtocol.ReadingAgrees;
      Arrive(records, rest);
      assert records == [] ==> tls.records == old(tls.records);
      assert Valid();
      var raised := Proceed();
      if raised {
        Escaped();
      }
    }

    /** What `buffer_updated` does in each state. */
    method Proceed() returns (raised: bool)
      requires Valid() && connected && tls.fed && !Stuck() && !Unclosed() && !Dangling()
      requires state != WRAPPED ==> !Stranded()
      modifies this, tls, transport
      ensures Valid() && connected && over == old(over) && transport.Lasting() && (!raised ==> Resting())
      ensures old(state) == DO_HANDSHAKE && Head(old(tls.answers)).Again? ==>
                && !raised && state == DO_HANDSHAKE && HandshakeGoesOn() && tls.records == old(tls.records)
                && (old(sslWritingPaused) ==> unchanged(transport))
      ensures (old(state) == DO_HANDSHAKE && Head(old(tls.answers)).Does? && !Head(Rest(old(tls.answers))).Fails?
               && callMade) ==> !raised && Completed()
      ensures old(state == WRAPPED && appReadingPaused) ==>
                && !raised && unchanged(tls) && Unmoved() && history == old(history)
                && appWritingPaused == old(appWritingPaused)
      ensures !Dangling()
      ensures Overlooked() ==> old(state == WRAPPED && !appReadingPaused)
      ensures old(state) == DO_HANDSHAKE ==>
                var a, next := Head(old(tls.answers)), Head(Rest(old(tls.answers)));
                if a.Fails? || (a.Does? && next.Fails?) then Failed() && !raised else a.Does? ==> Made()
      ensures Onward() && ownCalls == old(ownCalls)
      ensures old(state) == SHUTDOWN ==> ShutDown(old(tls.records))
      ensures old(state) == FLUSHING ==> raised == old(FlushRaises()) && (state == FLUSHING <==> old(FlushStays()))
      ensures received == old(received)
      ensures old(ReadsOn()) ==> ReadsOn()
    {
      hide Streams.UVStream.Valid, Streams.UVStream.Queued, Streams.UVStream.EndLive, Streams.UVStream.LossLive,
           Tls.WireValid, NoneBlank, Concat, Plain, Unread, Writing, Draining, Reading, FlushRun, SizeAfter,
           Sending, Tls.Pass, PausedBy, WillOverlook, Text, Written, Passive, Roomy,
           Streams.UVStream.CurrentFlow, Streams.UVStream.SendsAll, Streams.UVStream.ResumesOnceSent,
           SSLProtocol.OutValid, SSLProtocol.CloseValid, SSLProtocol.InValid, SSLProtocol.HistoryValid,
           SSLProtocol.FlowValid, SSLProtocol.Timed, SSLProtocol.Below, SSLProtocol.Stuck, SSLProtocol.Unsent,
           SSLProtocol.Unwritten, SSLProtocol.Unclosed, SSLProtocol.Holding, SSLProtocol.Dangling,
           SSLProtocol.CallsValid, SSLProtocol.Awaits, SSLProtocol.Begins, SSLProtocol.Owes,
           SSLProtocol.Counted, SSLProtocol.Fed, SSLProtocol.ReadsOn, SSLProtocol.ReadingAgrees;
      raised := false;
      match state {
        case DO_HANDSHAKE => raised := DoHandshake();
        case WRAPPED => ghost var mid, sent := DoRead();
        case FLUSHING => raised := DoFlush();
        case SHUTDOWN => DoShutdown();
        case UNWRAPPED =>
      }
    }

    /** The incoming BIO is filled. */
    method Arrive(records: seq<Record>, rest: nat)
      requires InValid() && NoneBlank(records)
      modifies `received, tls`records, tls`rest, tls`held, tls`fed
      ensures InValid() && received == old(received) + Unread(records) && tls.records == old(tls.records) + records
      ensures tls.fed && tls.rest == old(tls.rest) + rest
    {
      hide Unread;
      UnreadAppend(tls.records, records);
      Assoc(delivered + discarded, Unread(tls.records), Unread(records));
      tls.records, tls.rest, tls.fed := tls.records + records, tls.rest + rest, true;
      received := received + Unread(records);
      tls.held := *;
    }

    /** The loop runs a scheduled `_do_read`. */
    method RunScheduledRead() returns (ghost mid: Moment, ghost sent: bool)
      requires AtRest() && readsScheduled > 0
      modifies this, tls, transport
      ensures Valid() && Resting() && connected == old(connected) && over == old(over) && transport.Lasting()
      ensures old(state == WRAPPED && appReadingPaused) ==>
                && unchanged(tls) && Unmoved() && history == old(history) && readsScheduled == old(readsScheduled) - 1
                && transport.connLost == old(transport.connLost)
      ensures old(state == WRAPPED && !appReadingPaused) ==> flushed || transport.Dead()
      ensures Overlooked() ==> old(Overlooked()) || old(state == WRAPPED && !appReadingPaused)
      ensures old(state == WRAPPED && !appReadingPaused) ==>
                Ended(mid, sent) && (old(|script|) == 0 ==> PassiveRead(old(Now()), old(NextPass()), mid, sent))
      ensures old(state == WRAPPED && !appReadingPaused && |script| == 0) ==>
                (Overlooked() <==> WillOverlook(old(Now()), old(NextPass())))
      ensures Onward() && ownCalls == old(ownCalls)
      ensures old(ReadsOn()) ==> ReadsOn()
    {
      hide Streams.UVStream.Valid, Streams.UVStream.Queued, Streams.UVStream.EndLive, Streams.UVStream.LossLive,
           Tls.WireValid, NoneBlank, Concat, Plain, Unread, Writing, Draining, Reading, FlushRun, SizeAfter,
           Sending, Tls.Pass, PausedBy, WillOverlook, Text, Written, Passive, Roomy,
           Streams.UVStream.CurrentFlow, Streams.UVStream.SendsAll, Streams.UVStream.ResumesOnceSent,
           SSLProtocol.OutValid, SSLProtocol.CloseValid, SSLProtocol.InValid, SSLProtocol.HistoryValid,
           SSLProtocol.AppValid, SSLProtocol.FlowValid, SSLProtocol.Below, SSLProtocol.Unsent,
           SSLProtocol.Unwritten, SSLProtocol.CallsValid, SSLProtocol.Awaits, SSLProtocol.Begins,
           SSLProtocol.Owes, SSLProtocol.Counted, SSLProtocol.Fed, SSLProtocol.ReadsOn,
           SSLProtocol.ReadingAgrees;
      readsScheduled := readsScheduled - 1;
      mid, sent := DoRead();
    }

    /** The transport is not paused any more, and the engine does not know it yet. */
    ghost predicate PauseEnds()
      reads `sslWritingPaused, `inherited, `assertFailed,
            `incomingHigh, `incomingLow, `outgoingHigh, `outgoingLow, `sslReadingPaused, `lastSize,
            transport`protocolPaused
    {
      && !transport.protocolPaused && (sslWritingPaused != inherited) && ReadingAgrees()
      && (inherited || assertFailed <==> startedPaused) && !(inherited && assertFailed)
      && 0 <= incomingLow <= incomingHigh && 0 <= outgoingLow <= outgoingHigh
    }

    /** Ciphertext waits, and `resume_writing` is going to leave it there. */
    ghost predicate Forgotten()
      reads `state, `connected, `inherited, `transportEof, tls`outgoing, tls`broken, transport`connLost
    {
      && connected && |tls.outgoing| > 0 && (inherited || state == DO_HANDSHAKE)
      && !transportEof && !tls.broken && !transport.Dead()
    }

    /** `resume_writing`.  The source asserts that it had paused; the assertion fails exactly for
        a pause that the transport made before it got this protocol.  Ciphertext is left unsent
        exactly when that happens, or during the handshake. */
    method ResumeWriting() returns (assertFails: bool)
      requires OutValid() && CloseValid() && InValid() && LifeValid() && PauseEnds() && CallsValid() && Timed()
      requires Below() && Resting()
      modifies this, tls, transport
      ensures Valid() && Resting() && connected == old(connected) && over == old(over) && transport.Lasting()
      ensures assertFails == old(inherited) && assertFailed == (old(assertFailed) || assertFails) && !inherited
      ensures Unsent() <==> old(Forgotten())
      ensures old(state) == DO_HANDSHAKE ==> unchanged(tls) && state == DO_HANDSHAKE
      ensures Overlooked() ==> old(Overlooked())
      ensures Onward() && ownCalls == old(ownCalls)
      ensures old(ReadsOn()) ==> ReadsOn()
    {
      hide Streams.UVStream.Valid, Streams.UVStream.Queued, Streams.UVStream.EndLive, Streams.UVStream.LossLive,
           Tls.WireValid, NoneBlank, Concat, Plain, Unread, Writing, Draining, Reading, FlushRun, SizeAfter,
           Sending, Tls.Pass, PausedBy, WillOverlook, Text, Written, Passive, Roomy,
           Streams.UVStream.CurrentFlow, Streams.UVStream.SendsAll, Streams.UVStream.ResumesOnceSent,
           SSLProtocol.OutValid, SSLProtocol.CloseValid, SSLProtocol.InValid, SSLProtocol.HistoryValid,
           SSLProtocol.Timed, SSLProtocol.Below, SSLProtocol.Stranded, SSLProtocol.Unwritten,
           SSLProtocol.CallsValid, SSLProtocol.Awaits, SSLProtocol.Begins, SSLProtocol.Owes,
           SSLProtocol.Counted, SSLProtocol.Fed, SSLProtocol.ReadsOn, SSLProtocol.ReadingAgrees;
      assertFails := ClearPause();
      if assertFails {
        return;
      }
      match state
      case WRAPPED => ResumeWrapped();
      case FLUSHING => var raised := DoFlush();
      case SHUTDOWN => DoShutdown();
      case _ =>
    }

    /** `resume_writing` in WRAPPED. */
    method ResumeWrapped()
      requires Valid() && connected && state == WRAPPED && !(Unwritten() && !Holding())
      modifies this, tls, transport
      ensures Valid() && Later() && !Stuck() && !Unsent()
      ensures !Overlooked() && !Dangling()
    {
      hide Streams.UVStream.Valid, Streams.UVStream.Queued, Streams.UVStream.EndLive, Streams.UVStream.LossLive,
           Tls.WireValid, NoneBlank, Concat, Plain, Unread, Writing, Draining, Reading, FlushRun, SizeAfter,
           Sending, Tls.Pass, PausedBy, WillOverlook, Text, Written, Passive, Roomy,
           Streams.UVStream.CurrentFlow, Streams.UVStream.SendsAll, Streams.UVStream.ResumesOnceSent,
           SSLProtocol.OutValid, SSLProtocol.CloseValid, SSLProtocol.InValid, SSLProtocol.HistoryValid,
           SSLProtocol.FlowValid, SSLProtocol.Timed, SSLProtocol.Below, SSLProtocol.Holding,
           SSLProtocol.Dangling, SSLProtocol.CallsValid, SSLProtocol.Awaits, SSLProtocol.Begins,
           SSLProtocol.Owes, SSLProtocol.Counted, SSLProtocol.Fed, SSLProtocol.ReadsOn,
           SSLProtocol.ReadingAgrees;
      PassOn();
      ControlAppWriting();
    }

    /** The assertion of `resume_writing`, and the assignment after it. */
    method ClearPause() returns (assertFails: bool)
      requires PauseEnds()
      modifies `sslWritingPaused, `inherited, `assertFailed
      ensures FlowValid() && !sslWritingPaused && !inherited
      ensures assertFails == old(inherited) && assertFailed == (old(assertFailed) || assertFails)
    {
      assertFails := !sslWritingPaused;
      sslWritingPaused, inherited := false, false;
      assertFailed := assertFailed || assertFails;
    }

    /** `_maybe_resume_protocol` of the transport, whose protocol is this engine. */
    method ResumeTransport() returns (assertFails: bool)
      requires Untimed() && Timed() && Resting()
      requires transport.Base() && transport.Bounded() && transport.script == [] && !transport.eof && !transport.closed
      requires connected ==> transport.protocolConnected
      modifies this, tls, transport
      ensures Valid() && Resting() && connected == old(connected) && over == old(over) && transport.Lasting()
      ensures assertFails == (old(transport.ResumeDue()) && old(inherited))
      ensures assertFailed == (old(assertFailed) || assertFails)
      ensures old(transport.ResumeDue()) ==> (Unsent() <==> old(Forgotten()))
      ensures old(transport.ResumeDue()) && old(state) == DO_HANDSHAKE ==> unchanged(tls) && state == DO_HANDSHAKE
      ensures Overlooked() ==> old(Overlooked())
      ensures Onward() && ownCalls == old(ownCalls)
      ensures if old(transport.ResumeDue())
              then Streams.Resumes(transport.calls) > Streams.Resumes(old(transport.calls))
              else unchanged(this) && unchanged(tls) && unchanged(transport)
      ensures old(ReadsOn()) ==> ReadsOn()
    {
      hide Tls.WireValid, NoneBlank, Concat, Plain, Unread, Writing, Draining, Reading, FlushRun, SizeAfter,
           Sending, Tls.Pass, PausedBy, WillOverlook, Text, Written, Passive, Roomy,
           Streams.UVStream.CurrentFlow, Streams.UVStream.SendsAll, Streams.UVStream.ResumesOnceSent,
           SSLProtocol.OutValid, SSLProtocol.CloseValid, SSLProtocol.InValid, SSLProtocol.HistoryValid,
           SSLProtocol.AppValid, SSLProtocol.ConnValid, SSLProtocol.Timed, SSLProtocol.Stranded,
           SSLProtocol.Stuck, SSLProtocol.Unsent, SSLProtocol.Unwritten, SSLProtocol.Unclosed,
           SSLProtocol.Holding, SSLProtocol.Dangling, SSLProtocol.CallsValid, SSLProtocol.Awaits,
           SSLProtocol.Begins, SSLProtocol.Owes, SSLProtocol.Counted, SSLProtocol.Fed,
           SSLProtocol.ReadingAgrees;
      assertFails := false;
      if transport.ResumeDue() {
        transport.NoteResumed();
        assertFails := ResumeWriting();
      } else {
        transport.StillPaused();
      }
    }

    /** `eof_received`; the transport then closes itself.  Nothing is sent. */
    method TransportEof()
      requires AtRest() && connected
      modifies this, tls, transport
      ensures Valid() && Resting() && connected && over == old(over) && transport.Lasting()
      ensures history == old(history) && transport.closing
      ensures transport.accepted == old(transport.accepted) && backlog == old(backlog)
      ensures tls.outgoing == old(tls.outgoing)
      ensures state == match old(state) case UNWRAPPED => UNWRAPPED case DO_HANDSHAKE => UNWRAPPED case _ => SHUTDOWN
      ensures old(state) == DO_HANDSHAKE ==> !handshakeTimer
      ensures Overlooked() ==> old(Overlooked())
      ensures Onward() && ownCalls == old(ownCalls)
      ensures old(state) == WRAPPED || old(state) == FLUSHING || old(state) == SHUTDOWN ==> !shutdownTimer
      ensures transportEof == (old(transportEof) || old(state) == WRAPPED || old(state) == FLUSHING)
      ensures old(ReadsOn()) ==> ReadsOn()
    {
      hide Streams.UVStream.Valid, Streams.UVStream.Queued, Streams.UVStream.EndLive, Streams.UVStream.LossLive,
           Tls.WireValid, NoneBlank, Concat, Plain, Unread, Writing, Draining, Reading, FlushRun, SizeAfter,
           Sending, Tls.Pass, PausedBy, WillOverlook, Text, Written, Passive, Roomy,
           Streams.UVStream.CurrentFlow, Streams.UVStream.SendsAll, Streams.UVStream.ResumesOnceSent,
           SSLProtocol.OutValid, SSLProtocol.CloseValid, SSLProtocol.InValid, SSLProtocol.HistoryValid,
           SSLProtocol.AppValid, SSLProtocol.FlowValid, SSLProtocol.Timed, SSLProtocol.Below,
           SSLProtocol.Stranded, SSLProtocol.Stuck, SSLProtocol.Unsent, SSLProtocol.Unwritten,
           SSLProtocol.Unclosed, SSLProtocol.Holding, SSLProtocol.Dangling, SSLProtocol.CallsValid,
           SSLProtocol.Awaits, SSLProtocol.Begins, SSLProtocol.Owes, SSLProtocol.Counted, SSLProtocol.Fed,
           SSLProtocol.ReadsOn, SSLProtocol.ReadingAgrees;
      match state {
        case DO_HANDSHAKE =>
          var raised := OnHandshakeComplete(false);
        case WRAPPED =>
          EndOnEof();
        case FLUSHING =>
          EndOnEof();
        case SHUTDOWN =>
          CompleteShutdown();
        case UNWRAPPED =>
      }
      CloseBelow();
    }

    method CloseBelow()
      requires Valid() && Resting() && connected
      modifies transport`closing, transport`reading, transport`connLost, transport`lostScheduled, transport`everLost
      ensures Valid() && Resting() && transport.Lasting() && transport.closing
      ensures old(ReadsOn()) ==> ReadsOn()
    {
      hide Streams.UVStream.Valid, Streams.UVStream.Queued, Streams.UVStream.EndLive, Streams.UVStream.LossLive,
           Tls.WireValid, NoneBlank, Concat, Plain, Unread, Writing, Draining, Reading, FlushRun, SizeAfter,
           Sending, Tls.Pass, PausedBy, WillOverlook, Text, Written, Passive, Roomy,
           Streams.UVStream.CurrentFlow, Streams.UVStream.SendsAll, Streams.UVStream.ResumesOnceSent,
           SSLProtocol.CloseValid, SSLProtocol.InValid, SSLProtocol.HistoryValid, SSLProtocol.AppValid,
           SSLProtocol.FlowValid, SSLProtocol.Holding, SSLProtocol.Overlooked, SSLProtocol.Dangling,
           SSLProtocol.CallsValid, SSLProtocol.Awaits, SSLProtocol.Begins, SSLProtocol.Owes,
           SSLProtocol.Counted, SSLProtocol.Fed, SSLProtocol.ReadingAgrees;
      transport.CloseTransport();
    }

    method EndOnEof()
      requires Valid() && Resting() && connected && (state == WRAPPED || state == FLUSHING)
      modifies `state, `shutdownTimer, `transportEof,
               transport`closing, transport`reading, transport`connLost, transport`lostScheduled, transport`everLost
      ensures Valid() && Resting() && transport.Lasting() && state == SHUTDOWN
      ensures !shutdownTimer && transportEof
      ensures old(ReadsOn()) ==> ReadsOn()
    {
      hide Streams.UVStream.Valid, Streams.UVStream.Queued, Streams.UVStream.EndLive, Streams.UVStream.LossLive,
           Tls.WireValid, NoneBlank, Concat, Plain, Unread, Writing, Draining, Reading, FlushRun, SizeAfter,
           Sending, Tls.Pass, PausedBy, WillOverlook, Text, Written, Passive, Roomy,
           Streams.UVStream.CurrentFlow, Streams.UVStream.SendsAll, Streams.UVStream.ResumesOnceSent,
           SSLProtocol.HistoryValid, SSLProtocol.FlowValid, SSLProtocol.Holding, SSLProtocol.CallsValid,
           SSLProtocol.Awaits, SSLProtocol.Begins, SSLProtocol.Owes, SSLProtocol.Counted, SSLProtocol.Fed,
           SSLProtocol.ReadsOn, SSLProtocol.ReadingAgrees;
      transportEof := true;
      var ok := SetState(SHUTDOWN);
      OnShutdownComplete(false);
    }

    /** `connection_lost`. */
    method LoseConnection()
      requires Valid() && Resting() && connected
      modifies `backlog, `connLost, `state, `appState, `lostScheduled, `connected, `hasAppTransport, `over,
               `handshakeTimer, `shutdownTimer, tls`outgoing
      ensures Valid() && Resting() && over && !connected && state == UNWRAPPED && !handshakeTimer && !shutdownTimer
      ensures backlog == [] && tls.outgoing == [] && connLost == old(connLost) + 1
      ensures lostScheduled <==>
                old(state) != DO_HANDSHAKE && (old(appState) == STATE_CON_MADE || old(appState) == STATE_EOF)
      ensures old(state) == DO_HANDSHAKE ==> appState == old(appState)
      ensures appState == if lostScheduled then STATE_CON_LOST else old(appState)
    {
      hide Streams.UVStream.Valid, Streams.UVStream.Queued, Streams.UVStream.EndLive, Streams.UVStream.LossLive,
           Tls.WireValid, NoneBlank, Plain, Unread, Writing, Draining, Reading, FlushRun, SizeAfter, Sending,
           Tls.Pass, PausedBy, WillOverlook, Text, Written, Passive, Roomy, Streams.UVStream.CurrentFlow,
           Streams.UVStream.SendsAll, Streams.UVStream.ResumesOnceSent, SSLProtocol.HistoryValid,
           SSLProtocol.FlowValid, SSLProtocol.Holding, SSLProtocol.CallsValid, SSLProtocol.Awaits,
           SSLProtocol.Begins, SSLProtocol.Owes, SSLProtocol.Counted, SSLProtocol.Fed, SSLProtocol.ReadsOn,
           SSLProtocol.ReadingAgrees;
      DropOutput();
      if state != DO_HANDSHAKE && (appState == STATE_CON_MADE || appState == STATE_EOF) {
        ScheduleConnectionLost();
      }
      Disconnect();
    }

    method DropOutput()
      modifies `backlog, `connLost, tls`outgoing
      ensures backlog == [] && tls.outgoing == [] && connLost == old(connLost) + 1
    {
      backlog := [];
      var dropped := tls.TakeOutgoing();
      connLost := connLost + 1;
    }

    method ScheduleConnectionLost()
      modifies `appState, `lostScheduled
      ensures appState == STATE_CON_LOST && lostScheduled
    {
      appState, lostScheduled := STATE_CON_LOST, true;
    }

    method Disconnect()
      modifies `state, `connected, `hasAppTransport, `over, `handshakeTimer, `shutdownTimer
      ensures state == UNWRAPPED && !connected && !hasAppTransport && over && !handshakeTimer && !shutdownTimer
    {
      var ok := SetState(UNWRAPPED);
      connected, hasAppTransport, over := false, false, true;
      handshakeTimer, shutdownTimer := false, false;
    }

    // ---- Events ----

    /** `_check_handshake_timeout`. */
    method HandshakeTimeout()
      requires AtRest() && handshakeTimer
      modifies `state, `handshakeTimer,
               transport`closing, transport`reading, transport`connLost, transport`lostScheduled, transport`everLost
      ensures Valid() && Resting() && transport.Lasting()
      ensures if old(state) == DO_HANDSHAKE then transport.Dead() else unchanged(transport) && state == old(state)
      ensures Overlooked() ==> old(Overlooked())
      ensures Onward()
      ensures !handshakeTimer
      ensures old(ReadsOn()) ==> ReadsOn()
    {
      hide Streams.UVStream.Valid, Streams.UVStream.Queued, Streams.UVStream.EndLive, Streams.UVStream.LossLive,
           Tls.WireValid, NoneBlank, Concat, Plain, Unread, Writing, Draining, Reading, FlushRun, SizeAfter,
           Sending, Tls.Pass, PausedBy, WillOverlook, Text, Written, Passive, Roomy,
           Streams.UVStream.CurrentFlow, Streams.UVStream.SendsAll, Streams.UVStream.ResumesOnceSent,
           SSLProtocol.HistoryValid, SSLProtocol.FlowValid, SSLProtocol.Holding, SSLProtocol.CallsValid,
           SSLProtocol.Awaits, SSLProtocol.Begins, SSLProtocol.Owes, SSLProtocol.Counted, SSLProtocol.Fed,
           SSLProtocol.ReadsOn, SSLProtocol.ReadingAgrees;
      handshakeTimer := false;
      if state == DO_HANDSHAKE {
        FatalError();
      }
    }

    /** `_check_shutdown_timeout`. */
    method ShutdownTimeout()
      requires AtRest() && shutdownTimer
      modifies `shutdownTimer,
               transport`closing, transport`reading, transport`connLost, transport`lostScheduled, transport`everLost
      ensures Valid() && Resting() && transport.Lasting()
      ensures if state == FLUSHING || state == SHUTDOWN then transport.Dead() else unchanged(transport)
      ensures !shutdownTimer
      ensures old(ReadsOn()) ==> ReadsOn()
    {
      hide Streams.UVStream.Valid, Streams.UVStream.Queued, Streams.UVStream.EndLive, Streams.UVStream.LossLive,
           Tls.WireValid, NoneBlank, Concat, Plain, Unread, Writing, Draining, Reading, FlushRun, SizeAfter,
           Sending, Tls.Pass, PausedBy, WillOverlook, Text, Written, Passive, Roomy,
           Streams.UVStream.CurrentFlow, Streams.UVStream.SendsAll, Streams.UVStream.ResumesOnceSent,
           SSLProtocol.CloseValid, SSLProtocol.InValid, SSLProtocol.HistoryValid, SSLProtocol.AppValid,
           SSLProtocol.FlowValid, SSLProtocol.Holding, SSLProtocol.Overlooked, SSLProtocol.Dangling,
           SSLProtocol.CallsValid, SSLProtocol.Awaits, SSLProtocol.Begins, SSLProtocol.Owes,
           SSLProtocol.Counted, SSLProtocol.Fed, SSLProtocol.ReadingAgrees;
      shutdownTimer := false;
      if state == FLUSHING || state == SHUTDOWN {
        transport.Abort();
      }
    }

    /** The loop runs the scheduled connection_lost of the application. */
    method RunConnectionLost()
      requires AtRest() && lostScheduled
      modifies this, tls, transport
      ensures Valid() && Resting() && connected == old(connected) && over == old(over) && transport.Lasting()
      ensures seen.lost
      ensures Overlooked() ==> old(Overlooked())
      ensures Onward() && ownCalls == old(ownCalls)
      ensures old(ReadsOn()) ==> ReadsOn()
    {
      hide Streams.UVStream.Valid, Streams.UVStream.Queued, Streams.UVStream.EndLive, Streams.UVStream.LossLive,
           Tls.WireValid, NoneBlank, Concat, Plain, Unread, Writing, Draining, Reading, FlushRun, SizeAfter,
           Sending, Tls.Pass, PausedBy, WillOverlook, Text, Written, Passive, Roomy,
           Streams.UVStream.CurrentFlow, Streams.UVStream.SendsAll, Streams.UVStream.ResumesOnceSent,
           SSLProtocol.OutValid, SSLProtocol.CloseValid, SSLProtocol.InValid, SSLProtocol.ConnValid,
           SSLProtocol.FlowValid, SSLProtocol.Timed, SSLProtocol.Below, SSLProtocol.Stranded, SSLProtocol.Stuck,
           SSLProtocol.Unsent, SSLProtocol.Unwritten, SSLProtocol.Unclosed, SSLProtocol.Holding,
           SSLProtocol.Overlooked, SSLProtocol.Dangling, SSLProtocol.Awaits, SSLProtocol.Begins,
           SSLProtocol.Fed, SSLProtocol.ReadsOn, SSLProtocol.ReadingAgrees;
      lostScheduled := false;
      Notify(Callback.ConnectionLost);
      var r := Answer();
    }

    /** The loop runs the engine's connection_made: for a new stream as its `_call_connection_made`,
        under `start_tls` as the handle that it scheduled, with `resume_reading` after it. */
    method Connect(wraps: bool)
      requires AtRest()
      modifies this, tls, transport
      ensures AtRest()
      ensures connected == old(connected || (!transport.closed && (callMade || transport.madeScheduled)))
      ensures old(callMade && !connected && !over && !transport.closed && wraps && !Head(tls.answers).Fails?) ==>
                && state == DO_HANDSHAKE && connected && HandshakeGoesOn() && readsScheduled == old(readsScheduled)
                && tls.records == old(tls.records) && transport.Lasting() && transport.reading == !transport.closing
      ensures Overlooked() ==> old(Overlooked())
      ensures connected && !old(connected) && (!wraps || Head(old(tls.answers)).Fails?) ==> Failed()
      ensures Onward() && ownCalls == old(ownCalls)
    {
      hide Tls.WireValid, NoneBlank, Concat, Plain, Unread, Writing, Draining, Reading, FlushRun, SizeAfter,
           Sending, Tls.Pass, PausedBy, WillOverlook, Text, Written, Passive, Roomy,
           Streams.UVStream.CurrentFlow, Streams.UVStream.SendsAll, Streams.UVStream.ResumesOnceSent,
           SSLProtocol.OutValid, SSLProtocol.CloseValid, SSLProtocol.InValid, SSLProtocol.HistoryValid,
           SSLProtocol.AppValid, SSLProtocol.FlowValid, SSLProtocol.Timed, SSLProtocol.Stranded,
           SSLProtocol.Stuck, SSLProtocol.Unsent, SSLProtocol.Unwritten, SSLProtocol.Unclosed,
           SSLProtocol.Holding, SSLProtocol.Overlooked, SSLProtocol.Dangling, SSLProtocol.CallsValid,
           SSLProtocol.Awaits, SSLProtocol.Begins, SSLProtocol.Owes, SSLProtocol.Counted, SSLProtocol.Fed,
           SSLProtocol.ReadingAgrees;
      var alive := !transport.closed;
      if callMade {
        if connected || over || !alive {
          return;
        }
      } else {
        if !transport.madeScheduled {
          return;
        }
        alive := transport.BeginConnection();
        if !alive {
          return;
        }
      }
      MakeConnection(wraps);
      transport.ResumeReading();
    }

    /** libuv writes when the kernel takes more. */
    method KernelTakes(n: nat)
      requires AtRest()
      modifies transport`kernel, transport`requests, transport`writeQueueSize, transport`completed
      ensures AtRest()
      ensures !transport.closed && |old(transport.requests)| > 0 && n >= |old(transport.requests)[0]| > 0 ==>
                && transport.requests == old(transport.requests)[1..]
                && transport.completed == old(transport.completed) + 1
    {
      if !transport.closed {
        transport.LibuvWrites(n);
      }
    }

    /** The stream's `_on_write`, whose protocol is this engine. */
    method OnWrite() returns (assertFails: bool)
      requires Untimed() && Timed() && Resting()
      requires transport.Base() && transport.Bounded() && transport.script == [] && !transport.eof && !transport.closed
      requires connected ==> transport.protocolConnected
      modifies this, tls, transport
      ensures Valid() && Resting() && connected == old(connected) && over == old(over)
      ensures transport.EndLive() && (old(transport.Queued()) ==> transport.Queued()) && transport.LossKept()
      ensures transport.protocolConnected == old(transport.protocolConnected)
      ensures transport.seen.lost == old(transport.seen.lost)
      ensures assertFails == (old(transport.ResumeDue()) && old(inherited))
      ensures assertFailed == (old(assertFailed) || assertFails)
      ensures old(transport.ResumeDue()) ==> (Unsent() <==> old(Forgotten()))
      ensures old(transport.ResumeDue()) && old(state) == DO_HANDSHAKE ==> unchanged(tls) && state == DO_HANDSHAKE
      ensures Overlooked() ==> old(Overlooked())
      ensures Onward() && ownCalls == old(ownCalls)
      ensures if old(transport.ResumeDue())
              then Streams.Resumes(transport.calls) > Streams.Resumes(old(transport.calls))
              else transport.completed == old(transport.completed) && unchanged(this) && unchanged(tls)
      ensures transport.executing == old(transport.executing)
      ensures old(ReadsOn()) ==> ReadsOn()
      ensures !old(transport.ResumeDue()) ==>
                transport.lostScheduled ==
                old(transport.lostScheduled)
                + if && transport.Size() == 0
                     && (old(transport.closing) || (transport.Dead() && !old(transport.Dead()))) then 1 else 0
    {
      hide Streams.UVStream.Valid, Streams.UVStream.Queued, Streams.UVStream.EndLive, Streams.UVStream.LossLive,
           Tls.WireValid, NoneBlank, Concat, Plain, Unread, Writing, Draining, Reading, FlushRun, SizeAfter,
           Sending, Tls.Pass, PausedBy, WillOverlook, Text, Written, Passive, Roomy,
           Streams.UVStream.CurrentFlow, Streams.UVStream.SendsAll, Streams.UVStream.ResumesOnceSent,
           SSLProtocol.OutValid, SSLProtocol.CloseValid, SSLProtocol.InValid, SSLProtocol.HistoryValid,
           SSLProtocol.AppValid, SSLProtocol.ConnValid, SSLProtocol.FlowValid, SSLProtocol.Timed,
           SSLProtocol.Stranded, SSLProtocol.Stuck, SSLProtocol.Unsent, SSLProtocol.Unwritten,
           SSLProtocol.Unclosed, SSLProtocol.Holding, SSLProtocol.Overlooked, SSLProtocol.Dangling,
           SSLProtocol.CallsValid, SSLProtocol.Awaits, SSLProtocol.Begins, SSLProtocol.Owes,
           SSLProtocol.Counted, SSLProtocol.Fed, SSLProtocol.ReadsOn, SSLProtocol.ReadingAgrees;
      assertFails := ResumeTransport();
      CheckDrained();
    }

    /** The second half of it, which may end the stream. */
    method CheckDrained()
      requires Valid() && Resting() && !transport.closed
      modifies transport`shuttingDown, transport`failed, transport`answers, transport`closing, transport`reading,
               transport`connLost, transport`lostScheduled, transport`everLost
      ensures Valid() && Resting() && transport.EndLive() && transport.LossKept() && (Unsent() <==> old(Unsent()))
      ensures old(ReadsOn()) ==> ReadsOn()
      ensures transport.lostScheduled ==
                old(transport.lostScheduled)
                + if && transport.Size() == 0
                     && (old(transport.closing) || (transport.Dead() && !old(transport.Dead()))) then 1 else 0
    {
      hide Tls.WireValid, NoneBlank, Concat, Plain, Unread, Writing, Draining, Reading, FlushRun, SizeAfter,
           Sending, Tls.Pass, PausedBy, WillOverlook, Text, Written, Passive, Roomy,
           Streams.UVStream.CurrentFlow, Streams.UVStream.SendsAll, Streams.UVStream.ResumesOnceSent,
           SSLProtocol.CloseValid, SSLProtocol.InValid, SSLProtocol.HistoryValid, SSLProtocol.AppValid,
           SSLProtocol.FlowValid, SSLProtocol.Holding, SSLProtocol.Overlooked, SSLProtocol.Dangling,
           SSLProtocol.CallsValid, SSLProtocol.Awaits, SSLProtocol.Begins, SSLProtocol.Owes,
           SSLProtocol.Counted, SSLProtocol.Fed, SSLProtocol.ReadingAgrees;
      transport.CheckDrained();
    }

    /** The write callback of a request, which resumes the engine when it is time. */
    method WriteCompletes(ok: bool) returns (assertFails: bool)
      requires AtRest()
      modifies this, tls, transport
      ensures AtRest() && assertFailed == (old(assertFailed) || assertFails)
      ensures ok && old(transport.completed) > 0 && !old(transport.closed) && old(transport.ResumeDue()) ==>
                && assertFails == old(inherited) && (Unsent() <==> old(Forgotten()))
                && (old(state) == DO_HANDSHAKE ==> unchanged(tls) && state == DO_HANDSHAKE)
      ensures Overlooked() ==> old(Overlooked())
      ensures Onward() && ownCalls == old(ownCalls)
      ensures !ok && |old(transport.requests)| > 0 ==>
                transport.failed && transport.requests == old(transport.requests)[1..]
      ensures ok && old(transport.completed) > 0 && !old(transport.closed) ==>
                if old(transport.ResumeDue())
                then Streams.Resumes(transport.calls) > Streams.Resumes(old(transport.calls))
                else transport.completed == old(transport.completed) - 1
    {
      hide Tls.WireValid, NoneBlank, Concat, Plain, Unread, Writing, Draining, Reading, FlushRun, SizeAfter,
           Sending, Tls.Pass, PausedBy, WillOverlook, Text, Written, Passive, Roomy,
           Streams.UVStream.CurrentFlow, Streams.UVStream.SendsAll, Streams.UVStream.ResumesOnceSent,
           SSLProtocol.CloseValid, SSLProtocol.InValid, SSLProtocol.HistoryValid, SSLProtocol.AppValid,
           SSLProtocol.FlowValid, SSLProtocol.Holding, SSLProtocol.Overlooked, SSLProtocol.Dangling,
           SSLProtocol.CallsValid, SSLProtocol.Awaits, SSLProtocol.Begins, SSLProtocol.Owes,
           SSLProtocol.Counted, SSLProtocol.Fed, SSLProtocol.ReadingAgrees;
      assertFails := false;
      if !ok {
        if |transport.requests| > 0 {
          transport.RequestFailed();
        }
      } else if transport.completed > 0 {
        transport.Retire();
        if !transport.closed {
          assertFails := OnWrite();
        }
      }
    }

    /** The loop's `_exec_queued_writes` reaches the stream. */
    method ExecuteWrites()
      requires AtRest() && transport.executing
      modifies this, tls, transport
      ensures AtRest()
      ensures Overlooked() ==> old(Overlooked())
      ensures Onward() && ownCalls == old(ownCalls)
      ensures !transport.executing
      ensures old(transport.ResumesOnceSent()) ==>
                Streams.Resumes(transport.calls) > Streams.Resumes(old(transport.calls))
    {
      hide Tls.WireValid, NoneBlank, Concat, Plain, Unread, Writing, Draining, Reading, FlushRun, SizeAfter,
           Sending, Tls.Pass, PausedBy, WillOverlook, Text, Written, Passive, Roomy,
           Streams.UVStream.CurrentFlow, Streams.UVStream.SendsAll, Streams.UVStream.ResumesOnceSent,
           SSLProtocol.CloseValid, SSLProtocol.InValid, SSLProtocol.HistoryValid, SSLProtocol.AppValid,
           SSLProtocol.FlowValid, SSLProtocol.Holding, SSLProtocol.Overlooked, SSLProtocol.Dangling,
           SSLProtocol.CallsValid, SSLProtocol.Awaits, SSLProtocol.Begins, SSLProtocol.Owes,
           SSLProtocol.Counted, SSLProtocol.Fed, SSLProtocol.ReadingAgrees;
      transport.executing := false;
      var next := transport.ExecSend();
      match next {
        case Written =>
          var assertFails := OnWrite();
        case HandedOff =>
          var assertFails := ResumeTransport();
        case Finished(_) =>
      }
    }

    /** The loop runs a connection_lost of the stream. */
    method RunTransportLost()
      requires AtRest() && transport.lostScheduled > 0 && (callMade ==> connected || transport.closed)
      modifies this, tls, transport
      ensures AtRest() && transport.closed && over == (old(over) || old(connected))
      ensures old(connected && !transport.closed) ==> !handshakeTimer && !shutdownTimer && backlog == []
      ensures Overlooked() ==> old(Overlooked())
      ensures Onward() && ownCalls == old(ownCalls)
    {
      hide Tls.WireValid, NoneBlank, Concat, Plain, Unread, Writing, Draining, Reading, FlushRun, SizeAfter,
           Sending, Tls.Pass, PausedBy, WillOverlook, Text, Written, Passive, Roomy,
           Streams.UVStream.CurrentFlow, Streams.UVStream.SendsAll, Streams.UVStream.ResumesOnceSent,
           SSLProtocol.OutValid, SSLProtocol.CloseValid, SSLProtocol.InValid, SSLProtocol.HistoryValid,
           SSLProtocol.AppValid, SSLProtocol.ConnValid, SSLProtocol.FlowValid, SSLProtocol.Timed,
           SSLProtocol.Stranded, SSLProtocol.Stuck, SSLProtocol.Unsent, SSLProtocol.Unwritten,
           SSLProtocol.Unclosed, SSLProtocol.Holding, SSLProtocol.Dangling, SSLProtocol.CallsValid,
           SSLProtocol.Awaits, SSLProtocol.Begins, SSLProtocol.Owes, SSLProtocol.Counted, SSLProtocol.Fed,
           SSLProtocol.ReadingAgrees;
      var tell := transport.BeginLoss();
      if transport.closed {
        return;
      }
      if tell {
        LoseConnection();
      }
      transport.FinishLoss();
    }

    /** libuv reports an error of the stream. */
    method MeetError()
      requires AtRest()
      modifies transport`failed, transport`closing, transport`reading, transport`connLost,
               transport`lostScheduled, transport`everLost
      ensures AtRest() && (transport.closed || transport.Dead())
    {
      hide Tls.WireValid, NoneBlank, Concat, Plain, Unread, Writing, Draining, Reading, FlushRun, SizeAfter,
           Sending, Tls.Pass, PausedBy, WillOverlook, Text, Written, Passive, Roomy,
           Streams.UVStream.CurrentFlow, Streams.UVStream.SendsAll, Streams.UVStream.ResumesOnceSent,
           SSLProtocol.CloseValid, SSLProtocol.InValid, SSLProtocol.HistoryValid, SSLProtocol.AppValid,
           SSLProtocol.FlowValid, SSLProtocol.Holding, SSLProtocol.Overlooked, SSLProtocol.Dangling,
           SSLProtocol.CallsValid, SSLProtocol.Awaits, SSLProtocol.Begins, SSLProtocol.Owes,
           SSLProtocol.Counted, SSLProtocol.Fed, SSLProtocol.ReadingAgrees;
      if !transport.closed {
        transport.MeetError();
      }
    }

    /** The application makes a call from outside its callbacks, if it has its transport. */
    method AppCalls(call: Call)
      requires AtRest()
      modifies this, tls, transport
      ensures AtRest() && Onward()
      ensures Overlooked() ==> old(Overlooked())
      ensures ownCalls == if old(appState) == STATE_INIT then old(ownCalls)
                          else Then(old(ownCalls), Asked(call, old(Accepting())))
    {
      hide Tls.WireValid, NoneBlank, Concat, Plain, Unread, Writing, Draining, Reading, FlushRun, SizeAfter,
           Sending, Tls.Pass, PausedBy, WillOverlook, Written, Passive, Roomy, Streams.UVStream.CurrentFlow,
           Streams.UVStream.SendsAll, Streams.UVStream.ResumesOnceSent, SSLProtocol.OutValid,
           SSLProtocol.CloseValid, SSLProtocol.HistoryValid, SSLProtocol.ConnValid, SSLProtocol.FlowValid,
           SSLProtocol.Timed, SSLProtocol.Stranded, SSLProtocol.Stuck, SSLProtocol.Unsent,
           SSLProtocol.Unwritten, SSLProtocol.Unclosed, SSLProtocol.Holding, SSLProtocol.Overlooked,
           SSLProtocol.Dangling, SSLProtocol.Awaits, SSLProtocol.Owes, SSLProtocol.Counted, SSLProtocol.Fed,
           SSLProtocol.ReadsOn, SSLProtocol.ReadingAgrees;
      if appState != STATE_INIT {
        calls, ownCalls := Then(calls, Asked(call, !Deaf())), Then(ownCalls, Asked(call, !Deaf()));
        var raised := RunCall(call);
      }
    }

    /** What each event does at least, when it can happen. */
    twostate predicate Happened(e: Event)
      reads this, tls, transport
    {
      match e
      case LoopConnects(_) =>
        connected == old(connected || (!transport.closed && (callMade || transport.madeScheduled)))
      case Arrives(records, _) =>
        old(connected && transport.reading) && NoneBlank(records) ==> received == old(received) + Unread(records)
      case PeerEof => old(connected && transport.reading) ==> transport.closing
      case HandshakeTimesOut =>
        !handshakeTimer && (old(handshakeTimer && state == DO_HANDSHAKE) ==> transport.Dead())
      case ShutdownTimesOut =>
        !shutdownTimer && (old(shutdownTimer && (state == FLUSHING || state == SHUTDOWN)) ==> transport.Dead())
      case LoopReads =>
        old(readsScheduled > 0 && state == WRAPPED) ==>
          if old(appReadingPaused) then readsScheduled == old(readsScheduled) - 1 else flushed || transport.Dead()
      case LoopLoses => old(lostScheduled) ==> seen.lost
      case App(call) =>
        ownCalls == if old(appState) == STATE_INIT then old(ownCalls)
                    else Then(old(ownCalls), Asked(call, old(Accepting())))
      case KernelWrites(n) =>
        old(!transport.closed && |transport.requests| > 0) && n >= |old(transport.requests)[0]| ==>
          transport.completed == old(transport.completed) + 1
      case LibuvCompletes(ok) =>
        if ok then
          old(transport.completed > 0 && !transport.closed) ==>
            if old(transport.ResumeDue()) then Streams.Resumes(transport.calls) > Streams.Resumes(old(transport.calls))
            else transport.completed == old(transport.completed) - 1
        else |old(transport.requests)| > 0 ==> transport.failed && transport.requests == old(transport.requests)[1..]
      case LoopSwapsSets => old(!transport.executing) ==> transport.executing == old(transport.queued)
      case LoopExecutes =>
        && !transport.executing
        && (old(transport.executing && transport.ResumesOnceSent()) ==>
              Streams.Resumes(transport.calls) > Streams.Resumes(old(transport.calls)))
      case LoopLosesTransport =>
        old(transport.lostScheduled > 0 && (callMade ==> connected || transport.closed)) ==> transport.closed
      case TransportError => transport.closed || transport.Dead()
    }

    /** One step of the loop, if it can happen now. */
    method Step(e: Event)
      requires AtRest()
      modifies this, tls, transport
      ensures AtRest()
      ensures Overlooked() ==>
                || old(Overlooked())
                || ((e.LoopReads? || e.Arrives?) && old(state == WRAPPED && !appReadingPaused))
      ensures Onward()
      ensures Text(ownCalls) ==
                Text(old(ownCalls)) + if e.App? then Written(Asked(e.call, old(Accepting()))) else []
      ensures Happened(e)
    {
      hide Tls.WireValid, Concat, Plain, Unread, Writing, Draining, Reading, FlushRun, SizeAfter, Sending,
           Tls.Pass, PausedBy, WillOverlook, Passive, Roomy, Streams.UVStream.CurrentFlow,
           Streams.UVStream.SendsAll, Streams.UVStream.ResumesOnceSent, SSLProtocol.OutValid,
           SSLProtocol.CloseValid, SSLProtocol.InValid, SSLProtocol.HistoryValid, SSLProtocol.ConnValid,
           SSLProtocol.FlowValid, SSLProtocol.Timed, SSLProtocol.Stranded, SSLProtocol.Stuck,
           SSLProtocol.Unsent, SSLProtocol.Unwritten, SSLProtocol.Unclosed, SSLProtocol.Holding,
           SSLProtocol.Overlooked, SSLProtocol.Dangling, SSLProtocol.CallsValid, SSLProtocol.Awaits,
           SSLProtocol.Begins, SSLProtocol.Owes, SSLProtocol.Counted, SSLProtocol.Fed,
           SSLProtocol.ReadingAgrees;
      match e
      case LoopConnects(wraps) => Connect(wraps);
      case Arrives(records, rest) =>
        if connected && transport.reading && NoneBlank(records) {
          BufferUpdated(records, rest);
        }
      case PeerEof => if connected && transport.reading { TransportEof(); }
      case HandshakeTimesOut => if handshakeTimer { HandshakeTimeout(); }
      case ShutdownTimesOut => if shutdownTimer { ShutdownTimeout(); }
      case LoopReads => if readsScheduled > 0 { ghost var mid, sent := RunScheduledRead(); }
      case LoopLoses => if lostScheduled { RunConnectionLost(); }
      case App(call) => AppCalls(call);
      case KernelWrites(n) => KernelTakes(n);
      case LibuvCompletes(ok) => var assertFails := WriteCompletes(ok);
      case LoopSwapsSets => if !transport.executing { transport.SwapSets(); }
      case LoopExecutes => if transport.executing { ExecuteWrites(); }
      case LoopLosesTransport =>
        if transport.lostScheduled > 0 && (callMade ==> connected || transport.closed) {
          RunTransportLost();
        }
      case TransportError => MeetError();
    }
  }

  /** Everything that can happen to the engine and its stream between two points at which
      nobody is on the call stack.  Under `start_tls` the engine's connection_made was appended to
      the ready queue before any connection_lost of the stream, and so runs first. */
  datatype Event =
    | LoopConnects(wraps: bool)
    | Arrives(records: seq<Record>, rest: nat)
    | PeerEof
    | HandshakeTimesOut
    | ShutdownTimesOut
    | LoopReads
    | LoopLoses
    | App(call: Call)
    | KernelWrites(n: nat)
    | LibuvCompletes(ok: bool)
    | LoopSwapsSets
    | LoopExecutes
    | LoopLosesTransport
    | TransportError

  /** The plaintext written, followed through the engine and the stream to the kernel. */
  lemma EndToEnd(p: SSLProtocol)
    requires p.Valid() && !p.over && !p.transport.Dead() && !p.transport.failed && !p.transport.closed
    ensures Plain(p.earlier) + p.plain ==
              Plain(p.transport.kernel) + Plain(Concat(p.transport.requests)) + Plain(Concat(p.transport.buffer))
              + Plain(p.tls.outgoing) + Concat(p.backlog)
  {
    var s := p.transport;
    PlainAppend(p.earlier, p.tls.emitted);
    PlainAppend(s.accepted, p.tls.outgoing);
    PlainAppend(s.kernel + Concat(s.requests), Concat(s.buffer));
    PlainAppend(s.kernel, Concat(s.requests));
    Assoc(Plain(p.earlier), Plain(p.tls.emitted), Concat(p.backlog));
  }

  /** What the application writes in a run while it is accepted: `open` says when that is. */
  function WrittenIn(events: seq<Event>, open: seq<bool>): seq<Byte>
    requires |events| <= |open|
  {
    if events == [] then []
    else
      var n := |events| - 1;
      WrittenIn(events[..n], open) + if events[n].App? then Written(Asked(events[n].call, open[n])) else []
  }

  /** It depends on what is known of the events so far. */
  lemma {:induction false} WrittenSoFar(events: seq<Event>, open: seq<bool>, more: seq<bool>)
    requires |events| <= |open| && open <= more
    ensures WrittenIn(events, more) == WrittenIn(events, open)
  {
    if events != [] {
      WrittenSoFar(events[..|events| - 1], open, more);
    }
  }

  lemma NothingWritten(open: seq<bool>)
    ensures WrittenIn([], open) == [] && Text(Start) == []
  {
  }

  lemma WrittenNext(events: seq<Event>, i: nat, open: seq<bool>, now: bool)
    requires i < |events| && |open| == i + 1
    ensures WrittenIn(events[..i + 1], open + [now]) ==
            WrittenIn(events[..i], open) + if events[i].App? then Written(Asked(events[i].call, open[i])) else []
  {
    assert events[..i + 1][..i] == events[..i];
    WrittenSoFar(events[..i], open, open + [now]);
  }

  /** The events of a run, one after the other. */
  method Run(transport: Stream, callMade: bool, isBuffered: bool, script: seq<Reply>, answers: seq<Answer>,
             events: seq<Event>)
    returns (p: SSLProtocol, ghost open: seq<bool>)
    requires Ready(transport, callMade)
    modifies transport
    ensures fresh(p) && fresh(p.tls) && p.transport == transport && p.callMade == callMade && p.AtRest()
    ensures p.earlier == old(transport.accepted) && p.startedPaused == old(transport.protocolPaused)
    ensures p.passive == Passive(script) && p.scripted == |script| && p.roomy == Roomy(script)
    ensures |open| == |events| + 1 && !open[0] && open[|events|] == p.Accepting()
    ensures Text(p.ownCalls) == WrittenIn(events, open)
    ensures forall i, j, k :: 0 <= i < j < k < |open| && open[i] && open[k] ==> open[j]
  {
    hide Streams.UVStream.Valid, Streams.UVStream.AtRest, Ready, Passive, Roomy, WrittenIn, Text;
    hide SSLProtocol.OutValid, SSLProtocol.CloseValid, SSLProtocol.InValid, SSLProtocol.HistoryValid,
         SSLProtocol.AppValid, SSLProtocol.FlowValid, SSLProtocol.Timed, SSLProtocol.Below, SSLProtocol.CallsValid,
         SSLProtocol.Resting, SSLProtocol.Linked, SSLProtocol.ReadsOn, SSLProtocol.Happened;
    p := new SSLProtocol(transport, callMade, isBuffered, script, answers);
    open := [p.Accepting()];
    assert events[..0] == [];
    NothingWritten(open);
    for i := 0 to |events|
      invariant fresh(p) && fresh(p.tls) && p.transport == transport && p.callMade == callMade
      invariant p.earlier == old(transport.accepted) && p.startedPaused == old(transport.protocolPaused)
      invariant p.AtRest() && p.passive == Passive(script) && p.scripted == |script| && p.roomy == Roomy(script)
      invariant |open| == i + 1 && !open[0] && open[i] == p.Accepting()
      invariant Text(p.ownCalls) == WrittenIn(events[..i], open)
      invariant forall j :: 0 <= j <= i && open[j] && !p.Accepting() ==> p.appState != STATE_INIT && !p.Early()
      invariant forall a, b, c :: 0 <= a < b < c <= i && open[a] && open[c] ==> open[b]
    {
      p.Step(events[i]);
      WrittenNext(events, i, open, p.Accepting());
      open := open + [p.Accepting()];
    }
    assert events[..|events|] == events;
  }

  /** Every run of the engine on a stream: any application, any answers of OpenSSL and of the
      kernel, any sequence of events.  What is promised at the end holds after every prefix of
      a run, which is a run too. */
  method AnyRun(transport: Stream, callMade: bool, isBuffered: bool, script: seq<Reply>, answers: seq<Answer>,
                events: seq<Event>)
    returns (p: SSLProtocol, ghost open: seq<bool>)
    requires Ready(transport, callMade)
    modifies transport
    ensures fresh(p) && p.transport == transport && p.callMade == callMade && p.AtRest()
    ensures p.earlier == old(transport.accepted)
    // the plaintext written is, in order, with the kernel, libuv, the stream, the BIO and the backlog
    ensures !p.over && !transport.Dead() && !transport.failed && !transport.closed ==>
              Plain(p.earlier) + p.plain ==
                Plain(transport.kernel) + Plain(Concat(transport.requests)) + Plain(Concat(transport.buffer))
                + Plain(p.tls.outgoing) + Concat(p.backlog)
    ensures !p.over ==> p.writeBufferSize == |Concat(p.backlog)| && p.plain == Plain(p.tls.emitted) + Concat(p.backlog)
    // the plaintext is what the application wrote, call by call; without calls in its callbacks it is what its
    // calls from outside wrote at the times when that was accepted, which is over once it ends
    ensures p.plain == Text(p.calls)
    ensures |open| == |events| + 1 && !open[0] && open[|events|] == p.Accepting()
    ensures Passive(script) ==> p.plain == WrittenIn(events, open)
    ensures forall i, j, k :: 0 <= i < j < k < |open| && open[i] && open[k] ==> open[j]
    ensures transport.bufferSize == |Concat(transport.buffer)|
    ensures transport.writeQueueSize == |Concat(transport.requests)|
    // unless the transport reported EOF, close_notify comes after everything written, and is written,
    // or the transport lost, once SHUTDOWN is entered
    ensures CloseLast(p.tls.emitted) && p.unwrapClean
    ensures p.state == SHUTDOWN && !p.transportEof ==>
              p.drained && |Concat(p.backlog)| == 0 && (p.tls.closeSent || transport.Dead())
    ensures HasClose(p.tls.emitted) && !p.transportEof ==> |Concat(p.backlog)| == 0
    // and once that was answered, and nothing is left to hand over, the transport closes
    ensures p.state == SHUTDOWN && p.tls.unwrapped && !(p.sslWritingPaused && |p.tls.outgoing| > 0) ==>
              transport.closing || transport.Dead()
    // the application sees a legal history; its data is what arrived
    ensures Legal(p.history.Calls(), callMade)
    ensures !p.tls.broken ==> p.received == Delivered(p.history) + p.discarded + Unread(p.tls.records)
    ensures !p.tls.broken && p.state == WRAPPED ==> p.discarded == []
    // the stream's pauses are the engine's, but for one made earlier, which fails the assertion when it ends
    ensures transport.protocolPaused == (p.sslWritingPaused || p.inherited)
    ensures p.assertFailed <==> old(transport.protocolPaused) && !p.inherited
    // nobody is told of a connection, and nothing is sent or read, before a handshake was completed
    ensures !callMade && Callback.ConnectionMade in p.history.Calls() ==> p.tls.completed
    ensures p.state == WRAPPED || p.state == FLUSHING || p.state == SHUTDOWN ==> p.tls.completed
    // neither the handshake nor the shutdown flow is without a deadline
    ensures p.state == DO_HANDSHAKE ==> p.handshakeTimer || transport.Dead()
    ensures p.state == FLUSHING || p.state == SHUTDOWN ==> p.shutdownTimer || transport.closing || transport.Dead()
    // and when the connection is lost no timer stays armed
    ensures p.over ==> !p.handshakeTimer && !p.shutdownTimer
    // the stream reads, unless the incoming BIO held too much when the engine looked at it last
    ensures p.connected && !transport.closing && !p.sslReadingPaused ==> transport.reading
    ensures p.incomingLow < p.incomingHigh ==>
              && (p.lastSize >= p.incomingHigh ==> p.sslReadingPaused)
              && (p.lastSize <= p.incomingLow ==> !p.sslReadingPaused)
    // for every callback the next piece of application code ran, once
    ensures var callbacks := |p.history.Calls()| + p.asked;
            |p.script| == if callbacks <= |script| then |script| - callbacks else 0
    // no record waits without a scheduled read, and nothing to send without a step that sends it
    ensures !p.Stranded() && !p.Stuck() && (Roomy(script) ==> !p.starved)
    ensures p.state == WRAPPED && (p.Unsent() || p.Unwritten()) ==> p.Holding()
    // a paused application, and a paused engine, have something to wait for
    ensures p.state == WRAPPED && p.flushed && p.appWritingPaused && p.outgoingLow < p.outgoingHigh ==>
              p.WriteSize() > p.outgoingLow
    ensures !transport.closed && transport.protocolPaused ==>
              transport.InFlight() || |transport.buffer| > 0 || transport.lostScheduled > 0
    ensures transport.everLost && !transport.closed ==> transport.lostScheduled > 0
  {
    p, open := Run(transport, callMade, isBuffered, script, answers, events);
    ReplayMeaning(p.history, callMade);
    if !p.over && !transport.Dead() && !transport.failed && !transport.closed {
      EndToEnd(p);
    }
  }
}
