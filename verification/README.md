# Verified model of uvloop's event-loop core

uvloop is an event loop for Python on top of libuv. This project models the parts of it that are
state machines, in the form the code has (objects whose methods change fields), and proves what
they promise over every run: for any application, any answers of the kernel, libuv and OpenSSL,
and any sequence of events.

| file | models |
|---|---|
| `SslProtocols.dfy`, `TlsObjects.dfy`, `TlsApps.dfy` | the TLS engine `SSLProtocol` on top of the stream below; the OpenSSL object and its BIOs; the application above and the callback grammar of PEP 3156, "Stream Protocols" |
| `Streams.dfy`, `WriteContexts.dfy`, `Buffers.dfy`, `FlowControl.dfy` | the write path, flow control and closing of `UVStream`; the partial-send advance; buffer lists; the default limits |
| `Witnesses.dfy` | runs that show what the code does not promise |
| `Histories.dfy`, `Wrappers.dfy` | call histories and rules on them; optional values |
| `LoopWakes.dfy` | the wake-up handshake with other threads, as interleaved steps |
| `ReadyQueues.dfy`, `QueuedWrites.dfy` | the ready queue; the two swapped sets of streams with deferred writes |
| `Registries.dfy` | readers and writers of file descriptors on top of `UVPoll` |
| `Processes.dfy` | the buffered callbacks of a subprocess |
| `Lru.dfy`, `Dns.dfy` | the LRU cache and the address conversion behind it |
| `Servers.dfy` | connection counting, closing and waiting of a server |

How environments are modelled:

- The kernel answers from a script: it takes any prefix of a write, asks to wait, or fails. libuv
  keeps a FIFO of write requests and runs one completion callback for each.
- OpenSSL answers from a script too: it consumes a nonempty prefix of what it is given, and writes
  it in records of any size and number, or asks to be called again; a read gives decrypted bytes,
  "again" or the end; every call may fail. How many raw bytes the incoming BIO then holds is left
  open. The plaintext is history that the engine cannot see. A byte on the wire carries the
  plaintext that becomes readable with it, mostly none. close_notify is ordered as in section 6.1 of
  RFC 8446.
- The application is a script as well: every callback pops one list of calls and makes them on the
  same object, so writes and closes from inside callbacks are covered at every depth. An exception
  of a callback is part of the script.
- The scripts are arguments of every run, so what is proved holds for all of them; a run can also be
  shown by giving them, as `Witnesses.dfy` does.
- The TLS engine and the stream below it are two objects. The stream's pause_writing,
  resume_writing and connection_lost are the engine's methods, and their steps interleave.
- Timers may fire whenever they are armed.
- Counters, sizes and limits are unbounded integers, except where limits are computed in C ints
  (`FlowControl.dfy`); overflow there is taken to be two's complement.
- `AnyRun` of each module states what holds after any sequence of events. A prefix of a run is a
  run, so it holds at every point between two events; the invariants named `Valid` hold whenever
  application code runs.

## What the proofs found

- **Subprocess callbacks can follow `connection_lost`.** When the process exits and then two pipes
  are lost before the protocol is connected, the replay schedules `connection_lost` right after the
  first pipe loss. `Processes.ConnectionLostComesLast` gives the exact condition.
- **An abort inside `eof_received` makes `_do_flush` raise**: it tries to go from UNWRAPPED to
  SHUTDOWN. It raises if and only if `SSLProtocol.FlushRaises` held before the call: close_notify is
  among what was not read and was not reported yet, the application is going to abort, or to raise,
  when it is told, and neither an error nor unsent data will be left (`SSLProtocol.DoFlush`,
  `SSLProtocol.StartShutdown`). `Witnesses.FlushCanRaise` is such a run.
- **`start_tls` on a paused transport** makes the assertion of `resume_writing` fail: over every run
  it failed if and only if the transport was paused when it got the engine, and that pause ended
  (`SslProtocols.AnyRun`). `Witnesses.AssertionFails` is such a run.
- **A pause during the handshake can hold the handshake back.** After `resume_writing` ciphertext is
  left unsent if and only if some waited and either the handshake goes on or that assertion failed
  (`SSLProtocol.ResumeWriting`, with `SSLProtocol.Forgotten`). In `Witnesses.HandshakeHeldBack` nothing
  is paused any more and a flight of the handshake still waits.
- **While the application does not read, `_do_read` does not send either.** In WRAPPED, ciphertext or
  plaintext that could be sent waits only while nothing was read or written since the handshake was
  over, and the application does not read or the first read is still scheduled (`SSLProtocol.Holding`,
  `SslProtocols.AnyRun`); the first write or read in WRAPPED sends it (`SSLProtocol.WriteAppdata`,
  `SSLProtocol.RunScheduledRead`). In `Witnesses.LastFlightWaits` the last flight of the handshake waits
  for that.
- **A read can end the flush without noticing.** When `_do_read` meets close_notify it starts the
  flush, and when OpenSSL does not take the backlog then, and takes it in the sending at the end of
  the same `_do_read`, nothing is left and nothing calls `_do_flush` again: close_notify waits for
  more bytes from the peer, or the deadline. `Witnesses.FlushOverlooked` is such a run. Only a read
  in WRAPPED does it (`SSLProtocol.Step`), and it does exactly when the flush began in it, left
  something, and the sending afterwards leaves nothing (`SSLProtocol.ReadAndSend`, with
  `SslProtocols.Overlooks`); for an application that does nothing in its callbacks this is a
  condition on the state before the read (`SslProtocols.WillOverlook`).
- **The docstring of `_do_flush`** says that the application is not paused or resumed in FLUSHING.
  `_do_flush` itself does not do it (`SSLProtocol.DoFlush`), but two other calls do, each exactly when
  the write size crosses a limit: the end of a `_do_read` in which the flush began
  (`SSLProtocol.SendOrFail`, `SSLProtocol.ReadAndSend`), as in `Witnesses.PausedByReading`, and
  `set_write_buffer_limits` in every state (`SSLProtocol.SetWriteLimits`), as in
  `Witnesses.PausedWhileFlushing`.
- **A paused application may have nothing to wait for**, in WRAPPED once something was sent, only when
  its two limits are equal
  (`SslProtocols.AnyRun`): the engine compares with `>=` and `<=`, so limits of zero pause an application
  with nothing to write, as in `Witnesses.PausedWithNothing`.
- **A comment in `eof_received`** says that buffered data is still sent on a low-level EOF; the code
  sends none (`SSLProtocol.TransportEof`).
- **A stream can call pause_writing after `connection_lost`**, and nothing else: exactly when the
  protocol was not paused and a call that it makes in that callback leaves more than the high mark
  (`Streams.UVStream.CallConnectionLost`, with `Streams.PausesIn`, a fold over the calls and the answers of
  the kernel). `Witnesses.PausedAfterLoss` does it with a write. Once `_conn_lost` is set only
  `set_write_buffer_limits` can do it, exactly with a high mark below the size
  (`Streams.PausesWhenDead`), as in `Witnesses.PausedAfterAbort`.
- **A low write limit given alone** is multiplied by four in a C int; limits from 0x55555556 to
  0x5FFFFFFF are accepted with a high limit that is not four times the low one
  (`FlowControl.LowAlone`).
- **The address cache can change an answer.** An unhashable address, such as one whose host is a
  bytearray, converts directly but raises TypeError in the lookup; the answer is the same exactly when
  the address has a wrong type anyway. An address found in the cache gets the answer of an equal one;
  that is its own answer exactly when its port is not a complex number and its flowinfo and scope_id
  are not floats or complex numbers (`Dns.ConvertPyAddrToSockAddr`, with `Dns.IllTyped` and
  `Dns.NumbersFit`). `Dns.EqualAddressesDiffer` is such a pair of lookups. A text path of a Unix socket
  is cached under its encoded form only, so looking it up again misses; the result is right all the same.
- **`_attach` fails its assertion** exactly when a protocol factory closes the server during an accept,
  **and a closed server says it is serving** exactly when `start_serving` was called after `close`
  (`Servers.AnyRun`). `wait_closed` on a closed server returns at once by design, whatever
  connections are left.

## Model

| member | source | states |
|---|---|---|
| `SslProtocols.AnyRun` | uvloop/sslproto.pyx:195-1007 | after any sequence of events of an engine and its stream, with any application and any answers of OpenSSL, in records of any size and layout, and of the kernel: the plaintext accepted is, in order, that of what the kernel took, libuv's queue, the stream buffer and the outgoing BIO, and then the backlog, and all three counters are right; nothing readable follows close_notify, which comes only after everything written, unless the transport reported EOF, and which is written, or the transport lost, once SHUTDOWN is entered; callbacks are a legal PEP 3156 history whose data is what arrived; the stream's pauses are the engine's, but for one older than the engine, and the assertion of `resume_writing` failed if and only if there was one and it ended; no readable record waits without a read scheduled; ciphertext and encryptable plaintext wait after the handshake only behind a pause, or until the first read or write in WRAPPED; an application that is paused in WRAPPED has more than the low mark to wait for, if the limits differ; a paused stream has a step to make or its connection_lost scheduled; neither the handshake nor the shutdown flow is without a deadline; the plaintext accepted is what the application wrote, call by call, and for one that makes no calls in its callbacks it is what its calls wrote in the one stretch of the run in which the engine accepted data; without `start_tls` the application sees connection_made, and any state past the handshake is entered, only after a handshake that was completed; a shutdown that was answered, with nothing left to hand over, has the transport closing; the stream reads unless the incoming BIO held too much when it was looked at last; for every callback one piece of application code ran; no timer survives the connection |
| `SslProtocols.EndToEnd` | uvloop/sslproto.pyx:665-712 | in every state that keeps the invariant, until failure or loss: the plaintext accepted is, in order, in the kernel, libuv's queue, the stream's buffer, the outgoing BIO and the backlog |
| `SslProtocols.SSLProtocol.Connect` | uvloop/sslproto.pyx:316-322 | connection_made connects the engine exactly when it is scheduled and the stream is open; under `start_tls`, unless something fails, the first flight of the handshake is written, the stream reads, and nothing else happens |
| `SslProtocols.SSLProtocol.WriteCompletes` | uvloop/handles/stream.pyx:852-883 | a write callback that makes the stream resume the engine: the assertion fails exactly for a pause older than the engine, and ciphertext stays unsent exactly in that case or in a handshake; a stream that is not to resume has one completion fewer |
| `SslProtocols.SSLProtocol.OnWrite` | uvloop/handles/stream.pyx:629-635 | the same for `_on_write`, after which an end of the stream that is due has been served |
| `SslProtocols.SSLProtocol.ResumeTransport` | uvloop/handles/basetransport.pyx:86-107 | the stream resumes the engine exactly when it is paused with at most `low` to write |
| `SslProtocols.SSLProtocol.CheckDrained` | uvloop/handles/stream.pyx:631-635 | an end of the stream that is due is served, and nothing of the engine is stranded by it |
| `SslProtocols.SSLProtocol.ExecuteWrites` | uvloop/loop.pyx:647-650 | the deferred write of the stream below, with whatever the engine does when resumed, keeps what holds between steps; a paused engine is resumed when what was sent leaves at most the low mark |
| `SslProtocols.SSLProtocol.RunTransportLost` | uvloop/handles/basetransport.pyx:156-178 | connection_lost of the stream ends a connected engine, and the stream is closed |
| `SslProtocols.SSLProtocol.MeetError` | uvloop/handles/basetransport.pyx:40-59 | an error of the stream ends in its connection_lost |
| `SslProtocols.SSLProtocol.constructor` | uvloop/sslproto.pyx:213-285 | a new engine is unconnected, has accepted and seen nothing and satisfies the invariant on every stream that can get a protocol, paused or not |
| `SslProtocols.SSLProtocol.SetState` | uvloop/sslproto.pyx:440-469 | exactly the legal transitions are made; for the others the state is unchanged and an error reported |
| `SslProtocols.SSLProtocol.PauseWriting` | uvloop/sslproto.pyx:968-973 | sets the flag; the asserted condition is a precondition, proved where the transport calls |
| `SslProtocols.SSLProtocol.ResumeWriting` | uvloop/sslproto.pyx:975-990 | the assertion fails if and only if the pause was made before the engine got the transport; ciphertext is left unsent if and only if that happens or the handshake goes on, and some waits |
| `SslProtocols.SSLProtocol.ResumeWrapped` | uvloop/sslproto.pyx:982-984 | in WRAPPED everything in the BIO is sent |
| `SslProtocols.SSLProtocol.ClearPause` | uvloop/sslproto.pyx:979-980 | the assertion fails exactly for an inherited pause, and the pause is over |
| `SslProtocols.SSLProtocol.ProcessOutgoing` | uvloop/sslproto.pyx:704-712 | unless paused the whole BIO goes to the transport, in order; whatever is left means a pause |
| `SslProtocols.SSLProtocol.WriteFirst` | uvloop/sslproto.pyx:687-702 | one round takes a prefix of the first chunk off the backlog and its counter, encrypts exactly it, in records of whatever layout, and makes progress |
| `SslProtocols.SSLProtocol.DoWrite` | uvloop/sslproto.pyx:685-702 | terminates with the conservation law kept and the backlog empty, unless OpenSSL asked to be called again or failed; the number of bytes on the wire is that of a fold over its answers |
| `SslProtocols.SSLProtocol.SendAll` | uvloop/sslproto.pyx:685-712 | afterwards neither ciphertext nor plaintext waits, but for a paused transport or an OpenSSL that wants to be called again; the backlog left, the bytes on the wire and whether the stream pauses the engine are folds over the answers of OpenSSL and of the kernel |
| `SslProtocols.SSLProtocol.Send` | uvloop/sslproto.pyx:674-676 | the same, after which the engine is not stuck |
| `SslProtocols.SSLProtocol.Encrypt` | uvloop/sslproto.pyx:685-702 | encrypting keeps the whole invariant, with the backlog left and the bytes on the wire as folds over the answers of OpenSSL |
| `SslProtocols.SSLProtocol.PassOn` | uvloop/sslproto.pyx:704-712 | handing the BIO over keeps the whole invariant and leaves nothing unsent; the stream pauses the engine exactly when it then has more than its high mark |
| `SslProtocols.SSLProtocol.Buffer` | uvloop/sslproto.pyx:670-672 | appends all chunks to the backlog and their lengths to the counter |
| `SslProtocols.SSLProtocol.WriteAppdata` | uvloop/sslproto.pyx:665-683 | before the shutdown flow all chunks are accepted, once and in order, and by an application that does nothing in its callbacks nothing else; once it has begun nothing changes but the counter of lost writes; a write in WRAPPED leaves nothing stuck |
| `SslProtocols.SSLProtocol.Accept` | uvloop/sslproto.pyx:665-673 | chunks are accepted before the shutdown flow only |
| `SslProtocols.SSLProtocol.BeginFlush` | uvloop/sslproto.pyx:575-583 | flushing begins with its deadline armed |
| `SslProtocols.SSLProtocol.SendOrFail` | uvloop/sslproto.pyx:674-683 | leaves the engine not stuck; an OpenSSL error kills the transport; in every state the application is told to pause or to resume exactly when the size left crosses a limit; FLUSHING is left with nothing to send exactly when the backlog is taken and handed over |
| `SslProtocols.SSLProtocol.ControlAppWriting` | uvloop/sslproto.pyx:880-919 | exactly when the write size crossed a limit, whatever the state, calls the matching one of pause_writing and resume_writing, first of all |
| `SslProtocols.SSLProtocol.TellPause` | uvloop/sslproto.pyx:883-919 | that callback, with what the application does in it; when nothing it writes is accepted, it can only abort, change its limits and be told again |
| `SslProtocols.SSLProtocol.ToggleWriting` | uvloop/sslproto.pyx:883-919 | flips the flag and records the matching callback, unless the application protocol is gone |
| `SslProtocols.SSLProtocol.SetWriteLimits` | uvloop/sslproto.pyx:924-928 | refused exactly for bad limits, with nothing changed; otherwise, in every state, pause_writing or resume_writing is called exactly when the write size crosses a new limit, and the new limits are in force unless the application changes them in that callback |
| `SslProtocols.SSLProtocol.SetReadLimits` | uvloop/sslproto.pyx:957-961 | the limits are those of `add_flowcontrol_defaults`, or the call is refused with nothing changed; then the reading flag agrees with them |
| `SslProtocols.SSLProtocol.ControlSslReading` | uvloop/sslproto.pyx:948-955 | the reading flag follows the two limits with hysteresis, and the transport follows the flag; afterwards the flag agrees with limits that differ |
| `SslProtocols.SSLProtocol.PauseReading` | uvloop/sslproto.pyx:932-933 | sets the flag and keeps what callers rely on |
| `SslProtocols.SSLProtocol.ResumeReading` | uvloop/sslproto.pyx:935-944 | schedules exactly one read when it lifts a pause on a running connection |
| `SslProtocols.SSLProtocol.AppAbort` | uvloop/sslproto.pyx:176-187 | ends in UNWRAPPED with a dead transport |
| `SslProtocols.SSLProtocol.AbortNow` | uvloop/sslproto.pyx:658-661 | ends in UNWRAPPED with a dead transport |
| `SslProtocols.SSLProtocol.FatalError` | uvloop/sslproto.pyx:992-996 | kills the transport; the state changes only when there is an application transport |
| `SslProtocols.SSLProtocol.OnShutdownComplete` | uvloop/sslproto.pyx:646-656 | an error is fatal, success closes the transport |
| `SslProtocols.SSLProtocol.CallEofReceived` | uvloop/sslproto.pyx:856-876 | reports EOF once: only in CON_MADE, which it leaves; otherwise changes nothing; ends FLUSHING exactly when the application aborts or raises |
| `SslProtocols.SSLProtocol.ReportEof` | uvloop/sslproto.pyx:860-876 | the callback itself; while flushing the application ends the connection exactly when one of its calls, or an exception, aborts |
| `SslProtocols.SSLProtocol.DiscardOne` | uvloop/sslproto.pyx:594-595 | one read whose bytes are counted as discarded, never before the shutdown flow |
| `SslProtocols.SSLProtocol.DiscardAll` | uvloop/sslproto.pyx:591-600 | terminates with all records read, at close_notify or at an error, as a fold over the answers of OpenSSL says; conservation of incoming plaintext is kept |
| `SslProtocols.SSLProtocol.DoReadIntoVoid` | uvloop/sslproto.pyx:591-608 | afterwards close_notify was reported or no record is left; the state changes exactly when the application, told of close_notify, aborts |
| `SslProtocols.SSLProtocol.DoFlush` | uvloop/sslproto.pyx:610-628 | raises if and only if, before the call, close_notify was readable and not reported, the application was going to abort when told, and the rest was going to be encrypted and sent without an error; goes on if and only if it does not abort, no error comes and something is left; in SHUTDOWN close_notify is written, or the transport lost; a passive application is told of the end and of nothing else; the incoming BIO is looked at whenever sending does not fail |
| `SslProtocols.SSLProtocol.FlushAll` | uvloop/sslproto.pyx:617-624 | how the guarded part ends: with an error, with the application gone, or with exactly the backlog that OpenSSL leaves |
| `SslProtocols.SSLProtocol.FlushBacklog` | uvloop/sslproto.pyx:617-624 | sends what OpenSSL takes or ends the connection; nothing stays stuck |
| `SslProtocols.SSLProtocol.EnterShutdown` | uvloop/sslproto.pyx:626-627 | SHUTDOWN is entered, with both buffers empty, if and only if the engine is still FLUSHING; otherwise `_set_state` raises |
| `SslProtocols.SSLProtocol.DoShutdown` | uvloop/sslproto.pyx:630-644 | what is left to read is read and `unwrap` asked: an error ends the connection, and so does success once nothing is left to send; close_notify is written, or the transport is lost; nothing stays stuck |
| `SslProtocols.SSLProtocol.SendCloseNotify` | uvloop/sslproto.pyx:633-644 | close_notify is written, or the transport is lost; the transport is closed when `unwrap` is over and nothing is left to hand over, and only then, but for an error |
| `SslProtocols.SSLProtocol.CompleteShutdown` | uvloop/sslproto.pyx:646-656 | a shutdown that succeeded closes the transport |
| `SslProtocols.SSLProtocol.UnwrapAndSend` | uvloop/sslproto.pyx:633-642 | `unwrap` finds the backlog empty, and its bytes are handed over |
| `SslProtocols.SSLProtocol.Unwrap` | uvloop/sslproto.pyx:636-637 | close_notify, in a record of whatever size, is written at most once and with nothing left to encrypt |
| `SslProtocols.SSLProtocol.FailShutdown` | uvloop/sslproto.pyx:646-656 | ends with a dead transport |
| `SslProtocols.SSLProtocol.StartShutdown` | uvloop/sslproto.pyx:569-584 | no connection stays WRAPPED; flushing goes on exactly when something is left to send, and `_do_flush` raises exactly as it does by itself; a running shutdown is left alone |
| `SslProtocols.SSLProtocol.ReadChunks` | uvloop/sslproto.pyx:824-842 | the chunks are, in order, exactly the plaintext taken off the records; reading stops at close_notify, an error or when nothing is left |
| `SslProtocols.SSLProtocol.DoReadCopied` | uvloop/sslproto.pyx:824-854 | at most one data_received per pass, with exactly the plaintext read, joined, which is all there was unless the end came; EOF is reported exactly after an empty read |
| `SslProtocols.SSLProtocol.FillBuffer` | uvloop/sslproto.pyx:745-798 | the application's buffer is filled from its start without gaps and not past its end, with exactly the plaintext taken; another pass is scheduled exactly when it is full |
| `SslProtocols.SSLProtocol.DoReadBuffered` | uvloop/sslproto.pyx:733-822 | at most one buffer_updated per pass, with a prefix of what is left to read after get_buffer: all that was there, but for what calls of the application in it made the engine discard; EOF is reported exactly after an empty read; no record is stranded; an exception of get_buffer, and an empty buffer, end the pass before anything is read |
| `SslProtocols.SSLProtocol.AskBuffer` | uvloop/sslproto.pyx:733-745 | get_buffer leaves unread what was unread, but for what its calls made the engine discard, and nothing of it is discarded in WRAPPED |
| `SslProtocols.SSLProtocol.ReadInto` | uvloop/sslproto.pyx:745-822 | the same for a buffer of a given size, which the data fits |
| `SslProtocols.SSLProtocol.Deliver` | uvloop/sslproto.pyx:847-850 | one data callback, with exactly the data read; it raises exactly when the application does |
| `SslProtocols.SSLProtocol.FinishRead` | uvloop/sslproto.pyx:851-854 | EOF is reported and the shutdown started exactly after an empty read |
| `SslProtocols.SSLProtocol.HandOver` | uvloop/sslproto.pyx:844-854 | data first and EOF after it, each at most once, EOF exactly after an empty read; an exception of the data callback ends the pass |
| `SslProtocols.SSLProtocol.DoRead` | uvloop/sslproto.pyx:716-731 | nothing is stranded or stuck afterwards; while the application does not read, nothing is sent either; otherwise as `ReadAndSend` |
| `SslProtocols.SSLProtocol.ReadAndSend` | uvloop/sslproto.pyx:720-731 | everything is sent at the end, in whatever state the pass left the engine: the application is told to pause or to resume exactly when the size left crosses a limit, and a flush is overlooked exactly when it began in the pass and this sends its rest; for an application that does nothing both are given by folds over the answers from before the pass |
| `SslProtocols.SSLProtocol.ReadOnce` | uvloop/sslproto.pyx:720-724 | one pass of the reader in use; for an application that does nothing, the reads, the callbacks and the flush are folds over the answers |
| `SslProtocols.OverlooksExactly` | uvloop/sslproto.pyx:716-731 | for an application that does nothing, a flush is overlooked exactly under a condition on the state before the read |
| `SslProtocols.SSLProtocol.MakeConnection` | uvloop/sslproto.pyx:316-322 | connects and begins the handshake, with its deadline armed and its bytes handed over unless the transport paused; if the TLS object cannot be made, or the handshake fails at once, the connection ends in UNWRAPPED and nobody is told |
| `SslProtocols.SSLProtocol.DoHandshake` | uvloop/sslproto.pyx:507-515 | an unfinished handshake has handed over exactly its flight, unless the transport paused; one that fails, or whose certificate cannot be fetched, leaves UNWRAPPED, a dead transport and an application that was told nothing; one that is completed makes the connection; it raises exactly when connection_made does |
| `SslProtocols.SSLProtocol.OnHandshakeComplete` | uvloop/sslproto.pyx:517-565 | a failed handshake ends in UNWRAPPED with a dead transport and is never told to the application; a completed one calls connection_made first, unless `start_tls` did, and schedules the first read; an application that does nothing is in WRAPPED then |
| `SslProtocols.SSLProtocol.StartWrapped` | uvloop/sslproto.pyx:556-565 | connection_made is called, unless it was before, and a first read scheduled, unless it raises |
| `SslProtocols.SSLProtocol.NoteMade` | uvloop/sslproto.pyx:556-560 | connection_made is called once, and not again under start_tls |
| `SslProtocols.SSLProtocol.BufferUpdated` | uvloop/sslproto.pyx:371-385 | whatever state arriving bytes meet, the invariant holds and nothing waits unserved; in a handshake exactly one more flight is written; while the application does not read, the records only wait; in FLUSHING no flush stays overlooked; a handshake that fails then, or is completed, ends as `DoHandshake` says; a shutdown goes one round |
| `SslProtocols.SSLProtocol.Proceed` | uvloop/sslproto.pyx:376-385 | the same for what is done with the bytes in each state; in SHUTDOWN one round of it, in FLUSHING one flush |
| `SslProtocols.SSLProtocol.Arrive` | uvloop/sslproto.pyx:371-385 | arriving records are added to what was received |
| `SslProtocols.SSLProtocol.RunScheduledRead` | uvloop/sslproto.pyx:940-944 | a scheduled read leaves nothing unserved and sends what waits, unless the application stopped reading; then nothing happens; a flush is overlooked exactly as in `ReadAndSend` |
| `SslProtocols.SSLProtocol.TransportEof` | uvloop/sslproto.pyx:399-428 | ends a handshake and its timer, or cuts the flush short and enters SHUTDOWN; nothing is sent, the application is told nothing and the transport closes; the shutdown timer is cancelled |
| `SslProtocols.SSLProtocol.EndOnEof` | uvloop/sslproto.pyx:413-422 | SHUTDOWN without flushing |
| `SslProtocols.SSLProtocol.HandshakeTimeout` | uvloop/sslproto.pyx:498-505 | kills the transport exactly during the handshake and is not armed any more |
| `SslProtocols.SSLProtocol.ShutdownTimeout` | uvloop/sslproto.pyx:586-589 | kills the transport exactly during the shutdown flow and is not armed any more |
| `SslProtocols.SSLProtocol.LoseConnection` | uvloop/sslproto.pyx:324-356 | connection_lost is scheduled exactly when the application saw connection_made and the handshake was over, what waited to be sent is dropped and both timers are cancelled |
| `SslProtocols.SSLProtocol.RunConnectionLost` | uvloop/sslproto.pyx:334-346 | the application sees connection_lost, and runs its code for it once |
| `SslProtocols.SSLProtocol.RunCall` | uvloop/sslproto.pyx:42-187 | what every call does, in every state: data is accepted exactly once before the shutdown flow and ignored after it began, `close` aborts a handshake and flushes a connection, with the outcome of the flush, `abort` ends in UNWRAPPED, limits are checked and in force; it raises exactly as stated; no call breaks the invariant or strands anything |
| `SslProtocols.SSLProtocol.AppCalls` | uvloop/sslproto.pyx:42-187 | a call from outside a callback is made when the application has its transport, and is recorded with whether data was accepted |
| `SslProtocols.SSLProtocol.Step` | uvloop/sslproto.pyx:195-1007 | every event keeps the invariant, leaves nothing unserved and does what it stands for; what the application writes from outside its callbacks is recorded exactly while the engine accepts data; only a read in WRAPPED can leave FLUSHING with nothing to send |
| `TlsApps.ReplayMeaning` | uvloop/sslproto.pxd:9-22 | the state a history leads to says exactly whether its calls, position by position, follow the PEP 3156 grammar |
| `TlsObjects.EveryLayout` | uvloop/sslproto.pyx:687-702 | every sequence of bytes on the wire that carries given plaintext is one that the model of OpenSSL can write |
| `Witnesses.FlushCanRaise` | uvloop/sslproto.pyx:610-628 | a run in which `_do_flush` raises, called by the application's own close |
| `Witnesses.HandshakeHeldBack` | uvloop/sslproto.pyx:975-990 | a run in which a flight of the handshake stays in the BIO although nothing is paused |
| `Witnesses.LastFlightWaits` | uvloop/sslproto.pyx:716-731 | a run in which the last flight of the handshake waits in WRAPPED, with nothing paused but the reading of the application and no read scheduled |
| `Witnesses.AssertionFails` | uvloop/sslproto.pyx:975-979 | a run of `start_tls` in which the assertion of `resume_writing` fails |
| `Witnesses.PausedWhileFlushing` | uvloop/sslproto.pyx:610-617 | a run in which the application is paused in FLUSHING, which the docstring of `_do_flush` excludes |
| `Witnesses.PausedAfterLoss` | uvloop/handles/stream.pyx:629-635 | a run of a stream in which pause_writing follows connection_lost |
| `Witnesses.EofMakesFlushRaise` | uvloop/sslproto.pyx:610-628 | the condition under which `_do_flush` raises holds in that run |
| `Witnesses.OneByteSent` | uvloop/handles/basetransport.pyx:61-84 | a byte that the kernel does not take is in libuv's only request, and a stream without room is paused by it |
| `Witnesses.Handshaking` | uvloop/loop.pyx:1584-1650 | `start_tls` on a connected stream: the engine is in its handshake and its first flight, of the given size, was handed over |
| `Witnesses.Wrap` | uvloop/sslproto.pyx:507-565 | the peer's flight ends the handshake, and nothing is sent |
| `Witnesses.FlushOverlooked` | uvloop/sslproto.pyx:716-731 | a run that ends in FLUSHING with nothing left to send, and close_notify not sent |
| `Witnesses.PausedByReading` | uvloop/sslproto.pyx:716-731 | a run in which the application is paused in FLUSHING without a call of its own |
| `Witnesses.PausedWithNothing` | uvloop/sslproto.pyx:880-922 | a run in which the application is paused with nothing to write, its limits being equal |
| `Witnesses.PausedAfterAbort` | uvloop/handles/basetransport.pyx:61-84 | a run of a stream that was aborted, in which pause_writing follows connection_lost |
| `Witnesses.ReadClose` | uvloop/sslproto.pyx:716-731 | a scheduled read that finds close_notify reports it, begins the flush, and sends |
| `Witnesses.Drain` | uvloop/handles/stream.pyx:852-883 | the last write completes: the assertion fails exactly for an inherited pause, and the BIO is left as it is |
| `Witnesses.WritePaused` | uvloop/sslproto.pyx:507-515 | a flight written while the stream is paused stays in the BIO |
| `Witnesses.DoNotRead` | uvloop/sslproto.pyx:716-719 | a scheduled read of an application that does not read sends nothing |
| `Witnesses.WriteOneByte` | uvloop/handles/basetransport.pyx:61-84 | a byte that the kernel does not take makes a stream without room call pause_writing |
| `Witnesses.EndWrite` | uvloop/handles/stream.pyx:629-635 | the last write of a closing stream schedules connection_lost without setting `_conn_lost` |
| `Witnesses.BeginFlush` | uvloop/sslproto.pyx:569-584 | a close with data that OpenSSL does not take leaves the engine FLUSHING |
| `Streams.AnyRun` | uvloop/handles/stream.pyx:210-709 | after any sequence of events with any application, re-entrant writes included: no byte is lost, repeated or reordered, both counters are right, a stream on which something waits has a step to make, one that failed or lost its connection has its connection_lost scheduled until it is closed, 0 <= low <= high, the protocol is paused or the write size at most `high`, callbacks are legal and agree with the flags, ; with an application that makes no calls in its callbacks, what is accepted is what its calls wrote in the first stretch of the run, in which the stream was open; the server is detached when the stream is closed |
| `Streams.ReplayMeaning` | uvloop/handles/basetransport.pyx:61-178 | the flags agree with a history exactly when pause and resume alternate, and connection_made and connection_lost come at most once and in order |
| `Streams.UVStream.constructor` | uvloop/handles/stream.pyx:212-225 | a new stream satisfies the invariant with the default limits: 64 KiB, and 16 bytes |
| `Streams.UVStream.WriteData` | uvloop/handles/stream.pyx:676-687 | refuses exactly on a closed handle or after EOF; otherwise all bytes are accepted unless the connection is lost, and the invariant holds again; pause_writing is called exactly when more than the high mark is left |
| `Streams.UVStream.WriteAll` | uvloop/handles/stream.pyx:689-699 | the same for the concatenation of a list |
| `Streams.UVStream.AcceptAll` | uvloop/handles/stream.pyx:697-699 | all bytes of the list are accepted and the invariant holds again |
| `Streams.UVStream.BufferAll` | uvloop/handles/stream.pyx:697-698 | buffers the concatenation of the list |
| `Streams.UVStream.MeetError` | uvloop/handles/basetransport.pyx:40-59 | an error of an open stream schedules its connection_lost, once |
| `Streams.UVStream.EndOfFile` | uvloop/handles/stream.pyx:701-709 | after EOF the stream will shut down or close, and shuts down at once when nothing is left |
| `Streams.UVStream.BufferWrite` | uvloop/handles/stream.pyx:414-425 | appends one nonempty chunk and its length |
| `Streams.UVStream.InitiateWrite` | uvloop/handles/stream.pyx:427-454 | either the fast path emptied the buffer or the stream is queued; the size left is a fold over the answers of the kernel, and pause_writing is called exactly when it is more than the high mark |
| `Streams.UVStream.ExecWrite` | uvloop/handles/stream.pyx:456-582 | the buffer is empty afterwards unless a callback wrote again; what is not sent is in flight; nothing stays unresumed or unclosed; it tells exactly whether the kernel took everything, and a paused protocol is resumed when at most the low mark is left |
| `Streams.UVStream.ExecSend` | uvloop/handles/stream.pyx:456-570 | the part before the protocol is called: afterwards the buffer is empty, and what was not sent is in flight or an error ends the stream |
| `Streams.UVStream.TryOne` | uvloop/handles/stream.pyx:478-515 | one chunk offered by a direct write: the sent prefix leaves the buffer and its counter |
| `Streams.UVStream.TryMany` | uvloop/handles/stream.pyx:517-547 | several chunks offered at once: the sent prefix is skipped, and the error of `advance_uv_buf` cannot happen |
| `Streams.UVStream.Offer` | uvloop/handles/stream.pyx:474-550 | the kernel is offered the buffer only when libuv has nothing before it |
| `Streams.UVStream.HandOff` | uvloop/handles/stream.pyx:552-582 | libuv gets exactly what was not sent, after what it had |
| `Streams.UVStream.TryWrite` | uvloop/handles/stream.pyx:347-412 | the kernel took the reported prefix; the check that libuv has nothing queued never fails; an error force-closes |
| `Streams.UVStream.OnWrite` | uvloop/handles/stream.pyx:629-635 | afterwards a paused protocol, a close or an EOF still has something to wait for; a protocol to be resumed is told, and a closing stream that is drained schedules one connection_lost |
| `Streams.UVStream.CheckDrained` | uvloop/handles/stream.pyx:631-635 | a drained stream that is closing schedules connection_lost, and only such a one; one at EOF shuts down |
| `Streams.UVStream.Shutdown` | uvloop/handles/stream.pyx:252-268 | starts the shutdown once; a refusal, and only that, force-closes |
| `Streams.UVStream.MaybePauseProtocol` | uvloop/handles/basetransport.pyx:61-84 | afterwards the protocol is paused or the size at most `high`; pause_writing only when not paused and above it |
| `Streams.UVStream.MaybeResumeProtocol` | uvloop/handles/basetransport.pyx:86-107 | resume_writing exactly when paused with at most `low` to write; afterwards a paused protocol has more than `low` to wait for; the protocol is told then |
| `Streams.UVStream.NoteResumed` | uvloop/handles/basetransport.pyx:86-107 | resuming keeps the invariant and is recorded |
| `Streams.UVStream.StillPaused` | uvloop/handles/basetransport.pyx:86-90 | a protocol that stays paused has more than `low` to wait for |
| `Streams.UVStream.SetLimits` | uvloop/handles/basetransport.pyx:270-276 | the limits are those of `add_flowcontrol_defaults` or the call is refused with nothing changed, and the bound holds again; within the bound nothing else changes |
| `Streams.UVStream.ForceClose` | uvloop/handles/basetransport.pyx:239-247 | schedules connection_lost once, and nothing if the connection is lost or closed |
| `Streams.UVStream.Abort` | uvloop/handles/basetransport.pyx:249-250 | `abort` keeps the invariant, and the stream is lost |
| `Streams.UVStream.CloseTransport` | uvloop/handles/basetransport.pyx:252-262 | marks the stream closing, and counts it lost at once exactly when nothing is left to write; connection_lost is scheduled exactly then |
| `Streams.UVStream.CallConnectionMade` | uvloop/handles/basetransport.pyx:120-154 | connection_made reaches the protocol once, and only on an open handle |
| `Streams.UVStream.BeginConnection` | uvloop/handles/basetransport.pyx:120-142 | connection_made is called exactly on an open handle |
| `Streams.UVStream.CallConnectionLost` | uvloop/handles/basetransport.pyx:156-178 | however often scheduled, connection_lost reaches the protocol once and only after connection_made; exactly pause_writing follows it, and exactly when a call of the protocol in that callback leaves more than the high mark; the server is detached once |
| `Streams.UVStream.BeginLoss` | uvloop/handles/basetransport.pyx:156-169 | connection_lost is called exactly on an open handle after connection_made |
| `Streams.UVStream.FinishLoss` | uvloop/handles/basetransport.pyx:170-178 | the handle is closed and the server detached |
| `Streams.UVStream.RequestDone` | uvloop/handles/stream.pyx:852-883 | the write callback leaves nothing unresumed; of an application that makes no calls in its callbacks one completion goes |
| `Streams.UVStream.RequestFailed` | uvloop/handles/stream.pyx:852-883 | a failed request ends in connection_lost, unless the stream is closed |
| `Streams.UVStream.SwapSets` | uvloop/loop.pyx:643-645 | swapping the loop's sets loses no queued stream |
| `Streams.UVStream.QueueWrite` | uvloop/loop.pyx:630-633 | the stream joins the set of queued ones |
| `Streams.UVStream.Execute` | uvloop/loop.pyx:647-650 | reaching the stream in the executed set leaves it with nothing unserved |
| `Streams.UVStream.RunCall` | uvloop/handles/stream.pyx:676-709 | no call of the application, also from inside a callback, breaks the invariant; on an open stream it makes pause_writing be called exactly when the size it leaves, by the answers of the kernel, is more than the high mark, and nothing else; it reports what the source does, and accepts what it writes, exactly, while the stream is open |
| `Streams.PausesWhenDead` | uvloop/handles/basetransport.pyx:61-84 | once `_conn_lost` is set, calls of the protocol lead to pause_writing exactly when one of them sets a high mark below the size |
| `Streams.UVStream.Step` | uvloop/handles/stream.pyx:210-709 | every event keeps what holds between steps; a closed stream calls nothing any more; what an application that makes no calls in its callbacks writes is accepted exactly by an open stream, and a stream never opens again; the server is detached exactly when the stream is closed |
| `WriteContexts.WriteContext.AdvanceUvBuf` | uvloop/handles/stream.pyx:68-96 | what remains is the original bytes without the first `sent`; the error comes exactly when no byte would be left, with nothing changed |
| `WriteContexts.WriteContext.PointAt` | uvloop/handles/stream.pyx:76-90 | the pair reached becomes the first, advanced in place |
| `WriteContexts.WriteContext.constructor` | uvloop/handles/stream.pyx:99-194 | a new context still has to send the concatenation of the buffers |
| `WriteContexts.SkipDropsPrefix` | uvloop/handles/stream.pyx:68-96 | skipping bytes over a pair list drops exactly that prefix, and fails exactly when nothing is left |
| `WriteContexts.WholeBuffers` | uvloop/handles/stream.pyx:99-194 | pairs covering whole buffers send their concatenation |
| `FlowControl.AddFlowcontrolDefaults` | uvloop/includes/flowcontrol.pxd:4-23 | accepted limits satisfy 0 <= low <= high, given ones are kept, a low one that is not given is a quarter of the high one, rounded down, and the refused arguments are characterised |
| `FlowControl.LowAlone` | uvloop/includes/flowcontrol.pxd:4-23 | a low limit alone is accepted exactly on two ranges of C ints; the high limit is four times it on the first, and that product less 2**32 on the second |
| `FlowControl.Wrap` | uvloop/includes/flowcontrol.pxd:4-15 | the C int congruent to its argument |
| `LoopWakes.NoLostWakeUp` | uvloop/loop.pyx:436-491 | in every state of every interleaving a nonempty ready queue is noticed: the idle handle runs, a wake-up is pending or being handled, or a thread is between its append and its send; a batch never underflows; a stop request is never lost |
| `LoopWakes.StepKeepsInv` | uvloop/loop.pyx:664-671 | every step of the loop or of another thread keeps the invariant |
| `LoopWakes.WakeUpDelivered` | uvloop/loop.pyx:1276-1286 | once the threads have sent, libuv's own steps reach a batch over the whole queue |
| `ReadyQueues.AnyRun` | uvloop/loop.pyx:441-491 | in every run, also with batches cut short, callbacks run in the order of appending, at most once, never after being cancelled, and none is skipped; the loop is to stop exactly once a handle that ran was the stop handle or raised; a nonempty queue keeps the idle handle running |
| `ReadyQueues.ReadyQueue.OnIdle` | uvloop/loop.pyx:441-482 | a batch covers exactly the handles there at its start; it is cut short exactly by one that raises; `uv_stop` comes only after a complete one, when every earlier handle has run or was cancelled, and exactly when the flag was set before or a handle that ran was the stop handle; what the callbacks appended is in the queue, in order |
| `ReadyQueues.ReadyQueue.RunBatch` | uvloop/loop.pyx:441-472 | the handles of the batch are popped in order until one raises; the flag is set exactly by those that raise and by the stop handle |
| `ReadyQueues.ReadyQueue.RunNext` | uvloop/loop.pyx:464-472 | one handle is popped and, unless cancelled, run, with exactly its effect; a BaseException or the stop handle, and nothing else, stops the loop |
| `ReadyQueues.ReadyQueue.RunCallback` | uvloop/cbhandles.pyx:36-107 | a callback appends and cancels exactly what its calls say, in order; the flag is set exactly by a raising one and by the stop handle |
| `ReadyQueues.ReadyQueue.RunActs` | uvloop/loop.pyx:658-671 | calls append their handles in order, unless the loop is closed, and cancel theirs |
| `ReadyQueues.ReadyQueue.PopLeft` | uvloop/loop.pyx:464-466 | the oldest handle is popped and runs exactly when it was not cancelled |
| `ReadyQueues.ReadyQueue.CallSoon` | uvloop/loop.pyx:658-671 | appends at the end and starts the idle handle, or refuses on a closed loop |
| `ReadyQueues.ReadyQueue.CancelHandle` | uvloop/cbhandles.pyx:109-112 | marks the handle |
| `ReadyQueues.ReadyQueue.Stop` | uvloop/loop.pyx:484-491 | sets the flag and starts the idle handle the first time |
| `ReadyQueues.ReadyQueue.Close` | uvloop/loop.pyx:562-566 | cancels whatever is left, once |
| `QueuedWrites.WriteQueue.ExecQueuedWrites` | uvloop/loop.pyx:635-656 | executes exactly the streams queued at entry, each once; exactly those written to meanwhile stay queued; while the loop runs the check handle runs exactly as long as there are any |
| `QueuedWrites.AnyRun` | uvloop/loop.pyx:630-656 | in every run the sets are swapped only when nothing is left to execute, only streams of the set being executed are executed, and all of them are before the next swap; each stream is in the sets as its own entries say; while the loop runs, a nonempty queue keeps the check handle running |
| `QueuedWrites.WriteQueue.ExecAll` | uvloop/loop.pyx:647-650 | the set walked over is changed by no callback |
| `QueuedWrites.WriteQueue.ExecWrite` | uvloop/loop.pyx:647-650 | writes made by a callback go to the other set |
| `QueuedWrites.WriteQueue.QueueWrite` | uvloop/loop.pyx:630-633 | queues the stream and starts the check handle |
| `QueuedWrites.WriteQueue.SetRunning` | uvloop/loop.pyx:526-540 | the check handle starts and stops with the loop |
| `Registries.AnyRun` | uvloop/loop.pyx:759-869 | after any calls the polls show exactly two independent tables of readers and writers with the cancellations they imply, and maps, libuv masks and I/O references agree |
| `Registries.Registry.AddReader` | uvloop/loop.pyx:759-780 | refused in the source's order of checks, or the entry is replaced, the old handle cancelled, and references moved |
| `Registries.Registry.AddWriter` | uvloop/loop.pyx:822-843 | the same for writers |
| `Registries.Registry.RemoveReader` | uvloop/loop.pyx:782-807 | the entry is dropped and its handle cancelled; the answer tells whether there was one; an idle poll is closed |
| `Registries.Registry.RemoveWriter` | uvloop/loop.pyx:845-869 | the same for writers |
| `Registries.Registry.StartPollingReader` | uvloop/loop.pyx:767-773 | the reader of one descriptor changes, no writer does, and its old handle is cancelled |
| `Registries.Registry.StartPollingWriter` | uvloop/loop.pyx:830-836 | the same for writers |
| `Registries.Registry.StopPollingReader` | uvloop/loop.pyx:796-807 | the reader of one descriptor goes, no writer does, and no idle poll is kept; a poll that is dropped is closed |
| `Registries.Registry.StopPollingWriter` | uvloop/loop.pyx:859-869 | the same for writers |
| `Registries.Registry.PollFor` | uvloop/loop.pyx:767-771 | the poll of a descriptor is made once |
| `Registries.Registry.ClosePolls` | uvloop/loop.pyx:567-571 | every handle of both tables is cancelled and every poll closed |
| `Registries.Registry.Close` | uvloop/loop.pyx:567-595 | both tables are emptied, their handles cancelled, and every socket's references returned |
| `Registries.FileObjMap.Put` | uvloop/loop.pyx:775-780 | the entry is replaced and each reference taken or returned matches an entry gained or lost |
| `Registries.FileObjMap.Pop` | uvloop/loop.pyx:789-791 | the same for removing an entry |
| `Registries.FileObjMap.ReleaseAll` | uvloop/loop.pyx:587-595 | all entries go and exactly their references are returned |
| `Registries.UVPoll.StartReading` | uvloop/handles/poll.pyx:92-108 | the new handle is in place, an old one cancelled, and the mask is exactly the directions that have handles |
| `Registries.UVPoll.StartWriting` | uvloop/handles/poll.pyx:110-126 | the same for writing |
| `Registries.UVPoll.StopReading` | uvloop/handles/poll.pyx:128-140 | the handle is cancelled and its bit cleared, the other direction untouched; false when there was none |
| `Registries.UVPoll.StopWriting` | uvloop/handles/poll.pyx:142-154 | the same for writing |
| `Registries.UVPoll.Stop` | uvloop/handles/poll.pyx:156-165 | both handles are cancelled and nothing is polled |
| `Registries.UVPoll.Close` | uvloop/handles/poll.pyx:167-171 | the same, and the handle is closed |
| `Registries.SocketRefs.Inc` | uvloop/loop.pyx:83-85 | only a socket is counted |
| `Registries.SocketRefs.Dec` | uvloop/loop.pyx:88-90 | only a socket is counted |
| `Registries.OccurrencesInsert` | uvloop/loop.pyx:779-780 | adding an entry raises the count of its file object by one |
| `Registries.OccurrencesRemove` | uvloop/loop.pyx:775-777 | removing an entry lowers the count of its file object by one |
| `Processes.AnyRun` | uvloop/handles/process.pyx:365-634 | for every interleaving: connection_made comes first, every report is told once and in order, connection_lost is scheduled exactly once, when process and pipes are done and stdio became ready, and is last under the exact condition of `ConnectionLostComesLast`; when stdio is ready, what was reported by then, the callbacks scheduled and the exit code are functions of the events |
| `Processes.ConnectionLostComesLast` | uvloop/handles/process.pyx:534-580 | connection_lost is last if and only if both ends are done and not: two or more pipes were lost, one after the exit, before the protocol was connected |
| `Processes.ConnectionLostCanComeEarly` | uvloop/handles/process.pyx:551-561 | a concrete run in which callbacks follow connection_lost |
| `Processes.ToldKeeps` | uvloop/handles/process.pyx:534-580 | the final order is connection_made, then all reports in order, with connection_lost exactly once if both ends are done |
| `Processes.ReplayedKeeps` | uvloop/handles/process.pyx:548-561 | replaying loses, repeats and reorders nothing |
| `Processes.ReplayMeetsOrder` | uvloop/handles/process.pyx:548-561 | replaying what was held back gives the final order |
| `Processes.UVProcessTransport.constructor` | uvloop/handles/process.pyx:616-632 | without pipes stdio is ready at once and connection_made scheduled |
| `Processes.UVProcessTransport.OnStdioInited` | uvloop/handles/process.pyx:582-595 | connection_made is scheduled only when all pipes connected |
| `Processes.UVProcessTransport.CallConnectionMade` | uvloop/handles/process.pyx:534-561 | stdio becomes ready unless connection_made raises with no usable waiter |
| `Processes.UVProcessTransport.Replay` | uvloop/handles/process.pyx:548-561 | held-back calls are scheduled in order; connection_lost follows the first pipe loss when both ends are already done |
| `Processes.UVProcessTransport.TryFinish` | uvloop/handles/process.pyx:563-580 | connection_lost is issued exactly once, when the process exited and all pipes are disconnected |
| `Processes.UVProcessTransport.OnExit` | uvloop/handles/process.pyx:339-395 | records the exit code, negated for a signal, and the report |
| `Processes.UVProcessTransport.OnPipeLost` | uvloop/handles/process.pyx:724-727 | the pipe is disconnected and its loss reported |
| `Processes.UVProcessTransport.OnDataReceived` | uvloop/handles/process.pyx:739-740 | the data is reported |
| `Processes.UVProcessTransport.PipeConnectionLostCall` | uvloop/handles/process.pyx:401-407 | the loss is scheduled or held back; only when scheduled may it finish the transport |
| `Processes.UVProcessTransport.PipeDataReceivedCall` | uvloop/handles/process.pyx:409-414 | scheduled or held back |
| `Processes.UVProcessTransport.RunNext` | uvloop/handles/process.pyx:534-561 | the next callback runs; the first one makes stdio ready unless connection_made raises with no usable waiter, and replays what was held back; others schedule nothing |
| `Processes.UVProcessTransport.Step` | uvloop/handles/process.pyx:365-634 | every event keeps the invariant and adds at most its own report; only the loop makes stdio ready; the exit code is that of the first exit |
| `Lru.AnyRun` | uvloop/lru.pyx:31-67 | for every sequence of sets and gets the keys are exactly the `maxsize` most recently set or hit distinct ones, oldest first, and every get answers the value last set or nothing |
| `Lru.LruCache.Get` | uvloop/lru.pyx:41-46 | a hit answers the value last set and becomes most recent; a miss changes nothing |
| `Lru.LruCache.SetItem` | uvloop/lru.pyx:60-67 | the key is present with its value and most recent; no other value changes |
| `Lru.LruCache.Store` | uvloop/lru.pyx:60-67 | what is kept is the most recent end of the old keys with the new one |
| `Lru.LruCache.Cleanup` | uvloop/lru.pyx:66-67 | drops the oldest keys and no more than needed |
| `Lru.LruCache.CleanupOne` | uvloop/lru.pyx:51-53 | drops the oldest key |
| `Lru.LruCache.MoveToEnd` | uvloop/lru.pyx:41-46 | the key moves to the end, the others keep their order |
| `Lru.LruCache.DeleteItem` | uvloop/lru.pyx:69-70 | removes the key alone, or reports that it was missing |
| `Lru.LruCache.constructor` | uvloop/lru.pyx:31-39 | an empty cache satisfies the invariant |
| `Lru.RecentDistinct` | uvloop/lru.pyx:41-67 | the recency list repeats no key |
| `Lru.SuffixWithout` | uvloop/lru.pyx:41-67 | moving or dropping a key in both keeps one list the end of the other |
| `Lru.LruCache.GetItem` | uvloop/lru.pyx:55-58 | a hit answers and moves the key to the end; a missing key is reported and nothing changes |
| `Dns.AnyLookups` | uvloop/dns.pyx:79-179 | for any sequence of lookups of mixed families, every result for a hashable address whose numbers are of kinds their positions take is that of the direct conversion |
| `Dns.ConvertPyAddrToSockAddr` | uvloop/dns.pyx:82-179 | one lookup gives the direct result if and only if the address is unhashable and ill-typed anyway, or hashable and not found, or found with numbers that fit; every cached holder stays equal to a direct conversion, also under the encoded key of a text path |
| `Dns.NormalConverts` | uvloop/dns.pyx:1-22 | addresses that compare equal convert alike if their numbers are of kinds their positions take; one with another number never converts |
| `Dns.TypeErrors` | uvloop/dns.pyx:98-168 | the conversion raises TypeError exactly for the addresses with a wrong type in the first place found wrong |
| `Dns.ValueErrors` | uvloop/dns.pyx:99-168 | ValueError is raised exactly for another family, a tuple of another length, and a path of more than 107 bytes |
| `Dns.InetHolds` | uvloop/dns.pyx:99-119 | an IPv4 address is what libuv makes of the bytes of the host and exactly the given port |
| `Dns.Inet6Holds` | uvloop/dns.pyx:121-155 | an IPv6 address is what libuv makes of the bytes of the host and exactly the given port, with the third item as its flow info and the fourth as its scope id, each a C int and 0 when it is missing; the failure reported is the first one |
| `Dns.UnixHolds` | uvloop/dns.pyx:157-171 | a Unix address is exactly the given or encoded bytes, and is refused exactly when they are more than 107 |
| `Dns.Truncated` | uvloop/dns.pyx:1-22 | a number is rounded toward zero |
| `Dns.EqualAddressesDiffer` | uvloop/dns.pyx:94-97 | a port given as a complex number is refused, and accepted after the equal int was |
| `Dns.UnhashableHostIsRefused` | uvloop/dns.pyx:94-97 | a pair with an unhashable host converts directly but is refused by the cache |
| `Servers.AnyRun` | uvloop/server.pyx:4-94 | in every run the transports and the futures of the waiters are functions of the events: an open server attaches every connection, the first connection_lost of a transport detaches it, a waiter is made exactly on an open server, and all that are not cancelled finish when the server is closed and the last connection gone; the waiters are woken exactly once, then, and none sooner; the count is that of the attached connections; the assertion of `_attach` fails exactly when a protocol factory closed the server; a closed server says it is serving exactly when started after it was closed |
| `Servers.Server.Wakeup` | uvloop/server.pyx:23-30 | finishes exactly the pending waiters; the list is never missing |
| `Servers.Server.Attach` | uvloop/server.pyx:32-34 | counts the connection exactly on an open server |
| `Servers.Server.Detach` | uvloop/server.pyx:36-40 | the assertion holds, and the waiters are woken exactly when the last connection of a closed server goes |
| `Servers.Server.CloseServer` | uvloop/server.pyx:77-94 | closes once, and wakes the waiters at once when there is no connection |
| `Servers.Server.Wait` | uvloop/server.pyx:67-75 | returns at once exactly on a closed server, and then with connections left exactly when the waiters were not woken |
| `Servers.WaitAfterClose` | uvloop/server.pyx:67-75 | a run in which `wait_closed` returns although a connection is open |
| `Servers.Server.Start` | uvloop/server.pyx:15-21 | the flag is set even when starting a closed server fails |
| `Servers.Server.OnListen` | uvloop/handles/streamserver.pyx:66-88 | a connection is attached, or rejected exactly when its protocol factory closed the server |
| `Servers.Server.OnConnectionLost` | uvloop/handles/basetransport.pyx:156-178 | each transport is detached exactly once |
| `Servers.Server.Step` | uvloop/server.pyx:4-94 | every event keeps the invariant, with its exact effect on the transports, the futures and the flags |
| `Servers.AttachedUpdate` | uvloop/server.pyx:32-40 | the number of attached transports changes by the one transport that changes |

## Left out

- libuv, the kernel and OpenSSL themselves: they are the contracts described above.
- Reference counts of Python objects, memory allocation, contextvars, debug counters, logging and tracebacks.
- The reading side of `UVStream`, `sendfile`, pipes, TCP and UDP wrappers, and socket options.
- `getaddrinfo`, connection and server creation, fork and exec, signals, executors, file-system events and timers.
- `KeyboardInterrupt` and `SystemExit` raised by callbacks; other exceptions of callbacks are modelled where they change the flow.
- Buffers that change while queued, or whose length is not their number of bytes.
- Streams.UVStream.ExecWrite: the exceptions that `_fatal_error` raises for errors other than `OSError` are not modelled; the stream is force-closed.
- Streams.UVStream.WriteAll: a list element that is not a bytes-like object is not modelled.
- QueuedWrites.WriteQueue.ExecQueuedWrites: assumes that `_exec_write` does not raise, as the source's own cleanup then drops the streams not reached yet.
- SslProtocols.SSLProtocol.FillBuffer: an application buffer of size zero is not filled; what is unread then may wait until the next arrival or read.
- SslProtocols.SSLProtocol.ReadAndSend: for an application that acts in its callbacks, the outcome is given from the moment before the sending, not from before the pass.
- SslProtocols.SSLProtocol.ControlSslReading: the failing call on a transport that is gone, when limits are set after the connection was lost, is modelled as no call.
- SslProtocols.SSLProtocol.LoseConnection: the backlog is cleared but not its counter (`uvloop/sslproto.pyx:331`), so counter and conservation are claimed only before.
- SslProtocols.SSLProtocol.TransportEof: after a low-level EOF close_notify may be written with a backlog left; the ordering is claimed for runs without one.
- SslProtocols.SSLProtocol.OnHandshakeComplete: the waiter future, the extra info and the peer certificate are not modelled, only that fetching the latter may fail.
- SslProtocols.SSLProtocol.Step: `set_protocol` on a running TLS transport is not modelled, nor raw calls on the stream while the engine is its protocol; the application is one script.
- SslProtocols.SSLProtocol.Connect: `start_tls` on a stream whose connection_lost is scheduled already is not modelled, nor are its waiter, its cancellation, and the pause of reading before it; connection_made and resume_reading, scheduled together, are one step.
- SslProtocols.SSLProtocol.RunTransportLost: under `start_tls` connection_lost of the stream comes after the engine's connection_made, which was scheduled before it.
- Registries.Registry.AddReader: errors of `uv_poll_start` and the fatal-error path of a poll are not modelled.
- Registries.SocketRefs.Inc: counts only the references the registry takes, not those of transports and `sock_connect`.
- Registries.Registry.Close: calls made while libuv drains its closing handles are not modelled.
- ReadyQueues.ReadyQueue.CallSoon: appending and starting the idle handle are one step here; their interleaving with other threads is in `LoopWakes.dfy`.
- Processes.UVProcessTransport.OnExit: the futures of `_wait` and the closing of the process handle are not modelled.
- Lru.AnyRun: runs with deletions are covered by the invariant of `LruCache` only, since a key dropped earlier does not come back when another one is deleted.
- Dns.ConvertPyAddrToSockAddr: the encoders, the parsing of textual ports and libuv's own parsing are parameters; objects other than strings, bytes and numbers that compare equal are taken to convert alike; `__port_to_int` for a given protocol is not modelled.
- Servers.Server.CloseServer: an exception of a listening handle's close, and `serve_forever`, are not modelled.
- The order in which Python iterates over sets and dictionaries of handles is arbitrary here.
