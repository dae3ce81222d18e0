/** The write path, flow control and closing of a stream transport
    (`UVStream` on top of `UVBaseTransport`).

    The kernel, libuv and the application are environments.  The kernel takes
    any prefix of what it is offered.  libuv keeps a FIFO of write requests and
    runs one completion callback for each.  The application is a script: every
    protocol callback pops one list of calls and makes them on the same
    transport, so a write from inside `resume_writing` is just another entry. */
module Streams {
  import opened Wrappers
  import opened Buffers
  import opened Histories
  import opened FlowControl
  import opened WriteContexts
  import QueuedWrites

  /** Calls the transport makes on its protocol. */
  datatype ProtocolCall = ConnectionMade | PauseWriting | ResumeWriting | ConnectionLost

  /** Calls the application makes on the transport. */
  datatype Call<T> =
    | Write(data: seq<T>)
    | WriteLines(bufs: seq<seq<T>>)
    | WriteEof
    | Close
    | Abort
    | SetWriteBufferLimits(high: Option<int>, low: Option<int>)

  /** What a call writes. */
  function DataOf<T>(call: Call<T>): seq<T> {
    match call case Write(data) => data case WriteLines(bufs) => Concat(bufs) case _ => []
  }

  /** An application that makes no calls in its callbacks. */
  predicate Passive<T>(script: seq<seq<Call<T>>>) {
    forall i :: 0 <= i < |script| ==> script[i] == []
  }

  /** What a call reports to the application. */
  datatype Outcome = Done | HandleClosed | AfterEof | BadArguments

  /** What the kernel will do when it is asked next; once nothing is left, it refuses. */
  datatype KernelAnswer = Takes(bytes: nat) | Refuses | Fails

  /** What the kernel answers to a write. */
  datatype Sent = Sent(bytes: nat) | Again | WriteError

  /** The protocol's view of its callbacks so far; `ok` says that they came in a legal order. */
  datatype Seen = Seen(made: bool, paused: bool, lost: bool, ok: bool)

  function See(s: Seen, c: ProtocolCall): Seen {
    match c
    case ConnectionMade => s.(made := true, ok := s.ok && !s.made)
    case PauseWriting => s.(paused := true, ok := s.ok && !s.paused)
    case ResumeWriting => s.(paused := false, ok := s.ok && s.paused)
    case ConnectionLost => s.(lost := true, ok := s.ok && s.made && !s.lost)
  }

  function Replay(h: History<ProtocolCall>): Seen {
    match h
    case Start => Seen(false, false, false, true)
    case Then(before, call) => See(Replay(before), call)
  }

  function Resumes(h: History<ProtocolCall>): nat {
    match h
    case Start => 0
    case Then(before, call) => Resumes(before) + if call == ResumeWriting then 1 else 0
  }

  /** The same legality, call by call: connection_made and connection_lost come at
      most once, the second only after the first, and every pause_writing and
      resume_writing directly undoes the other one before it. */
  ghost predicate Legal(calls: seq<ProtocolCall>) {
    EachMayFollow(calls, LegalAt)
  }

  ghost predicate LegalAt(before: seq<ProtocolCall>, c: ProtocolCall) {
    match c
    case ConnectionMade => ConnectionMade !in before
    case ConnectionLost => ConnectionMade in before && ConnectionLost !in before
    case PauseWriting => !LastIsPause(before)
    case ResumeWriting => LastIsPause(before)
  }

  /** Of the pause_writing and resume_writing calls, the last is a pause_writing. */
  ghost predicate LastIsPause(calls: seq<ProtocolCall>) {
    LastIs(calls, PauseWriting, ResumeWriting)
  }

  /** Replaying a history accepts exactly the legal ones. */
  lemma {:induction false} ReplayMeaning(h: History<ProtocolCall>)
    ensures Replay(h).ok <==> Legal(h.Calls())
    ensures Replay(h).made <==> ConnectionMade in h.Calls()
    ensures Replay(h).lost <==> ConnectionLost in h.Calls()
    ensures Replay(h).ok ==> (Replay(h).paused <==> LastIsPause(h.Calls()))
  {
    match h
    case Start =>
    case Then(before, c) =>
      ReplayMeaning(before);
      LastIsSnoc(before.Calls(), c, PauseWriting, ResumeWriting);
      MayFollowSnoc(before.Calls(), c, LegalAt);
  }

  // ---- What decides whether application code makes the stream call pause_writing ----

  function First(answers: seq<KernelAnswer>): KernelAnswer {
    if answers == [] then Refuses else answers[0]
  }

  function Others(answers: seq<KernelAnswer>): seq<KernelAnswer> {
    if answers == [] then [] else answers[1..]
  }

  /** What is left of `size` bytes after an answer. */
  function LeftAfter(size: nat, a: KernelAnswer): nat {
    if a.Takes? then if a.bytes <= size then size - a.bytes else 0 else size
  }

  /** How sending goes: what libuv keeps, and whether an error was met. */
  datatype Sendoff = Sendoff(left: nat, failed: bool, answers: seq<KernelAnswer>)

  /** Sending when libuv has nothing: the kernel is asked, and asked again for what libuv gets. */
  function SendOff(size: nat, answers: seq<KernelAnswer>): Sendoff {
    var a, others := First(answers), Others(answers);
    if a.Fails? then Sendoff(0, true, others)
    else
      var left := LeftAfter(size, a);
      if left == 0 then Sendoff(0, false, others)
      else if First(others).Fails? then Sendoff(0, true, Others(others))
      else Sendoff(LeftAfter(left, First(others)), false, Others(others))
  }

  /** The kernel takes everything when it is asked first. */
  predicate SentAtOnce(size: nat, answers: seq<KernelAnswer>) {
    !First(answers).Fails? && LeftAfter(size, First(answers)) == 0
  }

  /** What flow control depends on. */
  datatype Flow = Flow(paused: bool, high: int, waiting: nat, buffered: nat, answers: seq<KernelAnswer>, eof: bool,
                       shutting: bool, closing: bool, dead: bool)

  /** pause_writing is called. */
  predicate TooMuch(f: Flow) {
    !f.paused && f.waiting + f.buffered > f.high
  }

  /** `_initiate_write`. */
  function Initiated(f: Flow): Flow {
    if f.paused || f.waiting > 0 || f.buffered == 0 then f
    else
      var o := SendOff(f.buffered, f.answers);
      f.(waiting := o.left, buffered := 0, answers := o.answers, closing := f.closing || o.failed,
         dead := f.dead || o.failed)
  }

  /** A write of so many bytes to an open stream. */
  function Writes(f: Flow, size: nat): Flow {
    if f.eof || f.dead || size == 0 then f else Initiated(f.(buffered := f.buffered + size))
  }

  /** A call on an open stream, up to pause_writing. */
  function After<T>(f: Flow, call: Call<T>): Flow {
    match call
    case Write(data) => Writes(f, |data|)
    case WriteLines(bufs) => if f.eof || f.dead then f else Initiated(f.(buffered := f.buffered + |Concat(bufs)|))
    case WriteEof =>
      if f.eof then f
      else if f.waiting + f.buffered > 0 || f.shutting then f.(eof := true)
      else
        var fails := First(f.answers).Fails?;
        f.(eof := true, shutting := true, answers := Others(f.answers), closing := f.closing || fails,
           dead := f.dead || fails)
    case Close => if f.closing then f else f.(closing := true, dead := f.dead || f.waiting + f.buffered == 0)
    case Abort => f.(closing := true, dead := true)
    case SetWriteBufferLimits(high, low) =>
      var limits := AddFlowcontrolDefaults(high, low, FLOW_CONTROL_HIGH_WATER);
      if limits.BadLimits? then f else f.(high := limits.high)
  }

  /** Some call of a piece of application code makes an open stream call pause_writing. */
  predicate PausesIn<T>(f: Flow, todo: seq<Call<T>>)
    decreases |todo|
  {
    todo != [] && (TooMuch(After(f, todo[0])) || PausesIn(After(f, todo[0]), todo[1..]))
  }

  /** Accepted limits with a high mark below the size. */
  predicate Undercuts<T>(call: Call<T>, size: nat) {
    && call.SetWriteBufferLimits?
    && var limits := AddFlowcontrolDefaults(call.high, call.low, FLOW_CONTROL_HIGH_WATER);
       limits.Limits? && size > limits.high
  }

  /** On a lost connection nothing but such limits leads to pause_writing, and they do unless the
      protocol is paused already. */
  lemma {:induction false} PausesWhenDead<T>(f: Flow, todo: seq<Call<T>>)
    requires f.dead && !TooMuch(f)
    ensures PausesIn(f, todo) <==>
            !f.paused && exists i :: 0 <= i < |todo| && Undercuts(todo[i], f.waiting + f.buffered)
    decreases |todo|
  {
    if todo == [] {
    } else {
      var next := After(f, todo[0]);
      assert TooMuch(next) <==> !f.paused && Undercuts(todo[0], f.waiting + f.buffered);
      if !TooMuch(next) {
        PausesWhenDead(next, todo[1..]);
        assert forall i :: 0 < i < |todo| ==> todo[i] == todo[1..][i - 1];
      }
    }
  }

  /** How offering the buffer to the kernel ended. */
  datatype Attempt<T> = AllSent | Failed | Left(bytes: seq<T>)

  /** What `_exec_write` goes on to do. */
  datatype Next = Written | HandedOff | Finished(allSent: bool)

  class UVStream<T(0,!new)> {
    // UVBaseTransport
    var highWater: int
    var lowWater: int
    var protocolConnected: bool
    var protocolPaused: bool
    var connLost: nat
    var closing: bool
    var closed: bool
    var attached: bool             // `_server is not None`
    var reading: bool              // `__reading`
    // UVStream
    var shuttingDown: bool
    var eof: bool
    var buffer: seq<seq<T>>
    var bufferSize: nat
    // the loop: its two sets of streams, and scheduled transport callbacks
    var queued: bool               // in `_queued_streams`
    var executing: bool            // in the set being executed, not reached yet
    var madeScheduled: bool
    var lostScheduled: nat
    // libuv and the kernel
    var requests: seq<seq<T>>      // what each pending request still has to write
    var writeQueueSize: nat        // its counter of bytes not written yet
    var completed: nat             // requests written, their callback pending
    var kernel: seq<T>             // bytes the kernel took, in order
    var answers: seq<KernelAnswer>
    // the application
    var script: seq<seq<Call<T>>>
    // history
    ghost var accepted: seq<T>         // bytes accepted by write/writelines, in order
    ghost var calls: History<ProtocolCall>           // calls made on the protocol, in order
    ghost var seen: Seen               // what they amount to
    ghost var everLost: bool           // connection_lost was scheduled at least once
    ghost var failed: bool             // the kernel or libuv reported an error
    ghost var detached: nat            // number of `Server._detach` calls

    // ---- Invariants ----

    /** `_get_write_buffer_size` of an open handle. */
    function Size(): nat
      reads `writeQueueSize, `bufferSize
    {
      writeQueueSize + bufferSize
    }

    /** libuv's counter is the number of bytes it still has to write. */
    ghost predicate LibuvValid()
      reads `requests, `writeQueueSize
    {
      NoneEmpty(requests) && writeQueueSize == |Concat(requests)|
    }

    ghost predicate BufferValid()
      reads `buffer, `bufferSize
    {
      NoneEmpty(buffer) && bufferSize == |Concat(buffer)|
    }

    /** The counters are right, and no byte is lost, repeated or reordered. */
    ghost predicate Conserved()
      reads `bufferSize, `buffer, `requests, `writeQueueSize, `failed, `closed, `accepted, `kernel
    {
      && BufferValid() && LibuvValid()
      && (!failed && !closed ==> accepted == kernel + Concat(requests) + Concat(buffer))
    }

    /** A nonempty buffer is in one of the loop's sets, or about to be. */
    ghost predicate Queued()
      reads `buffer, `queued, `executing, `closed
    {
      |buffer| > 0 && !closed ==> queued || executing
    }

    /** In which of the loop's sets the stream is; the loop moves it as it moves every stream. */
    ghost function InSets(): QueuedWrites.Flags
      reads `queued, `executing
    {
      QueuedWrites.Flags(queued, executing)
    }

    ghost predicate InFlight()
      reads `completed, `requests
    {
      completed > 0 || |requests| > 0
    }

    /** The loop or libuv still has a step to make for this stream. */
    ghost predicate Busy()
      reads `completed, `requests, `buffer
    {
      InFlight() || |buffer| > 0
    }

    /** A paused protocol will be resumed. */
    ghost predicate PausedLive()
      reads `completed, `requests, `buffer, `protocolPaused, `closed, `failed
    {
      protocolPaused && !closed && !failed ==> Busy()
    }

    /** `close()` will schedule connection_lost, `write_eof()` will shut down or close. */
    ghost predicate EndLive()
      reads `completed, `requests, `buffer, `closing, `everLost, `eof, `shuttingDown, `closed
    {
      ((closing && !everLost) || (eof && !shuttingDown && !closing)) && !closed ==> Busy()
    }

    ghost predicate LimitsValid()
      reads `lowWater, `highWater
    {
      0 <= lowWater <= highWater
    }

    /** The protocol is paused or the write size is at most the high-water mark. */
    ghost predicate Bounded()
      reads `closed, `protocolPaused, `writeQueueSize, `bufferSize, `highWater
    {
      closed || protocolPaused || Size() <= highWater
    }

    /** A stream that lost its connection, or met an error, is closing; one that is closing
        does not read. */
    ghost predicate Closing()
      reads `connLost, `closing, `everLost, `lostScheduled, `closed, `failed, `reading
    {
      && (connLost > 0 || lostScheduled > 0 || closed ==> everLost)
      && (everLost ==> closing) && (closing ==> !reading)
      && (failed && !closed ==> connLost > 0)
    }

    /** connection_lost is on its way, unless it came. */
    ghost predicate LossLive()
      reads `everLost, `lostScheduled, `closed
    {
      everLost && !closed ==> lostScheduled > 0
    }

    /** The protocol's callbacks came in a legal order and agree with the flags; the
        server is detached at most once. */
    ghost predicate Lifecycle()
      reads `protocolConnected, `protocolPaused, `madeScheduled,
            `calls, `seen, `attached, `detached
    {
      && seen == Replay(calls) && seen.ok && seen.made == protocolConnected && seen.paused == protocolPaused
      && !(madeScheduled && protocolConnected)
      && detached <= (if attached then 0 else 1)
    }

    ghost predicate Base()
      reads this
    {
      Conserved() && LimitsValid() && Closing() && Lifecycle()
    }

    /** What holds whenever application code runs, also inside a callback. */
    ghost predicate Valid()
      reads this
    {
      Base() && PausedLive() && Bounded()
    }

    /** What holds between two steps of the loop. */
    ghost predicate AtRest()
      reads this
    {
      Valid() && Queued() && EndLive() && LossLive() && (seen.lost ==> closed)
    }

    /** What application calls, and so callbacks, do not undo; they do not touch reading but by closing. */
    twostate predicate Later()
      reads this
    {
      Lasting() && (closing || reading == old(reading))
    }

    twostate predicate Lasting()
      reads this
    {
      && |script| <= |old(script)|
      && old(accepted) <= accepted
      && closed == old(closed) && executing == old(executing) && protocolConnected == old(protocolConnected)
      && seen.lost == old(seen.lost) && LossKept() && Quiet()
      && (old(Queued()) ==> Queued()) && (old(EndLive()) ==> EndLive()) && (old(eof) ==> eof)
      && Resumes(old(calls)) <= Resumes(calls)
    }

    /** Closing is not undone, and every connection_lost is scheduled. */
    twostate predicate LossKept()
      reads `closing, `connLost, `everLost, `lostScheduled, `closed, `failed
    {
      && (old(closing) ==> closing) && old(connLost) <= connLost && (old(failed) ==> failed)
      && (old(everLost) ==> everLost) && old(lostScheduled) <= lostScheduled
      && closed == old(closed) && (old(LossLive()) ==> LossLive())
    }

    /** A kernel that refuses everything takes nothing and reports no error. */
    twostate predicate Quiet()
      reads `answers, `kernel, `failed
    {
      old(answers) == [] ==> answers == [] && kernel == old(kernel) && failed == old(failed)
    }

    /** The connection is lost: what is written is dropped. */
    predicate Dead()
      reads `connLost
    {
      connLost > 0
    }

    /** What is written is accepted. */
    predicate Open()
      reads `closed, `eof, `connLost
    {
      !closed && !eof && !Dead()
    }

    /** A stream does not open again. */
    twostate predicate Onward()
      reads `closed, `eof, `connLost
    {
      (old(closed) ==> closed) && (old(eof) ==> eof) && (old(Dead()) ==> Dead())
    }

    /** Of an application that makes no calls in its callbacks, `data` is accepted and nothing else. */
    twostate predicate Gains(data: seq<T>)
      reads `script, `accepted
    {
      Passive(old(script)) ==> Passive(script) && accepted == old(accepted) + data
    }

    /** For every call on the protocol a piece of application code ran, as long as there was one; and
        the server knows of nothing. */
    twostate predicate Answered()
      reads `script, `calls, `attached, `detached
    {
      && calls.Size() >= old(calls).Size()
      && (var k := calls.Size() - old(calls).Size();
          |script| == if k <= |old(script)| then |old(script)| - k else 0)
      && attached == old(attached) && detached == old(detached)
    }

    /** What a call reports. */
    function Report(call: Call<T>): Outcome
      reads `closed, `eof
    {
      match call
      case Close => Done
      case Abort => Done
      case WriteEof => if closed then HandleClosed else Done
      case SetWriteBufferLimits(high, low) =>
        if closed then HandleClosed
        else if AddFlowcontrolDefaults(high, low, FLOW_CONTROL_HIGH_WATER).BadLimits? then BadArguments else Done
      case _ => if closed then HandleClosed else if eof then AfterEof else Done
    }

    ghost function CurrentFlow(): Flow
      reads `protocolPaused, `highWater, `writeQueueSize, `bufferSize, `answers, `eof, `shuttingDown, `closing,
            `connLost
    {
      Flow(protocolPaused, highWater, writeQueueSize, bufferSize, answers, eof, shuttingDown, closing, Dead())
    }

    constructor (attached: bool)
      ensures AtRest() && !closed && !closing && !failed
      ensures accepted == kernel == [] && calls == Start && Size() == 0 && script == [] && answers == []
      ensures madeScheduled && !protocolConnected && !protocolPaused && !everLost && !eof && !Dead()
      ensures buffer == [] && requests == [] && highWater == 64 * 1024 && lowWater == 16
    {
      highWater, lowWater := FLOW_CONTROL_HIGH_WATER * 1024, FLOW_CONTROL_HIGH_WATER / 4;
      protocolConnected, protocolPaused, connLost, closing, closed := false, false, 0, false, false;
      this.attached := attached;
      shuttingDown, eof, buffer, bufferSize := false, false, [], 0;
      queued, executing, madeScheduled, lostScheduled := false, false, true, 0;
      requests, writeQueueSize, completed, kernel, script, answers, reading := [], 0, 0, [], [], [], false;
      accepted, calls, seen, everLost, failed, detached := [], Start, Replay(Start), false, false, 0;
    }

    // ---- libuv and the kernel ----

    method Ask() returns (a: KernelAnswer)
      modifies `answers
      ensures a == First(old(answers)) && answers == Others(old(answers))
    {
      a, answers := First(answers), Others(answers);
    }

    /** The kernel takes a prefix of `data`. */
    method KernelWrite(data: seq<T>) returns (r: Sent)
      requires |data| > 0
      modifies `kernel, `failed, `answers
      ensures Quiet()
      ensures r.Sent? ==> r.bytes <= |data| && kernel == old(kernel) + data[..r.bytes] && failed == old(failed)
      ensures r.Again? ==> kernel == old(kernel) && failed == old(failed)
      ensures r.WriteError? ==> kernel == old(kernel) && failed
      ensures answers == Others(old(answers))
      ensures match First(old(answers))
              case Takes(n) => r == Sent(if n <= |data| then n else |data|)
              case Refuses => r == Again
              case Fails => r == WriteError
    {
      var a := Ask();
      match a
      case Takes(n) =>
        var k := if n <= |data| then n else |data|;
        kernel := kernel + data[..k];
        r := Sent(k);
      case Refuses =>
        r := Again;
      case Fails =>
        failed := true;
        r := WriteError;
    }

    /** libuv gives bytes of its first request to the kernel. */
    method LibuvTakes(n: nat)
      requires LibuvValid()
      modifies `kernel, `requests, `writeQueueSize, `completed
      ensures LibuvValid() && writeQueueSize <= old(writeQueueSize)
      ensures kernel + Concat(requests) == old(kernel + Concat(requests))
      ensures completed + |requests| == old(completed + |requests|)
      ensures n == 0 ==> unchanged(this)
      ensures |old(requests)| > 0 && n >= |old(requests)[0]| ==>
                requests == old(requests)[1..] && completed == old(completed) + 1
      ensures |old(requests)| == 1 ==> writeQueueSize == LeftAfter(old(writeQueueSize), Takes(n))
    {
      if |requests| > 0 && n > 0 {
        var head := requests[0];
        var k := if n <= |head| then n else |head|;
        assert head == head[..k] + head[k..];
        kernel := kernel + head[..k];
        writeQueueSize := writeQueueSize - k;
        if k == |head| {
          requests := requests[1..];
          completed := completed + 1;
        } else {
          requests := [head[k..]] + requests[1..];
        }
      }
    }

    /** `uv_write`: queues one request and may start writing it at once. */
    method UvWrite(data: seq<T>) returns (ok: bool)
      requires |data| > 0 && LibuvValid()
      modifies `kernel, `requests, `writeQueueSize, `completed, `failed, `answers
      ensures LibuvValid() && Quiet()
      ensures ok ==> failed == old(failed) && InFlight() && writeQueueSize <= old(writeQueueSize) + |data|
      ensures ok ==> kernel + Concat(requests) == old(kernel + Concat(requests)) + data
      ensures !ok ==> failed && unchanged(`requests) && unchanged(`writeQueueSize) && unchanged(`completed)
      ensures ok == !First(old(answers)).Fails? && answers == Others(old(answers))
      ensures ok && old(writeQueueSize) == 0 ==> writeQueueSize == LeftAfter(|data|, First(old(answers)))
      ensures ok && old(writeQueueSize) > 0 ==> writeQueueSize == old(writeQueueSize) + |data|
    {
      var a := Ask();
      if a == Fails {
        failed := true;
        return false;
      }
      ConcatSnoc(requests, data);
      Assoc(kernel, Concat(requests), data);
      var idle := |requests| == 0;
      requests, writeQueueSize := requests + [data], writeQueueSize + |data|;
      if idle && a.Takes? {
        LibuvTakes(a.bytes);
      }
      return true;
    }

    // ---- Reading ----

    /** `_start_reading`, and `resume_reading`. */
    method ResumeReading()
      requires Closing()
      modifies `reading
      ensures Closing() && reading == !closing
    {
      if closing {
        return;
      }
      reading := true;
    }

    /** `pause_reading`. */
    method PauseReading()
      requires Closing()
      modifies `reading
      ensures Closing() && !reading
    {
      if closing || !reading {
        return;
      }
      reading := false;
    }

    // ---- Closing ----

    method ScheduleConnectionLost()
      modifies `lostScheduled, `everLost
      ensures lostScheduled == old(lostScheduled) + 1 && everLost
    {
      lostScheduled, everLost := lostScheduled + 1, true;
    }

    /** `_force_close`, also what `abort` and every fatal error end in. */
    method ForceClose()
      modifies `closing, `reading, `connLost, `lostScheduled, `everLost
      ensures old(connLost > 0 || closed) ==>
                && unchanged(`closing) && unchanged(`reading) && unchanged(`connLost)
                && unchanged(`lostScheduled) && unchanged(`everLost)
      ensures !old(connLost > 0 || closed) ==>
                && closing && everLost && connLost == 1 && lostScheduled == old(lostScheduled) + 1
                && reading == (old(closing) && old(reading))
    {
      if connLost > 0 || closed {
        return;
      }
      if !closing {
        closing, reading := true, false;
      }
      connLost := connLost + 1;
      ScheduleConnectionLost();
    }

    /** `abort`. */
    method Abort()
      requires Valid()
      modifies `closing, `reading, `connLost, `lostScheduled, `everLost
      ensures Valid() && Later() && (!closed ==> Dead())
      ensures !closed ==> CurrentFlow() == After(old(CurrentFlow()), Call<T>.Abort)
    {
      ForceClose();
    }

    /** `close`. */
    method CloseTransport()
      requires Valid()
      modifies `closing, `reading, `connLost, `lostScheduled, `everLost
      ensures Valid() && Later() && closing
      ensures lostScheduled == old(lostScheduled) + (if !old(closing) && Size() == 0 then 1 else 0)
      ensures connLost == old(connLost) + (if !old(closing) && Size() == 0 then 1 else 0)
      ensures !closed ==> CurrentFlow() == After(old(CurrentFlow()), Call<T>.Close)
    {
      hide UVStream.Lifecycle;
      hide UVStream.LimitsValid;
      hide UVStream.Bounded;
      hide UVStream.Queued;
      if closing || closed {
        return;
      }
      closing, reading := true, false;
      ConcatNonEmpty(requests);
      ConcatNonEmpty(buffer);
      if Size() == 0 {
        connLost := connLost + 1;
        ScheduleConnectionLost();
      }
    }

    // ---- Flow control ----

    /** Nothing acted but the stream itself: the protocol was called at most once, by pause_writing. */
    twostate predicate OnlyPauses()
      reads this
    {
      && (|| (calls == old(calls) && protocolPaused == old(protocolPaused))
          || (calls == Then(old(calls), PauseWriting) && !old(protocolPaused) && protocolPaused))
      && Alone()
    }

    /** No callback acted on the stream. */
    twostate predicate Alone()
      reads `highWater, `lowWater, `eof, `madeScheduled, `accepted, `failed, `connLost, `closing
    {
      && highWater == old(highWater) && lowWater == old(lowWater) && eof == old(eof)
      && madeScheduled == old(madeScheduled)
      && (!failed ==> closing == old(closing) && (old(connLost) == 0 ==> connLost == 0))
    }

    /** A call of the application, by what it leads to: pause_writing, or nothing that the protocol sees. */
    twostate predicate Went(f: Flow)
      reads this
    {
      if TooMuch(f) then calls == Then(old(calls), PauseWriting) && protocolPaused
      else calls == old(calls) && script == old(script) && CurrentFlow() == f
    }

    /** Records a call made on the protocol. */
    ghost method Notify(c: ProtocolCall)
      requires seen == Replay(calls)
      modifies `calls, `seen
      ensures calls == Then(old(calls), c) && seen == Replay(calls) && seen == See(old(seen), c)
    {
      calls, seen := Then(calls, c), See(seen, c);
    }

    /** The application's part of a protocol callback: pops one entry of the
        script and makes its calls. */
    method Callback()
      requires Valid()
      modifies this
      ensures Valid() && Later()
      ensures |old(script)| == 0 ==> unchanged(this)
      ensures old(protocolPaused) ==> calls == old(calls) && protocolPaused
      ensures !closed && old(script) != [] ==>
                calls == if PausesIn(old(CurrentFlow()), old(script)[0]) then Then(old(calls), PauseWriting)
                         else old(calls)
      ensures Gains([]) && (Passive(old(script)) ==> completed == old(completed))
      ensures old(calls).Size() <= calls.Size()
      ensures var k := calls.Size() - old(calls).Size() + 1;
              |script| == if k <= |old(script)| then |old(script)| - k else 0
      ensures attached == old(attached) && detached == old(detached)
      decreases |script|, 0
    {
      if |script| > 0 {
        var todo := script[0];
        script := script[1..];
        RunCalls(todo);
      }
    }

    /** A piece of application code: calls on this transport, one after the other. */
    method RunCalls(todo: seq<Call<T>>)
      requires Valid()
      modifies this
      ensures Valid() && Later()
      ensures old(protocolPaused) ==> calls == old(calls) && protocolPaused
      ensures !closed ==>
                calls == if PausesIn(old(CurrentFlow()), todo) then Then(old(calls), PauseWriting) else old(calls)
      ensures todo == [] ==> Gains([]) && completed == old(completed)
      ensures Answered()
      decreases |script|, 7
    {
      var i := 0;
      while i < |todo|
        invariant 0 <= i <= |todo|
        invariant (todo == [] ==> Gains([]) && completed == old(completed)) && Answered()
        invariant Valid() && Later() && (old(protocolPaused) ==> calls == old(calls) && protocolPaused)
        invariant !closed ==>
                    || (calls == old(calls) && PausesIn(CurrentFlow(), todo[i..]) == PausesIn(old(CurrentFlow()), todo))
                    || (calls == Then(old(calls), PauseWriting) && protocolPaused && PausesIn(old(CurrentFlow()), todo))
        decreases |todo| - i
      {
        var r := RunCall(todo[i]);
        assert todo[i..][1..] == todo[i + 1..];
        i := i + 1;
      }
    }

    method RunCall(call: Call<T>) returns (r: Outcome)
      requires Valid()
      modifies this
      ensures Valid() && Later()
      ensures old(closed) ==> calls == old(calls) && accepted == old(accepted)
      ensures old(protocolPaused) ==> calls == old(calls) && protocolPaused
      ensures !closed ==> Went(After(old(CurrentFlow()), call))
      ensures r == old(Report(call))
      ensures var data := if old(Open()) then DataOf(call) else []; old(accepted) + data <= accepted && Gains(data)
      ensures Answered()
      decreases |script|, 6
    {
      match call
      case Write(data) => r := WriteData(data);
      case WriteLines(bufs) => r := WriteAll(bufs);
      case WriteEof => r := EndOfFile();
      case Close => CloseTransport(); r := Done;
      case Abort => Abort(); r := Done;
      case SetWriteBufferLimits(high, low) => r := SetLimits(high, low);
    }

    /** `_maybe_pause_protocol`. */
    method MaybePauseProtocol()
      requires Base() && PausedLive()
      modifies this
      ensures Valid() && Later()
      ensures |old(script)| == 0 ==>
                OnlyPauses() && unchanged(`accepted) && unchanged(`buffer)
      ensures old(Size() <= highWater) ==> unchanged(this)
      ensures if old(TooMuch(CurrentFlow())) then calls == Then(old(calls), PauseWriting) && protocolPaused
              else unchanged(this)
      ensures Gains([])
      ensures Answered()
      ensures Passive(old(script)) ==> completed == old(completed)
      ensures old(script) == [] ==> queued == old(queued)
      decreases |script|, 1
    {
      if Size() <= highWater {
        return;
      }
      if !protocolPaused {
        ConcatNonEmpty(requests);
        ConcatNonEmpty(buffer);
        assert Busy();
        protocolPaused := true;
        Notify(PauseWriting);
        Callback();
      }
    }

    /** The protocol is to be resumed. */
    predicate ResumeDue()
      reads `protocolPaused, `writeQueueSize, `bufferSize, `lowWater
    {
      protocolPaused && Size() <= lowWater
    }

    /** The part of `_maybe_resume_protocol` before the callback. */
    method NoteResumed()
      requires Base() && ResumeDue()
      modifies `protocolPaused, `calls, `seen
      ensures Valid() && !protocolPaused && calls == Then(old(calls), ResumeWriting) && seen.lost == old(seen.lost)
    {
      protocolPaused := false;
      Notify(ResumeWriting);
    }

    /** A paused protocol that is not to be resumed has something to wait for. */
    lemma StillPaused()
      requires Base() && !ResumeDue()
      ensures PausedLive() && (protocolPaused ==> Size() > lowWater && Bounded())
    {
      ConcatNonEmpty(requests);
      ConcatNonEmpty(buffer);
    }

    /** `_maybe_resume_protocol`. */
    method MaybeResumeProtocol()
      requires Base() && !closed
      modifies this
      ensures Base() && PausedLive() && Later()
      ensures old(protocolPaused) ==> Bounded()
      ensures old(ResumeDue()) || unchanged(this)
      ensures !old(ResumeDue()) && protocolPaused ==> Size() > lowWater
      ensures Gains([])
      ensures Answered()
      ensures old(ResumeDue()) ==> Resumes(calls) > Resumes(old(calls))
      ensures old(script) == [] ==> !ResumeDue()
      ensures Passive(old(script)) ==> completed == old(completed)
      ensures old(script) == [] ==> queued == old(queued)
      decreases |script|, 1
    {
      if ResumeDue() {
        NoteResumed();
        Callback();
      } else {
        StillPaused();
      }
    }

    // ---- Writing ----

    /** `_buffer_write`. */
    method BufferWrite(data: seq<T>)
      requires Conserved()
      modifies `buffer, `bufferSize, `accepted
      ensures Conserved() && accepted == old(accepted) + data
      ensures |data| == 0 ==> buffer == old(buffer) && bufferSize == old(bufferSize)
      ensures |data| > 0 ==> buffer == old(buffer) + [data] && bufferSize == old(bufferSize) + |data|
    {
      accepted := accepted + data;
      if |data| == 0 {
        return;
      }
      ConcatSnoc(buffer, data);
      bufferSize := bufferSize + |data|;
      buffer := buffer + [data];
    }

    /** `_shutdown`; libuv may refuse the request. */
    method Shutdown()
      requires Closing() && !closed
      modifies `shuttingDown, `failed, `answers, `closing, `reading, `connLost, `lostScheduled, `everLost
      ensures Closing() && LossKept() && shuttingDown && (closing || reading == old(reading))
      ensures old(answers) == [] ==> answers == [] && failed == old(failed)
      ensures if old(shuttingDown) || failed == old(failed) then closing == old(closing) || failed
              else failed && closing && everLost
      ensures (old(failed) ==> failed) && (closing ==> old(closing) || everLost)
      ensures !failed ==> connLost == old(connLost) && closing == old(closing)
      ensures if old(shuttingDown) then unchanged(`answers) && unchanged(`connLost) && unchanged(`closing)
              else var fails := First(old(answers)).Fails?;
                   && answers == Others(old(answers)) && Dead() == (old(Dead()) || fails)
                   && closing == (old(closing) || fails)
      ensures lostScheduled == old(lostScheduled) + if Dead() && !old(Dead()) then 1 else 0
    {
      if shuttingDown {
        return;
      }
      shuttingDown := true;
      var a := Ask();
      if a == Fails {
        failed := true;
        ForceClose();
      }
    }

    /** `_on_write`. */
    method OnWrite()
      requires Base() && !closed
      modifies this
      ensures Base() && PausedLive() && EndLive() && Later()
      ensures old(Bounded()) ==> Bounded()
      ensures !old(protocolPaused) ==>
                !protocolPaused && unchanged(`buffer) && unchanged(`bufferSize) && unchanged(`writeQueueSize)
                && unchanged(`calls) && unchanged(`script) && unchanged(`accepted) && Alone()
      ensures !old(protocolPaused) && !eof ==>
                && unchanged(`answers) && unchanged(`shuttingDown) && unchanged(`connLost) && unchanged(`closing)
                && unchanged(`protocolPaused) && unchanged(`highWater) && unchanged(`eof)
      ensures Gains([])
      ensures Answered()
      ensures old(ResumeDue()) ==> Resumes(calls) > Resumes(old(calls))
      ensures old(script) == [] ==> !ResumeDue()
      ensures Passive(old(script)) ==> completed == old(completed)
      ensures old(script) == [] ==> queued == old(queued)
      ensures !old(ResumeDue()) ==>
                lostScheduled ==
                  old(lostScheduled) + if Size() == 0 && (old(closing) || (Dead() && !old(Dead()))) then 1 else 0
      decreases |script|, 2
    {
      hide Passive, Resumes, SendOff, Replay;
      hide UVStream.LimitsValid;
      hide UVStream.Lifecycle;
      hide UVStream.BufferValid;
      hide UVStream.LibuvValid;
      MaybeResumeProtocol();
      CheckDrained();
    }

    /** The second half of `_on_write`. */
    method CheckDrained()
      requires Conserved() && Closing() && !closed
      modifies `shuttingDown, `failed, `answers, `closing, `reading, `connLost, `lostScheduled, `everLost
      ensures Conserved() && Closing() && EndLive() && LossKept() && (closing || reading == old(reading))
      ensures old(answers) == [] ==> answers == [] && failed == old(failed)
      ensures (old(failed) ==> failed) && (!failed || !eof ==> connLost == old(connLost) && closing == old(closing))
      ensures everLost == (old(everLost) || (Size() == 0 && closing))
      ensures !eof ==> unchanged(`answers) && unchanged(`shuttingDown)
      ensures lostScheduled ==
                old(lostScheduled) + if Size() == 0 && (old(closing) || (Dead() && !old(Dead()))) then 1 else 0
    {
      ConcatNonEmpty(requests);
      ConcatNonEmpty(buffer);
      if Size() == 0 {
        if closing {
          ScheduleConnectionLost();
        } else if eof {
          Shutdown();
        }
      }
    }

    /** `_try_write`: one direct write(2).  The source raises when libuv still has
        data for the stream; here that is a precondition, proved at the call. */
    method TryWrite(data: seq<T>) returns (sent: int)
      requires |data| > 0 && writeQueueSize == 0 && Closing() && !closed
      modifies `kernel, `failed, `answers, `closing, `reading, `connLost, `lostScheduled, `everLost
      ensures -1 <= sent <= |data| && Closing() && LossKept() && Quiet()
      ensures sent >= 0 ==> kernel == old(kernel) + data[..sent] && Untouched()
      ensures sent == -1 ==> kernel == old(kernel) && failed && closing && everLost
      ensures answers == Others(old(answers))
      ensures match First(old(answers))
              case Takes(n) => sent == if n <= |data| then n else |data|
              case Refuses => sent == 0
              case Fails => sent == -1
    {
      var r := KernelWrite(data);
      match r
      case Sent(n) => sent := n;
      case Again => sent := 0;
      case WriteError => ForceClose(); sent := -1;
    }

    /** No error was met. */
    twostate predicate Untouched()
      reads `failed, `closing, `everLost, `connLost, `lostScheduled, `reading
    {
      && failed == old(failed) && closing == old(closing) && everLost == old(everLost)
      && connLost == old(connLost) && lostScheduled == old(lostScheduled) && reading == old(reading)
    }

    /** `uv_try_write`. */
    method UvTryWrite(data: seq<T>) returns (r: Sent)
      requires |data| > 0 && writeQueueSize == 0
      modifies `kernel, `failed, `answers
      ensures Quiet()
      ensures r.Sent? ==> 0 < r.bytes <= |data| && kernel == old(kernel) + data[..r.bytes] && failed == old(failed)
      ensures r.Again? ==> kernel == old(kernel) && failed == old(failed)
      ensures r.WriteError? ==> kernel == old(kernel) && failed
      ensures answers == Others(old(answers))
      ensures match First(old(answers))
              case Takes(n) => r == if n == 0 then Again else Sent(if n <= |data| then n else |data|)
              case Refuses => r == Again
              case Fails => r == WriteError
    {
      r := KernelWrite(data);
      if r == Sent(0) {
        r := Again;
      }
    }

    /** The first half of `_exec_write`, for a buffer of one chunk: `_try_write`. */
    method TryOne() returns (r: Attempt<T>)
      requires Conserved() && Closing() && !closed && |buffer| == 1 && writeQueueSize == 0
      modifies `buffer, `bufferSize, `kernel, `failed, `answers,
               `closing, `reading, `connLost, `lostScheduled, `everLost
      ensures Tried(r) && (r.Left? ==> bufferSize == |Concat(buffer)| == |r.bytes|)
    {
      ConcatNonEmpty(requests);
      var data := buffer[0];
      assert Concat(buffer) == data;
      var sent := TryWrite(data);
      if sent == |data| {
        bufferSize, buffer := 0, [];
        return AllSent;
      } else if sent > 0 {
        data := data[sent..];
        bufferSize := bufferSize - sent;
        buffer := buffer[0 := data];
      } else if sent == -1 {
        bufferSize, buffer := 0, [];
        return Failed;
      }
      var ctx := new WriteContext<T>(buffer);
      assert Concat(buffer) == data;
      return Left(ctx.Remaining());
    }

    /** The first half of `_exec_write`, for several chunks: `uv_try_write` and
        `advance_uv_buf`, whose error cannot happen because the counter compared
        with is the number of bytes offered. */
    method TryMany() returns (r: Attempt<T>)
      requires Conserved() && Closing() && !closed && |buffer| > 0 && writeQueueSize == 0
      modifies `buffer, `bufferSize, `kernel, `failed, `answers,
               `closing, `reading, `connLost, `lostScheduled, `everLost
      ensures Tried(r)
    {
      hide WriteContext.Remaining, WriteContext.Valid;
      ConcatNonEmpty(requests);
      ConcatNonEmpty(buffer);
      var ctx := new WriteContext<T>(buffer);
      var res := UvTryWrite(ctx.Remaining());
      match res {
        case Sent(n) =>
          if n == bufferSize {
            bufferSize, buffer := 0, [];
            return AllSent;
          }
          var ok := ctx.AdvanceUvBuf(n);
          assert ok;
        case WriteError =>
          ForceClose();
          bufferSize, buffer := 0, [];
          return Failed;
        case Again =>
      }
      return Left(ctx.Remaining());
    }

    /** Offers the buffer to the kernel, unless libuv still has data before it. */
    method Offer() returns (r: Attempt<T>)
      requires Conserved() && Closing() && !closed && |buffer| > 0
      modifies `buffer, `bufferSize, `kernel, `failed, `answers,
               `closing, `reading, `connLost, `lostScheduled, `everLost
      ensures Closing() && LossKept() && Quiet()
      ensures if r.Failed? then failed && closing && everLost else Untouched()
      ensures r.AllSent? ==> Conserved() && |buffer| == 0 && writeQueueSize == 0
      ensures r.Failed? ==> Conserved() && |buffer| == 0
      ensures r.Left? ==> 0 < |r.bytes| <= old(bufferSize)
      ensures r.Left? && !failed ==> accepted == kernel + Concat(requests) + r.bytes
      ensures if old(writeQueueSize) == 0 then Offered(r)
              else r.Left? && |r.bytes| == old(bufferSize) && answers == old(answers)
    {
      if writeQueueSize == 0 {
        if |buffer| == 1 {
          r := TryOne();
        } else {
          r := TryMany();
        }
        assert Concat(requests) == [];
      } else {
        ConcatNonEmpty(buffer);
        var ctx := new WriteContext<T>(buffer);
        r := Left(ctx.Remaining());
      }
    }

    /** What offering the buffer to the kernel achieves. */
    twostate predicate Tried(new r: Attempt<T>)
      reads this
    {
      && Closing() && LossKept() && Quiet()
      && (!r.Left? ==> Conserved() && |buffer| == 0)
      && (if r.Failed? then failed && closing && everLost else Untouched())
      && (r.Left? ==> 0 < |r.bytes| <= old(bufferSize) && (!failed ==> accepted == kernel + r.bytes))
      && Offered(r)
    }

    /** The outcome, by what the kernel answered. */
    twostate predicate Offered(new r: Attempt<T>)
      reads `answers, `connLost
    {
      var a := First(old(answers));
      && answers == Others(old(answers)) && r.Failed? == a.Fails? && (a.Fails? ==> Dead())
      && (!a.Fails? ==> r.AllSent? == (LeftAfter(old(bufferSize), a) == 0))
      && (r.Left? ==> |r.bytes| == LeftAfter(old(bufferSize), a))
    }

    /** The second half of `_exec_write`: libuv gets what was not sent. */
    method HandOff(data: seq<T>) returns (ok: bool)
      requires |data| > 0 && LibuvValid() && Closing() && !closed
      requires !failed ==> accepted == kernel + Concat(requests) + data
      modifies `buffer, `bufferSize, `requests, `writeQueueSize, `completed, `kernel, `failed, `answers,
               `closing, `reading, `connLost, `lostScheduled, `everLost
      ensures Conserved() && Closing() && LossKept() && Quiet() && |buffer| == 0
      ensures ok ==> InFlight() && writeQueueSize <= old(writeQueueSize) + |data| && Untouched()
      ensures !ok ==> failed && closing && everLost && unchanged(`writeQueueSize)
      ensures ok == !First(old(answers)).Fails? && answers == Others(old(answers)) && (!ok ==> Dead())
      ensures ok && old(writeQueueSize) == 0 ==> writeQueueSize == LeftAfter(|data|, First(old(answers)))
      ensures ok && old(writeQueueSize) > 0 ==> writeQueueSize == old(writeQueueSize) + |data|
    {
      ok := UvWrite(data);
      bufferSize, buffer := 0, [];
      if !ok {
        ForceClose();
      }
    }

    /** Nothing of the buffer is left to libuv. */
    predicate SendsAll()
      reads `closed, `buffer, `bufferSize, `writeQueueSize, `answers
    {
      !closed && (|buffer| == 0 || (writeQueueSize == 0 && SentAtOnce(bufferSize, answers)))
    }

    /** The protocol is paused, and is to be resumed once the buffer was sent, or given to libuv. */
    ghost predicate ResumesOnceSent()
      reads `closed, `buffer, `bufferSize, `writeQueueSize, `answers, `protocolPaused, `lowWater
    {
      && !closed && |buffer| > 0 && protocolPaused
      && if writeQueueSize > 0 then ResumeDue() && !First(answers).Fails?
         else !SendOff(bufferSize, answers).failed && SendOff(bufferSize, answers).left <= lowWater
    }

    /** `_exec_write` up to where it calls the protocol: sends what it can and leaves the
        rest to libuv. */
    method ExecSend() returns (next: Next)
      requires Base() && PausedLive()
      modifies `buffer, `bufferSize, `requests, `writeQueueSize, `completed, `kernel, `failed, `answers,
               `closing, `reading, `connLost, `lostScheduled, `everLost
      ensures Base() && LossKept() && Quiet() && Size() <= old(Size()) && (closing || reading == old(reading))
      ensures next.Finished? ==> PausedLive() && (|old(buffer)| > 0 ==> EndLive())
      ensures next.HandedOff? ==> InFlight()
      ensures old(closed) || |old(buffer)| == 0 ==> next == Finished(!closed) && unchanged(this)
      ensures !old(closed) ==> |buffer| == 0 && (next.Finished? && |old(buffer)| > 0 ==> failed && everLost)
      ensures next.Written? ==> writeQueueSize == 0
      ensures next == Finished(true) ==> Size() == old(writeQueueSize)
      ensures !failed ==> connLost == old(connLost) && closing == old(closing)
      ensures old(!closed && |buffer| > 0 && writeQueueSize == 0) ==>
                var o := SendOff(old(bufferSize), old(answers));
                && Size() == o.left && answers == o.answers && next.Finished? == o.failed
                && (o.failed ==> Dead() && closing) && (!o.failed ==> Untouched())
      ensures (next.Written? || next == Finished(true)) == old(SendsAll())
      ensures old(ResumesOnceSent()) ==> !next.Finished? && ResumeDue()
      ensures next.HandedOff? && old(writeQueueSize) > 0 ==> Size() == old(Size())
      ensures old(!closed && |buffer| > 0 && writeQueueSize > 0) ==> next.HandedOff? == !First(old(answers)).Fails?
    {
      hide UVStream.Lifecycle;
      hide UVStream.LimitsValid;
      hide UVStream.Queued;
      if closed {
        return Finished(false);
      }
      if |buffer| == 0 {
        ConcatNonEmpty(buffer);
        return Finished(true);
      }
      var r := Offer();
      match r {
        case AllSent =>
          return Written;
        case Failed =>
          assert closing;  // the source raises when the stream is still open here
          return Finished(false);
        case Left(bytes) =>
          var ok := HandOff(bytes);
          return if ok then HandedOff else Finished(false);
      }
    }

    /** `_exec_write`. */
    method ExecWrite() returns (allSent: bool)
      requires Base() && PausedLive()
      modifies this
      ensures Base() && PausedLive() && Later()
      ensures |old(buffer)| > 0 ==> Queued() && EndLive()
      ensures old(Bounded()) ==> Bounded()
      ensures !old(protocolPaused || closed) ==>
                !protocolPaused && |buffer| == 0 && Size() <= old(Size())
                && unchanged(`calls) && unchanged(`script) && unchanged(`accepted) && Alone()
      ensures allSent && !old(protocolPaused) && old(writeQueueSize) == 0 ==> Size() == 0
      ensures old(closed) ==> calls == old(calls)
      ensures !old(protocolPaused || closed || eof) && old(writeQueueSize) == 0 ==>
                CurrentFlow() == Initiated(old(CurrentFlow())) && unchanged(`calls) && unchanged(`script)
      ensures Gains([])
      ensures Answered()
      ensures allSent == old(SendsAll()) && (old(ResumesOnceSent()) ==> Resumes(calls) > Resumes(old(calls)))
      ensures old(script) == [] ==> queued == old(queued)
      decreases |script|, 3
    {
      hide UVStream.SendsAll, UVStream.ResumesOnceSent, Passive, Resumes, SendOff, Replay;
      hide UVStream.Lifecycle;
      hide UVStream.LimitsValid;
      hide UVStream.Closing;
      hide UVStream.LibuvValid;
      var next := ExecSend();
      match next {
        case Written =>
          OnWrite();
          return true;
        case HandedOff =>
          MaybeResumeProtocol();
          return false;
        case Finished(all) =>
          return all;
      }
    }

    /** `Loop._queue_write`, for this stream. */
    method QueueWrite()
      modifies `queued
      ensures InSets() == old(InSets()).Queue()
    {
      queued := true;
    }

    /** `_initiate_write`. */
    method InitiateWrite()
      requires Base() && PausedLive() && !closed
      requires |buffer| == 0 || bufferSize > 0
      requires |buffer| > 0 || Bounded()
      modifies this
      ensures Valid() && Later()
      ensures |old(buffer)| > 0 ==> Queued() && EndLive()
      ensures |old(script)| == 0 ==> OnlyPauses() && unchanged(`accepted)
      ensures |old(script)| == 0 && !old(protocolPaused) && old(writeQueueSize) == 0 ==> buffer == []
      ensures old(protocolPaused) ==> calls == old(calls) && protocolPaused
      ensures !old(eof) ==> Went(Initiated(old(CurrentFlow())))
      ensures Gains([])
      ensures Answered()
      ensures old(script) == [] ==>
                queued == (old(queued) || old(bufferSize > 0 && (protocolPaused || writeQueueSize > 0)))
      decreases |script|, 4, 0
    {
      hide Passive, Resumes, SendOff, Replay;
      if !protocolPaused && writeQueueSize == 0 {
        var allSent := ExecWrite();
        assert |buffer| == 0 && bufferSize == 0;  // the source's debug check
        if !allSent {
          MaybePauseProtocol();
        }
      } else if bufferSize > 0 {
        MaybePauseProtocol();
        QueueWrite();
      }
    }

    // ---- Public calls ----

    /** `write`. */
    method WriteData(data: seq<T>) returns (r: Outcome)
      requires Valid()
      modifies this
      ensures Valid() && Later()
      ensures r == (if old(closed) then HandleClosed else if old(eof) then AfterEof else Done)
      ensures r == Done && old(connLost) == 0 ==> old(accepted) + data <= accepted
      ensures |old(script)| == 0 ==> OnlyPauses()
      ensures |old(script)| == 0 && r == Done && old(connLost) == 0 ==> accepted == old(accepted) + data
      ensures |old(script)| == 0 && !old(protocolPaused) && old(writeQueueSize) == 0 && old(buffer) == [] ==>
                buffer == []
      ensures r != Done || old(connLost) > 0 ==> calls == old(calls) && accepted == old(accepted)
      ensures old(protocolPaused) ==> calls == old(calls) && protocolPaused
      ensures !closed ==> Went(After(old(CurrentFlow()), Write(data)))
      ensures Gains(if old(Open()) then data else [])
      ensures Answered()
      ensures r == Done && |data| > 0 && old(connLost) > 0 ==> connLost == old(connLost) + 1
      decreases |script|, 5
    {
      hide Passive, Resumes, SendOff, Replay;
      hide UVStream.LimitsValid;
      hide UVStream.Lifecycle;
      hide UVStream.Queued;
      hide UVStream.EndLive;
      hide UVStream.LossLive;
      hide UVStream.LibuvValid;
      if closed {
        return HandleClosed;
      }
      if eof {
        return AfterEof;
      }
      if |data| == 0 {
        return Done;
      }
      if connLost > 0 {
        connLost := connLost + 1;
        return Done;
      }
      BufferWrite(data);
      InitiateWrite();
      return Done;
    }

    /** `writelines`. */
    method WriteAll(bufs: seq<seq<T>>) returns (r: Outcome)
      requires Valid()
      modifies this
      ensures Valid() && Later()
      ensures r == (if old(closed) then HandleClosed else if old(eof) then AfterEof else Done)
      ensures r == Done && old(connLost) == 0 ==> old(accepted) + Concat(bufs) <= accepted
      ensures r != Done || old(connLost) > 0 ==> calls == old(calls) && accepted == old(accepted)
      ensures old(protocolPaused) ==> calls == old(calls) && protocolPaused
      ensures !closed ==> Went(After(old(CurrentFlow()), WriteLines(bufs)))
      ensures Gains(if old(Open()) then Concat(bufs) else [])
      ensures Answered()
      ensures r == Done && old(connLost) > 0 ==> connLost == old(connLost) + 1
      decreases |script|, 5
    {
      hide UVStream.LimitsValid;
      hide UVStream.Lifecycle;
      hide UVStream.Queued;
      hide UVStream.EndLive;
      hide UVStream.LossLive;
      hide UVStream.LibuvValid;
      if closed {
        return HandleClosed;
      }
      if eof {
        return AfterEof;
      }
      if connLost > 0 {
        connLost := connLost + 1;
        return Done;
      }
      AcceptAll(bufs);
      return Done;
    }

    /** `writelines` of a stream that takes data. */
    method AcceptAll(bufs: seq<seq<T>>)
      requires Valid() && !closed
      modifies this
      ensures Valid() && Later() && old(accepted) + Concat(bufs) <= accepted
      ensures old(protocolPaused) ==> calls == old(calls) && protocolPaused
      ensures !old(eof) && !old(Dead()) ==> Went(After(old(CurrentFlow()), WriteLines(bufs)))
      ensures Gains(Concat(bufs))
      ensures Answered()
      decreases |script|, 4, 1
    {
      hide UVStream.LimitsValid;
      hide UVStream.Lifecycle;
      hide UVStream.LossLive;
      hide UVStream.LibuvValid;
      hide UVStream.BufferValid;
      hide UVStream.Closing;
      hide UVStream.Conserved;
      hide UVStream.PausedLive;
      hide UVStream.Bounded;
      BufferAll(bufs);
      InitiateWrite();
    }

    /** The buffering loop of `writelines`. */
    method BufferAll(bufs: seq<seq<T>>)
      requires Valid()
      modifies `buffer, `bufferSize, `accepted
      ensures Base() && PausedLive() && accepted == old(accepted) + Concat(bufs)
      ensures |buffer| == 0 || bufferSize > 0
      ensures |buffer| == 0 ==> Bounded()
      ensures |buffer| == 0 ==> (old(Queued()) ==> Queued()) && (old(EndLive()) ==> EndLive())
      ensures bufferSize == old(bufferSize) + |Concat(bufs)|
    {
      BufferLoop(bufs);
      ConcatNonEmpty(buffer);
    }

    method BufferLoop(bufs: seq<seq<T>>)
      requires Conserved()
      modifies `buffer, `bufferSize, `accepted
      ensures Conserved() && accepted == old(accepted) + Concat(bufs)
      ensures |buffer| >= old(|buffer|) && (|buffer| == old(|buffer|) ==> bufferSize == old(bufferSize))
      ensures bufferSize == old(bufferSize) + |Concat(bufs)|
    {
      var i := 0;
      while i < |bufs|
        invariant 0 <= i <= |bufs|
        invariant Conserved() && accepted == old(accepted) + Concat(bufs[..i])
        invariant bufferSize == old(bufferSize) + |Concat(bufs[..i])|
        invariant |buffer| >= old(|buffer|) && (|buffer| == old(|buffer|) ==> bufferSize == old(bufferSize))
      {
        BufferWrite(bufs[i]);
        ConcatSnoc(bufs[..i], bufs[i]);
        Assoc(old(accepted), Concat(bufs[..i]), bufs[i]);
        assert bufs[..i] + [bufs[i]] == bufs[..i + 1];
        i := i + 1;
      }
      assert bufs[..i] == bufs;
    }

    /** `write_eof`. */
    method EndOfFile() returns (r: Outcome)
      requires Valid()
      modifies this
      ensures Valid() && Later()
      ensures r == (if old(closed) then HandleClosed else Done) && (r == Done ==> eof)
      ensures calls == old(calls) && accepted == old(accepted)
      ensures old(protocolPaused) ==> calls == old(calls) && protocolPaused
      ensures !closed ==> Went(After(old(CurrentFlow()), Call<T>.WriteEof))
      ensures Gains([])
      ensures Answered()
    {
      hide Passive, Resumes, SendOff, Replay;
      hide UVStream.LimitsValid;
      hide UVStream.Lifecycle;
      hide UVStream.Queued;
      if closed {
        return HandleClosed;
      }
      if eof {
        return Done;
      }
      eof := true;
      ConcatNonEmpty(requests);
      ConcatNonEmpty(buffer);
      if Size() == 0 {
        Shutdown();
      }
      return Done;
    }

    /** Nothing changed but the limits. */
    twostate predicate OnlyLimits()
      reads this
    {
      && calls == old(calls) && protocolPaused == old(protocolPaused) && accepted == old(accepted)
      && buffer == old(buffer) && requests == old(requests) && Size() == old(Size()) && kernel == old(kernel)
      && script == old(script) && answers == old(answers) && failed == old(failed) && eof == old(eof)
      && connLost == old(connLost) && closing == old(closing) && everLost == old(everLost)
      && reading == old(reading) && madeScheduled == old(madeScheduled)
    }

    /** `set_write_buffer_limits`. */
    method SetLimits(high: Option<int>, low: Option<int>) returns (r: Outcome)
      requires Valid()
      modifies this
      ensures Valid() && Later()
      ensures r == (if old(closed) then HandleClosed
                    else if AddFlowcontrolDefaults(high, low, FLOW_CONTROL_HIGH_WATER).BadLimits? then BadArguments
                    else Done)
      ensures r != Done ==> unchanged(this)
      ensures r == Done && |old(script)| == 0 ==>
                Limits(highWater, lowWater) == AddFlowcontrolDefaults(high, low, FLOW_CONTROL_HIGH_WATER)
      ensures |old(script)| == 0 && (r == Done ==> old(Size()) <= highWater) ==> OnlyLimits()
      ensures old(protocolPaused) ==> calls == old(calls) && protocolPaused
      ensures !closed ==> Went(After(old(CurrentFlow()), Call<T>.SetWriteBufferLimits(high, low)))
      ensures Gains([])
      ensures Answered()
      decreases |script|, 5
    {
      hide UVStream.Conserved;
      hide UVStream.Closing;
      hide UVStream.Lifecycle;
      hide UVStream.Queued;
      hide UVStream.EndLive;
      hide UVStream.LossLive;
      if closed {
        return HandleClosed;
      }
      var limits := AddFlowcontrolDefaults(high, low, FLOW_CONTROL_HIGH_WATER);
      if limits.BadLimits? {
        return BadArguments;
      }
      highWater, lowWater := limits.high, limits.low;
      MaybePauseProtocol();
      return Done;
    }

    // ---- Events ----

    /** libuv writes when the kernel takes more. */
    method LibuvWrites(n: nat)
      requires AtRest() && !closed
      modifies `kernel, `requests, `writeQueueSize, `completed
      ensures AtRest() && kernel + Concat(requests) == old(kernel + Concat(requests))
      ensures |old(requests)| > 0 && n >= |old(requests)[0]| > 0 ==>
                requests == old(requests)[1..] && completed == old(completed) + 1
    {
      LibuvTakes(n);
    }

    /** The write callback of a request that was written in full, before it does anything. */
    method Retire()
      requires completed > 0
      modifies `completed
      ensures completed == old(completed) - 1
    {
      completed := completed - 1;
    }

    method RequestDone()
      requires AtRest() && completed > 0
      modifies this
      ensures AtRest() && closed == old(closed)
      ensures old(closed) ==> calls == old(calls)
      ensures Gains([]) && Onward()
      ensures Answered()
      ensures Passive(old(script)) ==> completed == old(completed) - 1
    {
      Retire();
      if !closed {
        OnWrite();
      }
    }

    /** The write callback of a request that failed. */
    method RequestFailed()
      requires AtRest() && |requests| > 0
      modifies `requests, `writeQueueSize, `failed, `closing, `reading, `connLost, `lostScheduled, `everLost
      ensures AtRest() && failed && requests == old(requests)[1..] && LossKept()
      ensures closing || reading == old(reading)
      ensures !closed ==> connLost > 0
    {
      hide UVStream.Lifecycle;
      hide UVStream.LimitsValid;
      writeQueueSize := writeQueueSize - |requests[0]|;
      requests := requests[1..];
      MeetError();
    }

    /** Any other error that libuv reports, such as one of a read. */
    method MeetError()
      requires Closing()
      modifies `failed, `closing, `reading, `connLost, `lostScheduled, `everLost
      ensures Closing() && LossKept() && failed && (!closed ==> connLost > 0) && (closing || reading == old(reading))
      ensures old(AtRest()) ==> AtRest()
      ensures old(connLost > 0 || closed) ==>
                && unchanged(`closing) && unchanged(`reading) && unchanged(`connLost)
                && unchanged(`lostScheduled) && unchanged(`everLost)
    {
      failed := true;
      if !closed {
        ForceClose();
      }
    }

    /** `_exec_queued_writes` swaps the loop's two sets. */
    method SwapSets()
      requires AtRest() && !executing
      modifies `queued, `executing
      ensures AtRest() && InSets() == old(InSets()).Swap()
    {
      queued, executing := executing, queued;
    }

    /** `_exec_queued_writes` reaches this stream. */
    method Execute()
      requires AtRest() && executing
      modifies this
      ensures AtRest() && closed == old(closed) && !executing && |script| <= |old(script)|
      ensures old(closed) ==> calls == old(calls)
      ensures Gains([]) && Onward()
      ensures Answered()
    {
      executing := false;
      var allSent := ExecWrite();
    }

    /** `_call_connection_made` up to the callback. */
    method BeginConnection() returns (alive: bool)
      requires AtRest() && madeScheduled
      modifies `madeScheduled, `protocolConnected, `calls, `seen
      ensures AtRest() && alive == !closed && !madeScheduled
      ensures protocolConnected == (old(protocolConnected) || alive)
      ensures calls == if alive then Then(old(calls), ConnectionMade) else old(calls)
      ensures seen.lost == old(seen.lost)
    {
      madeScheduled := false;
      if closed {
        return false;
      }
      protocolConnected := true;
      Notify(ConnectionMade);
      return true;
    }

    /** `_call_connection_made`. */
    method CallConnectionMade()
      requires AtRest() && madeScheduled
      modifies this
      ensures AtRest() && closed == old(closed)
      ensures if old(closed) then calls == old(calls) else seen.made
      ensures |old(script)| == 0 ==>
                && script == [] && unchanged(`kernel) && unchanged(`requests) && unchanged(`buffer)
                && unchanged(`accepted) && unchanged(`highWater) && unchanged(`lowWater) && unchanged(`eof)
                && unchanged(`failed) && unchanged(`connLost) && unchanged(`everLost) && unchanged(`answers)
                && unchanged(`protocolPaused) && protocolConnected == (old(protocolConnected) || !closed)
                && !madeScheduled && (!closed ==> reading == !closing) && unchanged(`closing)
                && (!closed ==> calls == Then(old(calls), ConnectionMade))
      ensures Gains([]) && Onward()
      ensures Answered()
    {
      hide UVStream.Queued;
      hide UVStream.EndLive;
      hide UVStream.PausedLive;
      hide UVStream.Bounded;
      hide UVStream.Conserved;
      hide UVStream.LimitsValid;
      var alive := BeginConnection();
      if alive {
        Callback();
        ResumeReading();
      }
    }

    /** `_call_connection_lost` up to the callback; says whether the protocol is to be told. */
    method BeginLoss() returns (tell: bool)
      requires AtRest() && lostScheduled > 0
      modifies `lostScheduled, `calls, `seen
      ensures Valid() && Queued() && EndLive() && lostScheduled == old(lostScheduled) - 1 && everLost
      ensures tell == (!closed && protocolConnected)
      ensures calls == if tell then Then(old(calls), ConnectionLost) else old(calls)
      ensures if tell then seen.lost else seen.lost == old(seen.lost)
    {
      lostScheduled := lostScheduled - 1;
      tell := !closed && protocolConnected;
      if tell {
        Notify(ConnectionLost);
      }
    }

    /** `_call_connection_lost` after the callback. */
    method FinishLoss()
      requires Valid() && !closed && everLost
      modifies `closed, `attached, `detached
      ensures AtRest() && closed && !attached && detached == old(detached) + if old(attached) then 1 else 0
    {
      closed := true;
      if attached {
        attached, detached := false, detached + 1;
      }
    }

    /** The protocol's calls once `_call_connection_lost` is through: connection_lost, and pause_writing
        after it exactly when the protocol's calls in it lead to that. */
    ghost function CallsAtLoss(): History<ProtocolCall>
      reads `protocolConnected, `script, `calls,
            `protocolPaused, `highWater, `writeQueueSize, `bufferSize, `answers, `eof, `shuttingDown, `closing,
            `connLost
    {
      if !protocolConnected then calls
      else if script != [] && PausesIn(CurrentFlow(), script[0]) then Then(Then(calls, ConnectionLost), PauseWriting)
      else Then(calls, ConnectionLost)
    }

    /** `_call_connection_lost`. */
    method CallConnectionLost()
      requires AtRest() && lostScheduled > 0
      modifies this
      ensures AtRest() && closed
      ensures if old(closed) then calls == old(calls) else seen.lost == seen.made
      ensures !old(closed) ==> calls == old(CallsAtLoss())
      ensures Gains([]) && Onward()
      ensures if old(closed) then attached == old(attached) && detached == old(detached)
              else !attached && detached == old(detached) + if old(attached) then 1 else 0
      ensures lostScheduled >= old(lostScheduled) - 1
    {
      var tell := BeginLoss();
      if closed {
        return;
      }
      if tell {
        Callback();
      }
      FinishLoss();
    }

    /** One step of the loop, if it can happen now. */
    method Step(e: Event<T>)
      requires AtRest()
      modifies this
      ensures AtRest()
      ensures old(closed) ==> closed && calls == old(calls)
      ensures Onward() && Gains(if e.App? && old(Open()) then DataOf(e.call) else [])
      ensures attached == (old(attached) && (old(closed) || !closed))
      ensures detached == old(detached) + if old(attached) && !attached then 1 else 0
      ensures (e.Error? && !old(closed)) || (e == LibuvCompletes(false) && |old(requests)| > 0) ==> failed
      ensures e == LibuvCompletes(false) && |old(requests)| > 0 ==> requests == old(requests)[1..]
      ensures e == LibuvCompletes(true) && old(completed) > 0 && Passive(old(script)) ==>
                completed == old(completed) - 1
      ensures e.LoopRunsLost? && old(lostScheduled) > 0 ==> closed
      ensures e.LoopRunsMade? && old(madeScheduled && !closed) ==> seen.made
      ensures e.LoopExecutes? ==> !executing
    {
      hide UVStream.Queued;
      hide UVStream.EndLive;
      hide UVStream.LossLive;
      hide UVStream.Lifecycle;
      hide UVStream.LimitsValid;
      hide UVStream.Bounded;
      hide UVStream.PausedLive;
      match e
      case App(call) => var r := RunCall(call);
      case LibuvWrites(n) => if !closed { LibuvWrites(n); }
      case LibuvCompletes(ok) =>
        if ok && completed > 0 {
          RequestDone();
        } else if !ok && |requests| > 0 {
          RequestFailed();
        }
      case LoopSwapsSets => if !executing { SwapSets(); }
      case LoopExecutes => if executing { Execute(); }
      case LoopRunsMade => if madeScheduled { CallConnectionMade(); }
      case LoopRunsLost => if lostScheduled > 0 { CallConnectionLost(); }
      case Error => if !closed { MeetError(); }
    }
  }

  /** Everything that can happen to a stream between two points at which nobody is
      on the call stack. */
  datatype Event<T> =
    | App(call: Call<T>)
    | LibuvWrites(n: nat)
    | LibuvCompletes(ok: bool)
    | LoopSwapsSets
    | LoopExecutes
    | LoopRunsMade
    | LoopRunsLost
    | Error

  /** What the application writes in a run while it is accepted: `open` says when that is. */
  function WrittenIn<T>(events: seq<Event<T>>, open: seq<bool>): seq<T>
    requires |events| <= |open|
  {
    if events == [] then []
    else
      var n := |events| - 1;
      WrittenIn(events[..n], open) + if events[n].App? && open[n] then DataOf(events[n].call) else []
  }

  /** It depends on what is known of the events so far. */
  lemma {:induction false} WrittenSoFar<T>(events: seq<Event<T>>, open: seq<bool>, more: seq<bool>)
    requires |events| <= |open| && open <= more
    ensures WrittenIn(events, more) == WrittenIn(events, open)
  {
    if events != [] {
      WrittenSoFar(events[..|events| - 1], open, more);
    }
  }

  /** Every run: a new stream, any application, any answers of the kernel, any sequence of
      events.  What is promised at the end holds after every prefix of a run, which is a run too. */
  method AnyRun<T(0,!new)>(attached: bool, script: seq<seq<Call<T>>>, answers: seq<KernelAnswer>, events: seq<Event<T>>)
    returns (s: UVStream<T>, ghost open: seq<bool>)
    ensures fresh(s) && s.AtRest()
    // no byte is lost, repeated or reordered, and both counters are right
    ensures !s.failed && !s.closed ==> s.accepted == s.kernel + Concat(s.requests) + Concat(s.buffer)
    // without calls in its callbacks the application's calls while the stream was open wrote what was accepted
    ensures |open| == |events| + 1 && open[0] && open[|events|] == s.Open()
    ensures forall i, j :: 0 <= i < j < |open| && open[j] ==> open[i]
    ensures Passive(script) ==> s.accepted == WrittenIn(events, open)
    ensures s.bufferSize == |Concat(s.buffer)| && s.writeQueueSize == |Concat(s.requests)|
    // an open stream on which something waits has a step to make
    ensures !s.closed && |s.buffer| > 0 ==> s.queued || s.executing
    ensures !s.closed && ((s.protocolPaused && !s.failed)
                          || (s.closing && !s.everLost)
                          || (s.eof && !s.shuttingDown && !s.closing)) ==>
              s.InFlight() || (|s.buffer| > 0 && (s.queued || s.executing))
    // a stream that failed, or lost its connection otherwise, is about to be closed
    ensures s.failed && !s.closed ==> s.everLost
    ensures s.everLost && !s.closed ==> s.lostScheduled > 0
    ensures !s.closed && s.protocolPaused ==>
              s.InFlight() || (|s.buffer| > 0 && (s.queued || s.executing)) || s.lostScheduled > 0
    // flow control
    ensures 0 <= s.lowWater <= s.highWater
    ensures s.closed || s.protocolPaused || s.Size() <= s.highWater
    // the protocol saw a legal history, which agrees with the flags
    ensures Legal(s.calls.Calls()) && (s.protocolPaused <==> LastIsPause(s.calls.Calls()))
    ensures ConnectionLost in s.calls.Calls() ==> s.closed
    ensures s.detached <= 1
  {
    s := new UVStream<T>(attached);
    s.script, s.answers, open := script, answers, [true];
    for i := 0 to |events|
      invariant s.AtRest() && |open| == i + 1 && open[0] && open[i] == s.Open()
      invariant forall a, b :: 0 <= a < b <= i && open[b] ==> open[a]
      invariant Passive(script) ==> Passive(s.script) && s.accepted == WrittenIn(events[..i], open)
    {
      s.Step(events[i]);
      assert events[..i + 1][..i] == events[..i];
      WrittenSoFar(events[..i], open, open + [s.Open()]);
      open := open + [s.Open()];
    }
    assert events[..|events|] == events;
    ReplayMeaning(s.calls);
  }
}
