/** The environment of the TLS protocol engine: the OpenSSL object with its two memory BIOs.
    Its contracts, for the answers it is going to give, are all the engine relies on. */
module TlsObjects {
  import opened Buffers
  import opened Wrappers

  type Byte = b: int | 0 <= b < 0x100

  /** A byte on the wire, with the plaintext that becomes readable with it.  Of a record that is
      its plaintext for the byte that completes it, and nothing for its header and the rest. */
  datatype Cipher = Cipher(plain: seq<Byte>, closeNotify: bool)

  /** The plaintext of a stretch of ciphertext. */
  function Plain(wire: seq<Cipher>): seq<Byte> {
    if |wire| == 0 then [] else wire[0].plain + Plain(wire[1..])
  }

  lemma {:induction false} PlainAppend(a: seq<Cipher>, b: seq<Cipher>)
    ensures Plain(a + b) == Plain(a) + Plain(b)
  {
    if |a| == 0 {
      assert a + b == b;
    } else {
      assert (a + b)[1..] == a[1..] + b;
      PlainAppend(a[1..], b);
    }
  }

  lemma {:induction false} NoPlain(wire: seq<Cipher>)
    requires forall i :: 0 <= i < |wire| ==> wire[i].plain == []
    ensures Plain(wire) == []
  {
    if |wire| == 0 {
    } else {
      NoPlain(wire[1..]);
    }
  }

  /** Protocol bytes without plaintext. */
  function Control(n: nat): (w: seq<Cipher>)
    ensures |w| == n && Plain(w) == []
  {
    var w := seq(n, i => Cipher([], false));
    NoPlain(w);
    w
  }

  /** The bytes on the wire for a nonempty record, or several: with each but the last as much of
      `data` becomes readable as `layout` says, and with the last what is left. */
  function Spread(data: seq<Byte>, layout: seq<nat>): (w: seq<Cipher>)
    ensures |w| == |layout| + 1 && Plain(w) == data
    ensures forall i :: 0 <= i < |w| ==> !w[i].closeNotify
  {
    if layout == [] then [Cipher(data, false)]
    else
      var k := if layout[0] <= |data| then layout[0] else |data|;
      assert data == data[..k] + data[k..];
      [Cipher(data[..k], false)] + Spread(data[k..], layout[1..])
  }

  /** Every sequence of bytes that carries `data`, but for close_notify, has a layout. */
  lemma {:induction false} EveryLayout(w: seq<Cipher>) returns (layout: seq<nat>)
    requires |w| > 0 && forall i :: 0 <= i < |w| ==> !w[i].closeNotify
    ensures Spread(Plain(w), layout) == w
  {
    if |w| == 1 {
      layout := [];
    } else {
      var rest := EveryLayout(w[1..]);
      layout := [|w[0].plain|] + rest;
      assert layout[1..] == rest && Plain(w)[..|w[0].plain|] == w[0].plain;
      assert Plain(w)[|w[0].plain|..] == Plain(w[1..]);
    }
  }

  /** Nothing readable follows a close_notify. */
  ghost predicate CloseLast(wire: seq<Cipher>) {
    forall i, j :: 0 <= i < j < |wire| && wire[i].closeNotify ==> wire[j].plain == []
  }

  ghost predicate HasClose(wire: seq<Cipher>) {
    exists i :: 0 <= i < |wire| && wire[i].closeNotify
  }

  /** A complete incoming record. */
  datatype Record = Data(plain: seq<Byte>) | CloseNotify

  /** The plaintext of incoming records. */
  function Unread(records: seq<Record>): seq<Byte> {
    if |records| == 0 then []
    else (if records[0].Data? then records[0].plain else []) + Unread(records[1..])
  }

  lemma {:induction false} UnreadAppend(a: seq<Record>, b: seq<Record>)
    ensures Unread(a + b) == Unread(a) + Unread(b)
  {
    if |a| == 0 {
      assert a + b == b;
    } else {
      assert (a + b)[1..] == a[1..] + b;
      UnreadAppend(a[1..], b);
    }
  }

  predicate NoneBlank(records: seq<Record>) {
    forall i :: 0 <= i < |records| && records[i].Data? ==> |records[i].plain| > 0
  }

  const SSL_READ_MAX_SIZE: nat := 256 * 1024

  // ---- What OpenSSL is going to answer ----

  /** One answer.  A write consumes at most `bytes`, all when they are zero, and puts records of
      the given layout into the outgoing BIO; other calls put `bytes` bytes there. */
  datatype Answer = Does(bytes: nat, layout: seq<nat>) | Again(bytes: nat) | Fails

  /** Once nothing is left, every call asks to be made again. */
  function Head(answers: seq<Answer>): Answer {
    if answers == [] then Again(0) else answers[0]
  }

  function Size(a: Answer): nat {
    if a.Fails? then 0 else a.bytes
  }

  function Rest(answers: seq<Answer>): seq<Answer> {
    if answers == [] then [] else answers[1..]
  }

  datatype ReadResult = Chunk(bytes: seq<Byte>) | Empty | ReadAgain | ReadError
  datatype WriteResult = Took(count: nat) | WriteAgain | WriteError
  datatype StepResult = Complete | StepAgain | StepError

  /** What a read that does not fail gives, and what it leaves. */
  datatype ReadStep = ReadStep(result: ReadResult, records: seq<Record>, ended: bool)

  function ReadOf(records: seq<Record>, ended: bool, limit: nat): (s: ReadStep)
    requires NoneBlank(records) && limit > 0
    ensures NoneBlank(s.records) && |s.records| <= |records| && !s.result.ReadError?
    ensures s.result.Chunk? ==> 0 < |s.result.bytes| <= limit && Unread(records) == s.result.bytes + Unread(s.records)
    ensures s.result.Chunk? ==> !ended && !s.ended && |records| > 0
    ensures !s.result.Chunk? ==> Unread(s.records) == Unread(records)
    ensures if s.result.Empty? then s.ended else s.result.ReadAgain? ==>
              |records| == 0 && !s.ended && s.records == records
    ensures ended ==> s == ReadStep(Empty, records, true)
  {
    if ended then ReadStep(Empty, records, true)
    else if |records| == 0 then ReadStep(ReadAgain, records, false)
    else
      match records[0]
      case CloseNotify => ReadStep(Empty, records[1..], true)
      case Data(plain) =>
        if |plain| <= limit then ReadStep(Chunk(plain), records[1..], false)
        else
          assert plain == plain[..limit] + plain[limit..];
          ReadStep(Chunk(plain[..limit]), [Data(plain[limit..])] + records[1..], false)
  }

  /** The other raw bytes that a call leaves in the incoming BIO. */
  function RestAfter(rest: nat, a: Answer): nat {
    if a.Fails? then rest else if a.bytes <= rest then rest - a.bytes else 0
  }

  /** How a pass of reading goes: the plaintext, the last result, and what is left. */
  datatype ReadRun = ReadRun(data: seq<Byte>, last: ReadResult, records: seq<Record>, ended: bool, rest: nat,
                             answers: seq<Answer>)

  /** Reading while something is pending: for a pass of `limit` bytes, with that much room left,
      and without a limit otherwise.  `last` is what was read before. */
  function Reading(start: ReadRun, limit: Option<nat>, chunk: nat): (r: ReadRun)
    requires NoneBlank(start.records) && chunk > 0 && (limit.Some? ==> limit.value > 0)
    ensures start.data <= r.data && NoneBlank(r.records)
    decreases |Unread(start.records)|
  {
    if start.rest + |start.records| == 0 then start
    else
      var a := Head(start.answers);
      if a.Fails? then start.(last := ReadError, answers := Rest(start.answers))
      else
        var s := ReadOf(start.records, start.ended, match limit case Some(n) => n case None => chunk);
        var next := ReadRun(start.data, s.result, s.records, s.ended, RestAfter(start.rest, a), Rest(start.answers));
        if !s.result.Chunk? then next
        else
          var more := next.(data := start.data + s.result.bytes);
          match limit
          case None => Reading(more, None, chunk)
          case Some(n) =>
            if |s.result.bytes| == n then more else Reading(more, Some(n - |s.result.bytes|), chunk)
  }

  /** How reading to the end goes: the last result, and the answers left. */
  datatype DrainRun = DrainRun(result: ReadResult, answers: seq<Answer>)

  function Draining(records: seq<Record>, ended: bool, answers: seq<Answer>, limit: nat): (d: DrainRun)
    requires NoneBlank(records) && limit > 0
    ensures !d.result.Chunk? && (answers == [] ==> d.answers == [] && !d.result.ReadError?)
    ensures |records| == 0 && !ended ==> !d.result.Empty?
    decreases |Unread(records)|
  {
    if Head(answers).Fails? then DrainRun(ReadError, Rest(answers))
    else
      var s := ReadOf(records, ended, limit);
      if s.result.Chunk? then Draining(s.records, s.ended, Rest(answers), limit)
      else DrainRun(s.result, Rest(answers))
  }

  /** How much of `size` bytes a write takes. */
  function Count(bytes: nat, size: nat): nat {
    if 0 < bytes <= size then bytes else size
  }

  /** How many bytes on the wire carry `count` bytes of plaintext. */
  function WireSize(count: nat, layout: seq<nat>): nat {
    if count == 0 then 0 else |layout| + 1
  }

  /** How writing a backlog goes: what is left of it, how many bytes were emitted, whether it
      failed, and the answers left. */
  datatype WriteRun = WriteRun(left: seq<seq<Byte>>, emitted: nat, failed: bool, answers: seq<Answer>)

  function Writing(backlog: seq<seq<Byte>>, answers: seq<Answer>): (w: WriteRun)
    ensures answers == [] ==> w == WriteRun(backlog, 0, false, [])
    ensures backlog == [] ==> w == WriteRun([], 0, false, answers)
    decreases |answers|
  {
    if backlog == [] || answers == [] then WriteRun(backlog, 0, false, answers)
    else
      match answers[0]
      case Fails => WriteRun(backlog, 0, true, answers[1..])
      case Again(n) => WriteRun(backlog, n, false, answers[1..])
      case Does(n, layout) =>
        var count := Count(n, |backlog[0]|);
        var w := Writing(Taken(backlog, count), answers[1..]);
        w.(emitted := w.emitted + WireSize(count, layout))
  }

  /** A close_notify alert: its last byte tells the peer. */
  function Closing(a: Answer): (w: seq<Cipher>)
    ensures |w| == Size(a) + 1 && Plain(w) == [] && w[Size(a)].closeNotify
    ensures forall i :: 0 <= i < |w| ==> w[i].plain == []
  {
    var w := Control(Size(a)) + [Cipher([], true)];
    NoPlain(w);
    w
  }

  class Tls {
    var outgoing: seq<Cipher>     // the outgoing BIO
    var records: seq<Record>      // complete records not read yet, decrypted or not; none without content
    var rest: nat                 // other raw bytes in the incoming BIO
    var held: nat                 // all raw bytes there; what is decrypted of it is for OpenSSL to choose
    var fed: bool                 // bytes arrived from the peer
    var ended: bool               // close_notify was read
    var closeSent: bool           // close_notify was written
    var broken: bool              // some call raised a real error
    var answers: seq<Answer>
    ghost var blocked: bool           // the last write asked to be called again
    ghost var emitted: seq<Cipher>    // everything ever put into `outgoing`
    ghost var completed: bool         // a `do_handshake()` was the last one
    ghost var unwrapped: bool         // the last `unwrap()` was over

    /** close_notify is written at most where nothing readable follows it. */
    ghost predicate WireValid()
      reads `emitted, `closeSent
    {
      CloseLast(emitted) && (HasClose(emitted) ==> closeSent)
    }

    /** How a pass of reading goes from here; `limit` is the size of the buffer, if there is one. */
    ghost function Pass(limit: Option<nat>): (r: ReadRun)
      reads `records, `ended, `rest, `answers
      requires NoneBlank(records) && (limit.Some? ==> limit.value > 0)
      ensures NoneBlank(r.records)
    {
      Reading(ReadRun([], ReadAgain, records, ended, rest, answers), limit, SSL_READ_MAX_SIZE)
    }

    constructor (answers: seq<Answer>)
      ensures outgoing == [] && emitted == [] && records == [] && rest == held == 0 && !ended && !closeSent && !broken
      ensures !fed && !blocked && !completed && !unwrapped && this.answers == answers
    {
      outgoing, emitted, records, rest, held, ended, closeSent, broken := [], [], [], 0, 0, false, false, false;
      fed, blocked, this.answers := false, false, answers;
      completed, unwrapped := false, false;
    }

    method Ask() returns (a: Answer)
      modifies `answers
      ensures a == Head(old(answers)) && answers == Rest(old(answers))
    {
      a, answers := Head(answers), Rest(answers);
    }

    /** Writes ciphertext into the outgoing BIO. */
    method Emit(extra: seq<Cipher>)
      requires WireValid()
      requires HasClose(extra) ==> closeSent
      requires closeSent ==> forall i :: 0 <= i < |extra| ==> extra[i].plain == []
      modifies `outgoing, `emitted
      ensures WireValid()
      ensures outgoing == old(outgoing) + extra && emitted == old(emitted) + extra
      ensures Plain(emitted) == Plain(old(emitted)) + Plain(extra)
    {
      PlainAppend(emitted, extra);
      outgoing, emitted := outgoing + extra, emitted + extra;
    }

    /** Protocol bytes without plaintext: handshake messages, alerts. */
    method EmitControl(n: nat) returns (ghost extra: seq<Cipher>)
      requires WireValid()
      modifies `outgoing, `emitted
      ensures WireValid() && extra == Control(n)
      ensures outgoing == old(outgoing) + extra && emitted == old(emitted) + extra
      ensures Plain(emitted) == Plain(old(emitted))
    {
      Emit(Control(n));
      extra := Control(n);
    }

    /** `incoming.pending + sslobj.pending()`: positive while a complete record is unread. */
    method Pending() returns (n: nat)
      ensures n == rest + |records|
    {
      n := rest + |records|;
    }

    /** `incoming.pending`. */
    method IncomingPending() returns (n: nat)
      ensures n == held
    {
      n := held;
    }

    /** `sslobj.read(limit)`. */
    method Read(limit: nat) returns (r: ReadResult)
      requires limit > 0 && NoneBlank(records)
      modifies `records, `rest, `ended, `broken, `answers, `held
      ensures NoneBlank(records) && answers == Rest(old(answers)) && rest == RestAfter(old(rest), Head(old(answers)))
      ensures r.ReadError? == Head(old(answers)).Fails?
      ensures if r.ReadError? then broken && unchanged(`records) && unchanged(`ended)
              else unchanged(`broken) && ReadStep(r, records, ended) == ReadOf(old(records), old(ended), limit)
    {
      var a := Ask();
      held := *;
      if a == Fails {
        broken := true;
        return ReadError;
      }
      rest := RestAfter(rest, a);
      var s := ReadOf(records, ended, limit);
      records, ended, r := s.records, s.ended, s.result;
    }

    /** `sslobj.write(data)`: encrypts a nonempty prefix of nonempty data, or asks to be
        called again.  After close_notify there must be nothing left to encrypt. */
    method Write(data: seq<Byte>) returns (r: WriteResult, ghost extra: seq<Cipher>)
      requires WireValid() && (|data| > 0 ==> !closeSent)
      modifies `outgoing, `emitted, `broken, `blocked, `answers, `held
      ensures WireValid() && blocked == r.WriteAgain? && answers == Rest(old(answers))
      ensures outgoing == old(outgoing) + extra && emitted == old(emitted) + extra
      ensures r == match Head(old(answers)) case Fails => WriteError case Again(_) => WriteAgain
                                            case Does(n, _) => Took(Count(n, |data|))
      ensures Plain(emitted) == Plain(old(emitted)) + (if r.Took? then data[..r.count] else [])
      ensures extra == match Head(old(answers))
                       case Fails => []
                       case Again(n) => Control(n)
                       case Does(n, layout) =>
                         var count := Count(n, |data|);
                         if count == 0 then [] else Spread(data[..count], layout)
      ensures if r.WriteError? then broken else unchanged(`broken)
    {
      var a := Ask();
      held := *;
      match a {
        case Again(n) =>
          extra := EmitControl(n);
          r := WriteAgain;
        case Fails =>
          broken := true;
          r, extra := WriteError, [];
        case Does(n, layout) =>
          var count := Count(n, |data|);
          var bytes := if count == 0 then [] else Spread(data[..count], layout);
          Emit(bytes);
          r, extra := Took(count), bytes;
      }
      blocked := r.WriteAgain?;
    }

    /** `sslobj.unwrap()`: writes close_notify once, then waits for the peer's. */
    method Unwrap() returns (r: StepResult, ghost extra: seq<Cipher>)
      requires WireValid()
      modifies `outgoing, `emitted, `closeSent, `broken, `answers, `unwrapped, `held
      ensures WireValid() && answers == Rest(old(answers))
      ensures outgoing == old(outgoing) + extra && emitted == old(emitted) + extra
      ensures Plain(emitted) == Plain(old(emitted))
      ensures r == match Head(old(answers)) case Fails => StepError case Again(_) => StepAgain
                                            case Does(_, _) => Complete
      ensures unwrapped == (r == Complete)
      ensures if r.StepError? then broken && unchanged(`closeSent) else closeSent && unchanged(`broken)
      ensures extra == if r.StepError? || old(closeSent) then [] else Closing(Head(old(answers)))
    {
      unwrapped := false;
      var a := Ask();
      held := *;
      if a == Fails {
        broken := true;
        r, extra := StepError, [];
        return;
      }
      var bytes := if closeSent then [] else Closing(a);
      closeSent := true;
      Emit(bytes);
      r, extra := (if a.Does? then Complete else StepAgain), bytes;
      unwrapped := r == Complete;
    }

    /** `sslobj.do_handshake()`, which cannot be over before the peer said anything. */
    method DoHandshake() returns (r: StepResult, ghost extra: seq<Cipher>)
      requires WireValid()
      modifies `outgoing, `emitted, `broken, `answers, `completed, `held
      ensures WireValid() && answers == Rest(old(answers))
      ensures outgoing == old(outgoing) + extra && emitted == old(emitted) + extra
      ensures Plain(emitted) == Plain(old(emitted))
      ensures r == match Head(old(answers)) case Fails => StepError case Again(_) => StepAgain
                                            case Does(_, _) => if fed then Complete else StepAgain
      ensures |extra| == match Head(old(answers)) case Fails => 0 case Again(n) => n case Does(n, _) => n
      ensures completed == (old(completed) || r == Complete)
      ensures if r.StepError? then broken else unchanged(`broken)
    {
      var a := Ask();
      held := *;
      if a == Fails {
        broken := true;
        r, extra := StepError, [];
        return;
      }
      extra := EmitControl(a.bytes);
      r := if a.Does? && fed then Complete else StepAgain;
      completed := completed || r == Complete;
    }

    /** `outgoing.read()`. */
    method TakeOutgoing() returns (data: seq<Cipher>)
      modifies `outgoing
      ensures data == old(outgoing) && outgoing == []
    {
      data, outgoing := outgoing, [];
    }
  }
}
