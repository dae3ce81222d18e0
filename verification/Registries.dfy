/** Readers and writers of file descriptors: `_add_reader`, `_remove_reader` and
    their twins of the loop, on top of `UVPoll`. */
module Registries {
  import opened Wrappers

  type HandleId = nat

  /** A file object or plain descriptor; only sockets carry an I/O reference count. */
  datatype FileObj = FileObj(id: nat, isSocket: bool)

  /** The handles cancelled so far. */
  class Cancellations {
    var ids: set<HandleId>

    constructor ()
      ensures ids == {}
    {
      ids := {};
    }

    method Cancel(h: HandleId)
      modifies this
      ensures ids == old(ids) + {h}
    {
      ids := ids + {h};
    }
  }

  function Just(h: Option<HandleId>): set<HandleId> {
    match h case None => {} case Some(id) => {id}
  }

  class UVPoll {
    const fd: int
    const cancellations: Cancellations
    var readingHandle: Option<HandleId>
    var writingHandle: Option<HandleId>
    var readable: bool       // the bits libuv polls for; both clear when stopped
    var writable: bool
    var closed: bool

    /** libuv polls for exactly the directions that have a handle. */
    ghost predicate Valid()
      reads `readingHandle, `writingHandle, `readable, `writable
    {
      readable == readingHandle.Some? && writable == writingHandle.Some?
    }

    constructor (fd: int, cancellations: Cancellations)
      ensures Valid() && !closed && readingHandle == writingHandle == None
      ensures this.fd == fd && this.cancellations == cancellations
    {
      this.fd, this.cancellations := fd, cancellations;
      readingHandle, writingHandle, readable, writable, closed := None, None, false, false, false;
    }

    predicate IsActive()
      reads `readingHandle, `writingHandle
    {
      readingHandle.Some? || writingHandle.Some?
    }

    /** `uv_poll_start` replaces the mask. */
    method PollStart(readable: bool, writable: bool)
      requires !closed
      modifies `readable, `writable
      ensures this.readable == readable && this.writable == writable
    {
      this.readable, this.writable := readable, writable;
    }

    method StartReading(callback: HandleId)
      requires Valid() && !closed
      modifies `readingHandle, `readable, `writable, cancellations
      ensures Valid() && readingHandle == Some(callback)
      ensures cancellations.ids == old(cancellations.ids) + Just(old(readingHandle))
    {
      if readingHandle.None? {
        PollStart(true, writingHandle.Some?);
      } else {
        cancellations.Cancel(readingHandle.value);
      }
      readingHandle := Some(callback);
    }

    method StartWriting(callback: HandleId)
      requires Valid() && !closed
      modifies `writingHandle, `readable, `writable, cancellations
      ensures Valid() && writingHandle == Some(callback)
      ensures cancellations.ids == old(cancellations.ids) + Just(old(writingHandle))
    {
      if writingHandle.None? {
        PollStart(readingHandle.Some?, true);
      } else {
        cancellations.Cancel(writingHandle.value);
      }
      writingHandle := Some(callback);
    }

    method StopReading() returns (stopped: bool)
      requires Valid() && !closed
      modifies `readingHandle, `readable, `writable, `writingHandle, cancellations
      ensures Valid() && readingHandle == None && writingHandle == old(writingHandle)
      ensures stopped == old(readingHandle.Some?)
      ensures cancellations.ids == old(cancellations.ids) + Just(old(readingHandle))
    {
      if readingHandle.None? {
        return false;
      }
      cancellations.Cancel(readingHandle.value);
      readingHandle := None;
      if writingHandle.None? {
        Stop();
      } else {
        PollStart(false, true);
      }
      return true;
    }

    method StopWriting() returns (stopped: bool)
      requires Valid() && !closed
      modifies `readingHandle, `readable, `writable, `writingHandle, cancellations
      ensures Valid() && writingHandle == None && readingHandle == old(readingHandle)
      ensures stopped == old(writingHandle.Some?)
      ensures cancellations.ids == old(cancellations.ids) + Just(old(writingHandle))
    {
      if writingHandle.None? {
        return false;
      }
      cancellations.Cancel(writingHandle.value);
      writingHandle := None;
      if readingHandle.None? {
        Stop();
      } else {
        PollStart(true, false);
      }
      return true;
    }

    /** `stop`. */
    method Stop()
      modifies `readingHandle, `writingHandle, `readable, `writable, cancellations
      ensures Valid() && readingHandle == writingHandle == None
      ensures cancellations.ids == old(cancellations.ids) + Just(old(readingHandle)) + Just(old(writingHandle))
    {
      if readingHandle.Some? {
        cancellations.Cancel(readingHandle.value);
        readingHandle := None;
      }
      if writingHandle.Some? {
        cancellations.Cancel(writingHandle.value);
        writingHandle := None;
      }
      readable, writable := false, false;
    }

    /** `_close`. */
    method Close()
      requires Valid()
      modifies this, cancellations
      ensures Valid() && closed && readingHandle == writingHandle == None
      ensures cancellations.ids == old(cancellations.ids) + Just(old(readingHandle)) + Just(old(writingHandle))
    {
      if IsActive() {
        Stop();
      }
      closed := true;
    }
  }

  // ---- Reference counts ----

  /** How often a file object occurs in a map. */
  ghost function Occurrences(m: map<int, FileObj>, f: FileObj): nat {
    |set fd | fd in m && m[fd] == f|
  }

  lemma OccurrencesInsert(m: map<int, FileObj>, fd: int, g: FileObj, f: FileObj)
    requires fd !in m
    ensures Occurrences(m[fd := g], f) == Occurrences(m, f) + (if f == g then 1 else 0)
  {
    var n := m[fd := g];
    var before := set x | x in m && m[x] == f;
    var after := set x | x in n && n[x] == f;
    assert after == if f == g then before + {fd} else before;
  }

  lemma OccurrencesRemove(m: map<int, FileObj>, fd: int, f: FileObj)
    requires fd in m
    ensures Occurrences(m - {fd}, f) == Occurrences(m, f) - (if f == m[fd] then 1 else 0)
  {
    var rest := m - {fd};
    assert m == rest[fd := m[fd]];
    OccurrencesInsert(rest, fd, m[fd], f);
  }

  lemma NothingOccurs(m: map<int, FileObj>)
    requires m.Keys == {}
    ensures m == map[]
    ensures forall f :: Occurrences(m, f) == 0
  {
    forall f
      ensures Occurrences(m, f) == 0
    {
      OccurrencesBound(m, f);
    }
  }

  lemma OccurrencesBound(m: map<int, FileObj>, f: FileObj)
    ensures Occurrences(m, f) <= |m.Keys|
  {
    var found := set fd | fd in m && m[fd] == f;
    assert found <= m.Keys;
    SubsetSize(found, m.Keys);
  }

  lemma SubsetSize(a: set<int>, b: set<int>)
    requires a <= b
    ensures |a| <= |b|
  {
    assert b == a + (b - a);
  }

  lemma SomeMember(s: set<int>)
    ensures s == {} || exists x :: x in s
  {
    if forall x :: x !in s {
      assert s == {};
    }
  }

  /** `socket._io_refs`, as far as the registry changes it. */
  class SocketRefs {
    var counts: map<FileObj, int>

    constructor ()
      ensures counts == map[]
    {
      counts := map[];
    }

    function Of(f: FileObj): int
      reads this
    {
      if f in counts then counts[f] else 0
    }

    /** `socket_inc_io_ref`. */
    method Inc(f: FileObj)
      modifies this
      ensures forall g :: Of(g) == old(Of(g)) + (if g == f && f.isSocket then 1 else 0)
    {
      if f.isSocket {
        counts := counts[f := Of(f) + 1];
      }
    }

    /** `socket_dec_io_ref`. */
    method Dec(f: FileObj)
      modifies this
      ensures forall g :: Of(g) == old(Of(g)) - (if g == f && f.isSocket then 1 else 0)
    {
      if f.isSocket {
        counts := counts[f := Of(f) - 1];
      }
    }
  }

  /** One of `_fd_to_reader_fileobj` and `_fd_to_writer_fileobj`, with the references it holds. */
  class FileObjMap {
    var m: map<int, FileObj>
    const refs: SocketRefs

    constructor (refs: SocketRefs)
      ensures m == map[] && this.refs == refs
    {
      m, this.refs := map[], refs;
    }

    /** Every reference taken or returned is for an entry gained or lost. */
    twostate predicate BalanceKept()
      reads this, refs
    {
      forall f: FileObj :: f.isSocket ==>
        refs.Of(f) - Occurrences(m, f) == old(refs.Of(f) - Occurrences(m, f))
    }

    /** Pops the entry of `fd`, and gives its reference back. */
    method Pop(fd: int)
      modifies this, refs
      ensures m == old(m) - {fd}
      ensures BalanceKept()
    {
      if fd in m {
        var oldFileobj := m[fd];
        forall f: FileObj {
          OccurrencesRemove(m, fd, f);
        }
        m := m - {fd};
        refs.Dec(oldFileobj);
      } else {
        assert m - {fd} == m;
      }
    }

    /** Replaces the entry of `fd`. */
    method Put(fd: int, fileobj: FileObj)
      modifies this, refs
      ensures m == old(m)[fd := fileobj]
      ensures BalanceKept()
    {
      Pop(fd);
      forall f: FileObj {
        OccurrencesInsert(m, fd, fileobj, f);
      }
      assert old(m)[fd := fileobj] == m[fd := fileobj];
      m := m[fd := fileobj];
      refs.Inc(fileobj);
    }

    /** The loop of `_close` over this map. */
    method ReleaseAll()
      modifies this, refs
      ensures m == map[]
      ensures forall f: FileObj :: f.isSocket ==> refs.Of(f) == old(refs.Of(f) - Occurrences(m, f))
    {
      var left := m.Keys;
      while left != {}
        invariant left == m.Keys
        invariant BalanceKept()
        decreases |left|
      {
        SomeMember(left);
        var fd :| fd in left;
        Pop(fd);
        left := left - {fd};
      }
      NothingOccurs(m);
    }
  }

  // ---- What a caller sees: two independent tables ----

  datatype Side = Reader | Writer

  datatype Event =
    | Add(side: Side, fileobj: FileObj, fd: Option<int>, handle: HandleId, transports: set<int>)
    | Remove(side: Side, fileobj: FileObj, fd: Option<int>, transports: set<int>)
    | CloseLoop

  datatype Outcome = Added | Removed(stopped: bool) | LoopClosed | InvalidFileObject | UsedByTransport | Closed

  datatype Entry = Entry(fileobj: FileObj, handle: HandleId)

  /** The tables of readers and writers, with the handles that were cancelled. */
  datatype Watch = Watch(readers: map<int, Entry>, writers: map<int, Entry>,
                         cancelled: set<HandleId>, closed: bool)

  const START := Watch(map[], map[], {}, false)

  function Handles(m: map<int, Entry>): set<HandleId> {
    set fd | fd in m :: m[fd].handle
  }

  function HandleAt(m: map<int, Entry>, fd: int): set<HandleId> {
    if fd in m then {m[fd].handle} else {}
  }

  /** What each call answers: a descriptor must be one, and must not be used by a transport. */
  function Answer(w: Watch, event: Event): Outcome {
    match event
    case Add(_, _, fd, _, transports) =>
      if w.closed then LoopClosed
      else if fd.None? || fd.value < 0 then InvalidFileObject
      else if fd.value in transports then UsedByTransport
      else Added
    case Remove(side, _, fd, transports) =>
      if fd.None? || fd.value < 0 then InvalidFileObject
      else if fd.value in transports then UsedByTransport
      else Removed(fd.value in if side.Reader? then w.readers else w.writers)
    case CloseLoop => Closed
  }

  /** Adding replaces the entry and cancels the old handle; removing drops it; closing drops all. */
  function Next(w: Watch, event: Event): Watch {
    match event
    case Add(side, f, fd, h, _) =>
      if Answer(w, event) != Added then w
      else if side.Reader? then
        w.(readers := w.readers[fd.value := Entry(f, h)], cancelled := w.cancelled + HandleAt(w.readers, fd.value))
      else
        w.(writers := w.writers[fd.value := Entry(f, h)], cancelled := w.cancelled + HandleAt(w.writers, fd.value))
    case Remove(side, _, fd, _) =>
      if !Answer(w, event).Removed? then w
      else if side.Reader? then
        w.(readers := w.readers - {fd.value}, cancelled := w.cancelled + HandleAt(w.readers, fd.value))
      else
        w.(writers := w.writers - {fd.value}, cancelled := w.cancelled + HandleAt(w.writers, fd.value))
    case CloseLoop =>
      Watch(map[], map[], w.cancelled + Handles(w.readers) + Handles(w.writers), true)
  }

  function After(events: seq<Event>): Watch {
    if events == [] then START else Next(After(events[..|events| - 1]), events[|events| - 1])
  }

  /** `_fileobj_to_fd` and `_ensure_fd_no_transport`: why a descriptor is refused, if it is. */
  function Refusal(fd: Option<int>, transports: set<int>): Option<Outcome> {
    if fd.None? || fd.value < 0 then Some(InvalidFileObject)
    else if fd.value in transports then Some(UsedByTransport)
    else None
  }

  lemma HandlesKept(m: map<int, Entry>, kept: set<int>, fd: int)
    requires fd in kept
    ensures Handles(m - (kept - {fd})) == Handles(m - kept) + HandleAt(m, fd)
  {
    var before, after := m - kept, m - (kept - {fd});
    forall h | h in Handles(after)
      ensures h in Handles(before) + HandleAt(m, fd)
    {
      var x :| x in after && after[x].handle == h;
      assert x == fd || x in before;
    }
    forall h | h in Handles(before) + HandleAt(m, fd)
      ensures h in Handles(after)
    {
      if fd in m && h == m[fd].handle {
        assert fd in after;
      } else {
        var x :| x in before && before[x].handle == h;
        assert x in after;
      }
    }
  }

  /** The handles of both tables but for the descriptors kept. */
  ghost function Dropped(rs: map<int, Entry>, ws: map<int, Entry>, kept: set<int>): set<HandleId> {
    Handles(rs - kept) + Handles(ws - kept)
  }

  lemma NoneKept(rs: map<int, Entry>, ws: map<int, Entry>, all: set<int>)
    ensures rs.Keys <= all && ws.Keys <= all ==> Dropped(rs, ws, all) == {}
    ensures Dropped(rs, ws, {}) == Handles(rs) + Handles(ws)
  {
    assert rs - {} == rs && ws - {} == ws;
  }

  lemma OneFewer(base: set<HandleId>, rs: map<int, Entry>, ws: map<int, Entry>, kept: set<int>, fd: int)
    requires fd in kept
    ensures base + Dropped(rs, ws, kept - {fd}) ==
            base + Dropped(rs, ws, kept) + HandleAt(rs, fd) + HandleAt(ws, fd)
  {
    HandlesKept(rs, kept, fd);
    HandlesKept(ws, kept, fd);
  }

  // ---- The loop's registry ----

  class Registry {
    const refs: SocketRefs
    const cancellations: Cancellations
    const readers: FileObjMap
    const writers: FileObjMap
    var polls: map<int, UVPoll>
    var closed: bool

    ghost predicate Separate() {
      readers != writers && readers.refs == refs && writers.refs == refs
    }

    ghost predicate PollsValid()
      reads `polls, polls.Values
    {
      forall fd :: fd in polls ==> PollValid(fd, polls[fd])
    }

    ghost predicate PollValid(fd: int, p: UVPoll)
      reads p
    {
      p.fd == fd && p.cancellations == cancellations && !p.closed && p.Valid()
    }

    ghost predicate NoneIdle()
      reads `polls, polls.Values
    {
      forall fd :: fd in polls ==> polls[fd].IsActive()
    }

    /** A poll that was dropped is closed. */
    ghost predicate DroppedClosed(before: map<int, UVPoll>)
      reads `polls, before.Values
    {
      forall fd :: fd in before && fd !in polls ==> before[fd].closed
    }

    /** The handle that waits for `fd` to be readable. */
    function ReaderOf(fd: int): Option<HandleId>
      reads `polls, polls.Values
    {
      if fd in polls then polls[fd].readingHandle else None
    }

    function WriterOf(fd: int): Option<HandleId>
      reads `polls, polls.Values
    {
      if fd in polls then polls[fd].writingHandle else None
    }

    ghost predicate ReadersAgree()
      reads `polls, polls.Values, readers`m
    {
      forall fd :: fd in readers.m <==> ReaderOf(fd).Some?
    }

    ghost predicate WritersAgree()
      reads `polls, polls.Values, writers`m
    {
      forall fd :: fd in writers.m <==> WriterOf(fd).Some?
    }

    ghost predicate RefsAgree()
      reads readers`m, writers`m, refs
    {
      forall f: FileObj :: f.isSocket ==> refs.Of(f) == Occurrences(readers.m, f) + Occurrences(writers.m, f)
    }

    ghost predicate Valid()
      reads this, polls.Values, readers`m, writers`m, refs
    {
      && Separate() && PollsValid() && NoneIdle() && ReadersAgree() && WritersAgree() && RefsAgree()
      && (closed ==> polls == map[])
    }

    ghost function Readers(): map<int, Entry>
      reads `polls, polls.Values, readers`m
      requires ReadersAgree()
    {
      map fd | fd in readers.m :: Entry(readers.m[fd], ReaderOf(fd).value)
    }

    ghost function Writers(): map<int, Entry>
      reads `polls, polls.Values, writers`m
      requires WritersAgree()
    {
      map fd | fd in writers.m :: Entry(writers.m[fd], WriterOf(fd).value)
    }

    ghost function View(): Watch
      reads `polls, `closed, polls.Values, readers`m, writers`m, cancellations
      requires ReadersAgree() && WritersAgree()
    {
      Watch(Readers(), Writers(), cancellations.ids, closed)
    }

    constructor ()
      ensures Valid() && View() == START && polls == map[]
      ensures fresh(readers) && fresh(writers) && fresh(refs) && fresh(cancellations)
    {
      var refs := new SocketRefs();
      this.refs := refs;
      cancellations := new Cancellations();
      readers := new FileObjMap(refs);
      writers := new FileObjMap(refs);
      polls, closed := map[], false;
    }

    /** The poll of `fd`, made on first use. */
    method PollFor(fd: int) returns (poll: UVPoll)
      requires PollsValid()
      modifies `polls
      ensures PollsValid() && polls == old(polls)[fd := poll]
      ensures poll.readingHandle == old(ReaderOf(fd)) && poll.writingHandle == old(WriterOf(fd))
      ensures if fd in old(polls) then poll == old(polls[fd]) else fresh(poll)
    {
      if fd in polls {
        poll := polls[fd];
        assert polls[fd := poll] == polls;
      } else {
        poll := new UVPoll(fd, cancellations);
        polls := polls[fd := poll];
      }
    }

    method StartPollingReader(fd: int, handle: HandleId)
      requires Separate() && PollsValid() && NoneIdle()
      modifies `polls, polls.Values, cancellations
      ensures PollsValid() && NoneIdle() && fresh(polls.Values - old(polls.Values))
      ensures forall x :: ReaderOf(x) == if x == fd then Some(handle) else old(ReaderOf(x))
      ensures forall x :: WriterOf(x) == old(WriterOf(x))
      ensures cancellations.ids == old(cancellations.ids) + Just(old(ReaderOf(fd)))
      ensures old(polls).Keys <= polls.Keys
    {
      var poll := PollFor(fd);
      assert PollValid(fd, polls[fd]);
      poll.StartReading(handle);
      assert forall x :: x in polls && x != fd ==> PollValid(x, polls[x]) && polls[x] != poll;
    }

    /** Drops the poll of `fd` once neither direction needs it. */
    method StopPollingReader(fd: int) returns (stopped: bool)
      requires Separate() && PollsValid() && NoneIdle()
      modifies `polls, polls.Values, cancellations
      ensures PollsValid() && NoneIdle() && polls.Values <= old(polls.Values)
      ensures stopped == old(ReaderOf(fd)).Some?
      ensures forall x :: ReaderOf(x) == if x == fd then None else old(ReaderOf(x))
      ensures forall x :: WriterOf(x) == old(WriterOf(x))
      ensures cancellations.ids == old(cancellations.ids) + Just(old(ReaderOf(fd)))
      ensures DroppedClosed(old(polls))
    {
      if fd !in polls {
        return false;
      }
      var poll := polls[fd];
      assert PollValid(fd, poll);
      stopped := poll.StopReading();
      assert forall x :: x in polls && x != fd ==> PollValid(x, polls[x]) && polls[x] != poll;
      if !poll.IsActive() {
        polls := polls - {fd};
        poll.Close();
      }
    }

    method StartPollingWriter(fd: int, handle: HandleId)
      requires Separate() && PollsValid() && NoneIdle()
      modifies `polls, polls.Values, cancellations
      ensures PollsValid() && NoneIdle() && fresh(polls.Values - old(polls.Values))
      ensures forall x :: WriterOf(x) == if x == fd then Some(handle) else old(WriterOf(x))
      ensures forall x :: ReaderOf(x) == old(ReaderOf(x))
      ensures cancellations.ids == old(cancellations.ids) + Just(old(WriterOf(fd)))
      ensures old(polls).Keys <= polls.Keys
    {
      var poll := PollFor(fd);
      assert PollValid(fd, polls[fd]);
      poll.StartWriting(handle);
      assert forall x :: x in polls && x != fd ==> PollValid(x, polls[x]) && polls[x] != poll;
    }

    /** Drops the poll of `fd` once neither direction needs it. */
    method StopPollingWriter(fd: int) returns (stopped: bool)
      requires Separate() && PollsValid() && NoneIdle()
      modifies `polls, polls.Values, cancellations
      ensures PollsValid() && NoneIdle() && polls.Values <= old(polls.Values)
      ensures stopped == old(WriterOf(fd)).Some?
      ensures forall x :: WriterOf(x) == if x == fd then None else old(WriterOf(x))
      ensures forall x :: ReaderOf(x) == old(ReaderOf(x))
      ensures cancellations.ids == old(cancellations.ids) + Just(old(WriterOf(fd)))
      ensures DroppedClosed(old(polls))
    {
      if fd !in polls {
        return false;
      }
      var poll := polls[fd];
      assert PollValid(fd, poll);
      stopped := poll.StopWriting();
      assert forall x :: x in polls && x != fd ==> PollValid(x, polls[x]) && polls[x] != poll;
      if !poll.IsActive() {
        polls := polls - {fd};
        poll.Close();
      }
    }

    method AddReader(fileobj: FileObj, fileno: Option<int>, handle: HandleId, transports: set<int>)
      returns (outcome: Outcome)
      requires Valid()
      modifies `polls, polls.Values, readers, refs, cancellations
      ensures Valid() && fresh(polls.Values - old(polls.Values))
      ensures outcome == Answer(old(View()), Add(Reader, fileobj, fileno, handle, transports))
      ensures View() == Next(old(View()), Add(Reader, fileobj, fileno, handle, transports))
      ensures DroppedClosed(old(polls))
    {
      if closed {
        return LoopClosed;
      }
      var refusal := Refusal(fileno, transports);
      if refusal.Some? {
        return refusal.value;
      }
      StartPollingReader(fileno.value, handle);
      assert RefsAgree() && WritersAgree();
      readers.Put(fileno.value, fileobj);
      assert PollsValid() && NoneIdle() && WritersAgree() && Writers() == old(Writers());
      assert Readers() == old(Readers())[fileno.value := Entry(fileobj, handle)];
      return Added;
    }

    method RemoveReader(fileobj: FileObj, fileno: Option<int>, transports: set<int>) returns (outcome: Outcome)
      requires Valid()
      modifies `polls, polls.Values, readers, refs, cancellations
      ensures Valid() && fresh(polls.Values - old(polls.Values))
      ensures outcome == Answer(old(View()), Remove(Reader, fileobj, fileno, transports))
      ensures View() == Next(old(View()), Remove(Reader, fileobj, fileno, transports))
      ensures DroppedClosed(old(polls))
    {
      var refusal := Refusal(fileno, transports);
      if refusal.Some? {
        return refusal.value;
      }
      var fd := fileno.value;
      readers.Pop(fd);
      assert PollsValid() && NoneIdle() && WritersAgree() && RefsAgree();
      if closed {
        return Removed(false);
      }
      var stopped := StopPollingReader(fd);
      assert RefsAgree() && WritersAgree() && Writers() == old(Writers());
      assert Readers() == old(Readers()) - {fd};
      return Removed(stopped);
    }

    method AddWriter(fileobj: FileObj, fileno: Option<int>, handle: HandleId, transports: set<int>)
      returns (outcome: Outcome)
      requires Valid()
      modifies `polls, polls.Values, writers, refs, cancellations
      ensures Valid() && fresh(polls.Values - old(polls.Values))
      ensures outcome == Answer(old(View()), Add(Writer, fileobj, fileno, handle, transports))
      ensures View() == Next(old(View()), Add(Writer, fileobj, fileno, handle, transports))
      ensures DroppedClosed(old(polls))
    {
      if closed {
        return LoopClosed;
      }
      var refusal := Refusal(fileno, transports);
      if refusal.Some? {
        return refusal.value;
      }
      StartPollingWriter(fileno.value, handle);
      assert RefsAgree() && ReadersAgree();
      writers.Put(fileno.value, fileobj);
      assert PollsValid() && NoneIdle() && ReadersAgree() && Readers() == old(Readers());
      assert Writers() == old(Writers())[fileno.value := Entry(fileobj, handle)];
      return Added;
    }

    method RemoveWriter(fileobj: FileObj, fileno: Option<int>, transports: set<int>) returns (outcome: Outcome)
      requires Valid()
      modifies `polls, polls.Values, writers, refs, cancellations
      ensures Valid() && fresh(polls.Values - old(polls.Values))
      ensures outcome == Answer(old(View()), Remove(Writer, fileobj, fileno, transports))
      ensures View() == Next(old(View()), Remove(Writer, fileobj, fileno, transports))
      ensures DroppedClosed(old(polls))
    {
      var refusal := Refusal(fileno, transports);
      if refusal.Some? {
        return refusal.value;
      }
      var fd := fileno.value;
      writers.Pop(fd);
      assert PollsValid() && NoneIdle() && ReadersAgree() && RefsAgree();
      if closed {
        return Removed(false);
      }
      var stopped := StopPollingWriter(fd);
      assert RefsAgree() && ReadersAgree() && Readers() == old(Readers());
      assert Writers() == old(Writers()) - {fd};
      return Removed(stopped);
    }

    /** The polls of `left` still have the handles of the two tables. */
    ghost predicate StillOpen(left: set<int>, rs: map<int, Entry>, ws: map<int, Entry>)
      reads `polls, polls.Values
    {
      forall fd :: fd in left ==>
        && fd in polls && PollValid(fd, polls[fd])
        && HandleAt(rs, fd) == Just(polls[fd].readingHandle)
        && HandleAt(ws, fd) == Just(polls[fd].writingHandle)
    }

    method ClosePoll(fd: int, ghost left: set<int>, ghost rs: map<int, Entry>, ghost ws: map<int, Entry>)
      requires fd in left && StillOpen(left, rs, ws)
      modifies polls.Values, cancellations
      ensures StillOpen(left - {fd}, rs, ws) && polls[fd].closed
      ensures forall p :: p in polls.Values && old(p.closed) ==> p.closed
      ensures cancellations.ids == old(cancellations.ids) + HandleAt(rs, fd) + HandleAt(ws, fd)
    {
      var poll := polls[fd];
      assert forall x :: x in left - {fd} ==> PollValid(x, polls[x]) && polls[x] != poll;
      poll.Close();
      assert forall x :: x in left - {fd} ==> PollValid(x, polls[x]);
    }

    method CloseNext(left: set<int>, ghost before: set<HandleId>, ghost rs: map<int, Entry>, ghost ws: map<int, Entry>)
      returns (rest: set<int>)
      requires left != {} && StillOpen(left, rs, ws)
      requires cancellations.ids == before + Dropped(rs, ws, left)
      modifies polls.Values, cancellations
      ensures rest < left && StillOpen(rest, rs, ws)
      ensures forall fd :: fd in polls && fd !in rest && (fd !in left ==> old(polls[fd].closed)) ==> polls[fd].closed
      ensures cancellations.ids == before + Dropped(rs, ws, rest)
    {
      SomeMember(left);
      var fd :| fd in left;
      OneFewer(before, rs, ws, left, fd);
      ClosePoll(fd, left, rs, ws);
      rest := left - {fd};
    }

    /** The loop of `_close` over the polls. */
    method ClosePolls()
      requires PollsValid() && ReadersAgree() && WritersAgree()
      modifies `polls, polls.Values, cancellations
      ensures polls == map[]
      ensures cancellations.ids == old(cancellations.ids + Handles(Readers()) + Handles(Writers()))
      ensures DroppedClosed(old(polls))
    {
      ghost var before, rs, ws := cancellations.ids, Readers(), Writers();
      var left := polls.Keys;
      NoneKept(rs, ws, left);
      while left != {}
        invariant polls == old(polls) && StillOpen(left, rs, ws)
        invariant forall fd :: fd in polls && fd !in left ==> polls[fd].closed
        invariant cancellations.ids == before + Dropped(rs, ws, left)
        decreases left
      {
        left := CloseNext(left, before, rs, ws);
      }
      polls := map[];
    }

    lemma NothingWatched()
      requires ReadersAgree() && WritersAgree() && polls == map[]
      ensures readers.m == map[] && writers.m == map[]
      ensures forall f :: Occurrences(readers.m, f) == Occurrences(writers.m, f) == 0
    {
      assert forall fd :: fd !in readers.m && fd !in writers.m;
      assert readers.m.Keys == {} && writers.m.Keys == {};
      NothingOccurs(readers.m);
      NothingOccurs(writers.m);
    }

    /** The part of `_close` that concerns the registry. */
    method Close() returns (outcome: Outcome)
      requires Valid()
      modifies `polls, `closed, polls.Values, readers, writers, refs, cancellations
      ensures Valid() && polls == map[]
      ensures outcome == Outcome.Closed && View() == Next(old(View()), CloseLoop)
      ensures forall f: FileObj :: f.isSocket ==> refs.Of(f) == 0
      ensures DroppedClosed(old(polls))
    {
      if closed {
        NothingWatched();
        return Outcome.Closed;
      }
      closed := true;
      ClosePolls();
      writers.ReleaseAll();
      readers.ReleaseAll();
      return Outcome.Closed;
    }

    method Step(event: Event) returns (outcome: Outcome)
      requires Valid()
      modifies `polls, `closed, polls.Values, readers, writers, refs, cancellations
      ensures Valid() && fresh(polls.Values - old(polls.Values))
      ensures outcome == Answer(old(View()), event)
      ensures View() == Next(old(View()), event)
      ensures DroppedClosed(old(polls))
    {
      match event {
        case Add(side, f, fd, h, transports) =>
          if side.Reader? {
            outcome := AddReader(f, fd, h, transports);
          } else {
            outcome := AddWriter(f, fd, h, transports);
          }
        case Remove(side, f, fd, transports) =>
          if side.Reader? {
            outcome := RemoveReader(f, fd, transports);
          } else {
            outcome := RemoveWriter(f, fd, transports);
          }
        case CloseLoop =>
          outcome := Close();
      }
    }
  }

  /** Whatever is called in whatever order, the three maps, the libuv masks and the reference
      counts agree, and the polls show exactly the two tables a caller built up. */
  method AnyRun(events: seq<Event>) returns (r: Registry)
    ensures r.Valid() && r.View() == After(events)
  {
    r := new Registry();
    assert events[..0] == [];
    for i := 0 to |events|
      invariant r.Valid() && r.View() == After(events[..i])
      invariant fresh(r) && (forall p :: p in r.polls.Values ==> fresh(p)) && fresh(r.readers) && fresh(r.writers)
      invariant fresh(r.refs) && fresh(r.cancellations)
    {
      var _ := r.Step(events[i]);
      assert events[..i + 1][..i] == events[..i];
    }
    assert events[..|events|] == events;
  }
}
