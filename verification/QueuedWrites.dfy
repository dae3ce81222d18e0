/** The loop's two sets of streams with deferred writes: `_queue_write` and
    `_exec_queued_writes`.  The sets are objects: what the iteration walks over and
    what re-entrant writes add to must never be the same one. */
module QueuedWrites {
  import opened Histories

  type StreamId = nat

  /** In which of the two sets a stream is. */
  datatype Flags = Flags(queued: bool, executing: bool) {
    function Queue(): Flags {
      this.(queued := true)
    }

    function Swap(): Flags {
      Flags(executing, queued)
    }

    function Execute(): Flags {
      this.(executing := false)
    }
  }

  /** What happens to the sets. */
  datatype Entry = Queued(s: StreamId) | Swapped | Executed(s: StreamId)

  /** Where a run leaves one stream. */
  function FlagsOf(log: History<Entry>, s: StreamId): Flags {
    match log
    case Start => Flags(false, false)
    case Then(before, entry) =>
      var flags := FlagsOf(before, s);
      match entry
      case Queued(x) => if x == s then flags.Queue() else flags
      case Swapped => flags.Swap()
      case Executed(x) => if x == s then flags.Execute() else flags
  }

  /** The sets are swapped only when nothing is left to execute, and only streams in the set being
      executed are executed. */
  ghost predicate Follows(log: History<Entry>) {
    match log
    case Start => true
    case Then(before, entry) =>
      && Follows(before)
      && (entry.Swapped? ==> forall s :: !FlagsOf(before, s).executing)
      && (entry.Executed? ==> FlagsOf(before, entry.s).executing)
  }

  class StreamSet {
    var elems: set<StreamId>

    constructor ()
      ensures elems == {}
    {
      elems := {};
    }

    method Add(s: StreamId)
      modifies this
      ensures elems == old(elems) + {s}
    {
      elems := elems + {s};
    }

    method Clear()
      modifies this
      ensures elems == {}
    {
      elems := {};
    }
  }

  class WriteQueue {
    var queuedStreams: StreamSet
    var executingStreams: StreamSet
    var checkRunning: bool             // `handler_check__exec_writes.running`
    var running: bool                  // inside `_run`
    var script: seq<seq<StreamId>>     // streams written to by the callbacks of each `_exec_write`
    ghost var executed: seq<StreamId>  // `_exec_write` calls, in order
    ghost var requested: set<StreamId> // `_queue_write` calls since the last execution began
    ghost var log: History<Entry>

    /** The run so far is in order, and agrees with the sets; `left` is still to be executed. */
    ghost predicate LogValid(left: set<StreamId>)
      reads `log, `queuedStreams, queuedStreams
    {
      Follows(log) && forall s :: FlagsOf(log, s) == Flags(s in queuedStreams.elems, s in left)
    }

    ghost predicate Valid()
      reads this, queuedStreams
    {
      && queuedStreams != executingStreams
      && (running && queuedStreams.elems != {} ==> checkRunning)
    }

    constructor (script: seq<seq<StreamId>>)
      ensures Valid() && queuedStreams.elems == executingStreams.elems == {} && executed == []
      ensures fresh(queuedStreams) && fresh(executingStreams) && !running && LogValid({})
    {
      queuedStreams := new StreamSet();
      executingStreams := new StreamSet();
      checkRunning, running, this.script, executed, requested, log := false, false, script, [], {}, Start;
    }

    /** `_run` starts the check handle on entry and stops it at the end. */
    method SetRunning(on: bool)
      requires Valid()
      modifies `running, `checkRunning
      ensures Valid() && running == checkRunning == on
    {
      running, checkRunning := on, on;
    }

    /** `_queue_write`. */
    method QueueWrite(s: StreamId)
      requires Valid()
      modifies `checkRunning, `requested, `log, queuedStreams
      ensures Valid() && checkRunning && log == Then(old(log), Queued(s))
      ensures queuedStreams.elems == old(queuedStreams.elems) + {s} && requested == old(requested) + {s}
    {
      queuedStreams.Add(s);
      requested, log := requested + {s}, Then(log, Queued(s));
      if !checkRunning {
        checkRunning := true;
      }
    }

    /** `_exec_write` of one stream: its protocol may write to any streams. */
    method ExecWrite(s: StreamId, ghost left: set<StreamId>)
      requires Valid() && queuedStreams.elems == requested && s in left && LogValid(left)
      modifies `checkRunning, `requested, `script, `executed, `log, queuedStreams
      ensures Valid() && queuedStreams.elems == requested && executed == old(executed) + [s]
      ensures LogValid(left - {s})
      ensures requested == old(requested) + (if |old(script)| == 0 then {} else Members(old(script)[0]))
      ensures script == if |old(script)| == 0 then [] else old(script)[1..]
    {
      executed, log := executed + [s], Then(log, Executed(s));
      if |script| > 0 {
        var writes := script[0];
        script := script[1..];
        for i := 0 to |writes|
          invariant Valid() && queuedStreams.elems == requested && LogValid(left - {s})
          invariant requested == old(requested) + Members(writes[..i])
          invariant executed == old(executed) + [s] && script == old(script)[1..]
        {
          QueueWrite(writes[i]);
          assert writes[..i + 1] == writes[..i] + [writes[i]];
        }
        assert writes[..|writes|] == writes;
      }
    }

    /** `_exec_queued_writes`, called by the check handle and by `_on_idle`.  It
        executes exactly the streams queued when it began, each once, walking over a
        set that no callback changes; exactly the streams written to meanwhile stay
        queued, for the next time. */
    method ExecQueuedWrites()
      requires Valid() && executingStreams.elems == {} && LogValid({})
      modifies this, queuedStreams, executingStreams
      ensures Valid() && executingStreams.elems == {} && running == old(running) && LogValid({})
      ensures {queuedStreams, executingStreams} == old({queuedStreams, executingStreams})
      ensures queuedStreams.elems == requested && (queuedStreams.elems == {} ==> !checkRunning)
      ensures |executed| == |old(executed)| + |old(queuedStreams.elems)|
      ensures executed[..|old(executed)|] == old(executed)
      ensures Members(executed[|old(executed)|..]) == old(queuedStreams.elems)
    {
      requested := {};
      if queuedStreams.elems == {} {
        if checkRunning {
          checkRunning := false;
        }
        assert executed[|old(executed)|..] == [];
        return;
      }
      var streams := queuedStreams;
      queuedStreams := executingStreams;
      executingStreams := streams;
      log := Then(log, Swapped);
      ghost var visited := ExecAll(streams);
      assert executed[|old(executed)|..] == visited;
      streams.Clear();
      if checkRunning {
        if queuedStreams.elems == {} {
          checkRunning := false;
        }
      }
    }

    /** The iteration over the set being executed. */
    method ExecAll(streams: StreamSet) returns (ghost visited: seq<StreamId>)
      requires Valid() && streams == executingStreams && queuedStreams.elems == requested && LogValid(streams.elems)
      modifies `checkRunning, `requested, `script, `executed, `log, queuedStreams
      ensures Valid() && queuedStreams.elems == requested && streams.elems == old(streams.elems) && LogValid({})
      ensures executed == old(executed) + visited
      ensures Covers(visited, streams.elems)
    {
      hide Covers, WriteQueue.LogValid, Members;
      visited := [];
      CoversNone();
      ghost var all := streams.elems;
      var left := streams.elems;
      assert all - left == {};
      while left != {}
        invariant Valid() && queuedStreams.elems == requested && LogValid(left)
        invariant streams.elems == all && left <= all
        invariant executed == old(executed) + visited
        invariant Covers(visited, all - left)
        decreases left
      {
        var s :| s in left;
        ExecWrite(s, left);
        CoversSnoc(visited, all - left, s);
        assert all - left + {s} == all - (left - {s});
        visited := visited + [s];
        left := left - {s};
      }
      assert all - left == all;
    }
  }

  /** What can happen to the loop's sets. */
  datatype Event = QueueWrite(s: StreamId) | ExecQueuedWrites | SetRunning(on: bool)

  /** Every run: a stream in the queue stays there until the sets are swapped, and is then executed
      before they are swapped again; while the loop runs, the check handle sees to that. */
  method AnyRun(script: seq<seq<StreamId>>, events: seq<Event>) returns (q: WriteQueue)
    ensures fresh(q) && Follows(q.log)
    ensures forall s :: FlagsOf(q.log, s) == Flags(s in q.queuedStreams.elems, false)
    ensures q.running && q.queuedStreams.elems != {} ==> q.checkRunning
  {
    q := new WriteQueue(script);
    for i := 0 to |events|
      invariant fresh(q) && fresh(q.queuedStreams) && fresh(q.executingStreams)
      invariant q.Valid() && q.executingStreams.elems == {} && q.LogValid({})
    {
      match events[i]
      case QueueWrite(s) => q.QueueWrite(s);
      case ExecQueuedWrites => q.ExecQueuedWrites();
      case SetRunning(on) => q.SetRunning(on);
    }
  }

  /** `s` lists each element of `all` once. */
  ghost predicate Covers(s: seq<StreamId>, all: set<StreamId>) {
    |s| == |all| && Members(s) == all
  }

  lemma CoversNone()
    ensures Covers([], {})
  {
  }

  lemma CoversSnoc(s: seq<StreamId>, all: set<StreamId>, x: StreamId)
    requires Covers(s, all) && x !in all
    ensures Covers(s + [x], all + {x})
  {
    assert Members(s + [x]) == Members(s) + {x};
  }

  function Members(s: seq<StreamId>): set<StreamId> {
    set x | x in s
  }
}
