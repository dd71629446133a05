/**
 The agent harness's two shared objects: the store of agent runs, a log and its projection
 (plugins/agent-harness/store.go), and the table of runs that are live in this process
 (plugins/agent-harness/runreg.go).
 */
module AgentStore {
  import opened Wrappers

  datatype Status = Running | Completed | Failed | Cancelled | Timeout

  datatype AgentRun = AgentRun(id: string, context: string, workspace: string, prompt: string, provider: string,
                               native: string, status: Status, sessionRef: string, metadata: string, frames: int,
                               startedAt: string, endedAt: string)

  /** What a provider's return adds to its run; providers report one of the terminal statuses. */
  datatype Ending = Ending(status: Status, sessionRef: string, frames: int, metadata: string, at: string)

  datatype Op =
    | RunStarted(run: AgentRun)
    | RunCompleted(id: string, ending: Ending)
    | RunCancelled(id: string, at: string)

  datatype Error = NotFound | AlreadyTerminal | Io

  datatype Projection = Projection(byId: map<string, AgentRun>, byContext: map<string, seq<string>>)

  datatype Stored = Stored(view: Projection, log: seq<Op>)

  const EMPTY := Projection(map[], map[])

  function Ended(run: AgentRun, op: Op): AgentRun
    requires !op.RunStarted?
  {
    match op
    case RunCompleted(_, e) =>
      run.(status := e.status, sessionRef := e.sessionRef, frames := e.frames, metadata := e.metadata, endedAt := e.at)
    case RunCancelled(_, at) => run.(status := Cancelled, endedAt := at)
  }

  function ListedUnder(byContext: map<string, seq<string>>, context: string): seq<string> {
    if context in byContext then byContext[context] else []
  }

  function Applied(p: Projection, op: Op): Result<Projection, Error> {
    if op.RunStarted? then
      Ok(Projection(p.byId[op.run.id := op.run],
                    p.byContext[op.run.context := ListedUnder(p.byContext, op.run.context) + [op.run.id]]))
    else if op.id !in p.byId then Err(NotFound)
    else Ok(p.(byId := p.byId[op.id := Ended(p.byId[op.id], op)]))
  }

  function Replayed(log: seq<Op>): Result<Projection, Error> {
    if log == [] then Ok(EMPTY)
    else
      var before := Replayed(log[..|log| - 1]);
      if before.Err? then before else Applied(before.value, log[|log| - 1])
  }

  /** The store after `op` was appended and applied. */
  function Logged(s: Stored, op: Op): Stored {
    if Applied(s.view, op).Ok? then Stored(Applied(s.view, op).value, s.log + [op]) else s
  }

  /** Why the store refuses to end a run, if it does. */
  function Refusal(s: Stored, id: string, ioOk: bool): Option<Error> {
    if id !in s.view.byId then Some(NotFound)
    else if !s.view.byId[id].status.Running? then Some(AlreadyTerminal)
    else if !ioOk then Some(Io)
    else None
  }

  class Store {
    var byId: map<string, AgentRun>
    var byContext: map<string, seq<string>>
    var log: seq<Op>

    function Value(): Stored
      reads this
    {
      Stored(Projection(byId, byContext), log)
    }

    /** An acknowledged log replays to what is in memory. */
    ghost predicate Valid()
      reads this
    {
      Replayed(log) == Ok(Value().view)
    }

    /** Load: the projection is rebuilt from the log. */
    constructor Load(log: seq<Op>)
      requires Replayed(log).Ok?
      ensures Valid() && this.log == log
    {
      this.log := log;
      byId, byContext := map[], map[];
      new;
      for i := 0 to |log|
        invariant this.log == log
        invariant Replayed(log[..i]) == Ok(Projection(byId, byContext))
      {
        PrefixReplays(log, i + 1);
        assert log[..i + 1][..i] == log[..i];
        Apply(log[i]);
      }
      assert log[..|log|] == log;
    }

    method Apply(op: Op)
      requires Applied(Value().view, op).Ok?
      modifies this`byId, this`byContext
      ensures Value().view == Applied(old(Value().view), op).value
    {
      match op {
        case RunStarted(run) =>
          byId := byId[run.id := run];
          byContext := byContext[run.context := ListedUnder(byContext, run.context) + [run.id]];
        case RunCompleted(id, _) => byId := byId[id := Ended(byId[id], op)];
        case RunCancelled(id, _) => byId := byId[id := Ended(byId[id], op)];
      }
    }

    method Append(op: Op, ioOk: bool) returns (error: Option<Error>)
      requires Valid() && Applied(Value().view, op).Ok?
      modifies this
      ensures Valid()
      ensures error == if ioOk then None else Some(Io)
      ensures Value() == if ioOk then Logged(old(Value()), op) else old(Value())
    {
      if !ioOk {
        return Some(Io);
      }
      assert (log + [op])[..|log|] == log;
      log := log + [op];
      Apply(op);
      error := None;
    }

    method RecordStarted(run: AgentRun, ioOk: bool) returns (error: Option<Error>)
      requires Valid()
      modifies this
      ensures Valid()
      ensures error == if ioOk then None else Some(Io)
      ensures Value() == if ioOk then Logged(old(Value()), RunStarted(run)) else old(Value())
    {
      error := Append(RunStarted(run), ioOk);
    }

    method RecordCompleted(id: string, ending: Ending, ioOk: bool) returns (error: Option<Error>)
      requires Valid()
      modifies this
      ensures Valid() && error == Refusal(old(Value()), id, ioOk)
      ensures Value() == if error.None? then Logged(old(Value()), RunCompleted(id, ending)) else old(Value())
      ensures error.None? ==>
                && byContext == old(byContext) && id in old(byId)
                && byId == old(byId)[id := old(byId)[id].(status := ending.status, sessionRef := ending.sessionRef,
                                                          frames := ending.frames, metadata := ending.metadata,
                                                          endedAt := ending.at)]
    {
      if id !in byId {
        return Some(NotFound);
      }
      if byId[id].status != Running {
        return Some(AlreadyTerminal);
      }
      error := Append(RunCompleted(id, ending), ioOk);
    }

    method RecordCancelled(id: string, at: string, ioOk: bool) returns (error: Option<Error>)
      requires Valid()
      modifies this
      ensures Valid() && error == Refusal(old(Value()), id, ioOk)
      ensures Value() == if error.None? then Logged(old(Value()), RunCancelled(id, at)) else old(Value())
      ensures error.None? ==>
                && byContext == old(byContext) && id in old(byId)
                && byId == old(byId)[id := old(byId)[id].(status := Cancelled, endedAt := at)]
    {
      if id !in byId {
        return Some(NotFound);
      }
      if byId[id].status != Running {
        return Some(AlreadyTerminal);
      }
      error := Append(RunCancelled(id, at), ioOk);
    }
  }

  lemma {:induction false} PrefixReplays(log: seq<Op>, n: nat)
    requires Replayed(log).Ok? && n <= |log|
    ensures Replayed(log[..n]).Ok?
    decreases |log|
  {
    if n == |log| {
      assert log[..n] == log;
    } else {
      PrefixReplays(log[..|log| - 1], n);
      assert log[..|log| - 1][..n] == log[..n];
    }
  }

  // ----- The runs of a context -----

  /** The ids of the runs started in the context, in order. */
  function StartedIn(log: seq<Op>, context: string): seq<string> {
    if log == [] then []
    else
      var last := log[|log| - 1];
      StartedIn(log[..|log| - 1], context) + if last.RunStarted? && last.run.context == context then [last.run.id] else []
  }

  /** A context lists exactly the runs started in it, and each run keeps what it was started with until it ends. */
  lemma {:induction false} ContextsListTheirRuns(log: seq<Op>, context: string)
    requires Replayed(log).Ok?
    ensures ListedUnder(Replayed(log).value.byContext, context) == StartedIn(log, context)
  {
    if log == [] {
    } else {
      ContextsListTheirRuns(log[..|log| - 1], context);
    }
  }

  // ----- Terminal records -----

  /** The log's records that end run `id`. */
  function Terminals(log: seq<Op>, id: string): seq<Op> {
    if log == [] then []
    else
      var last := log[|log| - 1];
      Terminals(log[..|log| - 1], id) + if !last.RunStarted? && last.id == id then [last] else []
  }

  /** A run in memory is unended while the log ends it nowhere, and otherwise ended by one record, the one that shows. */
  ghost predicate EndedOnce(s: Stored) {
    && Replayed(s.log) == Ok(s.view)
    && (forall id | id !in s.view.byId :: Terminals(s.log, id) == [])
    && (forall id | id in s.view.byId :: Shows(s.view.byId[id], Terminals(s.log, id)))
  }

  ghost predicate Shows(run: AgentRun, terminals: seq<Op>) {
    if run.status.Running? then terminals == []
    else |terminals| == 1 && !terminals[0].RunStarted? && run == Ended(run, terminals[0])
  }

  lemma LoggedTerminals(s: Stored, op: Op, id: string)
    requires Applied(s.view, op).Ok?
    ensures Terminals(Logged(s, op).log, id) == Terminals(s.log, id) + if !op.RunStarted? && op.id == id then [op] else []
    ensures Replayed(s.log) == Ok(s.view) ==> Replayed(Logged(s, op).log) == Ok(Logged(s, op).view)
  {
    assert (s.log + [op])[..|s.log|] == s.log;
  }

  /** Starting a run under a fresh id, and ending one that runs, keep every run to at most one terminal record. */
  lemma LoggedEndsOnce(s: Stored, op: Op)
    requires EndedOnce(s)
    requires op.RunStarted? ==> op.run.id !in s.view.byId && op.run.status.Running?
    requires op.RunCompleted? ==> !op.ending.status.Running?
    requires !op.RunStarted? ==> op.id in s.view.byId && s.view.byId[op.id].status.Running?
    ensures EndedOnce(Logged(s, op))
  {
    var after := Logged(s, op);
    forall id ensures id !in after.view.byId ==> Terminals(after.log, id) == []
              ensures id in after.view.byId ==> Shows(after.view.byId[id], Terminals(after.log, id))
    {
      LoggedTerminals(s, op, id);
    }
    LoggedTerminals(s, op, "");
  }

  // ----- The table of live runs -----

  /** The context's cancel function behind its once-flag, and the channel the run closes when it is over. */
  class RunEntry {
    var fired: bool
    /** How often the cancel function was called. */
    ghost var calls: nat
    var closed: bool

    constructor ()
      ensures !fired && calls == 0 && !closed
    {
      fired, calls, closed := false, 0, false;
    }

    ghost predicate Valid()
      reads this
    {
      calls == if fired then 1 else 0
    }

    method Cancel()
      requires Valid()
      modifies this`fired, this`calls
      ensures Valid() && fired && calls == 1
    {
      if !fired {
        fired, calls := true, calls + 1;
      }
    }
  }

  class RunRegistry {
    var entries: map<string, RunEntry>

    constructor ()
      ensures entries == map[]
    {
      entries := map[];
    }

    method Register(id: string, entry: RunEntry)
      modifies this
      ensures entries == old(entries)[id := entry]
    {
      entries := entries[id := entry];
    }

    /** Cancels the run, once however many callers ask, and leaves it registered so that they all wait for it. */
    method Stop(id: string) returns (entry: Option<RunEntry>)
      requires id in entries ==> entries[id].Valid()
      modifies if id in entries then {entries[id]} else {}
      ensures entry == if id in entries then Some(entries[id]) else None
      ensures entry.Some? ==> entry.value.Valid() && entry.value.fired && entry.value.calls == 1
      ensures entry.Some? ==> entry.value.closed == old(entry.value.closed)
    {
      if id !in entries {
        return None;
      }
      entries[id].Cancel();
      entry := Some(entries[id]);
    }

    method Done(id: string)
      modifies this
      ensures entries == old(entries) - {id}
    {
      entries := entries - {id};
    }
  }
}
