/**
 The event-sourced work registry (plugins/work-registry/store.go): tasks, work contexts and idempotency keys
 projected from a log, with compare-and-swap versions on every change.
 */
module WorkRegistry {
  import opened Wrappers
  import L = LogFile

  datatype Status = Planned | InProgress | InReview | Done | Failed

  datatype Error = NotFound | Conflict | IllegalTransition | Io

  datatype Evidence = Evidence(id: string, kind: string, sourceCapability: string, sourceId: string,
                               outcome: string, contentHash: string)

  datatype Task = Task(id: string, title: string, goal: string, scope: string, acceptance: seq<(string, string)>,
                       status: Status, version: int, context: string)

  datatype WorkContext = WorkContext(id: string, task: string, repo: string, evidence: seq<Evidence>, version: int)

  datatype CreateInput = CreateInput(title: string, goal: string, scope: string, repo: string,
                                     acceptance: seq<(string, string)>, key: string)

  datatype Op =
    | Created(task: Task, made: WorkContext, key: string)
    | Transitioned(context: string, from: Status, to: Status, versionAfter: int)
    | Attached(holder: string, evidence: Evidence)

  datatype Record = Record(seqNo: int, op: Op)

  datatype Projection = Projection(tasks: map<string, Task>, contexts: map<string, WorkContext>,
                                   taskOf: map<string, string>, keys: map<string, string>)

  const EMPTY := Projection(map[], map[], map[], map[])

  predicate Legal(from: Status, to: Status) {
    || (to == Failed && from != Done && from != Failed)
    || (from == Planned && to == InProgress)
    || (from == InProgress && to == InReview)
    || (from == InReview && to == Done)
  }

  function TaskAt(p: Projection, context: string): Option<Task> {
    if context in p.taskOf && p.taskOf[context] in p.tasks then Some(p.tasks[p.taskOf[context]]) else None
  }

  function Apply(p: Projection, op: Op): Option<Projection> {
    match op
    case Created(task, made, key) =>
      Some(Projection(p.tasks[task.id := task], p.contexts[made.id := made], p.taskOf[made.id := task.id],
                      if key != "" then p.keys[key := task.id] else p.keys))
    case Transitioned(context, _, to, versionAfter) =>
      var task := TaskAt(p, context);
      if task.None? then None
      else Some(p.(tasks := p.tasks[p.taskOf[context] := task.value.(status := to, version := versionAfter)]))
    case Attached(holder, evidence) =>
      if holder !in p.contexts then None
      else
        var wc := p.contexts[holder];
        Some(p.(contexts := p.contexts[holder := wc.(evidence := wc.evidence + [evidence], version := wc.version + 1)]))
  }

  /** The projection a log replays to. */
  function Replay(log: seq<Op>): Option<Projection> {
    if log == [] then Some(EMPTY)
    else
      var before := Replay(log[..|log| - 1]);
      if before.None? then None else Apply(before.value, log[|log| - 1])
  }

  function Ops(file: seq<Record>): seq<Op> {
    seq(|file|, i requires 0 <= i < |file| => file[i].op)
  }

  // ----- What the store accepts -----

  function NewTask(i: CreateInput, task: string, context: string): Task {
    Task(task, i.title, i.goal, i.scope, i.acceptance, Planned, 1, context)
  }

  function NewContext(i: CreateInput, task: string, context: string): WorkContext {
    WorkContext(context, task, i.repo, [], 1)
  }

  /** A new task and its context say what the request said, and point at each other. */
  predicate AsAsked(i: CreateInput, t: Task, c: WorkContext) {
    && t.title == i.title && t.goal == i.goal && t.scope == i.scope && t.acceptance == i.acceptance && c.repo == i.repo
    && t.status == Planned && t.version == 1 && c.version == 1 && c.evidence == []
    && t.context == c.id && c.task == t.id
  }

  /** A record that one accepted request appends to a store in state `p`. */
  ghost predicate Accepted(p: Projection, op: Op) {
    match op
    case Created(task, made, key) =>
      && task.id !in p.tasks && made.id !in p.contexts && made.id !in p.taskOf
      && task.status == Planned && task.version == 1 && task.context == made.id
      && made.task == task.id && made.evidence == [] && made.version == 1
      && (key != "" ==> key !in p.keys)
    case Transitioned(context, from, to, versionAfter) =>
      var task := TaskAt(p, context);
      task.Some? && task.value.status == from && Legal(from, to) && versionAfter == task.value.version + 1
    case Attached(holder, _) => holder in p.contexts
  }

  /** A log in which every record was accepted by the store as the records before it had left it. */
  ghost predicate History(log: seq<Op>) {
    log != [] ==>
      && History(log[..|log| - 1])
      && Replay(log[..|log| - 1]).Some?
      && Accepted(Replay(log[..|log| - 1]).value, log[|log| - 1])
  }

  /** The store object: the log file and the projection kept beside it. */
  class Store {
    var file: seq<Record>
    var seqNo: int
    var tasks: map<string, Task>
    var contexts: map<string, WorkContext>
    var taskOf: map<string, string>
    var keys: map<string, string>

    function Value(): Projection
      reads this
    {
      Projection(tasks, contexts, taskOf, keys)
    }

    /** The live projection is what the log replays to, and the log is a history of accepted requests. */
    ghost predicate Valid()
      reads this
    {
      && History(Ops(file))
      && Replay(Ops(file)) == Some(Value())
      && seqNo == |file|
      && forall i | 0 <= i < |file| :: file[i].seqNo == i + 1
    }

    constructor ()
      ensures Valid() && file == []
    {
      file, seqNo := [], 0;
      tasks, contexts, taskOf, keys := map[], map[], map[], map[];
    }

    /** Load on an existing log, record by record. */
    constructor Load(file: seq<Record>)
      requires History(Ops(file)) && forall i | 0 <= i < |file| :: file[i].seqNo == i + 1
      ensures Valid() && this.file == file
    {
      hide Replay, Apply, History;
      this.file, seqNo := file, 0;
      tasks, contexts, taskOf, keys := map[], map[], map[], map[];
      new;
      NothingReplayed(file);
      for i := 0 to |file|
        invariant this.file == file && seqNo == i
        invariant Replay(Ops(file[..i])) == Some(Value())
      {
        PrefixApplies(file, i);
        ApplyOp(file[i].op);
        if file[i].seqNo > seqNo {
          seqNo := file[i].seqNo;
        }
      }
      assert file[..|file|] == file;
    }

    method ApplyOp(op: Op)
      requires Apply(Value(), op).Some?
      modifies this`tasks, this`contexts, this`taskOf, this`keys
      ensures Apply(old(Value()), op) == Some(Value())
    {
      match op {
        case Created(task, made, key) =>
          tasks := tasks[task.id := task];
          contexts := contexts[made.id := made];
          taskOf := taskOf[made.id := task.id];
          if key != "" {
            keys := keys[key := task.id];
          }
        case Transitioned(context, _, to, versionAfter) =>
          var id := taskOf[context];
          tasks := tasks[id := tasks[id].(status := to, version := versionAfter)];
        case Attached(holder, evidence) =>
          var wc := contexts[holder];
          contexts := contexts[holder := wc.(evidence := wc.evidence + [evidence], version := wc.version + 1)];
      }
    }

    /** append: write one line, then apply it; a write that fails leaves the store as it was. */
    method Append(op: Op, ioOk: bool) returns (ok: bool)
      requires Valid() && Accepted(Value(), op)
      modifies this
      ensures Valid() && ok == ioOk
      ensures file == if ok then old(file) + [Record(|old(file)| + 1, op)] else old(file)
      ensures if ok then Apply(old(Value()), op) == Some(Value()) else Value() == old(Value())
    {
      if ioOk {
        AcceptedApplies(Value(), op);
        file := file + [Record(seqNo + 1, op)];
        ApplyOp(op);
        seqNo := seqNo + 1;
        assert Ops(file)[..|file| - 1] == Ops(old(file));
      }
      ok := ioOk;
    }

    /** The same idempotency key returns the same task and appends nothing. */
    method CreateTask(i: CreateInput, freshTask: string, freshContext: string, ioOk: bool)
      returns (r: Result<(Task, WorkContext, bool), Error>)
      requires Valid() && freshTask !in tasks && freshContext !in contexts && freshContext !in taskOf
      modifies this
      ensures Valid()
      ensures i.key != "" && i.key in old(keys) ==>
                && file == old(file) && Value() == old(Value())
                && r.Ok? && r.value.2 && r.value.0.id == old(keys)[i.key] && r.value.0.id in tasks
                && r.value.0 == tasks[r.value.0.id] && r.value.1.task == r.value.0.id
      ensures !(i.key != "" && i.key in old(keys)) && ioOk ==>
                && r == Ok((NewTask(i, freshTask, freshContext), NewContext(i, freshTask, freshContext), false))
                && Ops(file) == Ops(old(file)) + [Created(r.value.0, r.value.1, i.key)]
                && AsAsked(i, r.value.0, r.value.1) && r.value.0.id == freshTask && r.value.1.id == freshContext
                && freshTask in tasks && tasks[freshTask] == r.value.0
                && (i.key != "" ==> i.key in keys && keys[i.key] == freshTask)
      ensures !(i.key != "" && i.key in old(keys)) && !ioOk ==> r == Err(Io) && file == old(file) && Value() == old(Value())
    {
      if i.key != "" && i.key in keys {
        KeysNameTasks(Ops(file));
        var t := tasks[keys[i.key]];
        return Ok((t, contexts[t.context], true));
      }
      var task, made := NewTask(i, freshTask, freshContext), NewContext(i, freshTask, freshContext);
      var ok := Append(Created(task, made, i.key), ioOk);
      if !ok {
        return Err(Io);
      }
      r := Ok((tasks[freshTask], contexts[freshContext], false));
    }

    /** One version is spent on each accepted transition; a refused one changes nothing and says why. */
    method Transition(context: string, to: Status, expected: int, ioOk: bool) returns (r: Result<Task, Error>)
      requires Valid()
      modifies this
      ensures Valid()
      ensures var task := TaskAt(old(Value()), context);
              if task.None? then r == Err(NotFound)
              else if task.value.version != expected then r == Err(Conflict)
              else if !Legal(task.value.status, to) then r == Err(IllegalTransition)
              else if !ioOk then r == Err(Io)
              else
                && r == Ok(task.value.(status := to, version := expected + 1))
                && TaskAt(Value(), context) == Some(r.value)
                && Ops(file) == Ops(old(file)) + [Transitioned(context, task.value.status, to, expected + 1)]
      ensures r.Err? ==> file == old(file) && Value() == old(Value())
    {
      if context !in taskOf {
        return Err(NotFound);
      }
      ContextHasTask(Ops(file), context);
      var task := tasks[taskOf[context]];
      if task.version != expected {
        return Err(Conflict);
      }
      if !Legal(task.status, to) {
        return Err(IllegalTransition);
      }
      var ok := Append(Transitioned(context, task.status, to, task.version + 1), ioOk);
      if !ok {
        return Err(Io);
      }
      r := Ok(tasks[taskOf[context]]);
    }

    method AttachEvidence(context: string, evidence: Evidence, freshId: string, expected: int, ioOk: bool)
      returns (r: Result<(Evidence, WorkContext), Error>)
      requires Valid()
      modifies this
      ensures Valid()
      ensures if context !in old(contexts) then r == Err(NotFound)
              else if old(contexts)[context].version != expected then r == Err(Conflict)
              else if !ioOk then r == Err(Io)
              else
                && r.Ok? && r.value.0 == evidence.(id := freshId)
                && context in contexts && contexts[context] == r.value.1
                && r.value.1.version == expected + 1 && r.value.1.evidence == old(contexts)[context].evidence + [r.value.0]
                && Ops(file) == Ops(old(file)) + [Attached(context, r.value.0)]
      ensures r.Err? ==> file == old(file) && Value() == old(Value())
    {
      if context !in contexts {
        return Err(NotFound);
      }
      if contexts[context].version != expected {
        return Err(Conflict);
      }
      var stored := evidence.(id := freshId);
      var ok := Append(Attached(context, stored), ioOk);
      if !ok {
        return Err(Io);
      }
      r := Ok((stored, contexts[context]));
    }
  }

  lemma NothingReplayed(file: seq<Record>)
    ensures Replay(Ops(file[..0])) == Some(EMPTY)
  {
  }

  /** Each record of an acknowledged log applies to what the records before it replay to. */
  lemma PrefixApplies(file: seq<Record>, i: nat)
    requires History(Ops(file)) && i < |file|
    ensures Replay(Ops(file[..i])).Some? && Replay(Ops(file[..i + 1])).Some?
    ensures Replay(Ops(file[..i + 1])) == Apply(Replay(Ops(file[..i])).value, file[i].op)
  {
    hide Apply;
    PrefixReplays(Ops(file), i);
    PrefixReplays(Ops(file), i + 1);
    assert Ops(file)[..i + 1] == Ops(file[..i + 1]) && Ops(file[..i + 1])[..i] == Ops(file[..i]);
  }

  lemma AcceptedApplies(p: Projection, op: Op)
    requires Accepted(p, op)
    ensures Apply(p, op).Some?
  {
  }

  lemma {:induction false} HistoryReplays(log: seq<Op>)
    requires History(log)
    ensures Replay(log).Some?
  {
    if log != [] {
      HistoryReplays(log[..|log| - 1]);
      AcceptedApplies(Replay(log[..|log| - 1]).value, log[|log| - 1]);
    }
  }

  lemma {:induction false} PrefixReplays(log: seq<Op>, n: nat)
    requires History(log) && n <= |log|
    ensures History(log[..n]) && Replay(log[..n]).Some?
    decreases |log|
  {
    if n == |log| {
      assert log[..n] == log;
      HistoryReplays(log);
    } else {
      PrefixReplays(log[..|log| - 1], n);
      assert log[..|log| - 1][..n] == log[..n];
    }
  }

  // ----- What holds of every history -----

  function Transitions(log: seq<Op>, context: string): nat {
    if log == [] then 0
    else
      var last := log[|log| - 1];
      Transitions(log[..|log| - 1], context) + if last.Transitioned? && last.context == context then 1 else 0
  }

  function Attachments(log: seq<Op>, context: string): nat {
    if log == [] then 0
    else
      var last := log[|log| - 1];
      Attachments(log[..|log| - 1], context) + if last.Attached? && last.holder == context then 1 else 0
  }

  predicate VersionFits(t: Task) {
    match t.status
    case Planned => t.version == 1
    case InProgress => t.version == 2
    case InReview => t.version == 3
    case Done => t.version == 4
    case Failed => 2 <= t.version <= 4
  }

  /** Contexts and tasks point at each other, and every key names a task. */
  ghost predicate Wired(p: Projection) {
    && p.taskOf.Keys == p.contexts.Keys
    && (forall c | c in p.taskOf :: p.taskOf[c] in p.tasks && p.tasks[p.taskOf[c]].context == c && p.contexts[c].task == p.taskOf[c])
    && (forall t | t in p.tasks :: p.tasks[t].id == t && p.tasks[t].context in p.taskOf && p.taskOf[p.tasks[t].context] == t)
    && (forall k | k in p.keys :: p.keys[k] in p.tasks)
  }

  ghost predicate TasksCounted(log: seq<Op>, p: Projection) {
    forall t | t in p.tasks :: p.tasks[t].version == 1 + Transitions(log, p.tasks[t].context) && VersionFits(p.tasks[t])
  }

  ghost predicate ContextsCounted(log: seq<Op>, p: Projection) {
    && (forall c | c in p.contexts ::
          p.contexts[c].version == 1 + |p.contexts[c].evidence| && |p.contexts[c].evidence| == Attachments(log, c))
    && (forall c | c !in p.contexts :: Transitions(log, c) == 0 && Attachments(log, c) == 0)
  }

  ghost predicate Counted(log: seq<Op>, p: Projection) {
    TasksCounted(log, p) && ContextsCounted(log, p)
  }

  lemma {:induction false} HistoryInvariant(log: seq<Op>)
    requires History(log)
    ensures Replay(log).Some? && Wired(Replay(log).value) && Counted(log, Replay(log).value)
  {
    if log != [] {
      var before, op := log[..|log| - 1], log[|log| - 1];
      HistoryInvariant(before);
      assert log == before + [op];
      StepWired(Replay(before).value, op);
      StepTasksCounted(before, op);
      StepContextsCounted(before, op);
    }
  }

  lemma StepWired(p: Projection, op: Op)
    requires Wired(p) && Accepted(p, op)
    ensures Apply(p, op).Some? && Wired(Apply(p, op).value)
  {
  }

  lemma OneMore(log: seq<Op>, op: Op, c: string)
    ensures Transitions(log + [op], c) == Transitions(log, c) + if op.Transitioned? && op.context == c then 1 else 0
    ensures Attachments(log + [op], c) == Attachments(log, c) + if op.Attached? && op.holder == c then 1 else 0
  {
    assert (log + [op])[..|log|] == log;
  }

  lemma StepTasksCounted(log: seq<Op>, op: Op)
    requires Replay(log).Some? && Wired(Replay(log).value) && Accepted(Replay(log).value, op)
    requires TasksCounted(log, Replay(log).value) && ContextsCounted(log, Replay(log).value)
    ensures Apply(Replay(log).value, op).Some? && TasksCounted(log + [op], Apply(Replay(log).value, op).value)
  {
    var q := Apply(Replay(log).value, op).value;
    forall t | t in q.tasks
      ensures q.tasks[t].version == 1 + Transitions(log + [op], q.tasks[t].context) && VersionFits(q.tasks[t])
    {
      OneMore(log, op, q.tasks[t].context);
    }
  }

  lemma StepContextsCounted(log: seq<Op>, op: Op)
    requires Replay(log).Some? && Wired(Replay(log).value) && Accepted(Replay(log).value, op)
    requires ContextsCounted(log, Replay(log).value)
    ensures Apply(Replay(log).value, op).Some? && ContextsCounted(log + [op], Apply(Replay(log).value, op).value)
  {
    var q := Apply(Replay(log).value, op).value;
    forall c
      ensures c in q.contexts ==>
                q.contexts[c].version == 1 + |q.contexts[c].evidence| && |q.contexts[c].evidence| == Attachments(log + [op], c)
      ensures c !in q.contexts ==> Transitions(log + [op], c) == 0 && Attachments(log + [op], c) == 0
    {
      OneMore(log, op, c);
    }
  }

  lemma ContextsAreWired(log: seq<Op>)
    requires History(log) && Replay(log).Some?
    ensures Wired(Replay(log).value)
  {
    HistoryInvariant(log);
  }

  lemma ContextHasTask(log: seq<Op>, context: string)
    requires History(log) && Replay(log).Some? && context in Replay(log).value.taskOf
    ensures TaskAt(Replay(log).value, context).Some?
  {
    HistoryInvariant(log);
  }

  lemma KeysNameTasks(log: seq<Op>)
    requires History(log) && Replay(log).Some?
    ensures var p := Replay(log).value;
            forall k | k in p.keys :: p.keys[k] in p.tasks && p.tasks[p.keys[k]].context in p.contexts &&
                                      p.tasks[p.keys[k]].id == p.keys[k] &&
                                      p.contexts[p.tasks[p.keys[k]].context].task == p.keys[k]
  {
    HistoryInvariant(log);
  }

  /** A task's version counts its accepted transitions and never passes 4; a context's counts its evidence. */
  lemma VersionsCount(log: seq<Op>, t: string, c: string)
    requires History(log)
    ensures Replay(log).Some?
    ensures var p := Replay(log).value;
            && (t in p.tasks ==>
                  && p.tasks[t].version == 1 + Transitions(log, p.tasks[t].context)
                  && 1 <= p.tasks[t].version <= 4
                  && (p.tasks[t].status == Done ==> p.tasks[t].version == 4))
            && (c in p.contexts ==>
                  && p.contexts[c].version == 1 + |p.contexts[c].evidence|
                  && |p.contexts[c].evidence| == Attachments(log, c))
  {
    HistoryInvariant(log);
  }

  /** What one accepted record leaves of an existing task: its identity, and everything once it is Done or Failed. */
  lemma StepKeepsTask(p: Projection, op: Op, t: string)
    requires Wired(p) && Accepted(p, op) && t in p.tasks
    ensures var q := Apply(p, op);
            && q.Some? && t in q.value.tasks
            && q.value.tasks[t].context == p.tasks[t].context
            && q.value.tasks[t].version >= p.tasks[t].version
            && (p.tasks[t].status in {Done, Failed} ==> q.value.tasks[t] == p.tasks[t])
  {
  }

  /** DONE and FAILED are final: the task never changes again, through any further records. */
  lemma {:induction false} TerminalForever(log: seq<Op>, n: nat, t: string)
    requires History(log) && n <= |log|
    ensures Replay(log[..n]).Some? && Replay(log).Some?
    ensures t in Replay(log[..n]).value.tasks ==> t in Replay(log).value.tasks
    ensures t in Replay(log[..n]).value.tasks && Replay(log[..n]).value.tasks[t].status in {Done, Failed} ==>
              Replay(log).value.tasks[t] == Replay(log[..n]).value.tasks[t]
    decreases |log|
  {
    PrefixReplays(log, n);
    HistoryReplays(log);
    if n == |log| {
      assert log[..n] == log;
    } else {
      var before := log[..|log| - 1];
      assert before[..n] == log[..n];
      TerminalForever(before, n, t);
      ContextsAreWired(before);
      if t in Replay(before).value.tasks {
        StepKeepsTask(Replay(before).value, log[|log| - 1], t);
      }
    }
  }

  /** What a task and its context were created with, all but status, version and evidence. */
  predicate SameInput(t: Task, u: Task) {
    t.id == u.id && t.title == u.title && t.goal == u.goal && t.scope == u.scope && t.acceptance == u.acceptance &&
    t.context == u.context
  }

  predicate SameOrigin(c: WorkContext, d: WorkContext) {
    c.id == d.id && c.task == d.task && c.repo == d.repo && c.evidence <= d.evidence
  }

  lemma StepKeepsInput(p: Projection, op: Op, t: string, c: string)
    requires Wired(p) && Accepted(p, op)
    ensures var q := Apply(p, op);
            && q.Some?
            && (t in p.tasks ==> t in q.value.tasks && SameInput(p.tasks[t], q.value.tasks[t]))
            && (c in p.contexts ==> c in q.value.contexts && SameOrigin(p.contexts[c], q.value.contexts[c]))
  {
  }

  /** No record changes what a task or a context was created with, and evidence once attached stays, in its order. */
  lemma {:induction false} InputForever(log: seq<Op>, n: nat, t: string, c: string)
    requires History(log) && n <= |log|
    ensures Replay(log[..n]).Some? && Replay(log).Some?
    ensures var p, q := Replay(log[..n]).value, Replay(log).value;
            && (t in p.tasks ==> t in q.tasks && SameInput(p.tasks[t], q.tasks[t]))
            && (c in p.contexts ==> c in q.contexts && SameOrigin(p.contexts[c], q.contexts[c]))
    decreases |log|
  {
    hide Apply, Accepted;
    PrefixReplays(log, n);
    HistoryReplays(log);
    if n == |log| {
      assert log[..n] == log;
    } else {
      var before := log[..|log| - 1];
      assert before[..n] == log[..n];
      InputForever(before, n, t, c);
      ContextsAreWired(before);
      StepKeepsInput(Replay(before).value, log[|log| - 1], t, c);
    }
  }

  /** The one step forward from each status. */
  function Forward(s: Status): Option<Status> {
    match s
    case Planned => Some(InProgress)
    case InProgress => Some(InReview)
    case InReview => Some(Done)
    case Done => None
    case Failed => None
  }

  /** A task may be moved forward by one step or, unless it is over, to FAILED, and in no other way. */
  lemma MovesGranted(log: seq<Op>, t: string, to: Status)
    requires History(log) && Replay(log).Some? && t in Replay(log).value.tasks
    ensures var task := Replay(log).value.tasks[t];
            History(log + [Transitioned(task.context, task.status, to, task.version + 1)]) <==>
            Forward(task.status) == Some(to) || (to == Failed && Forward(task.status).Some?)
  {
    hide Replay, Wired, Counted;
    var task := Replay(log).value.tasks[t];
    var longer := log + [Transitioned(task.context, task.status, to, task.version + 1)];
    HistoryInvariant(log);
    assert longer[..|longer| - 1] == log;
    TaskIsAt(Replay(log).value, t);
  }

  lemma TaskIsAt(p: Projection, t: string)
    requires Wired(p) && t in p.tasks
    ensures TaskAt(p, p.tasks[t].context) == Some(p.tasks[t])
  {
  }

  /** A new task can be taken to DONE. */
  lemma DoneIsReachable(log: seq<Op>, t: string) returns (longer: seq<Op>)
    requires History(log) && Replay(log).Some? && t in Replay(log).value.tasks && Replay(log).value.tasks[t].status == Planned
    ensures log <= longer && History(longer) && Replay(longer).Some?
    ensures t in Replay(longer).value.tasks && Replay(longer).value.tasks[t].status == Done
  {
    hide Accepted, Legal, History;
    longer := MovedOn(log, t, InProgress);
    longer := MovedOn(longer, t, InReview);
    longer := MovedOn(longer, t, Done);
  }

  lemma MovedOn(log: seq<Op>, t: string, to: Status) returns (longer: seq<Op>)
    requires History(log) && Replay(log).Some? && t in Replay(log).value.tasks
    requires Forward(Replay(log).value.tasks[t].status) == Some(to)
    ensures log <= longer && History(longer) && Replay(longer).Some?
    ensures t in Replay(longer).value.tasks && Replay(longer).value.tasks[t].status == to
  {
    var task := Replay(log).value.tasks[t];
    MovesGranted(log, t, to);
    longer := log + [Transitioned(task.context, task.status, to, task.version + 1)];
    assert longer[..|log|] == log;
    HistoryReplays(longer);
    HistoryInvariant(log);
  }

  /** An idempotency key names one task forever. */
  lemma {:induction false} KeyNamesOneTask(log: seq<Op>, n: nat, k: string)
    requires History(log) && n <= |log|
    ensures Replay(log[..n]).Some? && Replay(log).Some?
    ensures k in Replay(log[..n]).value.keys ==>
              k in Replay(log).value.keys && Replay(log).value.keys[k] == Replay(log[..n]).value.keys[k]
    decreases |log|
  {
    PrefixReplays(log, n);
    HistoryReplays(log);
    if n == |log| {
      assert log[..n] == log;
    } else {
      assert log[..|log| - 1][..n] == log[..n];
      KeyNamesOneTask(log[..|log| - 1], n, k);
    }
  }

  lemma HistoryAt(log: seq<Op>, i: nat)
    requires History(log) && i < |log|
    ensures Replay(log[..i]).Some? && Accepted(Replay(log[..i]).value, log[i])
  {
    PrefixReplays(log, i + 1);
    assert log[..i + 1][..i] == log[..i];
  }

  /** Each version of a task is spent by at most one transition: later transitions of a context leave later versions. */
  lemma VersionSpentOnce(log: seq<Op>, i: nat, j: nat)
    requires History(log) && i < j < |log|
    requires log[i].Transitioned? && log[j].Transitioned? && log[i].context == log[j].context
    ensures log[i].versionAfter < log[j].versionAfter
  {
    HistoryAt(log, i);
    HistoryAt(log, j);
    PrefixReplays(log, i);
    PrefixReplays(log, j);
    HistoryInvariant(log[..i]);
    HistoryInvariant(log[..j]);
    TransitionsGrow(log, i, j, log[i].context);
  }

  lemma {:induction false} TransitionsGrow(log: seq<Op>, i: nat, j: nat, c: string)
    requires i < j <= |log| && log[i].Transitioned? && log[i].context == c
    ensures Transitions(log[..i], c) + 1 <= Transitions(log[..j], c)
    decreases j
  {
    assert log[..j][..j - 1] == log[..j - 1];
    if i < j - 1 {
      TransitionsGrow(log, i, j - 1, c);
    }
  }

  /** The statuses a context's task was moved to, in order. */
  function Path(log: seq<Op>, context: string): seq<Status> {
    if log == [] then []
    else
      var last := log[|log| - 1];
      Path(log[..|log| - 1], context) + if last.Transitioned? && last.context == context then [last.to] else []
  }

  predicate PathFits(s: Status, path: seq<Status>) {
    match s
    case Planned => path == []
    case InProgress => path == [InProgress]
    case InReview => path == [InProgress, InReview]
    case Done => path == [InProgress, InReview, Done]
    case Failed => path != [] && path[|path| - 1] == Failed
  }

  /** A task's status is the end of its path; the only way to DONE is through IN_PROGRESS and IN_REVIEW. */
  lemma {:induction false} StatusIsPath(log: seq<Op>, t: string)
    requires History(log)
    ensures Replay(log).Some?
    ensures t in Replay(log).value.tasks ==>
              PathFits(Replay(log).value.tasks[t].status, Path(log, Replay(log).value.tasks[t].context))
  {
    HistoryReplays(log);
    if log != [] {
      var before, op := log[..|log| - 1], log[|log| - 1];
      StatusIsPath(before, t);
      HistoryInvariant(before);
      assert log == before + [op];
      StatusStep(before, Replay(before).value, op, t);
    }
  }

  lemma PathAppends(log: seq<Op>, op: Op, c: string)
    ensures Path(log + [op], c) == Path(log, c) + if op.Transitioned? && op.context == c then [op.to] else []
  {
    assert (log + [op])[..|log|] == log;
  }

  /** How a record bears on one task: it makes it, moves it, or leaves its status and context alone. */
  lemma StatusChange(p: Projection, op: Op, t: string)
    requires Wired(p) && Accepted(p, op)
    ensures Apply(p, op).Some?
    ensures t in Apply(p, op).value.tasks ==>
              var after := Apply(p, op).value.tasks[t];
              if op.Created? && op.task.id == t then
                after.status == Planned && after.context == op.made.id && op.made.id !in p.contexts
              else
                && t in p.tasks && after.context == p.tasks[t].context
                && if op.Transitioned? && op.context == after.context then
                     after.status == op.to && p.tasks[t].status == op.from && Legal(op.from, op.to)
                   else after.status == p.tasks[t].status
  {
  }

  lemma StatusStep(log: seq<Op>, p: Projection, op: Op, t: string)
    requires Wired(p) && ContextsCounted(log, p) && Accepted(p, op)
    requires t in p.tasks ==> PathFits(p.tasks[t].status, Path(log, p.tasks[t].context))
    ensures Apply(p, op).Some?
    ensures var q := Apply(p, op).value;
            t in q.tasks ==> PathFits(q.tasks[t].status, Path(log + [op], q.tasks[t].context))
  {
    hide Apply, Accepted, Wired, Path, PathFits, Legal;
    StatusChange(p, op, t);
    var q := Apply(p, op).value;
    if t in q.tasks {
      PathAppends(log, op, q.tasks[t].context);
      if op.Created? && op.task.id == t {
        NoPath(log, op.made.id);
        PathStarts();
      } else if op.Transitioned? && op.context == q.tasks[t].context {
        PathGoesOn(op.from, op.to, Path(log, op.context));
      } else {
        assert Path(log, q.tasks[t].context) + [] == Path(log, q.tasks[t].context);
      }
    }
  }

  lemma PathStarts()
    ensures PathFits(Planned, [] + [])
  {
  }

  lemma PathGoesOn(from: Status, to: Status, path: seq<Status>)
    requires PathFits(from, path) && Legal(from, to)
    ensures PathFits(to, path + [to])
  {
  }

  lemma {:induction false} NoPath(log: seq<Op>, c: string)
    requires Transitions(log, c) == 0
    ensures Path(log, c) == []
  {
    if log != [] {
      NoPath(log[..|log| - 1], c);
    }
  }

  // ----- The log on disk -----

  /** The work store as the loader sees it: the projection and the highest sequence number. */
  function OnDisk(): L.Store<(Projection, int), Record> {
    L.Store((EMPTY, 0), (s: (Projection, int), r: Record) =>
      var next := Apply(s.0, r.op);
      if next.None? then None else Some((next.value, if r.seqNo > s.1 then r.seqNo else s.1)))
  }

  ghost predicate Numbered(file: seq<Record>) {
    forall i | 0 <= i < |file| :: file[i].seqNo == i + 1
  }

  lemma {:induction false} FoldAppends(s: (Projection, int), file: seq<Record>, r: Record)
    ensures L.Fold(OnDisk(), s, file + [r]) ==
            (var before := L.Fold(OnDisk(), s, file); if before.None? then None else OnDisk().apply(before.value, r))
    decreases |file|
  {
    if file == [] {
      assert [r][1..] == [] && [] + [r] == [r];
    } else {
      assert (file + [r])[1..] == file[1..] + [r];
      var next := OnDisk().apply(s, file[0]);
      if next.Some? {
        FoldAppends(next.value, file[1..], r);
      }
    }
  }

  lemma {:induction false} FoldIsReplay(file: seq<Record>)
    requires History(Ops(file)) && Numbered(file)
    ensures Replay(Ops(file)).Some?
    ensures L.Fold(OnDisk(), (EMPTY, 0), file) == Some((Replay(Ops(file)).value, |file|))
  {
    HistoryReplays(Ops(file));
    if file != [] {
      var n := |file| - 1;
      assert file == file[..n] + [file[n]] && Ops(file)[..n] == Ops(file[..n]);
      FoldIsReplay(file[..n]);
      FoldAppends((EMPTY, 0), file[..n], file[n]);
    }
  }

  /** A crash at any byte: the next Load is the projection of the acknowledged records wholly on disk. */
  lemma CrashReload(c: L.Codec<Record>, file: seq<Record>, cut: nat)
    requires L.Faithful(c) && History(Ops(file)) && Numbered(file) && cut <= |L.Encode(c, file)|
    ensures var n := L.Whole(c, file, cut);
            && n <= |file| && Replay(Ops(file[..n])).Some?
            && L.LoadBytes(c, OnDisk(), L.Encode(c, file)[..cut]) == Ok((Replay(Ops(file[..n])).value, n))
  {
    FoldIsReplay(file);
    L.CrashRecovery(c, OnDisk(), file, cut);
    var n := L.Whole(c, file, cut);
    PrefixReplays(Ops(file), n);
    assert Ops(file)[..n] == Ops(file[..n]);
    FoldIsReplay(file[..n]);
  }
}
