/**
 One work log, several runtimes: each plugin process loads the log once, when it starts (plugins/work-registry/main.go),
 and from then on answers from memory and appends to the file. The write fence says who may append, not what an
 appender has read; here is when the shared log stays a history, and answers stay those of an up-to-date store.
 */
module SharedLog {
  import opened Wrappers
  import opened WorkRegistry

  datatype Request =
    | Create(input: CreateInput, freshTask: string, freshContext: string)
    | Move(context: string, to: Status, expected: int)
    | Attach(holder: string, evidence: Evidence, freshId: string, version: int)

  /** The record with which a store in state `p` grants a request, if it does. */
  function Appends(p: Projection, q: Request): Option<Op> {
    match q
    case Create(i, task, context) =>
      if i.key != "" && i.key in p.keys then None
      else Some(Created(NewTask(i, task, context), NewContext(i, task, context), i.key))
    case Move(context, to, expected) =>
      var task := TaskAt(p, context);
      if task.None? || task.value.version != expected || !Legal(task.value.status, to) then None
      else Some(Transitioned(context, task.value.status, to, expected + 1))
    case Attach(holder, evidence, id, version) =>
      if holder !in p.contexts || p.contexts[holder].version != version then None
      else Some(Attached(holder, evidence.(id := id)))
  }

  ghost predicate Fresh(p: Projection, q: Request) {
    q.Create? ==> q.freshTask !in p.tasks && q.freshContext !in p.contexts && q.freshContext !in p.taskOf
  }

  /** The store object grants just those requests, with just those records. */
  method Serve(s: Store, q: Request, ioOk: bool)
    requires s.Valid() && Fresh(s.Value(), q)
    modifies s
    ensures s.Valid()
    ensures var op := Appends(old(s.Value()), q);
            Ops(s.file) == Ops(old(s.file)) + if op.Some? && ioOk then [op.value] else []
  {
    match q {
      case Create(i, task, context) => var _ := s.CreateTask(i, task, context, ioOk);
      case Move(context, to, expected) => var _ := s.Transition(context, to, expected, ioOk);
      case Attach(holder, evidence, id, version) => var _ := s.AttachEvidence(holder, evidence, id, version, ioOk);
    }
  }

  // ----- The runtimes and their log -----

  /** `views` holds, for each runtime, the records it loaded and those it appended itself. */
  datatype World = World(log: seq<Op>, views: map<string, seq<Op>>)

  datatype Event = Load(runtime: string) | Write(runtime: string, request: Request)

  function State(log: seq<Op>): Projection {
    var p := Replay(log);
    if p.Some? then p.value else EMPTY
  }

  ghost predicate Enabled(w: World, e: Event) {
    e.Write? ==> e.runtime in w.views && Fresh(State(w.log), e.request) && Fresh(State(w.views[e.runtime]), e.request)
  }

  function Do(w: World, e: Event): World {
    match e
    case Load(r) => w.(views := w.views[r := w.log])
    case Write(r, q) =>
      if r !in w.views then w
      else
        var op := Appends(State(w.views[r]), q);
        if op.None? then w else World(w.log + [op.value], w.views[r := w.views[r] + [op.value]])
  }

  ghost predicate Run(ws: seq<World>, es: seq<Event>) {
    && |ws| == |es| + 1 && ws[0] == World([], map[])
    && forall i | 0 <= i < |es| :: Enabled(ws[i], es[i]) && ws[i + 1] == Do(ws[i], es[i])
  }

  predicate Current(w: World, runtime: string) {
    runtime in w.views && w.views[runtime] == w.log
  }

  predicate ForeignWrite(w: World, e: Event, runtime: string) {
    e.Write? && e.runtime != runtime && Do(w, e).log != w.log
  }

  /** The runtime loaded the log at step `m`, and nobody else has written since. */
  ghost predicate LoadedSince(ws: seq<World>, es: seq<Event>, n: nat, runtime: string, m: nat)
    requires n <= |es| < |ws|
  {
    m < n && es[m] == Load(runtime) && forall u | m < u < n :: !ForeignWrite(ws[u], es[u], runtime)
  }

  lemma StepCurrency(w: World, e: Event, runtime: string)
    requires runtime in w.views ==> |w.views[runtime]| <= |w.log|
    ensures var v := Do(w, e);
            && (runtime in v.views ==> |v.views[runtime]| <= |v.log|)
            && (runtime in v.views <==> runtime in w.views || e == Load(runtime))
            && (e == Load(runtime) ==> Current(v, runtime))
            && (ForeignWrite(w, e, runtime) ==> !Current(v, runtime))
            && (e != Load(runtime) && !ForeignWrite(w, e, runtime) ==> (Current(v, runtime) <==> Current(w, runtime)))
  {
    var v := Do(w, e);
    if e.Write? && e.runtime == runtime && v.log != w.log {
      assert v.log[..|w.log|] == w.log && v.views[runtime][..|w.views[runtime]|] == w.views[runtime];
      if Current(v, runtime) {
        assert |w.views[runtime]| == |w.log|;
      }
    }
  }

  /** A runtime has read the whole log exactly when it loaded it after the last foreign write. */
  lemma {:induction false} CurrentMeansLoadedSince(ws: seq<World>, es: seq<Event>, n: nat, runtime: string)
    requires Run(ws, es) && n <= |es|
    ensures runtime in ws[n].views ==> |ws[n].views[runtime]| <= |ws[n].log|
    ensures Current(ws[n], runtime) <==> exists m: nat :: LoadedSince(ws, es, n, runtime, m)
  {
    hide Do, Enabled, ForeignWrite, Current;
    if n == 0 {
      NobodyYet(ws[0], runtime);
    } else {
      var i := n - 1;
      CurrentMeansLoadedSince(ws, es, i, runtime);
      assert ws[n] == Do(ws[i], es[i]);
      StepCurrency(ws[i], es[i], runtime);
      if es[i] == Load(runtime) {
        assert LoadedSince(ws, es, n, runtime, i);
      } else {
        assert forall m: nat :: LoadedSince(ws, es, n, runtime, m) <==>
                                LoadedSince(ws, es, i, runtime, m) && !ForeignWrite(ws[i], es[i], runtime);
      }
    }
  }

  lemma NobodyYet(w: World, runtime: string)
    requires w.views == map[]
    ensures !Current(w, runtime) && runtime !in w.views
  {
  }

  // ----- Current writers keep the log a history -----

  lemma GrantedIsAccepted(p: Projection, q: Request)
    requires Fresh(p, q) && Appends(p, q).Some?
    ensures Accepted(p, Appends(p, q).value)
  {
  }

  lemma OneMoreRecord(log: seq<Op>, op: Op)
    requires History(log)
    ensures Replay(log).Some? && (History(log + [op]) <==> Accepted(State(log), op))
  {
    HistoryReplays(log);
    assert (log + [op])[..|log|] == log;
  }

  ghost predicate InStep(w: World) {
    History(w.log) && forall r | r in w.views :: w.views[r] <= w.log
  }

  lemma StepInStep(w: World, e: Event)
    requires InStep(w) && Enabled(w, e) && (e.Write? ==> Current(w, e.runtime))
    ensures InStep(Do(w, e))
  {
    hide History, Accepted, Appends, State;
    if e.Write? && Appends(State(w.log), e.request).Some? {
      GrantedIsAccepted(State(w.log), e.request);
      OneMoreRecord(w.log, Appends(State(w.log), e.request).value);
    }
  }

  /** If every writer loaded the log after the last foreign write, the shared log is a history, and every view a prefix. */
  lemma {:induction false} CurrentWritersKeepHistory(ws: seq<World>, es: seq<Event>, n: nat)
    requires Run(ws, es) && n <= |es|
    requires forall i | 0 <= i < n && es[i].Write? :: exists m: nat :: LoadedSince(ws, es, i, es[i].runtime, m)
    ensures InStep(ws[n])
  {
    hide Do, Enabled, Current, LoadedSince;
    if n == 0 {
      EmptyInStep(ws[0]);
    } else {
      CurrentWritersKeepHistory(ws, es, n - 1);
      if es[n - 1].Write? {
        CurrentMeansLoadedSince(ws, es, n - 1, es[n - 1].runtime);
      }
      StepInStep(ws[n - 1], es[n - 1]);
    }
  }

  lemma EmptyInStep(w: World)
    requires w == World([], map[])
    ensures InStep(w)
  {
  }

  // ----- A stale writer -----

  lemma LaterProjection(log: seq<Op>, op: Op)
    requires History(log + [op])
    ensures History(log) && Accepted(State(log), op) && Apply(State(log), op) == Some(State(log + [op]))
    ensures Wired(State(log))
  {
    assert (log + [op])[..|log|] == log;
    HistoryReplays(log + [op]);
    HistoryInvariant(log);
  }

  /** What the later projection keeps of a context and of the keys. */
  ghost predicate Grown(p: Projection, q: Projection, c: string) {
    && (c in p.contexts ==> c in q.contexts && q.contexts[c].version >= p.contexts[c].version)
    && (TaskAt(p, c).Some? ==> TaskAt(q, c).Some? && TaskAt(q, c).value.version >= TaskAt(p, c).value.version)
    && (forall k | k in p.keys :: k in q.keys)
  }

  lemma StepGrows(p: Projection, op: Op, c: string)
    requires Wired(p) && Accepted(p, op) && Apply(p, op).Some?
    ensures Grown(p, Apply(p, op).value, c)
    ensures op.Transitioned? && op.context == c ==>
              TaskAt(p, c).Some? && TaskAt(Apply(p, op).value, c).value.version > TaskAt(p, c).value.version
    ensures op.Attached? && op.holder == c ==>
              c in p.contexts && Apply(p, op).value.contexts[c].version > p.contexts[c].version
    ensures op.Created? && op.made.id == c ==> c !in p.contexts && c in Apply(p, op).value.contexts
    ensures !(op.Transitioned? && op.context == c) && TaskAt(p, c).Some? ==> TaskAt(Apply(p, op).value, c) == TaskAt(p, c)
    ensures !(op.Created? && op.key != "") ==> Apply(p, op).value.keys == p.keys
  {
  }

  lemma {:induction false} ContextsOnlyGrow(log: seq<Op>, n: nat, c: string)
    requires History(log) && n <= |log|
    ensures History(log[..n]) && Grown(State(log[..n]), State(log), c)
    decreases |log|
  {
    hide Accepted, Apply, Wired, State, History;
    PrefixReplays(log, n);
    if n == |log| {
      assert log[..n] == log;
    } else {
      var front, op := log[..|log| - 1], log[|log| - 1];
      assert front + [op] == log && front[..n] == log[..n];
      LaterProjection(front, op);
      ContextsOnlyGrow(front, n, c);
      StepGrows(State(front), op, c);
    }
  }

  function ContextOf(op: Op): string {
    match op
    case Created(_, made, _) => made.id
    case Transitioned(context, _, _, _) => context
    case Attached(holder, _) => holder
  }

  /** The first record a stale runtime has missed gives a request it answers wrongly. */
  lemma StaleAnswer(log: seq<Op>, n: nat) returns (q: Request)
    requires History(log) && n < |log|
    ensures !q.Create? && Appends(State(log[..n]), q) != Appends(State(log), q)
  {
    hide State, History, Apply, Wired, Replay;
    var op := log[n];
    assert log[..n + 1] == log[..n] + [op];
    PrefixReplays(log, n + 1);
    LaterProjection(log[..n], op);
    var c := ContextOf(op);
    StepGrows(State(log[..n]), op, c);
    ContextsOnlyGrow(log, n + 1, c);
    match op {
      case Created(task, made, key) =>
        q := Attach(made.id, Evidence("", "", "", "", "", ""), "", State(log).contexts[made.id].version);
      case Transitioned(context, from, to, versionAfter) =>
        q := Move(context, to, versionAfter - 1);
      case Attached(holder, evidence) =>
        q := Attach(holder, evidence, evidence.id, State(log[..n]).contexts[holder].version);
    }
  }

  /**
   A runtime answers every request as an up-to-date store would if and only if it loaded the log after the last foreign
   write.
   */
  lemma AnswersAreCurrentIff(ws: seq<World>, es: seq<Event>, n: nat, runtime: string)
    requires Run(ws, es) && n <= |es| && runtime in ws[n].views
    requires forall i | 0 <= i < n && es[i].Write? :: exists m: nat :: LoadedSince(ws, es, i, es[i].runtime, m)
    ensures (forall q :: Appends(State(ws[n].views[runtime]), q) == Appends(State(ws[n].log), q)) <==>
            exists m: nat :: LoadedSince(ws, es, n, runtime, m)
  {
    hide Appends, LoadedSince, State;
    CurrentWritersKeepHistory(ws, es, n);
    CurrentMeansLoadedSince(ws, es, n, runtime);
    var view, log := ws[n].views[runtime], ws[n].log;
    if view != log {
      assert view == log[..|view|];
      var q := StaleAnswer(log, |view|);
    }
  }

  // ----- When a stale writer breaks the history -----

  /** A record that a runtime with projection `p` must have read: a move of a context it knows, or a new key. */
  predicate Disturbs(p: Projection, op: Op) {
    (op.Transitioned? && TaskAt(p, op.context).Some?) || (op.Created? && op.key != "")
  }

  lemma {:induction false} Undisturbed(log: seq<Op>, n: nat, c: string)
    requires History(log) && n <= |log| && TaskAt(State(log[..n]), c).Some?
    requires forall i | n <= i < |log| :: !Disturbs(State(log[..n]), log[i])
    ensures TaskAt(State(log), c) == TaskAt(State(log[..n]), c) && State(log).keys == State(log[..n]).keys
    decreases |log|
  {
    hide Accepted, Apply, Wired, State, History, TaskAt;
    if n == |log| {
      assert log[..n] == log;
    } else {
      var front, op := log[..|log| - 1], log[|log| - 1];
      assert front + [op] == log && front[..n] == log[..n];
      LaterProjection(front, op);
      Undisturbed(front, n, c);
      assert !Disturbs(State(log[..n]), log[|log| - 1]);
      StepGrows(State(front), op, c);
    }
  }

  lemma {:induction false} KeysUndisturbed(log: seq<Op>, n: nat)
    requires History(log) && n <= |log|
    requires forall i | n <= i < |log| :: !Disturbs(State(log[..n]), log[i])
    ensures State(log).keys == State(log[..n]).keys
    decreases |log|
  {
    hide Accepted, Apply, Wired, State, History, TaskAt;
    if n == |log| {
      assert log[..n] == log;
    } else {
      var front, op := log[..|log| - 1], log[|log| - 1];
      assert front + [op] == log && front[..n] == log[..n];
      LaterProjection(front, op);
      KeysUndisturbed(front, n);
      assert !Disturbs(State(log[..n]), log[|log| - 1]);
      StepGrows(State(front), op, "");
    }
  }

  lemma MovedOn(log: seq<Op>, n: nat, i: nat)
    requires History(log) && n <= i < |log| && log[i].Transitioned? && TaskAt(State(log[..n]), log[i].context).Some?
    ensures var c := log[i].context;
            TaskAt(State(log), c).Some? && TaskAt(State(log), c).value.version > TaskAt(State(log[..n]), c).value.version
  {
    hide Accepted, Apply, Wired, State, History, TaskAt;
    var c := log[i].context;
    ContextsOnlyGrow(log, i + 1, c);
    assert log[..i + 1] == log[..i] + [log[i]] && log[..i][..n] == log[..n];
    LaterProjection(log[..i], log[i]);
    ContextsOnlyGrow(log[..i], n, c);
    StepGrows(State(log[..i]), log[i], c);
  }

  /** The task was still open when the runtime read it: a terminal one would not have moved since. */
  lemma StillOpen(log: seq<Op>, n: nat, i: nat)
    requires History(log) && n <= i < |log| && log[i].Transitioned? && TaskAt(State(log[..n]), log[i].context).Some?
    ensures TaskAt(State(log[..n]), log[i].context).value.status !in {Done, Failed}
  {
    hide Accepted, Apply, History;
    var c := log[i].context;
    MovedOn(log, n, i);
    PrefixReplays(log, n);
    HistoryInvariant(log[..n]);
    HistoryInvariant(log);
    TerminalForever(log, n, State(log[..n]).taskOf[c]);
    SamePlace(log, n, c);
  }

  lemma {:induction false} SamePlace(log: seq<Op>, n: nat, c: string)
    requires History(log) && n <= |log| && c in State(log[..n]).taskOf
    ensures c in State(log).taskOf && State(log).taskOf[c] == State(log[..n]).taskOf[c]
    decreases |log|
  {
    hide State, History, Wired;
    if n == |log| {
      assert log[..n] == log;
    } else {
      var front, op := log[..|log| - 1], log[|log| - 1];
      assert front + [op] == log && front[..n] == log[..n];
      LaterProjection(front, op);
      SamePlace(front, n, c);
    }
  }

  lemma {:induction false} LongerThanAll(s: set<string>) returns (name: string)
    ensures forall x | x in s :: |x| < |name|
  {
    if s == {} {
      name := "a";
    } else {
      var x :| x in s;
      var rest := LongerThanAll(s - {x});
      name := rest + x + "a";
      forall y | y in s ensures |y| < |name| {
        assert y == x || y in s - {x};
      }
    }
  }

  /** The next request that the runtime grants from `log[..n]` would leave the shared log no history. */
  ghost predicate Breaks(log: seq<Op>, n: nat, q: Request)
    requires n <= |log|
  {
    && Fresh(State(log), q) && Fresh(State(log[..n]), q)
    && Appends(State(log[..n]), q).Some? && !History(log + [Appends(State(log[..n]), q).value])
  }

  lemma MissedMoveBreaks(log: seq<Op>, n: nat, i: nat) returns (q: Request)
    requires History(log) && n <= i < |log| && log[i].Transitioned? && TaskAt(State(log[..n]), log[i].context).Some?
    ensures Breaks(log, n, q)
  {
    hide State, History;
    var c := log[i].context;
    MovedOn(log, n, i);
    StillOpen(log, n, i);
    q := Move(c, Failed, TaskAt(State(log[..n]), c).value.version);
    OneMoreRecord(log, Appends(State(log[..n]), q).value);
  }

  lemma MissedKeyBreaks(log: seq<Op>, n: nat, i: nat) returns (q: Request)
    requires History(log) && n <= i < |log| && log[i].Created? && log[i].key != ""
    ensures Breaks(log, n, q)
  {
    hide State, History, Wired;
    assert log[..i + 1] == log[..i] + [log[i]] && log[..i][..n] == log[..n];
    ContextsOnlyGrow(log, i + 1, "");
    LaterProjection(log[..i], log[i]);
    ContextsOnlyGrow(log[..i], n, "");
    var p, v := State(log), State(log[..n]);
    var name := LongerThanAll(p.tasks.Keys + p.contexts.Keys + p.taskOf.Keys + v.tasks.Keys + v.contexts.Keys + v.taskOf.Keys);
    assert forall x | x in p.tasks.Keys + p.contexts.Keys + p.taskOf.Keys + v.tasks.Keys + v.contexts.Keys + v.taskOf.Keys :: x != name;
    q := Create(CreateInput("", "", "", "", [], log[i].key), name, name);
    OneMoreRecord(log, Appends(v, q).value);
  }

  lemma QuietKeeps(log: seq<Op>, n: nat, q: Request)
    requires History(log) && n <= |log|
    requires forall i | n <= i < |log| :: !Disturbs(State(log[..n]), log[i])
    ensures !Breaks(log, n, q)
  {
    hide State, History, Disturbs;
    if Fresh(State(log), q) && Fresh(State(log[..n]), q) && Appends(State(log[..n]), q).Some? {
      KeysUndisturbed(log, n);
      if q.Move? {
        Undisturbed(log, n, q.context);
      } else if q.Attach? {
        ContextsOnlyGrow(log, n, q.holder);
      }
      OneMoreRecord(log, Appends(State(log[..n]), q).value);
    }
  }

  /**
   A runtime that has read the first `n` records can break the shared history with its next write if and only if what
   it has missed moves a task it knows, or spends an idempotency key.
   */
  lemma StaleWriteBreaksIff(log: seq<Op>, n: nat)
    requires History(log) && n <= |log|
    ensures (exists q :: Breaks(log, n, q)) <==> exists i :: n <= i < |log| && Disturbs(State(log[..n]), log[i])
  {
    hide State, History, Breaks;
    if i :| n <= i < |log| && Disturbs(State(log[..n]), log[i]) {
      var q;
      if log[i].Transitioned? {
        q := MissedMoveBreaks(log, n, i);
      } else {
        q := MissedKeyBreaks(log, n, i);
      }
      assert Breaks(log, n, q);
    } else {
      forall q ensures !Breaks(log, n, q) {
        QuietKeeps(log, n, q);
      }
    }
  }

  /** The same of a run of the runtimes whose writers were current so far: when the next write of `runtime` can break it. */
  lemma NextWriteBreaksIff(ws: seq<World>, es: seq<Event>, n: nat, runtime: string)
    requires Run(ws, es) && n <= |es| && runtime in ws[n].views
    requires forall i | 0 <= i < n && es[i].Write? :: exists m: nat :: LoadedSince(ws, es, i, es[i].runtime, m)
    ensures var view, log := ws[n].views[runtime], ws[n].log;
            (exists q :: NextBreaks(ws[n], runtime, q)) <==>
            exists i :: |view| <= i < |log| && Disturbs(State(view), log[i])
  {
    hide History, State, Breaks, NextBreaks, Disturbs;
    CurrentWritersKeepHistory(ws, es, n);
    var view, log := ws[n].views[runtime], ws[n].log;
    assert view == log[..|view|];
    StaleWriteBreaksIff(log, |view|);
    forall q ensures NextBreaks(ws[n], runtime, q) <==> Breaks(log, |view|, q) {
      NextIsBreaks(ws[n], runtime, q);
    }
  }

  /** The runtime may write for `q`, and the log it leaves is no history. */
  ghost predicate NextBreaks(w: World, runtime: string, q: Request) {
    Enabled(w, Write(runtime, q)) && !History(Do(w, Write(runtime, q)).log)
  }

  lemma NextIsBreaks(w: World, runtime: string, q: Request)
    requires runtime in w.views && w.views[runtime] <= w.log && History(w.log)
    ensures NextBreaks(w, runtime, q) <==> Breaks(w.log, |w.views[runtime]|, q)
  {
    hide State, Fresh;
    assert w.log[..|w.views[runtime]|] == w.views[runtime];
  }

  function FirstCreate(key: string): Request {
    Create(CreateInput("", "", "", "", [], key), "t", "c")
  }

  function FirstRecord(key: string): Op {
    Created(NewTask(FirstCreate(key).input, "t", "c"), NewContext(FirstCreate(key).input, "t", "c"), key)
  }

  lemma FirstWrite(key: string, r: string, x: string)
    requires key != "" && r != x
    ensures var w, op := World([], map[r := [], x := []]), FirstRecord(key);
            && Enabled(w, Write(r, FirstCreate(key)))
            && Do(w, Write(r, FirstCreate(key))) == World([op], map[r := [op], x := []])
  {
    assert State([]) == EMPTY;
    assert Appends(EMPTY, FirstCreate(key)) == Some(FirstRecord(key));
    var op := FirstRecord(key);
    assert [] + [op] == [op];
    assert map[r := [], x := []][r := [op]] == map[r := [op], x := []];
  }

  /** Once `r` has created a task under a key, the next write of `x`, which loaded before, may break the history. */
  lemma StandbyMayBreak(key: string, r: string, x: string) returns (q: Request)
    requires key != "" && r != x
    ensures var op := FirstRecord(key); History([op]) && NextBreaks(World([op], map[r := [op], x := []]), x, q)
  {
    hide Appends, State, FirstRecord, FirstCreate, Disturbs, Breaks, NextBreaks, Fresh;
    var v, op := World([], map[r := [], x := []]), FirstRecord(key);
    var w := World([op], map[r := [op], x := []]);
    EmptyInStep(World([], map[]));
    FirstWrite(key, r, x);
    StepInStep(v, Write(r, FirstCreate(key)));
    FirstDisturbs(key);
    assert [op][..0] == [] && [op][0] == op;
    StaleWriteBreaksIff([op], 0);
    q :| Breaks([op], 0, q);
    NextIsBreaks(w, x, q);
  }

  /** Both load the empty log, and "a" creates a task under a key: now "b" may break the history. */
  lemma StandbyBreaksHistory(key: string) returns (ws: seq<World>, es: seq<Event>, q: Request)
    requires key != ""
    ensures Run(ws, es) && es == [Load("a"), Load("b"), Write("a", FirstCreate(key))]
    ensures forall i | 0 <= i < |es| && es[i].Write? :: exists m: nat :: LoadedSince(ws, es, i, es[i].runtime, m)
    ensures History(ws[3].log) && Enabled(ws[3], Write("b", q)) && !History(Do(ws[3], Write("b", q)).log)
  {
    hide Appends, State, History, FirstRecord, FirstCreate, Fresh;
    var w0, w1, w2 := World([], map[]), World([], map["a" := []]), World([], map["a" := [], "b" := []]);
    var op := FirstRecord(key);
    var w3 := World([op], map["a" := [op], "b" := []]);
    ws, es := [w0, w1, w2, w3], [Load("a"), Load("b"), Write("a", FirstCreate(key))];
    FirstWrite(key, "a", "b");
    assert Do(w0, es[0]) == w1 && Do(w1, es[1]) == w2;
    LoadedOnce(ws, es);
    q := StandbyMayBreak(key, "a", "b");
  }

  lemma LoadedOnce(ws: seq<World>, es: seq<Event>)
    requires |es| == 3 < |ws| && es[0] == Load("a") && es[1] == Load("b")
    ensures LoadedSince(ws, es, 2, "a", 0)
  {
  }

  lemma FirstDisturbs(key: string)
    requires key != ""
    ensures Disturbs(State([]), FirstRecord(key))
  {
  }
}
