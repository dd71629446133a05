/**
 The stateless engineering workflow (plugins/engineering-workflow/pipeline.go, gate.go).

 `Next` is the pipeline as a machine: the calls it still has to make, and what a reply does to it. The method
 RunPipeline is the source's own control flow; the capability object it calls checks every call against the
 machine. What any run does is then proved about the machine, for every behaviour of the capabilities.
 */
module Pipeline {
  import opened Wrappers
  import W = WorkRegistry
  import R = Reviews

  datatype Outcome = Running | Done | GateFailed | AgentFailed | BuildFailed | TestFailed | TimedOut

  datatype Call =
    | GetWork(task: string)
    | Allocate(context: string, baseRef: string)
    | Move(context: string, to: W.Status, expected: int)
    | CheckDeadline
    | RunAgent(context: string, path: string)
    | CollectDiff(context: string, path: string)
    | RunTool(context: string, path: string, tool: string)
    | RequestReview(context: string, agentRun: string, diff: string)
    | GetReview(review: string)
    | Seal(context: string, agentRun: string)
    | Release(workspace: string)
    | Attach(context: string, kind: string, source: string, outcome: string)
    | Journal(event: string)
    | Nap

  /** Refused is an error from the capability, and any reply that does not decode as the call expects. */
  datatype Reply =
    | Refused
    | Work(context: string, version: int)
    | Workspace(id: string, path: string)
    | Version(version: int)
    | InTime
    | Agent(run: string, status: string, ok: bool)
    | Diff(id: string)
    | Tool(id: string, outcome: string)
    | ReviewId(id: string)
    | Review(decision: R.Status, reviewed: string, results: seq<bool>)
    | Session(id: string)
    | EventId(id: string)

  datatype Request = Request(task: string, baseRef: string)

  datatype Stage =
    | Fetching | Allocating | Starting | BeforeAgent | InAgent | Diffing | Building | Testing | Submitting
    | Requesting | BeforePoll | Polling | Finishing | Sealing | Releasing | Closing

  /** The calls still to make before the next reply that steers. */
  datatype Todo = Nothing | First(call: Call, rest: Todo)

  datatype Local = Local(stage: Stage, todo: Todo, request: Request, context: string, version: int,
                         workspace: string, path: string, agentRun: string, diff: string,
                         build: string, test: string, review: string, session: string,
                         verdict: Outcome, events: seq<string>)

  function Only(call: Call): Todo {
    First(call, Nothing)
  }

  function Note(event: string, rest: Todo): Todo {
    First(Journal(event), rest)
  }

  function Start(q: Request): Local {
    Local(Fetching, Only(GetWork(q.task)), q, "", 0, "", "", "", "", "", "", "", "", Running, [])
  }

  // ----- The gate -----

  predicate GateHolds(build: string, test: string, status: R.Status, reviewedDiff: string, results: seq<bool>, diff: string) {
    && build == "PASS" && test == "PASS" && status == R.Approved && reviewedDiff == diff
    && results != [] && forall i | 0 <= i < |results| :: results[i]
  }

  /** doneGate: the first failing condition decides. */
  method DoneGate(build: string, test: string, status: R.Status, reviewedDiff: string, results: seq<bool>, diff: string)
    returns (ok: bool)
    ensures ok <==> GateHolds(build, test, status, reviewedDiff, results, diff)
  {
    if build != "PASS" || test != "PASS" || status != R.Approved || reviewedDiff != diff || results == [] {
      return false;
    }
    for i := 0 to |results|
      invariant forall j | 0 <= j < i :: results[j]
    {
      if !results[i] {
        return false;
      }
    }
    ok := true;
  }

  // ----- The machine -----

  /** Calls whose reply does not steer the pipeline. */
  predicate Aside(c: Call) {
    c.Journal? || c.Attach? || c.Nap?
  }

  function Then(l: Local, stage: Stage, todo: Todo): Local {
    l.(stage := stage, todo := todo)
  }

  function CleanupCall(l: Local): Call {
    if l.agentRun != "" then Seal(l.context, l.agentRun) else Release(l.workspace)
  }

  function CleanupStage(l: Local): Stage {
    if l.agentRun != "" then Sealing else Releasing
  }

  /** cleanup: seal the session when there is an agent run, then release the workspace. */
  function Cleanup(l: Local, verdict: Outcome): Local {
    l.(stage := CleanupStage(l), verdict := verdict, todo := Only(CleanupCall(l)))
  }

  function NoteCleanup(l: Local, verdict: Outcome, event: string): Local {
    l.(stage := CleanupStage(l), verdict := verdict, todo := Note(event, Only(CleanupCall(l))))
  }

  function Next(l: Local, r: Reply): Local {
    if l.todo.Nothing? then l
    else if Aside(l.todo.call) then
      l.(todo := l.todo.rest,
         events := if l.todo.call.Journal? && r.EventId? && r.id != "" then l.events + [r.id] else l.events)
    else Steered(l, r)
  }

  predicate Opening(s: Stage) {
    s.Fetching? || s.Allocating? || s.Starting? || s.BeforeAgent?
  }

  predicate Working(s: Stage) {
    s.InAgent? || s.Diffing? || s.Building? || s.Testing?
  }

  predicate Reviewing(s: Stage) {
    s.Submitting? || s.Requesting? || s.BeforePoll? || s.Polling?
  }

  predicate Ending(s: Stage) {
    s.Finishing? || s.Sealing? || s.Releasing? || s.Closing?
  }

  /** What the reply to the steering call makes of each stage, in four groups. */
  function Steered(l: Local, r: Reply): Local {
    if Opening(l.stage) then SteeredOpening(l, r)
    else if Working(l.stage) then SteeredWorking(l, r)
    else if Reviewing(l.stage) then SteeredReviewing(l, r)
    else SteeredEnding(l, r)
  }

  function SteeredOpening(l: Local, r: Reply): Local
    requires Opening(l.stage)
  {
    match l.stage
    case Fetching =>
      if !r.Work? then l.(stage := Closing, todo := Nothing, verdict := GateFailed)
      else Then(l.(context := r.context, version := r.version), Allocating, Only(Allocate(r.context, l.request.baseRef)))
    case Allocating =>
      if !r.Workspace? then l.(stage := Closing, todo := Nothing, verdict := GateFailed)
      else Then(l.(workspace := r.id, path := r.path), Starting,
                Note("workspace.allocated", Only(Move(l.context, W.InProgress, l.version))))
    case Starting =>
      if !r.Version? then Cleanup(l, GateFailed)
      else Then(l.(version := r.version), BeforeAgent, Note("work.transitioned", Only(CheckDeadline)))
    case BeforeAgent =>
      if !r.InTime? then Cleanup(l, TimedOut)
      else Then(l, InAgent, Note("agent.run.started", Only(RunAgent(l.context, l.path))))
  }

  function SteeredWorking(l: Local, r: Reply): Local
    requires Working(l.stage)
  {
    match l.stage
    case InAgent =>
      if !r.Agent? then Cleanup(l, AgentFailed)
      else if !r.ok then Cleanup(l.(agentRun := r.run), AgentFailed)
      else if r.status != "COMPLETED" then NoteCleanup(l.(agentRun := r.run), AgentFailed, "agent.run.completed")
      else Then(l.(agentRun := r.run), Diffing, Note("agent.run.completed", Only(CollectDiff(l.context, l.path))))
    case Diffing =>
      if !r.Diff? then Cleanup(l, GateFailed)
      else Then(l.(diff := r.id), Building, Note("diff.collected", Only(RunTool(l.context, l.path, "build"))))
    case Building =>
      if !r.Tool? then Cleanup(l, BuildFailed)
      else Then(l.(build := r.outcome), Testing,
                Note("tool.run.completed", First(Attach(l.context, "build", r.id, r.outcome),
                  Note("evidence.attached", Only(RunTool(l.context, l.path, "test"))))))
    case Testing =>
      if !r.Tool? then Cleanup(l, TestFailed)
      else Then(l.(test := r.outcome), Submitting,
                Note("tool.run.completed", First(Attach(l.context, "test", r.id, r.outcome),
                  Note("evidence.attached", Only(Move(l.context, W.InReview, l.version))))))
  }

  function SteeredReviewing(l: Local, r: Reply): Local
    requires Reviewing(l.stage)
  {
    match l.stage
    case Submitting =>
      if !r.Version? then Cleanup(l, GateFailed)
      else Then(l.(version := r.version), Requesting,
                Note("work.transitioned", Only(RequestReview(l.context, l.agentRun, l.diff))))
    case Requesting =>
      if !r.ReviewId? then Cleanup(l, GateFailed)
      else Then(l.(review := r.id), BeforePoll,
                Note("review.requested", Note("workflow.waiting_review", Only(CheckDeadline))))
    case BeforePoll =>
      if !r.InTime? then Cleanup(l, TimedOut) else Then(l, Polling, Only(GetReview(l.review)))
    case Polling =>
      if !r.Review? then Cleanup(l, GateFailed)
      else if r.decision == R.Pending then Then(l, BeforePoll, First(Nap, Only(CheckDeadline)))
      else if !GateHolds(l.build, l.test, r.decision, r.reviewed, r.results, l.diff) then
        NoteCleanup(l, GateFailed, "review.decided")
      else Then(l, Finishing, Note("review.decided", Only(Move(l.context, W.Done, l.version))))
  }

  function SteeredEnding(l: Local, r: Reply): Local
    requires Ending(l.stage)
  {
    match l.stage
    case Finishing =>
      if !r.Version? then Cleanup(l, GateFailed) else NoteCleanup(l, Done, "work.transitioned")
    case Sealing =>
      if !r.Session? then Then(l, Releasing, Only(Release(l.workspace)))
      else Then(l.(session := r.id), Releasing, Note("session.sealed", Only(Release(l.workspace))))
    case Releasing => Then(l, Closing, if r == Refused then Nothing else Note("workspace.released", Nothing))
    case Closing => l.(todo := Nothing)
  }

  /** The machine was about to make `call`, got `r`, and went on as `after`. */
  predicate Step(l: Local, call: Call, r: Reply, after: Local) {
    l.todo.First? && l.todo.call == call && after == Next(l, r)
  }

  /**
   * How the capabilities behave: the latest call is answered as any function of all the calls so far, and the
   * request's context has expired once `deadline` calls have been made.
   */
  datatype Behaviour = Behaviour(answer: seq<Call> -> Reply, deadline: nat)

  function Answer(b: Behaviour, calls: seq<Call>): Reply
    requires calls != []
  {
    if calls[|calls| - 1] == CheckDeadline && |calls| > b.deadline then Refused else b.answer(calls)
  }

  /**
   * `path` is the machine's way through `calls`: every call is the one the machine was about to make.
   */
  ghost predicate Trace(q: Request, b: Behaviour, calls: seq<Call>, path: seq<Local>) {
    && |path| == |calls| + 1 && path[0] == Start(q)
    && forall i | 0 <= i < |calls| :: Step(path[i], calls[i], Answer(b, calls[..i + 1]), path[i + 1])
  }

  lemma TraceGrows(q: Request, b: Behaviour, calls: seq<Call>, path: seq<Local>, call: Call, after: Local)
    requires Trace(q, b, calls, path) && Step(path[|calls|], call, Answer(b, calls + [call]), after)
    ensures Trace(q, b, calls + [call], path + [after])
  {
    forall i | 0 <= i < |calls| + 1
      ensures Step((path + [after])[i], (calls + [call])[i], Answer(b, (calls + [call])[..i + 1]), (path + [after])[i + 1])
    {
      if i < |calls| {
        assert (calls + [call])[..i + 1] == calls[..i + 1];
        assert Step(path[i], calls[i], Answer(b, calls[..i + 1]), path[i + 1]);
      } else {
        assert (calls + [call])[..i + 1] == calls + [call];
      }
    }
  }

  // ----- The source's control flow -----

  class Capabilities {
    const request: Request
    const behaviour: Behaviour
    var calls: seq<Call>
    ghost var path: seq<Local>
    ghost var plan: Local

    ghost predicate Valid()
      reads this
    {
      Trace(request, behaviour, calls, path) && plan == path[|calls|]
    }

    constructor (request: Request, behaviour: Behaviour)
      ensures Valid() && calls == [] && this.request == request && this.behaviour == behaviour
    {
      this.request, this.behaviour, calls := request, behaviour, [];
      path, plan := [Start(request)], Start(request);
    }

    method Do(call: Call) returns (r: Reply)
      requires Valid() && plan.todo.First? && plan.todo.call == call
      modifies this
      ensures Valid() && calls == old(calls) + [call] && r == Answer(behaviour, calls) && plan == Next(old(plan), r)
    {
      r := Answer(behaviour, calls + [call]);
      TraceGrows(request, behaviour, calls, path, call, Next(plan, r));
      calls, plan := calls + [call], Next(plan, r);
      path := path + [plan];
    }

    method Add(event: string)
      requires Valid() && plan.todo.First? && plan.todo.call == Journal(event)
      modifies this
      ensures Valid() && |calls| == |old(calls)| + 1
      ensures plan == old(plan).(todo := old(plan.todo.rest), events := plan.events)
    {
      var r := Do(Journal(event));
    }

    /** Where the machine stands, and what it and the source's local variables agree on. */
    ghost predicate At(stage: Stage, todo: Todo, context: string, workspace: string, path: string, agentRun: string)
      reads this
    {
      && Valid() && plan.stage == stage && plan.todo == todo
      && plan.context == context && plan.workspace == workspace && plan.path == path && plan.agentRun == agentRun
    }

    ghost predicate Ended(outcome: Outcome)
      reads this
    {
      Valid() && plan.stage == Closing && plan.todo == Nothing && plan.verdict == outcome && outcome != Running
    }

    /** The cleanup closure; it runs once on every path, so its `cleaned` flag never stops it. */
    method Clean(context: string, agentRun: string, workspace: string)
      requires Valid() && plan.context == context && plan.agentRun == agentRun && plan.workspace == workspace
      requires plan.stage == CleanupStage(plan) && plan.todo == Only(CleanupCall(plan)) && plan.verdict != Running
      modifies this
      ensures Ended(old(plan.verdict))
    {
      if agentRun != "" {
        SealSession(context, agentRun);
      }
      var r := Do(Release(workspace));
      if r != Refused {
        Add("workspace.released");
      }
    }

    method SealSession(context: string, agentRun: string)
      requires Valid() && plan.stage == Sealing && plan.todo == Only(Seal(context, agentRun))
      modifies this
      ensures Valid() && plan.stage == Releasing && plan.todo == Only(Release(old(plan.workspace)))
      ensures plan.verdict == old(plan.verdict)
    {
      var r := Do(Seal(context, agentRun));
      if r.Session? {
        Add("session.sealed");
      }
    }
  }

  method RunPipeline(q: Request, c: Capabilities) returns (outcome: Outcome)
    requires c.Valid() && c.calls == [] && c.request == q
    modifies c
    ensures c.Ended(outcome)
  {
    var r := c.Do(GetWork(q.task));
    if !r.Work? {
      return GateFailed;
    }
    var wc, ver := r.context, r.version;
    r := c.Do(Allocate(wc, q.baseRef));
    if !r.Workspace? {
      return GateFailed;
    }
    outcome := StartPhase(c, wc, r.id, r.path, ver);
  }

  method StartPhase(c: Capabilities, wc: string, ws: string, path: string, ver: int) returns (outcome: Outcome)
    requires c.At(Starting, Note("workspace.allocated", Only(Move(wc, W.InProgress, ver))), wc, ws, path, "")
    modifies c
    ensures c.Ended(outcome)
  {
    c.Add("workspace.allocated");
    var r := c.Do(Move(wc, W.InProgress, ver));
    if !r.Version? {
      c.Clean(wc, "", ws);
      return GateFailed;
    }
    c.Add("work.transitioned");
    outcome := AgentPhase(c, wc, ws, path, r.version);
  }

  method AgentPhase(c: Capabilities, wc: string, ws: string, path: string, ver: int)
    returns (outcome: Outcome)
    requires c.At(BeforeAgent, Only(CheckDeadline), wc, ws, path, "") && c.plan.version == ver
    modifies c
    ensures c.Ended(outcome)
  {
    var r := c.Do(CheckDeadline);
    if r != InTime {
      c.Clean(wc, "", ws);
      return TimedOut;
    }
    c.Add("agent.run.started");
    r := c.Do(RunAgent(wc, path));
    if !r.Agent? {
      c.Clean(wc, "", ws);
      return AgentFailed;
    }
    var ar, st := r.run, r.status;
    if !r.ok {
      c.Clean(wc, ar, ws);
      return AgentFailed;
    }
    c.Add("agent.run.completed");
    if st != "COMPLETED" {
      c.Clean(wc, ar, ws);
      return AgentFailed;
    }
    outcome := BuildPhase(c, wc, ws, path, ar, ver);
  }

  method BuildPhase(c: Capabilities, wc: string, ws: string, path: string, ar: string, ver: int)
    returns (outcome: Outcome)
    requires c.At(Diffing, Only(CollectDiff(wc, path)), wc, ws, path, ar) && c.plan.version == ver
    modifies c
    ensures c.Ended(outcome)
  {
    hide SteeredOpening, SteeredReviewing, SteeredEnding, Trace, GateHolds, Answer;
    var r := c.Do(CollectDiff(wc, path));
    if !r.Diff? {
      c.Clean(wc, ar, ws);
      return GateFailed;
    }
    var diff := r.id;
    c.Add("diff.collected");
    r := c.Do(RunTool(wc, path, "build"));
    if !r.Tool? {
      c.Clean(wc, ar, ws);
      return BuildFailed;
    }
    c.Add("tool.run.completed");
    var attached := c.Do(Attach(wc, "build", r.id, r.outcome));
    c.Add("evidence.attached");
    outcome := TestPhase(c, wc, ws, path, ar, ver, diff, r.outcome);
  }

  method TestPhase(c: Capabilities, wc: string, ws: string, path: string, ar: string, ver: int,
                   diff: string, build: string) returns (outcome: Outcome)
    requires c.At(Testing, Only(RunTool(wc, path, "test")), wc, ws, path, ar) && c.plan.version == ver
    requires c.plan.diff == diff && c.plan.build == build
    modifies c
    ensures c.Ended(outcome)
  {
    hide SteeredOpening, SteeredEnding, Trace, GateHolds, Answer;
    var r := c.Do(RunTool(wc, path, "test"));
    if !r.Tool? {
      c.Clean(wc, ar, ws);
      return TestFailed;
    }
    var test := r.outcome;
    c.Add("tool.run.completed");
    r := c.Do(Attach(wc, "test", r.id, r.outcome));
    c.Add("evidence.attached");
    r := c.Do(Move(wc, W.InReview, ver));
    if !r.Version? {
      c.Clean(wc, ar, ws);
      return GateFailed;
    }
    c.Add("work.transitioned");
    outcome := ReviewPhase(c, wc, ws, path, ar, r.version, diff, build, test);
  }

  method ReviewPhase(c: Capabilities, wc: string, ws: string, path: string, ar: string, ver: int,
                     diff: string, build: string, test: string) returns (outcome: Outcome)
    requires c.At(Requesting, Only(RequestReview(wc, ar, diff)), wc, ws, path, ar) && c.plan.version == ver
    requires c.plan.diff == diff && c.plan.build == build && c.plan.test == test
    modifies c
    ensures c.Ended(outcome)
  {
    var r := c.Do(RequestReview(wc, ar, diff));
    if !r.ReviewId? {
      c.Clean(wc, ar, ws);
      return GateFailed;
    }
    c.Add("review.requested");
    c.Add("workflow.waiting_review");
    outcome := PollPhase(c, wc, ws, path, ar, ver, diff, build, test, r.id);
  }

  method PollPhase(c: Capabilities, wc: string, ws: string, path: string, ar: string, ver: int,
                   diff: string, build: string, test: string, review: string) returns (outcome: Outcome)
    requires c.At(BeforePoll, Only(CheckDeadline), wc, ws, path, ar) && c.plan.version == ver
    requires c.plan.diff == diff && c.plan.build == build && c.plan.test == test && c.plan.review == review
    modifies c
    ensures c.Ended(outcome)
  {
    hide SteeredOpening, SteeredWorking, Trace;
    var r;
    while true
      invariant c.At(BeforePoll, Only(CheckDeadline), wc, ws, path, ar) && c.plan.version == ver
      invariant c.plan.diff == diff && c.plan.build == build && c.plan.test == test && c.plan.review == review
      decreases c.behaviour.deadline - |c.calls|
    {
      r := c.Do(CheckDeadline);
      if r != InTime {
        c.Clean(wc, ar, ws);
        return TimedOut;
      }
      r := c.Do(GetReview(review));
      if !r.Review? {
        c.Clean(wc, ar, ws);
        return GateFailed;
      }
      if r.decision != R.Pending {
        break;
      }
      r := c.Do(Nap);
    }
    c.Add("review.decided");
    var ok := DoneGate(build, test, r.decision, r.reviewed, r.results, diff);
    if !ok {
      c.Clean(wc, ar, ws);
      return GateFailed;
    }
    outcome := FinishPhase(c, wc, ws, path, ar, ver);
  }

  method FinishPhase(c: Capabilities, wc: string, ws: string, path: string, ar: string, ver: int) returns (outcome: Outcome)
    requires c.At(Finishing, Only(Move(wc, W.Done, ver)), wc, ws, path, ar)
    modifies c
    ensures c.Ended(outcome)
  {
    var r := c.Do(Move(wc, W.Done, ver));
    if !r.Version? {
      c.Clean(wc, ar, ws);
      return GateFailed;
    }
    c.Add("work.transitioned");
    c.Clean(wc, ar, ws);
    outcome := Done;
  }

  // ----- What every run does -----

  /**
   What has happened so far: the workspaces allocated and the agent runs named in replies, the agent runs a seal was
   tried for and the workspaces released, by id and in order; requests for DONE and their grants.
   */
  datatype Tally = Tally(workspaces: seq<string>, runs: seq<string>, sealed: seq<string>, released: seq<string>,
                         doneAsked: nat, doneGranted: nat)

  const NOTHING_YET := Tally([], [], [], [], 0, 0)

  function Counted(t: Tally, call: Call, r: Reply): Tally {
    match call
    case Allocate(_, _) => if r.Workspace? then t.(workspaces := t.workspaces + [r.id]) else t
    case RunAgent(_, _) => if r.Agent? && r.run != "" then t.(runs := t.runs + [r.run]) else t
    case Seal(_, run) => t.(sealed := t.sealed + [run])
    case Release(workspace) => t.(released := t.released + [workspace])
    case Move(_, to, _) =>
      if to != W.Done then t
      else t.(doneAsked := t.doneAsked + 1, doneGranted := t.doneGranted + if r.Version? then 1 else 0)
    case _ => t
  }

  function TallyOf(b: Behaviour, calls: seq<Call>): Tally {
    if calls == [] then NOTHING_YET
    else Counted(TallyOf(b, calls[..|calls| - 1]), calls[|calls| - 1], Answer(b, calls))
  }

  /** The call whose reply steers the machine next. */
  function Main(l: Local): Option<Call> {
    match l.stage
    case Fetching => Some(GetWork(l.request.task))
    case Allocating => Some(Allocate(l.context, l.request.baseRef))
    case Starting => Some(Move(l.context, W.InProgress, l.version))
    case BeforeAgent => Some(CheckDeadline)
    case InAgent => Some(RunAgent(l.context, l.path))
    case Diffing => Some(CollectDiff(l.context, l.path))
    case Building => Some(RunTool(l.context, l.path, "build"))
    case Testing => Some(RunTool(l.context, l.path, "test"))
    case Submitting => Some(Move(l.context, W.InReview, l.version))
    case Requesting => Some(RequestReview(l.context, l.agentRun, l.diff))
    case BeforePoll => Some(CheckDeadline)
    case Polling => Some(GetReview(l.review))
    case Finishing => Some(Move(l.context, W.Done, l.version))
    case Sealing => Some(Seal(l.context, l.agentRun))
    case Releasing => Some(Release(l.workspace))
    case Closing => None
  }

  /** The calls to make are asides, then the one that steers. */
  predicate LeadsTo(todo: Todo, steer: Option<Call>) {
    match todo
    case Nothing => steer == None
    case First(call, rest) => if steer == Some(call) then rest == Nothing else Aside(call) && LeadsTo(rest, steer)
  }

  predicate Shaped(l: Local) {
    LeadsTo(l.todo, Main(l))
  }

  lemma AsideKeepsShape(l: Local, r: Reply)
    requires Shaped(l) && l.todo.First? && Aside(l.todo.call)
    ensures Shaped(Next(l, r)) && Main(Next(l, r)) == Main(l)
    ensures Next(l, r) == l.(todo := l.todo.rest, events := Next(l, r).events)
  {
  }

  lemma SteersOnMain(l: Local)
    requires Shaped(l) && l.todo.First? && !Aside(l.todo.call)
    ensures Main(l) == Some(l.todo.call)
  {
  }

  lemma AsidesLead(c: Call, rest: Todo, steer: Option<Call>)
    requires Aside(c) && LeadsTo(rest, steer) && (steer.Some? ==> !Aside(steer.value))
    ensures LeadsTo(First(c, rest), steer)
  {
  }

  lemma OpeningIsShaped(l: Local, r: Reply)
    requires Opening(l.stage)
    ensures Shaped(SteeredOpening(l, r))
  {
  }

  lemma WorkingIsShaped(l: Local, r: Reply)
    requires Working(l.stage)
    ensures Shaped(SteeredWorking(l, r))
  {
    if r.Tool? {
      LongShape("build", r.id, r.outcome, l.context, RunTool(l.context, l.path, "test"));
      LongShape("test", r.id, r.outcome, l.context, Move(l.context, W.InReview, l.version));
    }
  }

  lemma ReviewingIsShaped(l: Local, r: Reply)
    requires Reviewing(l.stage)
    ensures Shaped(SteeredReviewing(l, r))
  {
    AsidesLead(Journal("workflow.waiting_review"), Only(CheckDeadline), Some(CheckDeadline));
    AsidesLead(Journal("review.requested"), Note("workflow.waiting_review", Only(CheckDeadline)), Some(CheckDeadline));
  }

  lemma EndingIsShaped(l: Local, r: Reply)
    requires Ending(l.stage)
    ensures Shaped(SteeredEnding(l, r))
  {
  }

  lemma SteeredIsShaped(l: Local, r: Reply)
    ensures Shaped(Steered(l, r))
  {
    if Opening(l.stage) {
      OpeningIsShaped(l, r);
    } else if Working(l.stage) {
      WorkingIsShaped(l, r);
    } else if Reviewing(l.stage) {
      ReviewingIsShaped(l, r);
    } else {
      EndingIsShaped(l, r);
    }
  }

  lemma LongShape(kind: string, id: string, outcome: string, context: string, steer: Call)
    requires !Aside(steer)
    ensures LeadsTo(Note("tool.run.completed", First(Attach(context, kind, id, outcome), Note("evidence.attached", Only(steer)))),
                    Some(steer))
  {
    AsidesLead(Journal("evidence.attached"), Only(steer), Some(steer));
    AsidesLead(Attach(context, kind, id, outcome), Note("evidence.attached", Only(steer)), Some(steer));
  }

  /** How far each stage has got, in what has been counted. */
  predicate Progress(l: Local, t: Tally) {
    && t.doneGranted <= t.doneAsked
    && match l.stage
       case Fetching => t == NOTHING_YET && l.agentRun == "" && l.verdict == Running
       case Allocating => t == NOTHING_YET && l.agentRun == "" && l.verdict == Running
       case Sealing => l.agentRun != "" && Holding(l, t) && t.sealed == [] && Verdict(l, t)
       case Releasing => Holding(l, t) && t.sealed == t.runs && Verdict(l, t)
       case Closing =>
         && Verdict(l, t)
         && (t == NOTHING_YET || (t.workspaces == [l.workspace] && t.released == t.workspaces))
         && t.runs == RunsOf(l) && t.sealed == t.runs
       case _ =>
         && Holding(l, t) && t.sealed == [] && t.doneAsked == 0 && l.verdict == Running
         && (Opening(l.stage) || l.stage == InAgent ==> l.agentRun == "")
  }

  function RunsOf(l: Local): seq<string> {
    if l.agentRun == "" then [] else [l.agentRun]
  }

  /** The run has its one workspace, has not released it, and had at most the agent run it knows. */
  predicate Holding(l: Local, t: Tally) {
    t.workspaces == [l.workspace] && t.released == [] && t.runs == RunsOf(l)
  }

  predicate Verdict(l: Local, t: Tally) {
    l.verdict != Running && t.doneAsked <= 1 && (l.verdict == Done <==> t.doneGranted == 1)
  }

  lemma OpeningProgress(l: Local, t: Tally, r: Reply)
    requires Opening(l.stage) && Main(l).Some? && Progress(l, t)
    ensures Progress(SteeredOpening(l, r), Counted(t, Main(l).value, r))
  {
  }

  lemma WorkingProgress(l: Local, t: Tally, r: Reply)
    requires Working(l.stage) && Main(l).Some? && Progress(l, t)
    ensures Progress(SteeredWorking(l, r), Counted(t, Main(l).value, r))
  {
    hide Note, Only, CleanupCall;
  }

  lemma ReviewingProgress(l: Local, t: Tally, r: Reply)
    requires Reviewing(l.stage) && Main(l).Some? && Progress(l, t)
    ensures Progress(SteeredReviewing(l, r), Counted(t, Main(l).value, r))
  {
    hide Note, Only, CleanupCall, GateHolds;
  }

  lemma EndingProgress(l: Local, t: Tally, r: Reply)
    requires Ending(l.stage) && Main(l).Some? && Progress(l, t)
    ensures Progress(SteeredEnding(l, r), Counted(t, Main(l).value, r))
  {
  }

  lemma SteeredProgress(l: Local, t: Tally, r: Reply)
    requires Main(l).Some? && Progress(l, t)
    ensures Progress(Steered(l, r), Counted(t, Main(l).value, r))
  {
    if Opening(l.stage) {
      OpeningProgress(l, t, r);
    } else if Working(l.stage) {
      WorkingProgress(l, t, r);
    } else if Reviewing(l.stage) {
      ReviewingProgress(l, t, r);
    } else {
      EndingProgress(l, t, r);
    }
  }

  lemma StepProgress(l: Local, t: Tally, r: Reply)
    requires Shaped(l) && l.todo.First? && Progress(l, t)
    ensures Shaped(Next(l, r)) && Progress(Next(l, r), Counted(t, l.todo.call, r))
  {
    hide Steered, Main;
    if Aside(l.todo.call) {
      AsideKeepsShape(l, r);
    } else {
      SteersOnMain(l);
      SteeredIsShaped(l, r);
      SteeredProgress(l, t, r);
    }
  }

  lemma {:induction false} RunProgress(q: Request, b: Behaviour, calls: seq<Call>, path: seq<Local>, n: nat)
    requires Trace(q, b, calls, path) && n <= |calls|
    ensures Shaped(path[n]) && Progress(path[n], TallyOf(b, calls[..n]))
  {
    if n == 0 {
      assert calls[..0] == [];
    } else {
      RunProgress(q, b, calls, path, n - 1);
      assert Step(path[n - 1], calls[n - 1], Answer(b, calls[..n]), path[n]);
      assert calls[..n][..n - 1] == calls[..n - 1];
      StepProgress(path[n - 1], TallyOf(b, calls[..n - 1]), Answer(b, calls[..n]));
    }
  }

  /**
   * However the capabilities behave: a run that has ended released the very workspaces it was allocated, one at most,
   * and tried to seal the very agent runs it was given, one at most, each once; it asked for DONE at most once, and
   * its outcome is Done exactly when that request was granted.
   */
  lemma RunIsClean(q: Request, b: Behaviour, calls: seq<Call>, path: seq<Local>)
    requires Trace(q, b, calls, path) && path[|calls|].todo.Nothing?
    ensures var l, t := path[|calls|], TallyOf(b, calls);
            && t.released == t.workspaces && |t.workspaces| <= 1
            && t.sealed == t.runs == RunsOf(l)
            && (t.workspaces == [] ==> t.runs == [])
            && t.doneAsked <= 1
            && (l.verdict == Done <==> t.doneGranted == 1)
            && l.verdict != Running
  {
    RunProgress(q, b, calls, path, |calls|);
    assert calls[..|calls|] == calls;
  }

  /** At the release, every seal attempt due has been made, and no release yet. */
  lemma SealBeforeRelease(q: Request, b: Behaviour, calls: seq<Call>, path: seq<Local>, n: nat)
    requires Trace(q, b, calls, path) && n < |calls| && calls[n].Release?
    ensures var t := TallyOf(b, calls[..n]); t.sealed == t.runs && t.released == [] && t.workspaces == [calls[n].workspace]
  {
    RunProgress(q, b, calls, path, n);
    assert Step(path[n], calls[n], Answer(b, calls[..n + 1]), path[n + 1]);
  }

  predicate SameFindings(l: Local, m: Local) {
    m.build == l.build && m.test == l.test && m.diff == l.diff && m.review == l.review
  }

  predicate Approves(l: Local, r: Reply) {
    r.Review? && GateHolds(l.build, l.test, r.decision, r.reviewed, r.results, l.diff)
  }

  /** Call `j` asked for the run's review, and the reply was an approval for which the gate holds. */
  ghost predicate ApprovedAt(b: Behaviour, calls: seq<Call>, l: Local, j: nat)
    requires j < |calls|
  {
    calls[j] == GetReview(l.review) && Approves(l, Answer(b, calls[..j + 1]))
  }

  ghost predicate Gated(b: Behaviour, calls: seq<Call>, l: Local, n: nat)
    requires n <= |calls|
  {
    exists j :: 0 <= j < n && ApprovedAt(b, calls, l, j)
  }

  lemma OnlyPollingFinishes(l: Local, r: Reply)
    ensures Steered(l, r).stage == Finishing ==> l.stage == Polling && Steered(l, r) == SteeredReviewing(l, r)
  {
    OpeningNeverFinishes(l, r);
    WorkingNeverFinishes(l, r);
    EndingNeverFinishes(l, r);
    OthersNeverFinish(l, r);
    hide SteeredOpening, SteeredWorking, SteeredReviewing, SteeredEnding;
  }

  lemma OpeningNeverFinishes(l: Local, r: Reply)
    ensures Opening(l.stage) ==> SteeredOpening(l, r).stage != Finishing
  {
  }

  lemma WorkingNeverFinishes(l: Local, r: Reply)
    ensures Working(l.stage) ==> SteeredWorking(l, r).stage != Finishing
  {
  }

  lemma EndingNeverFinishes(l: Local, r: Reply)
    ensures Ending(l.stage) ==> SteeredEnding(l, r).stage != Finishing
  {
  }

  lemma OthersNeverFinish(l: Local, r: Reply)
    ensures Reviewing(l.stage) && l.stage != Polling ==> SteeredReviewing(l, r).stage != Finishing
  {
  }

  lemma PollingFinishes(l: Local, r: Reply)
    requires l.stage == Polling && SteeredReviewing(l, r).stage == Finishing
    ensures SameFindings(l, SteeredReviewing(l, r)) && Approves(l, r)
  {
  }

  lemma EnterFinishing(l: Local, r: Reply)
    requires Shaped(l) && l.todo.First? && Next(l, r).stage == Finishing
    ensures SameFindings(l, Next(l, r))
    ensures l.stage != Finishing ==> l.todo.call == GetReview(l.review) && Approves(l, r)
  {
    if Aside(l.todo.call) {
      AsideKeepsShape(l, r);
    } else {
      SteersOnMain(l);
      OnlyPollingFinishes(l, r);
      PollingFinishes(l, r);
    }
  }

  lemma {:induction false} FinishingIsGated(q: Request, b: Behaviour, calls: seq<Call>, path: seq<Local>, n: nat)
    requires Trace(q, b, calls, path) && n <= |calls| && path[n].stage == Finishing
    ensures Gated(b, calls, path[n], n)
  {
    assert n > 0;
    var l := path[n - 1];
    RunProgress(q, b, calls, path, n - 1);
    assert Step(l, calls[n - 1], Answer(b, calls[..n]), path[n]);
    EnterFinishing(l, Answer(b, calls[..n]));
    if l.stage == Finishing {
      FinishingIsGated(q, b, calls, path, n - 1);
      var j :| 0 <= j < n - 1 && ApprovedAt(b, calls, l, j);
      assert ApprovedAt(b, calls, path[n], j);
    } else {
      assert calls[..(n - 1) + 1] == calls[..n];
      assert ApprovedAt(b, calls, path[n], n - 1);
    }
  }

  /** DONE is requested only after a review reply for which the gate held. */
  lemma DoneOnlyAfterGate(q: Request, b: Behaviour, calls: seq<Call>, path: seq<Local>, n: nat)
    requires Trace(q, b, calls, path) && n < |calls| && calls[n].Move? && calls[n].to == W.Done
    ensures Gated(b, calls, path[n], n)
  {
    RunProgress(q, b, calls, path, n);
    assert Step(path[n], calls[n], Answer(b, calls[..n + 1]), path[n + 1]);
    FinishingIsGated(q, b, calls, path, n);
  }
}
