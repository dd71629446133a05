/**
 The pipeline as a script (plugins/engineering-workflow/pipeline.go:61-202): the calls of a run, in order and with their
 arguments, told from the answers alone; where a run leaves the script, with which outcome, and how it then cleans up.
 */
module PipelineScript {
  import W = WorkRegistry
  import R = Reviews
  import opened Pipeline
  import opened Wrappers

  // ----- Answers -----

  function At(b: Behaviour, calls: seq<Call>, i: nat): Reply {
    if i < |calls| then Answer(b, calls[..i + 1]) else Refused
  }

  function ContextIn(r: Reply): string {
    if r.Work? then r.context else ""
  }

  function VersionIn(r: Reply): int {
    if r.Work? || r.Version? then r.version else 0
  }

  function IdIn(r: Reply): string {
    if r.Workspace? || r.Diff? || r.Tool? || r.ReviewId? then r.id else ""
  }

  function PathIn(r: Reply): string {
    if r.Workspace? then r.path else ""
  }

  function RunIn(r: Reply): string {
    if r.Agent? then r.run else ""
  }

  function OutcomeIn(r: Reply): string {
    if r.Tool? then r.outcome else ""
  }

  // ----- The script -----

  /** The calls up to the review loop. Call 7 runs the agent, 9 collects its diff, 11 builds, 15 tests, 21 asks for review. */
  function Head(q: Request, b: Behaviour, calls: seq<Call>, n: nat): Call {
    var context, path := ContextIn(At(b, calls, 0)), PathIn(At(b, calls, 1));
    var build, test := At(b, calls, 11), At(b, calls, 15);
    match n
    case 0 => GetWork(q.task)
    case 1 => Allocate(context, q.baseRef)
    case 2 => Journal("workspace.allocated")
    case 3 => Move(context, W.InProgress, VersionIn(At(b, calls, 0)))
    case 4 => Journal("work.transitioned")
    case 5 => CheckDeadline
    case 6 => Journal("agent.run.started")
    case 7 => RunAgent(context, path)
    case 8 => Journal("agent.run.completed")
    case 9 => CollectDiff(context, path)
    case 10 => Journal("diff.collected")
    case 11 => RunTool(context, path, "build")
    case 12 => Journal("tool.run.completed")
    case 13 => Attach(context, "build", IdIn(build), OutcomeIn(build))
    case 14 => Journal("evidence.attached")
    case 15 => RunTool(context, path, "test")
    case 16 => Journal("tool.run.completed")
    case 17 => Attach(context, "test", IdIn(test), OutcomeIn(test))
    case 18 => Journal("evidence.attached")
    case 19 => Move(context, W.InReview, VersionIn(At(b, calls, 3)))
    case 20 => Journal("work.transitioned")
    case 21 => RequestReview(context, RunIn(At(b, calls, 7)), IdIn(At(b, calls, 9)))
    case 22 => Journal("review.requested")
    case 23 => Journal("workflow.waiting_review")
    case _ => CheckDeadline
  }

  predicate Undecided(r: Reply) {
    r.Review? && r.decision == R.Pending
  }

  /** The whole script; in the review loop the call before says what comes next. */
  function Script(q: Request, b: Behaviour, calls: seq<Call>, n: nat): Call
    requires n <= |calls|
  {
    if n <= 24 then Head(q, b, calls, n)
    else
      match calls[n - 1]
      case CheckDeadline => GetReview(IdIn(At(b, calls, 21)))
      case GetReview(_) => if Undecided(At(b, calls, n - 1)) then Nap else Journal("review.decided")
      case Nap => CheckDeadline
      case _ => Move(ContextIn(At(b, calls, 0)), W.Done, VersionIn(At(b, calls, 19)))
  }

  /** The outcome with which the answer to call `i` ends the script, if it does. */
  function Leaves(b: Behaviour, calls: seq<Call>, i: nat): Option<Outcome>
    requires i < |calls|
  {
    var r := At(b, calls, i);
    match calls[i]
    case GetWork(_) => if r.Work? then None else Some(GateFailed)
    case Allocate(_, _) => if r.Workspace? then None else Some(GateFailed)
    case Move(_, to, _) => if !r.Version? then Some(GateFailed) else if to == W.Done then Some(Done) else None
    case CheckDeadline => if r.InTime? then None else Some(TimedOut)
    case RunAgent(_, _) => if r.Agent? && r.ok && r.status == "COMPLETED" then None else Some(AgentFailed)
    case CollectDiff(_, _) => if r.Diff? then None else Some(GateFailed)
    case RunTool(_, _, tool) => if r.Tool? then None else if tool == "build" then Some(BuildFailed) else Some(TestFailed)
    case RequestReview(_, _, _) => if r.ReviewId? then None else Some(GateFailed)
    case GetReview(_) =>
      if r.Review? && (r.decision == R.Pending || Passes(b, calls, r)) then None else Some(GateFailed)
    case _ => None
  }

  /** The decision, with what the build and the test answered, and for the diff that was collected. */
  predicate Passes(b: Behaviour, calls: seq<Call>, r: Reply) {
    && r.Review? && r.decision == R.Approved && r.reviewed == IdIn(At(b, calls, 9))
    && OutcomeIn(At(b, calls, 11)) == "PASS" && OutcomeIn(At(b, calls, 15)) == "PASS"
    && r.results != [] && forall i | 0 <= i < |r.results| :: r.results[i]
  }

  // ----- The machine at each point of the script -----

  predicate Steers(n: nat) {
    n in {0, 1, 3, 5, 7, 9, 11, 15, 19, 21, 24}
  }

  function StageAt(n: nat): Stage {
    if n == 0 then Fetching
    else if n == 1 then Allocating
    else if n <= 3 then Starting
    else if n <= 5 then BeforeAgent
    else if n <= 7 then InAgent
    else if n <= 9 then Diffing
    else if n <= 11 then Building
    else if n <= 15 then Testing
    else if n <= 19 then Submitting
    else if n <= 21 then Requesting
    else BeforePoll
  }

  function TodoAt(q: Request, b: Behaviour, calls: seq<Call>, n: nat): Todo
    requires n <= 24
    decreases 24 - n
  {
    First(Head(q, b, calls, n), if Steers(n) then Nothing else TodoAt(q, b, calls, n + 1))
  }

  /** What the machine knows before call `n`, the event ids aside. */
  function Knows(q: Request, b: Behaviour, calls: seq<Call>, n: nat, stage: Stage, todo: Todo): Local {
    Local(stage, todo, q,
          if n >= 1 then ContextIn(At(b, calls, 0)) else "",
          if n >= 20 then VersionIn(At(b, calls, 19))
          else if n >= 4 then VersionIn(At(b, calls, 3)) else if n >= 1 then VersionIn(At(b, calls, 0)) else 0,
          if n >= 2 then IdIn(At(b, calls, 1)) else "",
          if n >= 2 then PathIn(At(b, calls, 1)) else "",
          if n >= 8 then RunIn(At(b, calls, 7)) else "",
          if n >= 10 then IdIn(At(b, calls, 9)) else "",
          if n >= 12 then OutcomeIn(At(b, calls, 11)) else "",
          if n >= 16 then OutcomeIn(At(b, calls, 15)) else "",
          if n >= 22 then IdIn(At(b, calls, 21)) else "",
          "", Running, [])
  }

  function Bare(l: Local): Local {
    l.(events := [])
  }

  predicate HeadAt(q: Request, b: Behaviour, calls: seq<Call>, n: nat, l: Local)
    requires n <= 24
  {
    Bare(l) == Knows(q, b, calls, n, StageAt(n), TodoAt(q, b, calls, n))
  }

  /** The machine in the review loop, at call `n`. */
  predicate LoopAt(q: Request, b: Behaviour, calls: seq<Call>, n: nat, l: Local)
    requires 24 <= n <= |calls|
  {
    var call := Script(q, b, calls, n);
    var (stage, todo) :=
      match call
      case GetReview(_) => (Polling, Only(call))
      case Nap => (BeforePoll, First(Nap, Only(CheckDeadline)))
      case Journal(_) => (Finishing, First(call, Only(Move(ContextIn(At(b, calls, 0)), W.Done, VersionIn(At(b, calls, 19))))))
      case Move(_, _, _) => (Finishing, Only(call))
      case _ => (BeforePoll, Only(CheckDeadline));
    Bare(l) == Knows(q, b, calls, n, stage, todo)
  }

  /** In the loop only these calls are made, and a decision that is passed on has passed the gate. */
  predicate LoopCall(q: Request, b: Behaviour, calls: seq<Call>, n: nat)
    requires 24 < n <= |calls|
  {
    match calls[n - 1]
    case CheckDeadline => true
    case GetReview(_) => true
    case Nap => true
    case Journal(e) => e == "review.decided"
    case _ => false
  }

  /** Nothing has left the script in the first `n` calls, and the machine stands at call `n`. */
  ghost predicate InScript(q: Request, b: Behaviour, calls: seq<Call>, n: nat, l: Local)
    requires n <= |calls|
  {
    && (forall i | 0 <= i < n :: calls[i] == Script(q, b, calls, i) && Leaves(b, calls, i).None?)
    && (if n <= 24 then HeadAt(q, b, calls, n, l) else LoopAt(q, b, calls, n, l) && LoopCall(q, b, calls, n))
  }

  /** The machine after the last call of the script, `m - 1`: what is noted first, then the cleanup. */
  predicate Gone(b: Behaviour, calls: seq<Call>, m: nat, l: Local)
    requires 1 <= m <= |calls|
  {
    Leaves(b, calls, m - 1) == Some(l.verdict) &&
    if m <= 2 then l.stage == Closing && l.todo == Nothing
    else
      && l.context == ContextIn(At(b, calls, 0)) && l.workspace == IdIn(At(b, calls, 1))
      && l.agentRun == (if m >= 8 then RunIn(At(b, calls, 7)) else "")
      && l.stage == CleanupStage(l)
      && l.todo == (var note := NoteAt(b, calls, m);
                    if note == "" then Only(CleanupCall(l)) else Note(note, Only(CleanupCall(l))))
  }

  /** The event written when the script is left at call `m - 1`, or "". */
  function NoteAt(b: Behaviour, calls: seq<Call>, m: nat): string
    requires 1 <= m <= |calls|
  {
    var r := At(b, calls, m - 1);
    match calls[m - 1]
    case RunAgent(_, _) => if r.Agent? && r.ok then "agent.run.completed" else ""
    case GetReview(_) => if r.Review? then "review.decided" else ""
    case Move(_, to, _) => if r.Version? then "work.transitioned" else ""
    case _ => ""
  }

  // ----- One call of the head -----

  lemma HeadAside(q: Request, b: Behaviour, calls: seq<Call>, n: nat, l: Local, r: Reply)
    requires n < 24 && !Steers(n) && HeadAt(q, b, calls, n, l)
    ensures l.todo.First? && l.todo.call == Head(q, b, calls, n) && HeadAt(q, b, calls, n + 1, Next(l, r))
  {
    assert l.todo == TodoAt(q, b, calls, n);
  }

  lemma HeadOpens(q: Request, b: Behaviour, calls: seq<Call>, n: nat, l: Local)
    requires n <= 24 && HeadAt(q, b, calls, n, l)
    ensures l.todo.First? && l.todo.call == Head(q, b, calls, n) && (Steers(n) ==> l.todo.rest == Nothing)
  {
    assert l.todo == TodoAt(q, b, calls, n);
  }

  /** Which group of stages answers to a call that steers. */
  lemma Dispatch(l: Local, r: Reply)
    requires l.todo.First? && !Aside(l.todo.call)
    ensures Opening(l.stage) ==> Next(l, r) == SteeredOpening(l, r)
    ensures Working(l.stage) ==> Next(l, r) == SteeredWorking(l, r)
    ensures Reviewing(l.stage) ==> Next(l, r) == SteeredReviewing(l, r)
    ensures Ending(l.stage) ==> Next(l, r) == SteeredEnding(l, r)
  {
    hide SteeredOpening, SteeredWorking, SteeredReviewing, SteeredEnding;
  }

  lemma HeadOpening(q: Request, b: Behaviour, calls: seq<Call>, n: nat, l: Local)
    requires n in {0, 1, 3, 5} && n < |calls| && HeadAt(q, b, calls, n, l) && calls[n] == Head(q, b, calls, n)
    ensures if Leaves(b, calls, n).None? then HeadAt(q, b, calls, n + 1, Next(l, At(b, calls, n)))
            else Gone(b, calls, n + 1, Next(l, At(b, calls, n)))
  {
    hide Steered, Next, At, SteeredWorking, SteeredReviewing, SteeredEnding, GateHolds;
    HeadOpens(q, b, calls, n, l);
    Dispatch(l, At(b, calls, n));
  }

  lemma HeadAgent(q: Request, b: Behaviour, calls: seq<Call>, n: nat, l: Local)
    requires n == 7 && n < |calls| && HeadAt(q, b, calls, n, l) && calls[n] == Head(q, b, calls, n)
    ensures if Leaves(b, calls, n).None? then HeadAt(q, b, calls, n + 1, Next(l, At(b, calls, n)))
            else Gone(b, calls, n + 1, Next(l, At(b, calls, n)))
  {
    hide Steered, Next, At, SteeredOpening, SteeredReviewing, SteeredEnding, GateHolds;
    HeadOpens(q, b, calls, n, l);
    Dispatch(l, At(b, calls, n));
  }

  lemma HeadDiff(q: Request, b: Behaviour, calls: seq<Call>, n: nat, l: Local)
    requires n == 9 && n < |calls| && HeadAt(q, b, calls, n, l) && calls[n] == Head(q, b, calls, n)
    ensures if Leaves(b, calls, n).None? then HeadAt(q, b, calls, n + 1, Next(l, At(b, calls, n)))
            else Gone(b, calls, n + 1, Next(l, At(b, calls, n)))
  {
    hide Steered, Next, At, SteeredOpening, SteeredReviewing, SteeredEnding, GateHolds;
    HeadOpens(q, b, calls, n, l);
    Dispatch(l, At(b, calls, n));
  }

  lemma HeadBuild(q: Request, b: Behaviour, calls: seq<Call>, n: nat, l: Local)
    requires n == 11 && n < |calls| && HeadAt(q, b, calls, n, l) && calls[n] == Head(q, b, calls, n)
    ensures if Leaves(b, calls, n).None? then HeadAt(q, b, calls, n + 1, Next(l, At(b, calls, n)))
            else Gone(b, calls, n + 1, Next(l, At(b, calls, n)))
  {
    hide Steered, Next, At, SteeredOpening, SteeredReviewing, SteeredEnding, GateHolds;
    HeadOpens(q, b, calls, n, l);
    Dispatch(l, At(b, calls, n));
  }

  lemma HeadTest(q: Request, b: Behaviour, calls: seq<Call>, n: nat, l: Local)
    requires n == 15 && n < |calls| && HeadAt(q, b, calls, n, l) && calls[n] == Head(q, b, calls, n)
    ensures if Leaves(b, calls, n).None? then HeadAt(q, b, calls, n + 1, Next(l, At(b, calls, n)))
            else Gone(b, calls, n + 1, Next(l, At(b, calls, n)))
  {
    hide Steered, Next, At, SteeredOpening, SteeredReviewing, SteeredEnding, GateHolds;
    HeadOpens(q, b, calls, n, l);
    Dispatch(l, At(b, calls, n));
  }

  lemma HeadSubmit(q: Request, b: Behaviour, calls: seq<Call>, n: nat, l: Local)
    requires n == 19 && n < |calls| && HeadAt(q, b, calls, n, l) && calls[n] == Head(q, b, calls, n)
    ensures if Leaves(b, calls, n).None? then HeadAt(q, b, calls, n + 1, Next(l, At(b, calls, n)))
            else Gone(b, calls, n + 1, Next(l, At(b, calls, n)))
  {
    hide Steered, Next, At, SteeredOpening, SteeredWorking, SteeredEnding, GateHolds;
    HeadOpens(q, b, calls, n, l);
    Dispatch(l, At(b, calls, n));
  }

  lemma HeadRequest(q: Request, b: Behaviour, calls: seq<Call>, n: nat, l: Local)
    requires n == 21 && n < |calls| && HeadAt(q, b, calls, n, l) && calls[n] == Head(q, b, calls, n)
    ensures if Leaves(b, calls, n).None? then HeadAt(q, b, calls, n + 1, Next(l, At(b, calls, n)))
            else Gone(b, calls, n + 1, Next(l, At(b, calls, n)))
  {
    hide Steered, Next, At, SteeredOpening, SteeredWorking, SteeredEnding, GateHolds;
    HeadOpens(q, b, calls, n, l);
    Dispatch(l, At(b, calls, n));
  }

  // ----- One call of the loop -----

  lemma GateMeans(b: Behaviour, calls: seq<Call>, r: Reply)
    requires r.Review?
    ensures Passes(b, calls, r) <==>
            GateHolds(OutcomeIn(At(b, calls, 11)), OutcomeIn(At(b, calls, 15)), r.decision, r.reviewed, r.results,
                      IdIn(At(b, calls, 9)))
  {
  }

  lemma AsideGoesOn(l: Local, r: Reply)
    requires l.todo.First? && Aside(l.todo.call)
    ensures Bare(Next(l, r)) == Bare(l).(todo := l.todo.rest)
  {
  }

  lemma LoopDeadline(q: Request, b: Behaviour, calls: seq<Call>, n: nat, l: Local)
    requires 24 <= n < |calls| && LoopAt(q, b, calls, n, l)
    requires calls[n] == Script(q, b, calls, n) && calls[n].CheckDeadline?
    ensures if Leaves(b, calls, n).None? then LoopAt(q, b, calls, n + 1, Next(l, At(b, calls, n)))
            else Gone(b, calls, n + 1, Next(l, At(b, calls, n)))
  {
    hide Steered, Next, At, Head, GateHolds, Passes, SteeredOpening, SteeredWorking, SteeredEnding;
    var r := At(b, calls, n);
    Dispatch(l, r);
  }

  lemma LoopReview(q: Request, b: Behaviour, calls: seq<Call>, n: nat, l: Local)
    requires 24 <= n < |calls| && LoopAt(q, b, calls, n, l)
    requires calls[n] == Script(q, b, calls, n) && calls[n].GetReview?
    ensures if Leaves(b, calls, n).None? then LoopAt(q, b, calls, n + 1, Next(l, At(b, calls, n)))
            else Gone(b, calls, n + 1, Next(l, At(b, calls, n)))
  {
    hide Steered, Next, At, Head, GateHolds, Passes, SteeredOpening, SteeredWorking, SteeredEnding;
    var r := At(b, calls, n);
    Dispatch(l, r);
    if r.Review? {
      GateMeans(b, calls, r);
    }
  }

  lemma LoopAside(q: Request, b: Behaviour, calls: seq<Call>, n: nat, l: Local)
    requires 24 <= n < |calls| && LoopAt(q, b, calls, n, l)
    requires calls[n] == Script(q, b, calls, n) && (calls[n].Nap? || calls[n] == Journal("review.decided"))
    ensures if Leaves(b, calls, n).None? then LoopAt(q, b, calls, n + 1, Next(l, At(b, calls, n)))
            else Gone(b, calls, n + 1, Next(l, At(b, calls, n)))
  {
    hide Steered, Next, At, Head, GateHolds, Passes, SteeredOpening, SteeredWorking, SteeredReviewing, SteeredEnding;
    var r := At(b, calls, n);
    AsideGoesOn(l, r);
  }

  lemma LoopStarts(q: Request, b: Behaviour, calls: seq<Call>)
    ensures Head(q, b, calls, 24) == CheckDeadline
  {
  }

  /** The last call of the loop is the move to DONE. */
  lemma LoopMoves(q: Request, b: Behaviour, calls: seq<Call>, n: nat, l: Local)
    requires 24 <= n < |calls| && LoopAt(q, b, calls, n, l) && calls[n] == Script(q, b, calls, n) && calls[n].Move?
    ensures calls[n].to == W.Done && Bare(l) == Knows(q, b, calls, n, Finishing, Only(calls[n]))
  {
    hide At, Head;
    LoopStarts(q, b, calls);
  }

  lemma MoveLeaves(b: Behaviour, calls: seq<Call>, n: nat)
    requires n < |calls| && calls[n].Move? && calls[n].to == W.Done
    ensures Leaves(b, calls, n) == Some(if At(b, calls, n).Version? then Done else GateFailed)
    ensures NoteAt(b, calls, n + 1) == if At(b, calls, n).Version? then "work.transitioned" else ""
  {
    hide At;
  }

  lemma DoneEnds(l: Local, r: Reply)
    requires l.stage == Finishing
    ensures var m := SteeredEnding(l, r);
            && m.context == l.context && m.workspace == l.workspace && m.agentRun == l.agentRun
            && m.verdict == (if r.Version? then Done else GateFailed) && m.stage == CleanupStage(m)
            && m.todo == if r.Version? then Note("work.transitioned", Only(CleanupCall(m))) else Only(CleanupCall(m))
  {
  }

  lemma LoopDone(q: Request, b: Behaviour, calls: seq<Call>, n: nat, l: Local)
    requires 24 <= n < |calls| && LoopAt(q, b, calls, n, l) && calls[n] == Script(q, b, calls, n) && calls[n].Move?
    ensures Leaves(b, calls, n).Some? && Gone(b, calls, n + 1, Next(l, At(b, calls, n)))
  {
    hide Steered, Next, At, Head, LoopAt, Script, Leaves, NoteAt, CleanupStage, CleanupCall,
      SteeredOpening, SteeredWorking, SteeredReviewing, SteeredEnding;
    LoopMoves(q, b, calls, n, l);
    Dispatch(l, At(b, calls, n));
    MoveLeaves(b, calls, n);
    DoneEnds(l, At(b, calls, n));
  }

  lemma LoopStep(q: Request, b: Behaviour, calls: seq<Call>, n: nat, l: Local)
    requires 24 <= n < |calls| && LoopAt(q, b, calls, n, l) && (n > 24 ==> LoopCall(q, b, calls, n))
    requires calls[n] == Script(q, b, calls, n)
    ensures if Leaves(b, calls, n).None? then LoopAt(q, b, calls, n + 1, Next(l, At(b, calls, n))) && LoopCall(q, b, calls, n + 1)
            else Gone(b, calls, n + 1, Next(l, At(b, calls, n)))
  {
    hide Next, At, Gone, LoopAt, Passes;
    if calls[n].CheckDeadline? {
      LoopDeadline(q, b, calls, n, l);
    } else if calls[n].GetReview? {
      LoopReview(q, b, calls, n, l);
    } else if calls[n].Move? {
      LoopDone(q, b, calls, n, l);
    } else {
      LoopAside(q, b, calls, n, l);
    }
  }

  lemma LoopCalls(q: Request, b: Behaviour, calls: seq<Call>, n: nat, l: Local)
    requires 24 <= n <= |calls| && LoopAt(q, b, calls, n, l)
    ensures l.todo.First? && l.todo.call == Script(q, b, calls, n)
  {
  }

  lemma HeadIsLoop(q: Request, b: Behaviour, calls: seq<Call>, l: Local)
    requires 24 <= |calls|
    ensures HeadAt(q, b, calls, 24, l) <==> LoopAt(q, b, calls, 24, l)
  {
  }

  // ----- Every run keeps to the script until it leaves it -----

  lemma ScriptStep(q: Request, b: Behaviour, calls: seq<Call>, n: nat, l: Local)
    requires n < |calls| && InScript(q, b, calls, n, l) && Step(l, calls[n], At(b, calls, n), Next(l, At(b, calls, n)))
    ensures calls[n] == Script(q, b, calls, n)
    ensures if Leaves(b, calls, n).None? then InScript(q, b, calls, n + 1, Next(l, At(b, calls, n)))
            else Gone(b, calls, n + 1, Next(l, At(b, calls, n)))
  {
    hide HeadAt, LoopAt, LoopCall, Gone, Next, Leaves, Head, At, Script;
    if n >= 24 {
      if n == 24 {
        HeadIsLoop(q, b, calls, l);
      }
      LoopCalls(q, b, calls, n, l);
      LoopStep(q, b, calls, n, l);
    } else {
      ScriptHead(q, b, calls, n);
      HeadOpens(q, b, calls, n, l);
      HeadStep(q, b, calls, n, l);
    }
  }

  lemma ScriptHead(q: Request, b: Behaviour, calls: seq<Call>, n: nat)
    requires n <= |calls| && n <= 24
    ensures Script(q, b, calls, n) == Head(q, b, calls, n)
  {
  }

  lemma HeadStep(q: Request, b: Behaviour, calls: seq<Call>, n: nat, l: Local)
    requires n < 24 && n < |calls| && HeadAt(q, b, calls, n, l) && calls[n] == Head(q, b, calls, n)
    ensures if Leaves(b, calls, n).None? then HeadAt(q, b, calls, n + 1, Next(l, At(b, calls, n)))
            else Gone(b, calls, n + 1, Next(l, At(b, calls, n)))
  {
    hide HeadAt, Gone, Next, Leaves, Head, At;
    if !Steers(n) {
      HeadAside(q, b, calls, n, l, At(b, calls, n));
      AsideStays(q, b, calls, n);
    } else if n <= 5 {
      HeadOpening(q, b, calls, n, l);
    } else if n == 7 {
      HeadAgent(q, b, calls, n, l);
    } else if n == 9 {
      HeadDiff(q, b, calls, n, l);
    } else if n == 11 {
      HeadBuild(q, b, calls, n, l);
    } else if n == 15 {
      HeadTest(q, b, calls, n, l);
    } else if n == 19 {
      HeadSubmit(q, b, calls, n, l);
    } else {
      HeadRequest(q, b, calls, n, l);
    }
  }

  lemma AsideStays(q: Request, b: Behaviour, calls: seq<Call>, n: nat)
    requires n < 24 && !Steers(n) && n < |calls| && calls[n] == Head(q, b, calls, n)
    ensures Leaves(b, calls, n).None?
  {
  }

  /** The script was left with call `m - 1`, and every call up to it is the script's. */
  ghost predicate LeftAt(q: Request, b: Behaviour, calls: seq<Call>, path: seq<Local>, m: nat)
    requires 1 <= m <= |calls| < |path|
  {
    && (forall i | 0 <= i < m :: calls[i] == Script(q, b, calls, i))
    && (forall i | 0 <= i < m - 1 :: Leaves(b, calls, i).None?)
    && Leaves(b, calls, m - 1).Some? && Gone(b, calls, m, path[m])
  }

  ghost predicate LeftBy(q: Request, b: Behaviour, calls: seq<Call>, path: seq<Local>, n: nat)
    requires n <= |calls| < |path|
  {
    exists m :: 1 <= m <= n && LeftAt(q, b, calls, path, m)
  }

  lemma {:induction false} KeepsToScript(q: Request, b: Behaviour, calls: seq<Call>, path: seq<Local>, n: nat)
    requires Trace(q, b, calls, path) && n <= |calls|
    ensures InScript(q, b, calls, n, path[n]) || LeftBy(q, b, calls, path, n)
  {
    hide HeadAt, LoopAt, LoopCall, Gone, Next, Leaves, Head, Script;
    if n == 0 {
      StartsInScript(q, b, calls);
    } else {
      KeepsToScript(q, b, calls, path, n - 1);
      if InScript(q, b, calls, n - 1, path[n - 1]) {
        assert Step(path[n - 1], calls[n - 1], Answer(b, calls[..n]), path[n]);
        AnswerAt(b, calls, n - 1);
        ScriptStep(q, b, calls, n - 1, path[n - 1]);
        assert Leaves(b, calls, n - 1).Some? ==> LeftAt(q, b, calls, path, n);
      }
    }
  }

  lemma AnswerAt(b: Behaviour, calls: seq<Call>, n: nat)
    requires n < |calls|
    ensures At(b, calls, n) == Answer(b, calls[..n + 1])
  {
  }

  lemma StartsInScript(q: Request, b: Behaviour, calls: seq<Call>)
    ensures InScript(q, b, calls, 0, Start(q))
  {
  }

  // ----- After the script -----

  predicate Leaving(s: Stage) {
    s.Sealing? || s.Releasing? || s.Closing?
  }

  lemma LeavingStays(l: Local, r: Reply)
    requires Shaped(l) && l.todo.First? && Leaving(l.stage)
    ensures Leaving(Next(l, r).stage) && (l.todo.call.Seal? || l.todo.call.Release? || Aside(l.todo.call))
  {
    if Aside(l.todo.call) {
      AsideKeepsShape(l, r);
    } else {
      SteersOnMain(l);
    }
  }

  lemma {:induction false} LeavesOnce(q: Request, b: Behaviour, calls: seq<Call>, path: seq<Local>, m: nat, i: nat)
    requires Trace(q, b, calls, path) && 1 <= m <= i <= |calls| && LeftAt(q, b, calls, path, m)
    ensures Leaving(path[i].stage)
    ensures i < |calls| ==> (calls[i].Seal? || calls[i].Release? || Aside(calls[i])) && Leaves(b, calls, i).None?
    decreases i
  {
    hide Next, Shaped, LeftAt, Answer, At;
    RunProgress(q, b, calls, path, i);
    if i == m {
      LeftIsLeaving(q, b, calls, path, m);
    } else {
      LeavesOnce(q, b, calls, path, m, i - 1);
      RunProgress(q, b, calls, path, i - 1);
      assert Step(path[i - 1], calls[i - 1], Answer(b, calls[..i]), path[i]);
      LeavingStays(path[i - 1], Answer(b, calls[..i]));
    }
    if i < |calls| {
      assert Step(path[i], calls[i], Answer(b, calls[..i + 1]), path[i + 1]);
      LeavingStays(path[i], Answer(b, calls[..i + 1]));
    }
  }

  lemma LeftIsLeaving(q: Request, b: Behaviour, calls: seq<Call>, path: seq<Local>, m: nat)
    requires 1 <= m <= |calls| < |path| && LeftAt(q, b, calls, path, m)
    ensures Leaving(path[m].stage) && (path[m].todo == Nothing ==> m <= 2)
  {
    hide At, Leaves, Script, NoteAt;
  }

  /** What is left to do when the machine stands before cleanup call `n`: the release, and what is noted of it. */
  function Released(b: Behaviour, calls: seq<Call>, n: nat, workspace: string): seq<Call> {
    [Release(workspace)] + if At(b, calls, n) == Refused then [] else [Journal("workspace.released")]
  }

  /** The same with the seal before it when there is an agent run. */
  function Cleaned(b: Behaviour, calls: seq<Call>, n: nat, context: string, run: string, workspace: string): seq<Call> {
    if run == "" then Released(b, calls, n, workspace)
    else
      var noted := if At(b, calls, n).Session? then [Journal("session.sealed")] else [];
      [Seal(context, run)] + noted + Released(b, calls, n + 1 + |noted|, workspace)
  }

  /** The calls after the script, when it was left with call `m - 1`. */
  function Farewell(b: Behaviour, calls: seq<Call>, m: nat): seq<Call>
    requires 1 <= m <= |calls|
  {
    if m <= 2 then []
    else
      var noted := if NoteAt(b, calls, m) == "" then [] else [Journal(NoteAt(b, calls, m))];
      noted + Cleaned(b, calls, m + |noted|, ContextIn(At(b, calls, 0)), if m >= 8 then RunIn(At(b, calls, 7)) else "",
                      IdIn(At(b, calls, 1)))
  }

  /** The machine makes the next call until it has none to make. */
  lemma GoesOn(q: Request, b: Behaviour, calls: seq<Call>, path: seq<Local>, n: nat)
    requires Trace(q, b, calls, path) && path[|calls|].todo.Nothing? && n <= |calls|
    ensures path[n].todo.First? <==> n < |calls|
    ensures n < |calls| ==>
              && calls[n] == path[n].todo.call && path[n + 1] == Next(path[n], At(b, calls, n))
              && calls[n..] == [calls[n]] + calls[n + 1..]
    ensures n == |calls| ==> calls[n..] == []
  {
    if n < |calls| {
      assert Step(path[n], calls[n], Answer(b, calls[..n + 1]), path[n + 1]);
    }
  }

  lemma ReleaseTail(q: Request, b: Behaviour, calls: seq<Call>, path: seq<Local>, n: nat)
    requires Trace(q, b, calls, path) && path[|calls|].todo.Nothing? && n <= |calls|
    requires path[n].stage == Releasing && path[n].todo == Only(Release(path[n].workspace))
    ensures calls[n..] == Released(b, calls, n, path[n].workspace)
  {
    hide At, SteeredOpening, SteeredWorking, SteeredReviewing;
    GoesOn(q, b, calls, path, n);
    Dispatch(path[n], At(b, calls, n));
    GoesOn(q, b, calls, path, n + 1);
    if At(b, calls, n) != Refused {
      GoesOn(q, b, calls, path, n + 2);
    }
  }

  lemma CleanTail(q: Request, b: Behaviour, calls: seq<Call>, path: seq<Local>, n: nat)
    requires Trace(q, b, calls, path) && path[|calls|].todo.Nothing? && n <= |calls|
    requires path[n].stage == CleanupStage(path[n]) && path[n].todo == Only(CleanupCall(path[n]))
    ensures calls[n..] == Cleaned(b, calls, n, path[n].context, path[n].agentRun, path[n].workspace)
  {
    hide At, SteeredOpening, SteeredWorking, SteeredReviewing, Released;
    if path[n].agentRun == "" {
      ReleaseTail(q, b, calls, path, n);
    } else {
      GoesOn(q, b, calls, path, n);
      Dispatch(path[n], At(b, calls, n));
      GoesOn(q, b, calls, path, n + 1);
      if At(b, calls, n).Session? {
        ReleaseTail(q, b, calls, path, n + 2);
      } else {
        ReleaseTail(q, b, calls, path, n + 1);
      }
    }
  }

  lemma FarewellTail(q: Request, b: Behaviour, calls: seq<Call>, path: seq<Local>, m: nat)
    requires Trace(q, b, calls, path) && path[|calls|].todo.Nothing? && 1 <= m <= |calls| && Gone(b, calls, m, path[m])
    ensures calls[m..] == Farewell(b, calls, m)
  {
    hide At, Leaves, NoteAt, Cleaned, Steered;
    GoesOn(q, b, calls, path, m);
    if m > 2 {
      if NoteAt(b, calls, m) == "" {
        CleanTail(q, b, calls, path, m);
      } else {
        assert Aside(path[m].todo.call);
        CleanTail(q, b, calls, path, m + 1);
      }
    }
  }

  // ----- The theorems -----

  /**
   Every run that has ended made the calls of the script up to the first whose answer leaves it, ended with the outcome
   of that answer, and then made the calls of the cleanup and no other.
   */
  lemma RunIsScripted(q: Request, b: Behaviour, calls: seq<Call>, path: seq<Local>) returns (m: nat)
    requires Trace(q, b, calls, path) && path[|calls|].todo.Nothing?
    ensures 1 <= m <= |calls| && forall i | 0 <= i < m :: calls[i] == Script(q, b, calls, i)
    ensures forall i | 0 <= i < m - 1 :: Leaves(b, calls, i).None?
    ensures Leaves(b, calls, m - 1) == Some(path[|calls|].verdict)
    ensures calls[m..] == Farewell(b, calls, m)
  {
    hide Gone, Script, Leaves, Farewell, At, Next;
    KeepsToScript(q, b, calls, path, |calls|);
    if InScript(q, b, calls, |calls|, path[|calls|]) {
      NotOverInScript(q, b, calls, path[|calls|]);
    }
    m :| 1 <= m <= |calls| && LeftAt(q, b, calls, path, m);
    FarewellTail(q, b, calls, path, m);
    VerdictStands(q, b, calls, path, m, |calls|);
  }

  lemma NotOverInScript(q: Request, b: Behaviour, calls: seq<Call>, l: Local)
    requires InScript(q, b, calls, |calls|, l)
    ensures l.todo.First?
  {
    hide At, Head;
  }

  lemma VerdictStays(l: Local, r: Reply)
    requires Shaped(l) && l.todo.First? && Leaving(l.stage)
    ensures Next(l, r).verdict == l.verdict
  {
    if !Aside(l.todo.call) {
      SteersOnMain(l);
    }
  }

  lemma {:induction false} VerdictStands(q: Request, b: Behaviour, calls: seq<Call>, path: seq<Local>, m: nat, n: nat)
    requires Trace(q, b, calls, path) && 1 <= m <= n <= |calls| && LeftAt(q, b, calls, path, m)
    ensures Leaves(b, calls, m - 1) == Some(path[n].verdict)
    decreases n
  {
    hide Next, Shaped, Leaves, Script, At, Answer;
    if n > m {
      VerdictStands(q, b, calls, path, m, n - 1);
      LeavesOnce(q, b, calls, path, m, n - 1);
      RunProgress(q, b, calls, path, n - 1);
      assert Step(path[n - 1], calls[n - 1], Answer(b, calls[..n]), path[n]);
      VerdictStays(path[n - 1], Answer(b, calls[..n]));
    }
  }

  /**
   The outcome of a run is `o` exactly when some call was answered in the way that leaves the script with `o`: TimedOut at
   a deadline that has passed, AgentFailed when the agent does not answer that it COMPLETED, BuildFailed and TestFailed
   when the tool does not answer, Done when the move to DONE is granted, and GateFailed for any other refusal and for a
   decision that does not pass.
   */
  lemma OutcomeIff(q: Request, b: Behaviour, calls: seq<Call>, path: seq<Local>, o: Outcome)
    requires Trace(q, b, calls, path) && path[|calls|].todo.Nothing?
    ensures path[|calls|].verdict == o <==> exists i :: 0 <= i < |calls| && Leaves(b, calls, i) == Some(o)
  {
    hide Gone, Script, Leaves, Farewell, At, Next;
    KeepsToScript(q, b, calls, path, |calls|);
    if InScript(q, b, calls, |calls|, path[|calls|]) {
      NotOverInScript(q, b, calls, path[|calls|]);
    }
    var m :| 1 <= m <= |calls| && LeftAt(q, b, calls, path, m);
    VerdictStands(q, b, calls, path, m, |calls|);
    forall i | m <= i < |calls| ensures Leaves(b, calls, i).None? {
      LeavesOnce(q, b, calls, path, m, i);
    }
  }

  /** The calls that a pipeline makes for the work of a completed agent run only. */
  predicate NeedsAgent(c: Call) {
    c.CollectDiff? || c.RunTool? || c.RequestReview? || (c.Move? && (c.to == W.InReview || c.to == W.Done))
  }

  /** Call 7 ran the agent in the allocated workspace, and the answer was that it COMPLETED. */
  predicate AgentCompleted(b: Behaviour, calls: seq<Call>)
    requires |calls| > 7
  {
    calls[7].RunAgent? && At(b, calls, 7).Agent? && At(b, calls, 7).ok && At(b, calls, 7).status == "COMPLETED"
  }

  lemma OnlyAfterSeven(q: Request, b: Behaviour, calls: seq<Call>, n: nat)
    requires n < |calls| && calls[n] == Script(q, b, calls, n) && NeedsAgent(calls[n])
    ensures n > 7
  {
    hide At;
  }

  lemma SevenStays(q: Request, b: Behaviour, calls: seq<Call>)
    requires |calls| > 7 && calls[7] == Script(q, b, calls, 7) && Leaves(b, calls, 7).None?
    ensures AgentCompleted(b, calls)
  {
    hide At;
  }

  /** No diff is collected, no tool run, no review requested and no move to review or DONE asked for, unless the agent completed. */
  lemma WorkNeedsAgent(q: Request, b: Behaviour, calls: seq<Call>, path: seq<Local>, n: nat)
    requires Trace(q, b, calls, path) && n < |calls| && NeedsAgent(calls[n])
    ensures n > 7 && AgentCompleted(b, calls)
  {
    hide HeadAt, LoopAt, LoopCall, Gone, Next, At, Leaves, Script;
    KeepsToScript(q, b, calls, path, n);
    if InScript(q, b, calls, n, path[n]) {
      assert Step(path[n], calls[n], Answer(b, calls[..n + 1]), path[n + 1]);
      AnswerAt(b, calls, n);
      ScriptStep(q, b, calls, n, path[n]);
      OnlyAfterSeven(q, b, calls, n);
      SevenStays(q, b, calls);
    } else {
      var m :| 1 <= m <= n && LeftAt(q, b, calls, path, m);
      LeavesOnce(q, b, calls, path, m, n);
    }
  }

  // ----- Events -----

  /** The ids of the events written, in order. */
  function Written(b: Behaviour, calls: seq<Call>, n: nat): seq<string>
    requires n <= |calls|
  {
    if n == 0 then []
    else
      var r := At(b, calls, n - 1);
      Written(b, calls, n - 1) + if calls[n - 1].Journal? && r.EventId? && r.id != "" then [r.id] else []
  }

  lemma {:induction false} EventsAreWritten(q: Request, b: Behaviour, calls: seq<Call>, path: seq<Local>, n: nat)
    requires Trace(q, b, calls, path) && n <= |calls|
    ensures path[n].events == Written(b, calls, n)
  {
    hide SteeredOpening, SteeredWorking, SteeredReviewing, SteeredEnding;
    if n > 0 {
      EventsAreWritten(q, b, calls, path, n - 1);
      assert Step(path[n - 1], calls[n - 1], Answer(b, calls[..n]), path[n]);
      SteeringKeepsEvents(path[n - 1], At(b, calls, n - 1));
      WorkingKeepsEvents(path[n - 1], At(b, calls, n - 1));
      ReviewingKeepsEvents(path[n - 1], At(b, calls, n - 1));
    }
  }

  lemma SteeringKeepsEvents(l: Local, r: Reply)
    ensures Opening(l.stage) ==> SteeredOpening(l, r).events == l.events
    ensures Ending(l.stage) ==> SteeredEnding(l, r).events == l.events
  {
    hide Note, Only, CleanupCall, CleanupStage;
  }

  lemma WorkingKeepsEvents(l: Local, r: Reply)
    ensures Working(l.stage) ==> SteeredWorking(l, r).events == l.events
  {
    hide Note, Only, CleanupCall, CleanupStage;
  }

  lemma ReviewingKeepsEvents(l: Local, r: Reply)
    ensures Reviewing(l.stage) ==> SteeredReviewing(l, r).events == l.events
  {
    hide GateHolds, Note, Only, CleanupCall, CleanupStage;
  }
}
