/**
 The whole task lifecycle: any number of pipeline runs against one work registry and one review store, beside
 arbitrary other clients that may do anything but request DONE.

 Replies of the work and review stores are truthful or lost; every other capability answers anything.
 */
module TaskLifecycle {
  import opened Wrappers
  import W = WorkRegistry
  import R = Reviews
  import P = Pipeline

  datatype Actor = RunBy(id: nat) | Other

  /** `actors` says who made each record of the work log, `askers` who requested each review. */
  datatype World = World(log: seq<W.Op>, actors: seq<Actor>, reviewLog: seq<R.Op>, askers: map<string, Actor>,
                         runs: map<nat, P.Local>)

  datatype Event =
    | Launch(id: nat, request: P.Request)
    | Proceed(run: nat, reply: P.Reply, effect: Effect)
    | Outside(op: W.Op)
    | ReviewChange(change: R.Op)

  /** What a pipeline's call did to the stores, whether or not its reply arrives. */
  datatype Effect = Nothing | Moved(op: W.Op) | Asked(review: R.Review)

  function Tasks(w: World): W.Projection {
    var p := W.Replay(w.log);
    if p.Some? then p.value else W.EMPTY
  }

  function Reviews(w: World): map<string, R.Review> {
    R.Replay(w.reviewLog)
  }

  /** What the stores may do with a pipeline's call, and what they may answer. */
  ghost predicate Served(w: World, call: P.Call, reply: P.Reply, effect: Effect) {
    match call
    case GetWork(task) =>
      effect == Nothing &&
      (reply.Work? ==>
         task in Tasks(w).tasks && reply == P.Work(Tasks(w).tasks[task].context, Tasks(w).tasks[task].version))
    case Move(context, to, expected) =>
      match effect {
        case Nothing => !reply.Version?
        case Moved(op) =>
          var task := W.TaskAt(Tasks(w), context);
          && task.Some? && task.value.version == expected && W.Legal(task.value.status, to)
          && op == W.Transitioned(context, task.value.status, to, expected + 1)
          && (reply.Version? ==> reply.version == expected + 1)
        case Asked(_) => false
      }
    case RequestReview(context, agentRun, diff) =>
      match effect {
        case Nothing => !reply.ReviewId?
        case Asked(r) =>
          && R.Accepted(Reviews(w), R.Requested(r))
          && r.context == context && r.agentRun == agentRun && r.diff == diff
          && (reply.ReviewId? ==> reply.id == r.id)
        case Moved(_) => false
      }
    case GetReview(id) =>
      effect == Nothing &&
      (reply.Review? ==>
         id in Reviews(w) && reply == P.Review(Reviews(w)[id].status, Reviews(w)[id].diff, Reviews(w)[id].results))
    case _ => effect == Nothing
  }

  ghost predicate Enabled(w: World, e: Event) {
    match e
    case Launch(id, _) => id !in w.runs
    case Proceed(id, reply, effect) =>
      id in w.runs && w.runs[id].todo.First? && Served(w, w.runs[id].todo.call, reply, effect)
    case Outside(op) => W.Accepted(Tasks(w), op) && (op.Transitioned? ==> op.to != W.Done)
    case ReviewChange(change) => R.Accepted(Reviews(w), change)
  }

  function WithReview(w: World, change: R.Op, a: Actor): World {
    w.(reviewLog := w.reviewLog + [change],
       askers := if change.Requested? then w.askers[change.review.id := a] else w.askers)
  }

  function Do(w: World, e: Event): World {
    match e
    case Launch(id, q) => w.(runs := w.runs[id := P.Start(q)])
    case Proceed(id, reply, effect) =>
      if id !in w.runs then w
      else
        var after := w.(runs := w.runs[id := P.Next(w.runs[id], reply)]);
        match effect {
          case Nothing => after
          case Moved(op) => after.(log := w.log + [op], actors := w.actors + [RunBy(id)])
          case Asked(r) => WithReview(after, R.Requested(r), RunBy(id))
        }
    case Outside(op) => w.(log := w.log + [op], actors := w.actors + [Other])
    case ReviewChange(change) => WithReview(w, change, Other)
  }

  ghost predicate Run(ws: seq<World>, es: seq<Event>) {
    && |ws| == |es| + 1
    && ws[0] == World([], [], [], map[], map[])
    && forall i | 0 <= i < |es| :: Enabled(ws[i], es[i]) && ws[i + 1] == Do(ws[i], es[i])
  }

  // ----- Who moved a task -----

  /** The actors of a context's accepted transitions, in order. */
  function Movers(log: seq<W.Op>, actors: seq<Actor>, context: string): seq<Actor>
    requires |log| == |actors|
  {
    if log == [] then []
    else
      var n := |log| - 1;
      Movers(log[..n], actors[..n], context) + if log[n].Transitioned? && log[n].context == context then [actors[n]] else []
  }

  lemma MoversAppend(log: seq<W.Op>, actors: seq<Actor>, op: W.Op, a: Actor, c: string)
    requires |log| == |actors|
    ensures Movers(log + [op], actors + [a], c) ==
            Movers(log, actors, c) + if op.Transitioned? && op.context == c then [a] else []
  {
    assert (log + [op])[..|log|] == log && (actors + [a])[..|log|] == actors;
  }

  lemma {:induction false} MoversCount(log: seq<W.Op>, actors: seq<Actor>, c: string)
    requires |log| == |actors|
    ensures |Movers(log, actors, c)| == W.Transitions(log, c)
  {
    if log != [] {
      MoversCount(log[..|log| - 1], actors[..|log| - 1], c);
    }
  }

  // ----- The invariant -----

  /** How many of the three moves a run in this stage has had acknowledged. */
  function Acknowledged(s: P.Stage): nat {
    match s
    case Fetching => 0
    case Allocating => 0
    case Starting => 0
    case BeforeAgent => 1
    case InAgent => 1
    case Diffing => 1
    case Building => 1
    case Testing => 1
    case Submitting => 1
    case _ => 2
  }

  predicate Over(s: P.Stage) {
    s.Sealing? || s.Releasing? || s.Closing?
  }

  /** The run's review was approved for the diff it collected, with every criterion satisfied, and its tools passed. */
  predicate GatePassed(l: P.Local, reviews: map<string, R.Review>) {
    l.review in reviews &&
    P.GateHolds(l.build, l.test, reviews[l.review].status, reviews[l.review].diff, reviews[l.review].results, l.diff)
  }

  /** The run's review is one that the run itself requested, for its own context and its own agent run. */
  predicate OwnReview(w: World, id: nat, l: P.Local) {
    && l.review in Reviews(w) && l.review in w.askers && w.askers[l.review] == RunBy(id)
    && Reviews(w)[l.review].context == l.context && Reviews(w)[l.review].agentRun == l.agentRun
  }

  predicate Asks(s: P.Stage) {
    s.BeforePoll? || s.Polling? || s.Finishing?
  }

  ghost predicate LedBy(w: World, id: nat, context: string, n: nat)
    requires |w.log| == |w.actors|
  {
    var movers := Movers(w.log, w.actors, context);
    |movers| >= n && forall i | 0 <= i < n :: movers[i] == RunBy(id)
  }

  /** A running pipeline made the moves it has had acknowledged, and knows the version they left. */
  ghost predicate RunOk(w: World, id: nat, l: P.Local)
    requires |w.log| == |w.actors|
  {
    && P.Shaped(l)
    && (!Over(l.stage) && Acknowledged(l.stage) > 0 ==>
          LedBy(w, id, l.context, Acknowledged(l.stage)) && l.version == 1 + Acknowledged(l.stage))
    && (Asks(l.stage) ==> OwnReview(w, id, l))
    && (l.stage == P.Finishing ==> GatePassed(l, Reviews(w)))
  }

  /** The run `id` alone took the context through all three moves, and its gate passed on the review it requested. */
  ghost predicate CarriedBy(w: World, context: string, id: nat)
    requires |w.log| == |w.actors|
  {
    && id in w.runs && Over(w.runs[id].stage) && w.runs[id].context == context
    && Movers(w.log, w.actors, context) == [RunBy(id), RunBy(id), RunBy(id)]
    && GatePassed(w.runs[id], Reviews(w)) && OwnReview(w, id, w.runs[id])
  }

  ghost predicate Logged(w: World) {
    |w.log| == |w.actors| && W.History(w.log) && R.History(w.reviewLog)
  }

  ghost predicate DoneOk(w: World)
    requires |w.log| == |w.actors|
  {
    forall t | t in Tasks(w).tasks && Tasks(w).tasks[t].status == W.Done ::
      exists id :: CarriedBy(w, Tasks(w).tasks[t].context, id)
  }

  ghost predicate Inv(w: World) {
    && Logged(w)
    && (forall id | id in w.runs :: RunOk(w, id, w.runs[id]))
    && DoneOk(w)
  }

  // ----- The machine's moves -----

  /** A run reaches the end, or keeps what it has, or has one more move acknowledged. */
  predicate Advances(l: P.Local, call: P.Call, r: P.Reply, m: P.Local) {
    || Over(m.stage)
    || Acknowledged(m.stage) == 0
    || (Acknowledged(m.stage) == Acknowledged(l.stage) && m.version == l.version && m.context == l.context)
    || (&& Acknowledged(m.stage) == Acknowledged(l.stage) + 1 && m.context == l.context
        && r.Version? && m.version == r.version
        && call == P.Move(l.context, if Acknowledged(l.stage) == 0 then W.InProgress else W.InReview, l.version))
  }

  lemma OpeningAdvances(l: P.Local, r: P.Reply)
    requires P.Opening(l.stage) && P.Main(l).Some?
    ensures Advances(l, P.Main(l).value, r, P.SteeredOpening(l, r))
    ensures Over(l.stage) ==> Over(P.SteeredOpening(l, r).stage)
  {
  }

  lemma WorkingAdvances(l: P.Local, r: P.Reply)
    requires P.Working(l.stage) && P.Main(l).Some?
    ensures Advances(l, P.Main(l).value, r, P.SteeredWorking(l, r))
    ensures Over(l.stage) ==> Over(P.SteeredWorking(l, r).stage)
  {
  }

  lemma ReviewingAdvances(l: P.Local, r: P.Reply)
    requires P.Reviewing(l.stage) && P.Main(l).Some?
    ensures Advances(l, P.Main(l).value, r, P.SteeredReviewing(l, r))
    ensures Over(l.stage) ==> Over(P.SteeredReviewing(l, r).stage)
  {
  }

  lemma EndingAdvances(l: P.Local, r: P.Reply)
    requires P.Ending(l.stage) && P.Main(l).Some?
    ensures Advances(l, P.Main(l).value, r, P.SteeredEnding(l, r))
    ensures Over(l.stage) ==> Over(P.SteeredEnding(l, r).stage)
  {
  }

  lemma StepOfRun(l: P.Local, r: P.Reply)
    requires P.Shaped(l) && l.todo.First?
    ensures P.Shaped(P.Next(l, r))
    ensures Advances(l, l.todo.call, r, P.Next(l, r))
    ensures Over(l.stage) ==> Over(P.Next(l, r).stage)
  {
    if P.Aside(l.todo.call) {
      P.AsideKeepsShape(l, r);
    } else {
      P.SteersOnMain(l);
      P.SteeredIsShaped(l, r);
      if P.Opening(l.stage) {
        OpeningAdvances(l, r);
      } else if P.Working(l.stage) {
        WorkingAdvances(l, r);
      } else if P.Reviewing(l.stage) {
        ReviewingAdvances(l, r);
      } else {
        EndingAdvances(l, r);
      }
    }
  }

  /** Nothing a run found out changes once its gate has passed. */
  lemma FindingsStay(l: P.Local, r: P.Reply)
    requires P.Shaped(l) && l.todo.First? && (l.stage == P.Finishing || Over(l.stage))
    ensures P.SameFindings(l, P.Next(l, r)) && P.Next(l, r).context == l.context && P.Next(l, r).agentRun == l.agentRun
    ensures P.Next(l, r).stage == P.Finishing || Over(P.Next(l, r).stage)
    ensures !P.Aside(l.todo.call) ==> Over(P.Next(l, r).stage)
  {
    if P.Aside(l.todo.call) {
      P.AsideKeepsShape(l, r);
    } else {
      P.SteersOnMain(l);
    }
  }

  lemma OpeningDoesNotAsk(l: P.Local, r: P.Reply)
    ensures P.Opening(l.stage) ==> !Asks(P.SteeredOpening(l, r).stage)
  {
  }

  lemma WorkingDoesNotAsk(l: P.Local, r: P.Reply)
    ensures P.Working(l.stage) ==> !Asks(P.SteeredWorking(l, r).stage)
  {
  }

  lemma EndingDoesNotAsk(l: P.Local, r: P.Reply)
    ensures P.Ending(l.stage) ==> !Asks(P.SteeredEnding(l, r).stage)
  {
  }

  lemma ReviewingAsks(l: P.Local, r: P.Reply)
    ensures P.Reviewing(l.stage) && Asks(P.SteeredReviewing(l, r).stage) ==>
              var m := P.SteeredReviewing(l, r);
              && m.context == l.context && m.agentRun == l.agentRun
              && (Asks(l.stage) ==> m.review == l.review)
              && (!Asks(l.stage) ==> l.stage == P.Requesting && r.ReviewId? && m.review == r.id)
  {
    hide P.GateHolds;
  }

  /** A run polls the review whose request it got a reply to, for the context and agent run it asked with. */
  lemma ReviewOfRun(l: P.Local, r: P.Reply)
    requires P.Shaped(l) && l.todo.First? && Asks(P.Next(l, r).stage)
    ensures P.Next(l, r).context == l.context && P.Next(l, r).agentRun == l.agentRun
    ensures Asks(l.stage) ==> P.Next(l, r).review == l.review
    ensures !Asks(l.stage) ==>
              && l.todo.call == P.RequestReview(l.context, l.agentRun, l.diff)
              && r.ReviewId? && P.Next(l, r).review == r.id
  {
    hide P.SteeredOpening, P.SteeredWorking, P.SteeredReviewing, P.SteeredEnding, P.GateHolds;
    if P.Aside(l.todo.call) {
      P.AsideKeepsShape(l, r);
    } else {
      P.SteersOnMain(l);
      OpeningDoesNotAsk(l, r);
      WorkingDoesNotAsk(l, r);
      EndingDoesNotAsk(l, r);
      ReviewingAsks(l, r);
    }
  }

  /** Each move is made from its own stage. */
  lemma MoveOfRun(l: P.Local)
    requires P.Shaped(l) && l.todo.First? && l.todo.call.Move?
    ensures l.todo.call.context == l.context && l.todo.call.expected == l.version
    ensures l.todo.call.to == W.InProgress <==> l.stage == P.Starting
    ensures l.todo.call.to == W.InReview <==> l.stage == P.Submitting
    ensures l.todo.call.to == W.Done <==> l.stage == P.Finishing
    ensures l.todo.call.to in {W.InProgress, W.InReview, W.Done}
  {
    P.SteersOnMain(l);
  }

  // ----- Every step keeps the invariant -----

  /** More records, more reviews: what a run has done and found stays true. */
  ghost predicate Extends(w: World, v: World) {
    && Logged(w) && Logged(v)
    && (forall c, id, n :: LedBy(w, id, c, n) ==> LedBy(v, id, c, n))
    && (forall l: P.Local :: GatePassed(l, Reviews(w)) ==> GatePassed(l, Reviews(v)))
    && (forall id, l: P.Local :: OwnReview(w, id, l) ==> OwnReview(v, id, l))
  }

  lemma MoreOpsExtend(w: World, op: W.Op, a: Actor)
    requires Logged(w) && W.Accepted(Tasks(w), op)
    ensures var v := w.(log := w.log + [op], actors := w.actors + [a]);
            Extends(w, v) && Some(Tasks(v)) == W.Apply(Tasks(w), op)
  {
    var v := w.(log := w.log + [op], actors := w.actors + [a]);
    assert v.log[..|w.log|] == w.log;
    W.HistoryReplays(w.log);
    W.HistoryReplays(v.log);
    forall c, id, n | LedBy(w, id, c, n) ensures LedBy(v, id, c, n) {
      MoversAppend(w.log, w.actors, op, a, c);
    }
  }

  lemma MoreReviewsExtend(w: World, change: R.Op, a: Actor)
    requires Logged(w) && R.Accepted(Reviews(w), change)
    ensures Extends(w, WithReview(w, change, a))
    ensures Reviews(WithReview(w, change, a)) == R.Apply(Reviews(w), change)
  {
    var v := WithReview(w, change, a);
    assert v.reviewLog[..|w.reviewLog|] == w.reviewLog;
    assert Reviews(v) == R.Apply(Reviews(w), change);
    forall id, l: P.Local | OwnReview(w, id, l) ensures OwnReview(v, id, l) {
      assert change.Requested? ==> change.review.id != l.review;
    }
  }

  lemma OtherRunsOk(w: World, v: World, id: nat, l: P.Local)
    requires Extends(w, v) && RunOk(w, id, l)
    ensures RunOk(v, id, l)
  {
  }

  /** A task that was Done stays carried by the same run, unless the run table forgets it. */
  lemma CarriedStays(w: World, v: World, t: string, id: nat, op: W.Op, a: Actor)
    requires Logged(w) && W.Accepted(Tasks(w), op) && v.runs == w.runs && v.reviewLog == w.reviewLog && v.askers == w.askers
    requires v.log == w.log + [op] && v.actors == w.actors + [a]
    requires t in Tasks(w).tasks && Tasks(w).tasks[t].status == W.Done && CarriedBy(w, Tasks(w).tasks[t].context, id)
    ensures CarriedBy(v, Tasks(w).tasks[t].context, id)
  {
    var c := Tasks(w).tasks[t].context;
    W.HistoryInvariant(w.log);
    MoversAppend(w.log, w.actors, op, a, c);
  }

  /** An accepted record that is not a move to DONE makes no task Done. */
  lemma NoNewDone(p: W.Projection, op: W.Op, t: string)
    requires W.Wired(p) && W.Accepted(p, op) && (op.Transitioned? ==> op.to != W.Done)
    requires var q := W.Apply(p, op); q.Some? && t in q.value.tasks && q.value.tasks[t].status == W.Done
    ensures t in p.tasks && p.tasks[t].status == W.Done && W.Apply(p, op).value.tasks[t].context == p.tasks[t].context
  {
  }

  lemma OutsideKeepsDone(w: World, op: W.Op, a: Actor)
    requires Logged(w) && DoneOk(w) && W.Accepted(Tasks(w), op) && (op.Transitioned? ==> op.to != W.Done)
    ensures var v := w.(log := w.log + [op], actors := w.actors + [a]);
            Logged(v) && DoneOk(v)
  {
    var v := w.(log := w.log + [op], actors := w.actors + [a]);
    MoreOpsExtend(w, op, a);
    W.HistoryInvariant(w.log);
    forall t | t in Tasks(v).tasks && Tasks(v).tasks[t].status == W.Done
      ensures exists id :: CarriedBy(v, Tasks(v).tasks[t].context, id)
    {
      NoNewDone(Tasks(w), op, t);
      var id :| CarriedBy(w, Tasks(w).tasks[t].context, id);
      CarriedStays(w, v, t, id, op, a);
    }
  }

  lemma ReviewsKeepDone(w: World, change: R.Op, a: Actor)
    requires Logged(w) && DoneOk(w) && R.Accepted(Reviews(w), change)
    ensures DoneOk(WithReview(w, change, a))
  {
    var v := WithReview(w, change, a);
    MoreReviewsExtend(w, change, a);
    forall t | t in Tasks(v).tasks && Tasks(v).tasks[t].status == W.Done
      ensures exists id :: CarriedBy(v, Tasks(v).tasks[t].context, id)
    {
      var id :| CarriedBy(w, Tasks(w).tasks[t].context, id);
      assert CarriedBy(v, Tasks(w).tasks[t].context, id);
    }
  }

  /** A run that goes on keeps every task it has carried. */
  lemma NextKeepsDone(w: World, id: nat, r: P.Reply)
    requires Logged(w) && DoneOk(w) && id in w.runs && P.Shaped(w.runs[id]) && w.runs[id].todo.First?
    ensures DoneOk(w.(runs := w.runs[id := P.Next(w.runs[id], r)]))
  {
    var v := w.(runs := w.runs[id := P.Next(w.runs[id], r)]);
    forall t | t in Tasks(v).tasks && Tasks(v).tasks[t].status == W.Done
      ensures exists i :: CarriedBy(v, Tasks(v).tasks[t].context, i)
    {
      var i :| CarriedBy(w, Tasks(w).tasks[t].context, i);
      if i == id {
        FindingsStay(w.runs[id], r);
        StepOfRun(w.runs[id], r);
      }
      assert CarriedBy(v, Tasks(w).tasks[t].context, i);
    }
  }

  /** A served move spends the version its run expected, and gets the run's name. */
  lemma ServedMove(w: World, id: nat, reply: P.Reply, op: W.Op)
    requires Logged(w) && id in w.runs && w.runs[id].todo.First? && P.Shaped(w.runs[id])
    requires Served(w, w.runs[id].todo.call, reply, Moved(op))
    ensures w.runs[id].todo.call.Move? && W.Accepted(Tasks(w), op) && op.context == w.runs[id].context
    ensures op.to == w.runs[id].todo.call.to && op.versionAfter == w.runs[id].version + 1
    ensures |Movers(w.log, w.actors, op.context)| + 1 == w.runs[id].version
    ensures reply.Version? ==> reply.version == op.versionAfter
    ensures op.to == W.InProgress ==> w.runs[id].version == 1
    ensures op.to == W.InReview ==> w.runs[id].version == 2
    ensures op.to == W.Done ==> w.runs[id].version == 3
  {
    MoveOfRun(w.runs[id]);
    W.HistoryInvariant(w.log);
    MoversCount(w.log, w.actors, op.context);
  }

  lemma ExtendsWhateverRuns(w: World, v: World, runs: map<nat, P.Local>)
    requires Extends(w, v)
    ensures Extends(w, v.(runs := runs))
  {
    hide Movers, GatePassed;
    var u := v.(runs := runs);
    forall c, id, n | LedBy(v, id, c, n) ensures LedBy(u, id, c, n) {
    }
    forall id, l: P.Local | OwnReview(v, id, l) ensures OwnReview(u, id, l) {
    }
  }

  lemma ProceedExtends(w: World, id: nat, reply: P.Reply, effect: Effect)
    requires Logged(w) && id in w.runs && w.runs[id].todo.First? && P.Shaped(w.runs[id])
    requires Served(w, w.runs[id].todo.call, reply, effect)
    ensures Extends(w, Do(w, Proceed(id, reply, effect)))
  {
    hide P.Next, Extends, Logged;
    var runs := w.runs[id := P.Next(w.runs[id], reply)];
    match effect {
      case Nothing =>
        NothingExtends(w);
        ExtendsWhateverRuns(w, w, runs);
      case Moved(op) =>
        ServedMove(w, id, reply, op);
        MoreOpsExtend(w, op, RunBy(id));
        ExtendsWhateverRuns(w, w.(log := w.log + [op], actors := w.actors + [RunBy(id)]), runs);
      case Asked(r) =>
        MoreReviewsExtend(w, R.Requested(r), RunBy(id));
        ExtendsWhateverRuns(w, WithReview(w, R.Requested(r), RunBy(id)), runs);
    }
  }

  lemma NothingExtends(w: World)
    requires Logged(w)
    ensures Extends(w, w)
  {
  }

  /** After its first or second move a run has made one more of the context's moves than it had acknowledged. */
  lemma MoveLeads(w: World, id: nat, reply: P.Reply, op: W.Op)
    requires Logged(w) && id in w.runs && w.runs[id].todo.First? && RunOk(w, id, w.runs[id])
    requires Served(w, w.runs[id].todo.call, reply, Moved(op)) && op.Transitioned? && op.to != W.Done
    ensures var v := w.(log := w.log + [op], actors := w.actors + [RunBy(id)]);
            LedBy(v, id, op.context, Acknowledged(w.runs[id].stage) + 1)
    ensures reply.Version? ==> reply.version == 2 + Acknowledged(w.runs[id].stage)
  {
    var l := w.runs[id];
    MoveOfRun(l);
    ServedMove(w, id, reply, op);
    MoversAppend(w.log, w.actors, op, RunBy(id), op.context);
    assert Acknowledged(l.stage) == l.version - 1;
  }

  lemma ProceedKeepsRun(w: World, id: nat, reply: P.Reply, effect: Effect)
    requires Logged(w) && id in w.runs && w.runs[id].todo.First? && RunOk(w, id, w.runs[id])
    requires Served(w, w.runs[id].todo.call, reply, effect)
    ensures var v := Do(w, Proceed(id, reply, effect));
            Extends(w, v) && RunOk(v, id, v.runs[id])
  {
    var l, m := w.runs[id], P.Next(w.runs[id], reply);
    ProceedExtends(w, id, reply, effect);
    StepOfRun(l, reply);
    if !Over(m.stage) && Acknowledged(m.stage) == Acknowledged(l.stage) + 1 {
      assert effect.Moved?;
      ServedMove(w, id, reply, effect.op);
      MoveLeads(w, id, reply, effect.op);
    }
    if Asks(m.stage) {
      ProceedKeepsReview(w, id, reply, effect);
    }
    if m.stage == P.Finishing {
      P.EnterFinishing(l, reply);
    }
  }

  lemma ProceedKeepsReview(w: World, id: nat, reply: P.Reply, effect: Effect)
    requires Logged(w) && id in w.runs && w.runs[id].todo.First? && RunOk(w, id, w.runs[id])
    requires Served(w, w.runs[id].todo.call, reply, effect) && Asks(P.Next(w.runs[id], reply).stage)
    ensures var v := Do(w, Proceed(id, reply, effect)); OwnReview(v, id, v.runs[id])
  {
    hide P.Next, LedBy, GatePassed, Movers;
    ReviewOfRun(w.runs[id], reply);
    ProceedExtends(w, id, reply, effect);
    if effect.Asked? {
      MoreReviewsExtend(w, R.Requested(effect.review), RunBy(id));
    }
  }

  lemma ProceedKeepsDone(w: World, id: nat, reply: P.Reply, effect: Effect)
    requires Inv(w) && Enabled(w, Proceed(id, reply, effect))
    ensures var v := Do(w, Proceed(id, reply, effect));
            Logged(v) && DoneOk(v)
  {
    var l := w.runs[id];
    var u := w.(runs := w.runs[id := P.Next(l, reply)]);
    NextKeepsDone(w, id, reply);
    match effect {
      case Nothing =>
      case Asked(r) =>
        MoreReviewsExtend(w, R.Requested(r), RunBy(id));
        ReviewsKeepDone(u, R.Requested(r), RunBy(id));
      case Moved(op) =>
        ServedMove(w, id, reply, op);
        if op.to != W.Done {
          OutsideKeepsDone(u, op, RunBy(id));
        } else {
          DoneIsCarried(w, id, reply, op);
        }
    }
  }

  /** The move to DONE: the run that makes it made the other two, and its gate passed. */
  lemma NewlyCarried(w: World, id: nat, reply: P.Reply, op: W.Op)
    requires Logged(w) && id in w.runs && w.runs[id].todo.First? && RunOk(w, id, w.runs[id])
    requires Served(w, w.runs[id].todo.call, reply, Moved(op)) && op.Transitioned? && op.to == W.Done
    ensures CarriedBy(Do(w, Proceed(id, reply, Moved(op))), op.context, id)
  {
    var l := w.runs[id];
    ServedMove(w, id, reply, op);
    MoveOfRun(l);
    FindingsStay(l, reply);
    var movers := Movers(w.log, w.actors, op.context);
    assert movers == [RunBy(id), RunBy(id)];
    MoversAppend(w.log, w.actors, op, RunBy(id), op.context);
  }

  lemma MoveKeepsOtherTasks(p: W.Projection, op: W.Op, t: string)
    requires W.Wired(p) && W.Accepted(p, op) && op.Transitioned?
    ensures var q := W.Apply(p, op).value;
            && q.tasks.Keys == p.tasks.Keys
            && (t in p.tasks ==> q.tasks[t].context == p.tasks[t].context)
            && (t in p.tasks && p.tasks[t].context != op.context ==> q.tasks[t] == p.tasks[t])
  {
  }

  lemma DoneIsCarried(w: World, id: nat, reply: P.Reply, op: W.Op)
    requires Inv(w) && Enabled(w, Proceed(id, reply, Moved(op))) && op.Transitioned? && op.to == W.Done
    ensures var v := Do(w, Proceed(id, reply, Moved(op)));
            Logged(v) && DoneOk(v)
  {
    var v := Do(w, Proceed(id, reply, Moved(op)));
    ServedMove(w, id, reply, op);
    MoreOpsExtend(w, op, RunBy(id));
    W.HistoryInvariant(w.log);
    NewlyCarried(w, id, reply, op);
    var u := w.(runs := v.runs);
    NextKeepsDone(w, id, reply);
    forall t | t in Tasks(v).tasks && Tasks(v).tasks[t].status == W.Done
      ensures exists i :: CarriedBy(v, Tasks(v).tasks[t].context, i)
    {
      MoveKeepsOtherTasks(Tasks(w), op, t);
      if Tasks(v).tasks[t].context != op.context {
        var i :| CarriedBy(u, Tasks(u).tasks[t].context, i);
        CarriedStays(u, v, t, i, op, RunBy(id));
      }
    }
  }

  lemma LaunchKeepsDone(w: World, id: nat, q: P.Request)
    requires Inv(w) && id !in w.runs
    ensures DoneOk(Do(w, Launch(id, q)))
  {
    hide RunOk, GatePassed, Movers, P.Start;
    var v := Do(w, Launch(id, q));
    forall t | t in Tasks(v).tasks && Tasks(v).tasks[t].status == W.Done
      ensures exists i :: CarriedBy(v, Tasks(v).tasks[t].context, i)
    {
      var i :| CarriedBy(w, Tasks(w).tasks[t].context, i);
      assert CarriedBy(v, Tasks(w).tasks[t].context, i);
    }
  }

  lemma LaunchExtends(w: World, id: nat, q: P.Request)
    requires Logged(w)
    ensures Extends(w, Do(w, Launch(id, q)))
  {
    hide Movers, GatePassed, P.Start;
  }

  lemma StartIsOk(w: World, id: nat, q: P.Request)
    requires |w.log| == |w.actors|
    ensures RunOk(w, id, P.Start(q))
  {
  }

  lemma LaunchKeepsInv(w: World, id: nat, q: P.Request)
    requires Inv(w) && id !in w.runs
    ensures Inv(Do(w, Launch(id, q)))
  {
    hide RunOk, DoneOk, Extends, P.Start;
    var v := Do(w, Launch(id, q));
    LaunchExtends(w, id, q);
    LaunchKeepsDone(w, id, q);
    StartIsOk(v, id, q);
    ExtendsKeepsRuns(w, v, {id});
  }

  lemma ExtendsKeepsRuns(w: World, v: World, changed: set<nat>)
    requires Inv(w) && Extends(w, v)
    requires forall i | i in v.runs && i !in changed :: i in w.runs && v.runs[i] == w.runs[i]
    ensures forall i | i in v.runs && i !in changed :: RunOk(v, i, v.runs[i])
  {
    hide RunOk;
    forall i | i in v.runs && i !in changed ensures RunOk(v, i, v.runs[i]) {
      OtherRunsOk(w, v, i, w.runs[i]);
    }
  }

  lemma ProceedKeepsInv(w: World, id: nat, reply: P.Reply, effect: Effect)
    requires Inv(w) && Enabled(w, Proceed(id, reply, effect))
    ensures Inv(Do(w, Proceed(id, reply, effect)))
  {
    hide RunOk, DoneOk, Extends, P.Next, Served;
    ProceedKeepsRun(w, id, reply, effect);
    ProceedKeepsDone(w, id, reply, effect);
    ExtendsKeepsRuns(w, Do(w, Proceed(id, reply, effect)), {id});
  }

  lemma OthersKeepInv(w: World, e: Event)
    requires Inv(w) && Enabled(w, e) && (e.Outside? || e.ReviewChange?)
    ensures Inv(Do(w, e))
  {
    hide RunOk, DoneOk, P.Next, LedBy, GatePassed, OwnReview;
    match e {
      case Outside(op) =>
        MoreOpsExtend(w, op, Other);
        OutsideKeepsDone(w, op, Other);
      case ReviewChange(change) =>
        MoreReviewsExtend(w, change, Other);
        ReviewsKeepDone(w, change, Other);
    }
    ExtendsKeepsRuns(w, Do(w, e), {});
  }

  lemma StepKeepsInv(w: World, e: Event)
    requires Inv(w) && Enabled(w, e)
    ensures Inv(Do(w, e))
  {
    hide Inv, Do;
    match e
    case Launch(id, q) => LaunchKeepsInv(w, id, q);
    case Proceed(id, reply, effect) => ProceedKeepsInv(w, id, reply, effect);
    case _ => OthersKeepInv(w, e);
  }

  lemma {:induction false} RunKeepsInv(ws: seq<World>, es: seq<Event>, i: nat)
    requires Run(ws, es) && i <= |es|
    ensures Inv(ws[i])
  {
    if i > 0 {
      RunKeepsInv(ws, es, i - 1);
      StepKeepsInv(ws[i - 1], es[i - 1]);
    }
  }

  // ----- The agent behind a DONE task -----

  /** The stages that a run only reaches over a completed agent run. */
  predicate PastAgent(s: P.Stage) {
    (P.Working(s) && s != P.InAgent) || P.Reviewing(s) || s == P.Finishing
  }

  /** In step `j` the run's agent call was answered, and the answer was that the agent COMPLETED. */
  ghost predicate CompletedAt(ws: seq<World>, es: seq<Event>, id: nat, j: nat)
    requires j < |es| < |ws|
  {
    && es[j].Proceed? && es[j].run == id && id in ws[j].runs
    && ws[j].runs[id].todo.First? && ws[j].runs[id].todo.call.RunAgent?
    && es[j].reply.Agent? && es[j].reply.ok && es[j].reply.status == "COMPLETED"
  }

  ghost predicate AgentCompleted(ws: seq<World>, es: seq<Event>, i: nat, id: nat)
    requires i <= |es| < |ws|
  {
    exists j :: 0 <= j < i && CompletedAt(ws, es, id, j)
  }

  lemma OpeningBeforeAgent(l: P.Local, r: P.Reply)
    requires P.Opening(l.stage)
    ensures !PastAgent(P.SteeredOpening(l, r).stage)
  {
  }

  lemma WorkingPastAgent(l: P.Local, r: P.Reply)
    requires P.Working(l.stage) && PastAgent(P.SteeredWorking(l, r).stage)
    ensures l.stage == P.InAgent ==> r.Agent? && r.ok && r.status == "COMPLETED"
  {
  }

  lemma EndingPastAgent(l: P.Local, r: P.Reply)
    requires P.Ending(l.stage)
    ensures !PastAgent(P.SteeredEnding(l, r).stage)
  {
  }

  lemma GetsPastAgent(l: P.Local, r: P.Reply)
    requires P.Shaped(l) && l.todo.First? && PastAgent(P.Next(l, r).stage) && !PastAgent(l.stage)
    ensures l.todo.call.RunAgent? && r.Agent? && r.ok && r.status == "COMPLETED"
  {
    hide P.SteeredOpening, P.SteeredWorking, P.SteeredReviewing, P.SteeredEnding;
    if P.Aside(l.todo.call) {
      P.AsideKeepsShape(l, r);
    } else {
      P.SteersOnMain(l);
      if P.Opening(l.stage) {
        OpeningBeforeAgent(l, r);
      } else if P.Working(l.stage) {
        WorkingPastAgent(l, r);
      } else {
        EndingPastAgent(l, r);
      }
    }
  }

  /** A step of another run, or of none, leaves a run where it is. */
  lemma OwnStep(w: World, e: Event, id: nat)
    requires Enabled(w, e) && id in Do(w, e).runs && PastAgent(Do(w, e).runs[id].stage)
    ensures id in w.runs
    ensures if e.Proceed? && e.run == id then Do(w, e).runs[id] == P.Next(w.runs[id], e.reply) && w.runs[id].todo.First?
            else Do(w, e).runs[id] == w.runs[id]
  {
    hide Served, P.Next;
  }

  lemma {:induction false} RunsPastAgent(ws: seq<World>, es: seq<Event>, i: nat, id: nat)
    requires Run(ws, es) && i <= |es| && id in ws[i].runs && PastAgent(ws[i].runs[id].stage)
    ensures AgentCompleted(ws, es, i, id)
  {
    hide Do, Enabled, P.Next, Inv, PastAgent, P.Shaped;
    assert i > 0;
    var w, e := ws[i - 1], es[i - 1];
    RunKeepsInv(ws, es, i - 1);
    OwnStep(w, e, id);
    if id in w.runs && PastAgent(w.runs[id].stage) {
      RunsPastAgent(ws, es, i - 1, id);
    } else {
      InvHasShape(w);
      GetsPastAgent(w.runs[id], e.reply);
      assert CompletedAt(ws, es, id, i - 1);
    }
  }

  lemma InvHasShape(w: World)
    requires Inv(w)
    ensures |w.log| == |w.actors| && forall id | id in w.runs :: P.Shaped(w.runs[id])
  {
    hide P.Shaped, DoneOk, LedBy, OwnReview, GatePassed;
  }

  /** A step adds one record to the work log at most, and a move to DONE only for the run that then asks for it. */
  lemma LogStep(w: World, e: Event)
    requires Inv(w) && Enabled(w, e)
    ensures var v := Do(w, e);
            && |v.log| == |v.actors| && |w.log| == |w.actors|
            && ((v.log == w.log && v.actors == w.actors) ||
                (|v.log| == |w.log| + 1 && v.log[..|w.log|] == w.log && v.actors[..|w.log|] == w.actors))
            && (|v.log| > |w.log| && v.log[|w.log|].Transitioned? && v.log[|w.log|].to == W.Done ==>
                  && e.Proceed? && e.run in w.runs && v.actors[|w.log|] == RunBy(e.run)
                  && v.runs[e.run] == P.Next(w.runs[e.run], e.reply) && w.runs[e.run].stage == P.Finishing)
  {
    hide P.Next, Inv, P.Shaped;
    InvHasShape(w);
    if e.Proceed? && e.effect.Moved? {
      MoveOfRun(w.runs[e.run]);
    }
  }

  lemma CompletedStays(ws: seq<World>, es: seq<Event>, i: nat, j: nat, id: nat)
    requires i <= j <= |es| < |ws| && AgentCompleted(ws, es, i, id)
    ensures AgentCompleted(ws, es, j, id)
  {
    hide CompletedAt;
  }

  lemma {:induction false} DoneMovesHaveAgents(ws: seq<World>, es: seq<Event>, i: nat, n: nat)
    requires Run(ws, es) && i <= |es| && n < |ws[i].log| && ws[i].log[n].Transitioned? && ws[i].log[n].to == W.Done
    ensures |ws[i].log| == |ws[i].actors| && ws[i].actors[n].RunBy? && AgentCompleted(ws, es, i, ws[i].actors[n].id)
    decreases i
  {
    hide Do, Enabled, Inv, AgentCompleted;
    assert i > 0;
    var w, e := ws[i - 1], es[i - 1];
    RunKeepsInv(ws, es, i - 1);
    LogStep(w, e);
    if n < |w.log| {
      assert ws[i].log[n] == ws[i].log[..|w.log|][n] && ws[i].actors[n] == ws[i].actors[..|w.log|][n];
      DoneMovesHaveAgents(ws, es, i - 1, n);
      CompletedStays(ws, es, i - 1, i, ws[i].actors[n].id);
    } else {
      RunsPastAgent(ws, es, i - 1, e.run);
      CompletedStays(ws, es, i - 1, i, e.run);
    }
  }

  /** A path that ends in DONE ends with a record whose actor is among the movers. */
  lemma {:induction false} DoneMoveOf(log: seq<W.Op>, actors: seq<Actor>, c: string) returns (n: nat)
    requires |log| == |actors| && W.Path(log, c) != [] && W.Path(log, c)[|W.Path(log, c)| - 1] == W.Done
    ensures n < |log| && log[n].Transitioned? && log[n].to == W.Done && actors[n] in Movers(log, actors, c)
  {
    n := |log| - 1;
    if !(log[n].Transitioned? && log[n].context == c) {
      n := DoneMoveOf(log[..n], actors[..n], c);
    }
  }

  // ----- The theorems -----

  /**
   * DONE integrity: in every run of the whole system a task that is DONE went PLANNED, IN_PROGRESS, IN_REVIEW, DONE,
   * all three moves by one pipeline run, whose agent answered that it COMPLETED, whose own tools passed and whose own
   * review approved its own diff.
   */
  lemma DoneIntegrity(ws: seq<World>, es: seq<Event>, i: nat, t: string)
    requires Run(ws, es) && i <= |es|
    requires t in Tasks(ws[i]).tasks && Tasks(ws[i]).tasks[t].status == W.Done
    ensures |ws[i].log| == |ws[i].actors|
    ensures W.Path(ws[i].log, Tasks(ws[i]).tasks[t].context) == [W.InProgress, W.InReview, W.Done]
    ensures exists id :: CarriedBy(ws[i], Tasks(ws[i]).tasks[t].context, id) && AgentCompleted(ws, es, i, id)
  {
    hide Do, Enabled, GatePassed, OwnReview, RunOk, AgentCompleted;
    RunKeepsInv(ws, es, i);
    W.StatusIsPath(ws[i].log, t);
    var c := Tasks(ws[i]).tasks[t].context;
    var id :| CarriedBy(ws[i], c, id);
    var n := DoneMoveOf(ws[i].log, ws[i].actors, c);
    DoneMovesHaveAgents(ws, es, i, n);
    assert ws[i].actors[n] == RunBy(id);
  }

  lemma {:induction false} ReviewLogGrows(ws: seq<World>, es: seq<Event>, i: nat, j: nat)
    requires Run(ws, es) && i <= j <= |es|
    ensures |ws[i].reviewLog| <= |ws[j].reviewLog| && ws[j].reviewLog[..|ws[i].reviewLog|] == ws[i].reviewLog
    decreases j
  {
    if i < j {
      ReviewLogGrows(ws, es, i, j - 1);
      assert ws[j] == Do(ws[j - 1], es[j - 1]);
    }
  }

  /** The approval behind a DONE task never changes afterwards. */
  lemma ApprovalIsFinal(ws: seq<World>, es: seq<Event>, i: nat, j: nat, review: string)
    requires Run(ws, es) && i <= j <= |es|
    requires review in Reviews(ws[i]) && Reviews(ws[i])[review].status != R.Pending
    ensures review in Reviews(ws[j]) && Reviews(ws[j])[review] == Reviews(ws[i])[review]
  {
    RunKeepsInv(ws, es, j);
    ReviewLogGrows(ws, es, i, j);
    R.DecidedForever(ws[j].reviewLog, |ws[i].reviewLog|, review);
  }
}
