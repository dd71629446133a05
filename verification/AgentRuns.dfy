/**
 Runs and cancels of the agent harness, interleaved (plugins/agent-harness/handlers.go:91-107, 150-205): any number
 of run goroutines and cancel requests over one store and one table of live runs, with plugin restarts in between.
 Each step is one locked operation of the store or the table, or one channel event.
 */
module AgentRuns {
  import opened Wrappers
  import opened AgentStore

  /** How far the goroutine of a run has come. */
  datatype Phase =
    | Unregistered
    | Working
    | Returned(status: Status)
    | Attempted
    | Left
    | Closed

  /** How far a cancel request has come; `early` is set when it found its run recorded but not registered yet. */
  datatype Cancel =
    | Asked(id: string)
    | SawRunning(id: string)
    | Waiting(id: string)
    | Woken(id: string)
    | NotLive(id: string, early: bool)
    | Rechecked(id: string, early: bool)
    | Wrote(id: string, early: bool)
    | Beaten(id: string)

  datatype Reply = Success(run: AgentRun) | Conflict(status: Status) | Missing | Failure | TimedOut

  /** A reply given, on the path of a live run or on the store-only one. */
  datatype Given = Given(id: string, reply: Reply, live: bool, early: bool)

  datatype World = World(store: Stored, phases: map<string, Phase>, live: set<string>, cancels: map<nat, Cancel>,
                         replies: seq<Given>, finished: set<string>)

  datatype Event =
    | Start(run: AgentRun)
    | Register(subject: string)
    | ProviderReturns(subject: string, status: Status)
    | Persist(subject: string, sessionRef: string, frames: int, metadata: string, at: string, fenced: bool, ioOk: bool)
    | Unregister(subject: string)
    | Close(subject: string)
    | Ask(asker: nat, subject: string)
    | Look(asker: nat)
    | Stop(asker: nat)
    | Wake(asker: nat)
    | GiveUp(asker: nat)
    | Answer(asker: nat)
    | Recheck(asker: nat)
    | Write(asker: nat, at: string, fenced: bool, ioOk: bool)
    | Reread(asker: nat)
    | Restart

  function EndingOf(w: World, e: Event): Ending
    requires e.Persist? && e.subject in w.phases && w.phases[e.subject].Returned?
  {
    Ending(w.phases[e.subject].status, e.sessionRef, e.frames, e.metadata, e.at)
  }

  predicate InPhase(w: World, id: string, p: Phase) {
    id in w.phases && w.phases[id] == p
  }

  predicate RunStepEnabled(w: World, e: Event) {
    match e
    case Start(run) => run.id !in w.store.view.byId && run.status.Running?
    case Register(id) => InPhase(w, id, Unregistered)
    case ProviderReturns(id, status) => InPhase(w, id, Working) && !status.Running?
    case Persist(id, _, _, _, _, _, _) => id in w.phases && w.phases[id].Returned?
    case Unregister(id) => InPhase(w, id, Attempted)
    case Close(id) => InPhase(w, id, Left)
    case Restart => true
    case _ => false
  }

  predicate CancelStepEnabled(w: World, e: Event) {
    match e
    case Ask(asker, _) => asker !in w.cancels
    case Look(asker) => asker in w.cancels && w.cancels[asker].Asked?
    case Stop(asker) => asker in w.cancels && w.cancels[asker].SawRunning?
    case Wake(asker) => asker in w.cancels && w.cancels[asker].Waiting? && InPhase(w, w.cancels[asker].id, Closed)
    case GiveUp(asker) => asker in w.cancels && w.cancels[asker].Waiting?
    case Answer(asker) => asker in w.cancels && w.cancels[asker].Woken?
    case Recheck(asker) => asker in w.cancels && w.cancels[asker].NotLive?
    case Write(asker, _, _, _) => asker in w.cancels && w.cancels[asker].Rechecked?
    case Reread(asker) => asker in w.cancels && (w.cancels[asker].Wrote? || w.cancels[asker].Beaten?)
    case _ => false
  }

  function AtPhase(w: World, id: string, p: Phase): World {
    w.(phases := w.phases[id := p])
  }

  /** A write to the store behind the fence: what it leaves, and why it failed if it did. */
  function Fenced(s: Stored, op: Op, fenced: bool, ioOk: bool): (Stored, Option<Error>)
    requires !op.RunStarted?
  {
    var refusal := if fenced then Refusal(s, op.id, ioOk) else Some(Io);
    (if refusal.None? then Logged(s, op) else s, refusal)
  }

  function RunStep(w: World, e: Event): World
    requires RunStepEnabled(w, e)
  {
    match e
    case Start(run) => AtPhase(w, run.id, Unregistered).(store := Logged(w.store, RunStarted(run)))
    case Register(id) => AtPhase(w, id, Working).(live := w.live + {id})
    case ProviderReturns(id, status) => AtPhase(w, id, Returned(status)).(finished := w.finished + {id})
    case Persist(id, _, _, _, _, fenced, ioOk) =>
      AtPhase(w, id, Attempted).(store := Fenced(w.store, RunCompleted(id, EndingOf(w, e)), fenced, ioOk).0)
    case Unregister(id) => AtPhase(w, id, Left).(live := w.live - {id})
    case Close(id) => AtPhase(w, id, Closed)
    case Restart => w.(phases := map[], live := {}, cancels := map[])
  }

  function Moved(w: World, asker: nat, c: Cancel): World {
    w.(cancels := w.cancels[asker := c])
  }

  function Replied(w: World, asker: nat, g: Given): World {
    w.(cancels := w.cancels - {asker}, replies := w.replies + [g])
  }

  /** What a cancel finds when it reads its run: gone, over, or still running. */
  function Found(w: World, id: string): Option<AgentRun> {
    if id in w.store.view.byId then Some(w.store.view.byId[id]) else None
  }

  function Looked(w: World, asker: nat, id: string, early: bool, next: Cancel): World {
    var run := Found(w, id);
    if run.None? then Replied(w, asker, Given(id, Missing, false, early))
    else if !run.value.status.Running? then Replied(w, asker, Given(id, Conflict(run.value.status), false, early))
    else Moved(w, asker, next)
  }

  function CancelStep(w: World, e: Event): World
    requires CancelStepEnabled(w, e)
  {
    match e
    case Ask(asker, id) => Moved(w, asker, Asked(id))
    case Look(asker) =>
      var id := w.cancels[asker].id;
      Looked(w, asker, id, false, SawRunning(id))
    case Stop(asker) =>
      var id := w.cancels[asker].id;
      Moved(w, asker, if id in w.live then Waiting(id) else NotLive(id, InPhase(w, id, Unregistered)))
    case Wake(asker) => Moved(w, asker, Woken(w.cancels[asker].id))
    case GiveUp(asker) => Replied(w, asker, Given(w.cancels[asker].id, TimedOut, true, false))
    case Answer(asker) =>
      var id := w.cancels[asker].id;
      var run := Found(w, id);
      Replied(w, asker, Given(id, if run.None? then Missing else if run.value.status.Running? then Failure else Success(run.value),
                              true, false))
    case Recheck(asker) =>
      var c := w.cancels[asker];
      Looked(w, asker, c.id, c.early, Rechecked(c.id, c.early))
    case Write(asker, at, fenced, ioOk) =>
      var c := w.cancels[asker];
      var (store, error) := Fenced(w.store, RunCancelled(c.id, at), fenced, ioOk);
      (match error
       case None => Moved(w, asker, Wrote(c.id, c.early))
       case Some(AlreadyTerminal) => Moved(w, asker, Beaten(c.id))
       case Some(NotFound) => Replied(w, asker, Given(c.id, Missing, false, c.early))
       case Some(Io) => Replied(w, asker, Given(c.id, Failure, false, c.early))).(store := store)
    case Reread(asker) =>
      var c := w.cancels[asker];
      var run := Found(w, c.id);
      var reply := if run.None? then Missing else if c.Wrote? then Success(run.value) else Conflict(run.value.status);
      Replied(w, asker, Given(c.id, reply, false, c.Wrote? && c.early))
  }

  predicate Enabled(w: World, e: Event) {
    RunStepEnabled(w, e) || CancelStepEnabled(w, e)
  }

  function Step(w: World, e: Event): World
    requires Enabled(w, e)
  {
    if RunStepEnabled(w, e) then RunStep(w, e) else CancelStep(w, e)
  }

  const INITIAL := World(Stored(EMPTY, []), map[], {}, map[], [], {})

  ghost predicate Run(ws: seq<World>, es: seq<Event>) {
    && |ws| == |es| + 1
    && ws[0] == INITIAL
    && forall i | 0 <= i < |es| :: Enabled(ws[i], es[i]) && ws[i + 1] == Step(ws[i], es[i])
  }

  // ----- The invariant -----

  /** The provider has not been left behind by its goroutine. */
  predicate MayWork(w: World, id: string) {
    id in w.phases && (w.phases[id].Unregistered? || w.phases[id].Working?)
  }

  predicate Known(w: World, id: string) {
    id in w.store.view.byId
  }

  predicate StatusOf(w: World, id: string, s: Status) {
    Known(w, id) && w.store.view.byId[id].status == s
  }

  predicate PhaseOk(w: World, id: string, p: Phase) {
    && Known(w, id)
    && (id in w.live <==> p.Working? || p.Returned? || p.Attempted?)
    && (p.Unregistered? || p.Working? || id in w.finished)
    && (p.Returned? ==> !p.status.Running?)
  }

  predicate CancelOk(w: World, c: Cancel) {
    match c
    case Asked(_) => true
    case SawRunning(id) => Known(w, id)
    case Waiting(id) => id in w.phases && !w.phases[id].Unregistered?
    case Woken(id) => InPhase(w, id, Closed)
    case NotLive(id, early) => Known(w, id) && (!early ==> !MayWork(w, id))
    case Rechecked(id, early) => Known(w, id) && (!early ==> !MayWork(w, id))
    case Wrote(id, early) => StatusOf(w, id, Cancelled) && (!early ==> !MayWork(w, id))
    case Beaten(id) => Known(w, id) && !StatusOf(w, id, Running)
  }

  predicate ReplyOk(w: World, g: Given) {
    (g.live && !g.reply.TimedOut? ==> g.id in w.finished) &&
    match g.reply
    case Success(run) =>
      && Known(w, g.id) && w.store.view.byId[g.id] == run && !run.status.Running?
      && (!g.early ==> !MayWork(w, g.id))
    case Conflict(status) => StatusOf(w, g.id, status) && !status.Running?
    case _ => true
  }

  ghost predicate Inv(w: World) {
    && EndedOnce(w.store)
    && (forall id | id in w.phases :: PhaseOk(w, id, w.phases[id]))
    && (forall id | id in w.live :: id in w.phases)
    && (forall a | a in w.cancels :: CancelOk(w, w.cancels[a]))
    && (forall i | 0 <= i < |w.replies| :: ReplyOk(w, w.replies[i]))
  }

  /** The store forgets no run and never changes one that has ended. */
  ghost predicate Keeps(s: Stored, t: Stored) {
    forall id | id in s.view.byId ::
      id in t.view.byId && (!s.view.byId[id].status.Running? ==> t.view.byId[id] == s.view.byId[id])
  }

  /** What holds of a reply in `w` holds in `v`. */
  ghost predicate Onward(w: World, v: World) {
    && Keeps(w.store, v.store)
    && w.finished <= v.finished
    && forall id :: Known(w, id) && MayWork(v, id) ==> MayWork(w, id)
  }

  ghost predicate PhasesOnward(w: World, v: World) {
    forall id | id in w.phases :: id in v.phases && Advanced(w.phases[id], v.phases[id])
  }

  predicate Advanced(p: Phase, q: Phase) {
    (q.Unregistered? ==> p.Unregistered?) && (p.Closed? ==> q.Closed?)
  }

  lemma ReplyStable(w: World, v: World, g: Given)
    requires Onward(w, v) && ReplyOk(w, g)
    ensures ReplyOk(v, g)
  {
    if g.reply.Success? {
      assert Known(w, g.id) && Known(v, g.id);
    }
  }

  lemma CancelStable(w: World, v: World, c: Cancel)
    requires Onward(w, v) && PhasesOnward(w, v) && CancelOk(w, c)
    ensures CancelOk(v, c)
  {
    if Known(w, c.id) {
      assert Known(v, c.id);
    }
  }

  lemma FencedKeeps(s: Stored, op: Op, fenced: bool, ioOk: bool)
    requires EndedOnce(s) && !op.RunStarted? && (op.RunCompleted? ==> !op.ending.status.Running?)
    ensures var (t, error) := Fenced(s, op, fenced, ioOk);
            && EndedOnce(t) && Keeps(s, t) && t.view.byId.Keys == s.view.byId.Keys
            && (error.None? ==> op.id in t.view.byId && t.view.byId[op.id] == Ended(s.view.byId[op.id], op))
            && (error == Some(AlreadyTerminal) ==> op.id in s.view.byId && !s.view.byId[op.id].status.Running?)
  {
    if fenced && Refusal(s, op.id, ioOk).None? {
      LoggedEndsOnce(s, op);
    }
  }

  lemma StartKeeps(s: Stored, run: AgentRun)
    requires EndedOnce(s) && run.id !in s.view.byId && run.status.Running?
    ensures var t := Logged(s, RunStarted(run));
            EndedOnce(t) && Keeps(s, t) && t.view.byId.Keys == s.view.byId.Keys + {run.id}
  {
    LoggedEndsOnce(s, RunStarted(run));
  }

  lemma RunStepStore(w: World, e: Event)
    requires Inv(w) && RunStepEnabled(w, e)
    ensures var t := RunStep(w, e).store;
            && EndedOnce(t) && Keeps(w.store, t)
            && t.view.byId.Keys == w.store.view.byId.Keys + if e.Start? then {e.run.id} else {}
  {
    hide Logged, Fenced, EndedOnce;
    match e {
      case Start(run) => StartKeeps(w.store, run);
      case Persist(id, _, _, _, _, fenced, ioOk) =>
        assert PhaseOk(w, id, w.phases[id]);
        FencedKeeps(w.store, RunCompleted(id, EndingOf(w, e)), fenced, ioOk);
      case _ =>
    }
  }

  lemma RunStepOnward(w: World, e: Event)
    requires Inv(w) && RunStepEnabled(w, e)
    ensures Onward(w, RunStep(w, e))
    ensures !e.Restart? ==> PhasesOnward(w, RunStep(w, e))
  {
    hide Logged, Fenced, EndedOnce, Keeps, CancelOk, ReplyOk;
    RunStepStore(w, e);
  }

  lemma RunStepPhases(w: World, e: Event)
    requires Inv(w) && RunStepEnabled(w, e)
    ensures var v := RunStep(w, e);
            && (forall id | id in v.phases :: PhaseOk(v, id, v.phases[id]))
            && (forall id | id in v.live :: id in v.phases)
  {
    hide Logged, Fenced, EndedOnce, Keeps, CancelOk, ReplyOk;
    RunStepStore(w, e);
    var v := RunStep(w, e);
    forall id | id in v.phases ensures PhaseOk(v, id, v.phases[id]) {
      if id in w.phases {
        assert PhaseOk(w, id, w.phases[id]);
        assert Known(v, id);
      }
    }
  }

  lemma RunStepKeepsInv(w: World, e: Event)
    requires Inv(w) && RunStepEnabled(w, e)
    ensures Inv(RunStep(w, e))
  {
    var v := RunStep(w, e);
    RunStepStore(w, e);
    RunStepOnward(w, e);
    RunStepPhases(w, e);
    forall a | a in v.cancels ensures CancelOk(v, v.cancels[a]) {
      CancelStable(w, v, w.cancels[a]);
    }
    forall i | 0 <= i < |v.replies| ensures ReplyOk(v, v.replies[i]) {
      ReplyStable(w, v, w.replies[i]);
    }
  }

  lemma CancelStepStore(w: World, e: Event)
    requires Inv(w) && CancelStepEnabled(w, e)
    ensures var t := CancelStep(w, e).store;
            EndedOnce(t) && Keeps(w.store, t) && t.view.byId.Keys == w.store.view.byId.Keys
  {
    hide Logged, Fenced, EndedOnce;
    if e.Write? {
      FencedKeeps(w.store, RunCancelled(w.cancels[e.asker].id, e.at), e.fenced, e.ioOk);
    }
  }

  /** Only the store, the asker's own place and the replies change in a cancel's step. */
  lemma CancelStepFrame(w: World, e: Event)
    requires CancelStepEnabled(w, e)
    ensures var v := CancelStep(w, e);
            && v.phases == w.phases && v.live == w.live && v.finished == w.finished
            && v.cancels - {e.asker} == w.cancels - {e.asker}
            && (v.replies == w.replies ||
                (|v.replies| == |w.replies| + 1 && v.replies[..|w.replies|] == w.replies && e.asker !in v.cancels))
  {
    hide Fenced, Found;
  }

  lemma WriteOwn(w: World, e: Event)
    requires Inv(w) && CancelStepEnabled(w, e) && e.Write?
    ensures Own(w, CancelStep(w, e), e.asker)
  {
    hide Logged, Fenced, EndedOnce, PhaseOk, Found, Keeps;
    var c := w.cancels[e.asker];
    assert CancelOk(w, c);
    FencedKeeps(w.store, RunCancelled(c.id, e.at), e.fenced, e.ioOk);
  }

  lemma ReadOwn(w: World, e: Event)
    requires Inv(w) && CancelStepEnabled(w, e) && !e.Write?
    ensures Own(w, CancelStep(w, e), e.asker)
  {
    hide Logged, Fenced, EndedOnce;
    if !e.Ask? {
      assert CancelOk(w, w.cancels[e.asker]);
      var id := w.cancels[e.asker].id;
      assert id in w.phases ==> PhaseOk(w, id, w.phases[id]);
    }
  }

  /** The asker's new place and the reply it may have got are sound. */
  predicate Own(w: World, v: World, asker: nat) {
    && (asker in v.cancels ==> CancelOk(v, v.cancels[asker]))
    && (|v.replies| > |w.replies| ==> ReplyOk(v, v.replies[|w.replies|]))
  }

  lemma CancelStepOnward(w: World, e: Event)
    requires Inv(w) && CancelStepEnabled(w, e)
    ensures Onward(w, CancelStep(w, e)) && PhasesOnward(w, CancelStep(w, e))
  {
    hide CancelStep, CancelStepEnabled, EndedOnce, CancelOk, ReplyOk, PhaseOk;
    CancelStepStore(w, e);
    CancelStepFrame(w, e);
  }

  lemma CancelStepKeepsPhases(w: World, e: Event)
    requires Inv(w) && CancelStepEnabled(w, e)
    ensures var v := CancelStep(w, e);
            && (forall id | id in v.phases :: PhaseOk(v, id, v.phases[id]))
            && (forall id | id in v.live :: id in v.phases)
  {
    hide CancelStep, CancelStepEnabled, EndedOnce, CancelOk, ReplyOk, Keeps;
    CancelStepStore(w, e);
    CancelStepFrame(w, e);
    forall id | id in w.phases ensures PhaseOk(CancelStep(w, e), id, w.phases[id]) {
      assert PhaseOk(w, id, w.phases[id]);
    }
  }

  lemma CancelStepKeepsOthers(w: World, e: Event)
    requires Inv(w) && CancelStepEnabled(w, e) && Own(w, CancelStep(w, e), e.asker)
    ensures var v := CancelStep(w, e);
            && (forall a | a in v.cancels :: CancelOk(v, v.cancels[a]))
            && (forall i | 0 <= i < |v.replies| :: ReplyOk(v, v.replies[i]))
  {
    hide CancelStep, EndedOnce, CancelOk, ReplyOk, PhaseOk, Onward, PhasesOnward;
    var v := CancelStep(w, e);
    CancelStepFrame(w, e);
    CancelStepOnward(w, e);
    forall a | a in v.cancels ensures CancelOk(v, v.cancels[a]) {
      if a != e.asker {
        assert a in (v.cancels - {e.asker}) && (v.cancels - {e.asker})[a] == (w.cancels - {e.asker})[a];
        CancelStable(w, v, w.cancels[a]);
      }
    }
    forall i | 0 <= i < |v.replies| ensures ReplyOk(v, v.replies[i]) {
      if i < |w.replies| {
        assert v.replies[i] == v.replies[..|w.replies|][i];
        ReplyStable(w, v, w.replies[i]);
      }
    }
  }

  lemma CancelStepKeepsInv(w: World, e: Event)
    requires Inv(w) && CancelStepEnabled(w, e)
    ensures Inv(CancelStep(w, e))
  {
    hide CancelStep, CancelStepEnabled, EndedOnce, CancelOk, ReplyOk, PhaseOk, Own;
    CancelStepStore(w, e);
    CancelStepKeepsPhases(w, e);
    if e.Write? {
      WriteOwn(w, e);
    } else {
      ReadOwn(w, e);
    }
    CancelStepKeepsOthers(w, e);
  }

  lemma StepKeepsInv(w: World, e: Event)
    requires Inv(w) && Enabled(w, e)
    ensures Inv(Step(w, e))
  {
    if RunStepEnabled(w, e) {
      RunStepKeepsInv(w, e);
    } else {
      CancelStepKeepsInv(w, e);
    }
  }

  lemma InitialInv()
    ensures Inv(INITIAL)
  {
  }

  lemma {:induction false} RunKeepsInv(ws: seq<World>, es: seq<Event>, i: nat)
    requires Run(ws, es) && i <= |es|
    ensures Inv(ws[i])
  {
    hide Inv, Step, Enabled;
    if i == 0 {
      InitialInv();
    } else {
      RunKeepsInv(ws, es, i - 1);
      StepKeepsInv(ws[i - 1], es[i - 1]);
    }
  }

  // ----- What every interleaving keeps -----

  /** A run has one terminal record in the log once it has ended, and none before. */
  lemma AtMostOneTerminalRecord(ws: seq<World>, es: seq<Event>, i: nat, id: string)
    requires Run(ws, es) && i <= |es|
    ensures |Terminals(ws[i].store.log, id)| <= 1
    ensures |Terminals(ws[i].store.log, id)| == 1 <==> Known(ws[i], id) && !StatusOf(ws[i], id, Running)
  {
    hide Step, Enabled;
    RunKeepsInv(ws, es, i);
    var s := ws[i].store;
    assert id in s.view.byId ==> Shows(s.view.byId[id], Terminals(s.log, id));
  }

  lemma StepGrows(w: World, e: Event)
    requires Enabled(w, e)
    ensures w.replies <= Step(w, e).replies
    ensures e.ProviderReturns? || Step(w, e).finished == w.finished
    ensures e.ProviderReturns? ==> Step(w, e).finished == w.finished + {e.subject}
  {
    if RunStepEnabled(w, e) {
    } else {
      CancelStepFrame(w, e);
    }
  }

  lemma {:induction false} RepliesStand(ws: seq<World>, es: seq<Event>, i: nat, j: nat)
    requires Run(ws, es) && i <= j <= |es|
    ensures ws[i].replies <= ws[j].replies
    decreases j - i
  {
    hide Step, Enabled;
    if i < j {
      RepliesStand(ws, es, i, j - 1);
      StepGrows(ws[j - 1], es[j - 1]);
    }
  }

  /** What a successful cancel replied is what the store holds from then on, and it is an end. */
  lemma SuccessIsFinal(ws: seq<World>, es: seq<Event>, i: nat, j: nat, k: nat)
    requires Run(ws, es) && i <= j <= |es| && k < |ws[i].replies| && ws[i].replies[k].reply.Success?
    ensures var g := ws[i].replies[k];
            Known(ws[j], g.id) && ws[j].store.view.byId[g.id] == g.reply.run && !g.reply.run.status.Running?
  {
    hide Step, Enabled;
    RunKeepsInv(ws, es, j);
    RepliesStand(ws, es, i, j);
    assert ws[j].replies[k] == ws[i].replies[k];
    assert ReplyOk(ws[j], ws[j].replies[k]);
  }

  /** A conflict reply names the status the run keeps. */
  lemma ConflictIsFinal(ws: seq<World>, es: seq<Event>, i: nat, j: nat, k: nat)
    requires Run(ws, es) && i <= j <= |es| && k < |ws[i].replies| && ws[i].replies[k].reply.Conflict?
    ensures var g := ws[i].replies[k]; StatusOf(ws[j], g.id, g.reply.status) && !g.reply.status.Running?
  {
    hide Step, Enabled;
    RunKeepsInv(ws, es, j);
    RepliesStand(ws, es, i, j);
    assert ws[j].replies[k] == ws[i].replies[k];
    assert ReplyOk(ws[j], ws[j].replies[k]);
  }

  lemma {:induction false} FinishedReturned(ws: seq<World>, es: seq<Event>, i: nat, id: string) returns (n: nat)
    requires Run(ws, es) && i <= |es| && id in ws[i].finished
    ensures n < i && es[n].ProviderReturns? && es[n].subject == id
    decreases i
  {
    hide Step, Enabled;
    assert i > 0;
    StepGrows(ws[i - 1], es[i - 1]);
    if id in ws[i - 1].finished {
      n := FinishedReturned(ws, es, i - 1, id);
    } else {
      n := i - 1;
    }
  }

  /** On the path of a live run every reply but the time-out comes only after the run's provider has returned. */
  lemma LiveReplyAfterProvider(ws: seq<World>, es: seq<Event>, i: nat, k: nat) returns (n: nat)
    requires Run(ws, es) && i <= |es| && k < |ws[i].replies|
    requires ws[i].replies[k].live && !ws[i].replies[k].reply.TimedOut?
    ensures n < i && es[n].ProviderReturns? && es[n].subject == ws[i].replies[k].id
  {
    hide Step, Enabled;
    RunKeepsInv(ws, es, i);
    assert ReplyOk(ws[i], ws[i].replies[k]);
    n := FinishedReturned(ws, es, i, ws[i].replies[k].id);
  }

  // ----- What a reply says -----

  /** The run's state as the asker could see it when the reply was given. */
  predicate Fits(w: World, e: Event, g: Given) {
    && (g.reply.TimedOut? <==> e.GiveUp?)
    && (!e.GiveUp? ==> (g.reply.Missing? <==> g.id !in w.store.view.byId))
    && (g.reply.Conflict? ==> StatusOf(w, g.id, g.reply.status) && g.reply.status != Running)
    && (g.reply.Success? ==> Known(w, g.id) && w.store.view.byId[g.id] == g.reply.run && g.reply.run.status != Running)
    && (g.reply.Failure? <==>
          (e.Write? && !e.fenced) || (StatusOf(w, g.id, Running) && (e.Answer? || (e.Write? && !e.ioOk))))
  }

  lemma ReplyFits(w: World, e: Event)
    requires Inv(w) && Enabled(w, e) && |Step(w, e).replies| > |w.replies|
    ensures Fits(w, e, Step(w, e).replies[|w.replies|])
  {
    hide EndedOnce, PhaseOk, ReplyOk, Logged;
    assert CancelStepEnabled(w, e) && !RunStepEnabled(w, e);
    if !e.Ask? {
      assert CancelOk(w, w.cancels[e.asker]);
    }
  }

  /**
   In every interleaving the reply is Missing exactly when the run is not stored, a conflict names the end the run has, a
   success carries the ended run, a time-out is the timer's, and a failure is a write that was refused or failed, or a
   run that stopped and is still running in the store.
   */
  lemma RepliesFit(ws: seq<World>, es: seq<Event>, n: nat)
    requires Run(ws, es) && n < |es| && |ws[n + 1].replies| > |ws[n].replies|
    ensures Fits(ws[n], es[n], ws[n + 1].replies[|ws[n].replies|])
  {
    hide Step, Enabled, Inv;
    RunKeepsInv(ws, es, n);
    ReplyFits(ws[n], es[n]);
  }

  /** A cancel that looks its run up goes on exactly when the run is still running. */
  lemma LooksGoOn(w: World, e: Event)
    requires Enabled(w, e) && (e.Look? || e.Recheck?)
    ensures var c, v := w.cancels[e.asker], Step(w, e);
            && (StatusOf(w, c.id, Running) <==> e.asker in v.cancels)
            && (e.asker in v.cancels <==> v.replies == w.replies)
  {
  }

  // ----- How a run ends -----

  ghost predicate ReportedBy(es: seq<Event>, i: nat, id: string, s: Status)
    requires i <= |es|
  {
    exists j :: 0 <= j < i && es[j] == ProviderReturns(id, s)
  }

  ghost predicate CancelledBy(ws: seq<World>, es: seq<Event>, i: nat, id: string)
    requires i <= |es| < |ws|
  {
    exists j :: 0 <= j < i && es[j].Write? && es[j].fenced && es[j].ioOk &&
                es[j].asker in ws[j].cancels && ws[j].cancels[es[j].asker].id == id
  }

  /** A status that a run may show after the first `i` steps. */
  ghost predicate Accounted(ws: seq<World>, es: seq<Event>, i: nat, id: string)
    requires i <= |es| < |ws|
  {
    && (id in ws[i].phases && ws[i].phases[id].Returned? ==> ReportedBy(es, i, id, ws[i].phases[id].status))
    && (Known(ws[i], id) && ws[i].store.view.byId[id].status != Running ==>
          || ReportedBy(es, i, id, ws[i].store.view.byId[id].status)
          || (ws[i].store.view.byId[id].status == Cancelled && CancelledBy(ws, es, i, id)))
  }

  /** What a step does to one run: nothing, or what the step is for. */
  lemma StepOfRun(w: World, e: Event, id: string)
    requires Enabled(w, e)
    ensures var v := Step(w, e);
            && (id in v.phases && v.phases[id].Returned? ==>
                  e == ProviderReturns(id, v.phases[id].status) || (id in w.phases && v.phases[id] == w.phases[id]))
            && (Known(v, id) && v.store.view.byId[id].status != Running ==>
                  || (Known(w, id) && v.store.view.byId[id] == w.store.view.byId[id])
                  || (e.Persist? && id in w.phases && w.phases[id].Returned? &&
                      v.store.view.byId[id].status == w.phases[id].status)
                  || (e.Write? && e.fenced && e.ioOk && w.cancels[e.asker].id == id &&
                      v.store.view.byId[id].status == Cancelled))
  {
    hide Found;
  }

  lemma {:induction false} RunEndsAsReported(ws: seq<World>, es: seq<Event>, i: nat, id: string)
    requires Run(ws, es) && i <= |es|
    ensures Accounted(ws, es, i, id)
  {
    hide Step, Enabled;
    if i > 0 {
      RunEndsAsReported(ws, es, i - 1, id);
      StepOfRun(ws[i - 1], es[i - 1], id);
      var w, v := ws[i - 1], ws[i];
      assert Enabled(w, es[i - 1]) && v == Step(w, es[i - 1]);
      if es[i - 1].ProviderReturns? {
        assert ReportedBy(es, i, es[i - 1].subject, es[i - 1].status);
      }
      if es[i - 1].Write? {
        WritesAreAsked(w, es[i - 1]);
      }
    }
  }

  lemma WritesAreAsked(w: World, e: Event)
    requires Enabled(w, e) && e.Write?
    ensures e.asker in w.cancels
  {
  }

  /** An ended run shows what its provider returned, or that a cancel has ended it. */
  lemma EndIsReported(ws: seq<World>, es: seq<Event>, i: nat, id: string)
    requires Run(ws, es) && i <= |es| && Known(ws[i], id) && ws[i].store.view.byId[id].status != Running
    ensures var s := ws[i].store.view.byId[id].status;
            ReportedBy(es, i, id, s) || (s == Cancelled && CancelledBy(ws, es, i, id))
  {
    RunEndsAsReported(ws, es, i, id);
  }

  // ----- The gap between recording a run and registering it -----

  ghost predicate Reachable(w: World) {
    exists ws, es :: Run(ws, es) && ws[|es|] == w
  }

  lemma ReachStep(w: World, e: Event)
    requires Reachable(w) && Enabled(w, e)
    ensures Reachable(Step(w, e))
  {
    hide Step, Enabled;
    var ws, es :| Run(ws, es) && ws[|es|] == w;
    var vs, fs := ws + [Step(w, e)], es + [e];
    forall i | 0 <= i < |fs| ensures Enabled(vs[i], fs[i]) && vs[i + 1] == Step(vs[i], fs[i]) {
      if i < |es| {
        assert Enabled(ws[i], es[i]) && ws[i + 1] == Step(ws[i], es[i]);
      }
    }
    assert Run(vs, fs);
  }

  /** A cancel has replied success with its run's provider still to start or at work. */
  ghost predicate WorksOn(w: World, early: bool) {
    exists k :: 0 <= k < |w.replies| && w.replies[k].reply.Success? && w.replies[k].early == early && MayWork(w, w.replies[k].id)
  }

  lemma ReachRecorded(run: AgentRun) returns (w: World)
    requires run.status.Running?
    ensures Reachable(w) && w == Step(INITIAL, Start(run))
    ensures w.phases == map[run.id := Unregistered] && w.live == {} && w.cancels == map[] && w.replies == []
    ensures w.store.view.byId == map[run.id := run]
  {
    assert Run([INITIAL], []);
    ReachStep(INITIAL, Start(run));
    w := Step(INITIAL, Start(run));
  }

  lemma CancelSteps(w: World, e: Event)
    requires CancelStepEnabled(w, e)
    ensures Enabled(w, e) && Step(w, e) == CancelStep(w, e)
  {
  }

  /** A cancel comes, looks, and finds its run running. */
  lemma ReachSawRunning(w: World, run: AgentRun) returns (v: World)
    requires Reachable(w) && w.cancels == map[] && w.replies == [] && run.status.Running?
    requires w.store.view.byId == map[run.id := run]
    ensures Reachable(v) && v == w.(cancels := map[0 := SawRunning(run.id)])
  {
    hide Reachable, RunStep;
    var u := Step(w, Ask(0, run.id));
    ReachStep(w, Ask(0, run.id));
    assert u == w.(cancels := map[0 := Asked(run.id)]);
    v := Step(u, Look(0));
    ReachStep(u, Look(0));
  }

  /** The cancel comes before the run is registered, and takes the store-only way. */
  lemma ReachRechecked(run: AgentRun) returns (w: World)
    requires run.status.Running?
    ensures Reachable(w) && w.cancels == map[0 := Rechecked(run.id, true)]
    ensures w.phases == map[run.id := Unregistered] && w.replies == [] && w.store.view.byId == map[run.id := run]
  {
    hide Reachable, RunStep, Step;
    var w0 := ReachRecorded(run);
    var w2 := ReachSawRunning(w0, run);
    CancelSteps(w2, Stop(0));
    var w3 := Step(w2, Stop(0));
    ReachStep(w2, Stop(0));
    assert w3 == w2.(cancels := map[0 := NotLive(run.id, true)]);
    CancelSteps(w3, Recheck(0));
    w := Step(w3, Recheck(0));
    ReachStep(w3, Recheck(0));
  }

  lemma ReachCancelledEarly(run: AgentRun) returns (w: World)
    requires run.status.Running?
    ensures Reachable(w) && WorksOn(w, true)
  {
    var w0 := ReachRechecked(run);
    var e1, e2 := Write(0, "", true, true), Reread(0);
    var w1 := Step(w0, e1);
    ReachStep(w0, e1);
    assert w1.cancels == map[0 := Wrote(run.id, true)];
    w := Step(w1, e2);
    ReachStep(w1, e2);
    assert w.replies[0].reply.Success? && MayWork(w, run.id);
  }

  /**
   Success is replied with the provider still to start or at work exactly by a cancel that looked the run up between
   its recording and its registration: the run is then CANCELLED in the store while its provider goes ahead.
   */
  lemma ProviderOutlivesEarlyCancelOnly(early: bool, run: AgentRun)
    requires run.status.Running?
    ensures (exists w :: Reachable(w) && WorksOn(w, early)) <==> early
  {
    if early {
      var w := ReachCancelledEarly(run);
      assert Reachable(w) && WorksOn(w, early);
    } else {
      forall w | Reachable(w) ensures !WorksOn(w, false) {
        var ws, es :| Run(ws, es) && ws[|es|] == w;
        RunKeepsInv(ws, es, |es|);
        forall k | 0 <= k < |w.replies| && w.replies[k].reply.Success? && !w.replies[k].early
          ensures !MayWork(w, w.replies[k].id)
        {
          assert ReplyOk(w, w.replies[k]);
        }
      }
    }
  }

  // ----- The time-out of a live cancel -----

  /** Step `e` replies to a cancel on the path of a live run whose provider has not returned yet. */
  ghost predicate RepliesAtWork(w: World, e: Event, timer: bool) {
    Enabled(w, e) &&
    var v := Step(w, e);
    && |v.replies| == |w.replies| + 1
    && v.replies[|w.replies|].live && MayWork(w, v.replies[|w.replies|].id)
    && timer == e.GiveUp?
  }

  lemma RegisterSteps(w: World, id: string)
    requires InPhase(w, id, Unregistered)
    ensures Enabled(w, Register(id))
    ensures Step(w, Register(id)) == w.(phases := w.phases[id := Working], live := w.live + {id})
  {
  }

  /** A cancel stops a registered run and waits for it. */
  lemma ReachWaiting(run: AgentRun) returns (w: World)
    requires run.status.Running?
    ensures Reachable(w) && w.cancels == map[0 := Waiting(run.id)]
    ensures w.phases == map[run.id := Working] && w.replies == []
  {
    hide Reachable, Step;
    var w0 := ReachRecorded(run);
    var w1 := Step(w0, Register(run.id));
    ReachStep(w0, Register(run.id));
    RegisterSteps(w0, run.id);
    var w3 := ReachSawRunning(w1, run);
    CancelSteps(w3, Stop(0));
    w := Step(w3, Stop(0));
    ReachStep(w3, Stop(0));
  }

  /** Only the timer and the closed channel lead to a reply on the path of a live run. */
  lemma LiveReplySteps(w: World, e: Event)
    requires Inv(w) && Enabled(w, e) && |Step(w, e).replies| > |w.replies|
    requires Step(w, e).replies[|w.replies|].live && !e.GiveUp?
    ensures !MayWork(w, Step(w, e).replies[|w.replies|].id)
  {
    hide EndedOnce, PhaseOk, ReplyOk, Fenced, Logged;
    assert CancelStepEnabled(w, e) && !RunStepEnabled(w, e);
    assert e.Answer?;
    assert CancelOk(w, w.cancels[e.asker]);
  }

  /** A live cancel can be answered before its run's provider has returned by its timer, and by nothing else. */
  lemma OnlyTheTimerRepliesEarly(timer: bool, run: AgentRun)
    requires run.status.Running?
    ensures (exists w, e :: Reachable(w) && RepliesAtWork(w, e, timer)) <==> timer
  {
    if timer {
      var w := ReachWaiting(run);
      assert RepliesAtWork(w, GiveUp(0), true);
    } else {
      forall w, e | Reachable(w) ensures !RepliesAtWork(w, e, false) {
        hide Step, Enabled, MayWork;
        var ws, es :| Run(ws, es) && ws[|es|] == w;
        RunKeepsInv(ws, es, |es|);
        if RepliesAtWork(w, e, false) {
          LiveReplySteps(w, e);
        }
      }
    }
  }
}
