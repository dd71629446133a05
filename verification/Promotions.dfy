/**
 Leases and logs together: the host promotes writers of an authority, and the runtimes that write under it share one
 log, which each loaded when its process started, before it was registered. Whether a writer has read the whole log is
 settled when it is promoted.
 */
module Promotions {
  import F = FencedWrites
  import L = SharedLog
  import opened Registry
  import WorkRegistry

  datatype World = World(host: F.System, shared: L.World)

  datatype Event =
    | Loads(runtime: string)
    | Host(step: F.Event)
    | Commit(stamp: Stamp, request: L.Request)

  ghost predicate Enabled(w: F.World, a: Authority, s: World, e: Event) {
    match e
    case Loads(r) => r !in s.host.used
    case Host(step) => F.Enabled(w, s.host, step) && (step.Write? ==> step.stamp.subject != a)
    case Commit(st, q) =>
      && st.subject == a
      && F.Enabled(w, s.host, F.Write(st)) && L.Enabled(s.shared, L.Write(st.runtime, q))
  }

  ghost function Do(w: F.World, a: Authority, s: World, e: Event): World
    requires Enabled(w, a, s, e)
  {
    match e
    case Loads(r) => s.(shared := L.Do(s.shared, L.Load(r)))
    case Host(step) => s.(host := F.Do(w, s.host, step))
    case Commit(st, q) => World(F.Do(w, s.host, F.Write(st)), L.Do(s.shared, L.Write(st.runtime, q)))
  }

  ghost predicate Run(w: F.World, a: Authority, ss: seq<World>, es: seq<Event>) {
    && |ss| == |es| + 1
    && F.Initial(ss[0].host) && ss[0].shared == L.World([], map[])
    && forall i | 0 <= i < |es| :: Enabled(w, a, ss[i], es[i]) && ss[i + 1] == Do(w, a, ss[i], es[i])
  }

  /** The step writes the lease of the authority to disk: the promotion of `runtime`. */
  ghost predicate Promotes(s: World, e: Event, a: Authority, runtime: string) {
    e.Host? && e.step.PersistLease? &&
    var plan := PlanFor(s.host.host, e.step.command);
    plan.Promote? && plan.subject == a && plan.lease.runtime == runtime
  }

  /** Whom the lease file names. */
  predicate Named(s: World, a: Authority, runtime: string) {
    FenceName(a) in s.host.dir && s.host.dir[FenceName(a)].runtime == runtime
  }

  ghost predicate Sound(w: F.World, a: Authority, s: World) {
    && F.Inv(w, s.host)
    && (forall r :: Named(s, a, r) ==> r in s.host.used)
    && (forall r | r in s.shared.views :: |s.shared.views[r]| <= |s.shared.log|)
  }

  ghost predicate Fits(w: F.World, a: Authority) {
    F.NamesDistinct(w) && F.NonEmptyNames(w) && w.authorities(a)
  }

  lemma PromotedIsUsed(w: F.World, s: F.System, q: Query)
    requires F.HostOk(w, s) && PlanFor(s.host, q).Promote?
    ensures PlanFor(s.host, q).lease.runtime in s.used
  {
    hide PlanFor;
    F.PromotedIsCandidate(w, s, q);
    var plan := PlanFor(s.host, q);
    var k, p :| Entry(s.host.providers, k, p) && p.runtime == plan.lease.runtime && AuthorityOf(p.offer) == plan.subject;
  }

  /** Only a promotion of the authority changes whom its lease file names. */
  lemma NamedBy(w: F.World, a: Authority, s: World, e: Event, r: string)
    requires Fits(w, a) && F.Inv(w, s.host) && Enabled(w, a, s, e)
    ensures var t := Do(w, a, s, e);
            && (Promotes(s, e, a, r) ==> Named(t, a, r))
            && ((forall x :: !Promotes(s, e, a, x)) ==> (Named(t, a, r) <==> Named(s, a, r)))
            && (Named(t, a, r) ==> Promotes(s, e, a, r) || Named(s, a, r))
            && s.host.used <= t.host.used
  {
    hide PlanFor, FenceName, F.Inv, L.Do, L.Enabled;
    if e.Host? && e.step.PersistLease? {
      var q := e.step.command;
      F.PersistedFile(w, s.host, q, a);
      assert PlanFor(s.host.host, q).subject == a ==> Promotes(s, e, a, PlanFor(s.host.host, q).lease.runtime);
    }
  }

  lemma StepIsSound(w: F.World, a: Authority, s: World, e: Event)
    requires Fits(w, a) && Sound(w, a, s) && Enabled(w, a, s, e)
    ensures Sound(w, a, Do(w, a, s, e))
  {
    hide PlanFor, FenceName, F.Inv, F.Enabled, F.Do, L.Enabled, L.Do, Named, Promotes;
    var t := Do(w, a, s, e);
    HostStaysSound(w, a, s, e);
    forall r | Named(t, a, r) ensures r in t.host.used {
      NamedBy(w, a, s, e, r);
      if Promotes(s, e, a, r) {
        PromotesUsed(w, s, e, a, r);
      }
    }
    forall r | r in t.shared.views ensures |t.shared.views[r]| <= |t.shared.log| {
      SharedStep(w, a, s, e, r);
    }
  }

  lemma HostStaysSound(w: F.World, a: Authority, s: World, e: Event)
    requires Fits(w, a) && F.Inv(w, s.host) && Enabled(w, a, s, e)
    ensures F.Inv(w, Do(w, a, s, e).host)
  {
    hide F.Inv, F.Enabled, F.Do, L.Enabled, L.Do;
    match e
    case Loads(_) =>
    case Host(step) => F.StepKeepsInv(w, s.host, step);
    case Commit(st, _) => F.StepKeepsInv(w, s.host, F.Write(st));
  }

  lemma PromotesUsed(w: F.World, s: World, e: Event, a: Authority, r: string)
    requires F.Inv(w, s.host) && Promotes(s, e, a, r)
    ensures r in s.host.used
  {
    hide PlanFor;
    PromotedIsUsed(w, s.host, e.step.command);
  }

  /** What a step does to what `r` has read: nothing, unless `r` itself loads or another runtime writes. */
  lemma SharedStep(w: F.World, a: Authority, s: World, e: Event, r: string)
    requires Enabled(w, a, s, e) && (r in s.shared.views ==> |s.shared.views[r]| <= |s.shared.log|)
    ensures var t := Do(w, a, s, e);
            && (r in t.shared.views ==> |t.shared.views[r]| <= |t.shared.log|)
            && (e != Loads(r) && !(e.Commit? && e.stamp.runtime != r) ==>
                  (L.Current(t.shared, r) <==> L.Current(s.shared, r)))
  {
    hide F.Enabled, F.Do, L.Do, L.Enabled, L.ForeignWrite;
    match e
    case Loads(x) =>
      L.StepCurrency(s.shared, L.Load(x), r);
      NoForeignLoad(s.shared, x, r);
    case Host(_) =>
    case Commit(st, q) =>
      L.StepCurrency(s.shared, L.Write(st.runtime, q), r);
      OwnIsNotForeign(s.shared, st.runtime, q);
  }

  lemma NoForeignLoad(s: L.World, x: string, r: string)
    ensures !L.ForeignWrite(s, L.Load(x), r)
  {
  }

  lemma OwnIsNotForeign(s: L.World, r: string, q: L.Request)
    ensures !L.ForeignWrite(s, L.Write(r, q), r)
  {
  }

  lemma {:induction false} RunIsSound(w: F.World, a: Authority, ss: seq<World>, es: seq<Event>, i: nat)
    requires Fits(w, a) && Run(w, a, ss, es) && i <= |es|
    ensures Sound(w, a, ss[i])
  {
    hide Do, Enabled, Sound;
    if i == 0 {
      StartIsSound(w, a, ss[0]);
    } else {
      RunIsSound(w, a, ss, es, i - 1);
      StepIsSound(w, a, ss[i - 1], es[i - 1]);
    }
  }

  lemma StartIsSound(w: F.World, a: Authority, s: World)
    requires F.Initial(s.host) && s.shared == L.World([], map[])
    ensures Sound(w, a, s)
  {
    F.InitialInv(w, s.host);
  }

  /** A step that is no promotion keeps whether the runtime named in the lease file has read the whole log. */
  lemma NamedKeepsCurrency(w: F.World, a: Authority, s: World, e: Event, r: string)
    requires Fits(w, a) && Sound(w, a, s) && Enabled(w, a, s, e) && Named(s, a, r)
    ensures L.Current(Do(w, a, s, e).shared, r) <==> L.Current(s.shared, r)
  {
    hide F.Inv, F.Do, L.Do, L.Enabled, L.Current;
    SharedStep(w, a, s, e, r);
    assert e != Loads(r);
    if e.Commit? {
      assert FenceAdmits(s.host.dir, e.stamp);
    }
  }

  /**
   Up to date at the promotion is up to date at every write: a write under the authority is by a runtime that has read
   the whole log if and only if it had when it was promoted, in the last promotion before the write.
   */
  lemma {:induction false} CurrentSincePromotion(w: F.World, a: Authority, ss: seq<World>, es: seq<Event>, n: nat, r: string)
    returns (k: nat)
    requires Fits(w, a) && Run(w, a, ss, es) && n <= |es| && Named(ss[n], a, r)
    ensures k < n && Promotes(ss[k], es[k], a, r)
    ensures forall u, x | k < u < n :: !Promotes(ss[u], es[u], a, x)
    ensures L.Current(ss[n].shared, r) <==> L.Current(ss[k].shared, r)
    decreases n
  {
    hide Do, Enabled, Sound, Fits, L.Current, Promotes, Named;
    if n == 0 {
      NobodyNamed(ss[0], a, r);
    }
    var s, e := ss[n - 1], es[n - 1];
    RunIsSound(w, a, ss, es, n - 1);
    SoundHasInv(w, a, s);
    NamedBy(w, a, s, e, r);
    if x :| Promotes(s, e, a, x) {
      k := n - 1;
      NamedBy(w, a, s, e, x);
      OneName(ss[n], a, r, x);
      PromotionSharesNothing(w, a, s, e, r);
    } else {
      k := CurrentSincePromotion(w, a, ss, es, n - 1, r);
      NamedKeepsCurrency(w, a, s, e, r);
    }
  }

  lemma NobodyNamed(s: World, a: Authority, r: string)
    requires F.Initial(s.host)
    ensures !Named(s, a, r)
  {
  }

  lemma SoundHasInv(w: F.World, a: Authority, s: World)
    requires Sound(w, a, s)
    ensures F.Inv(w, s.host)
  {
  }

  lemma OneName(s: World, a: Authority, r: string, x: string)
    requires Named(s, a, r) && Named(s, a, x)
    ensures r == x
  {
  }

  lemma PromotionSharesNothing(w: F.World, a: Authority, s: World, e: Event, r: string)
    requires Enabled(w, a, s, e) && Promotes(s, e, a, r)
    ensures Do(w, a, s, e).shared == s.shared
  {
  }

  lemma CommitterIsNamed(w: F.World, a: Authority, s: World, e: Event)
    requires Enabled(w, a, s, e) && e.Commit?
    ensures Named(s, a, e.stamp.runtime)
  {
  }

  /**
   If every runtime promoted for the authority had read the whole log when it was promoted, the shared log is a history
   in every run of promotions, delayed requests, health events, exits, host restarts and writes.
   */
  lemma {:induction false} PromotionsKeepHistory(w: F.World, a: Authority, ss: seq<World>, es: seq<Event>, n: nat)
    requires Fits(w, a) && Run(w, a, ss, es) && n <= |es|
    requires forall k, r | 0 <= k < n && Promotes(ss[k], es[k], a, r) :: L.Current(ss[k].shared, r)
    ensures L.InStep(ss[n].shared)
  {
    hide Do, Enabled, Fits, L.Current, L.InStep, Promotes, Named;
    if n == 0 {
      L.EmptyInStep(ss[0].shared);
    } else {
      PromotionsKeepHistory(w, a, ss, es, n - 1);
      var s, e := ss[n - 1], es[n - 1];
      if e.Commit? {
        CommitterIsNamed(w, a, s, e);
        var k := CurrentSincePromotion(w, a, ss, es, n - 1, e.stamp.runtime);
      }
      SharedStaysInStep(w, a, s, e);
    }
  }

  lemma SharedStaysInStep(w: F.World, a: Authority, s: World, e: Event)
    requires L.InStep(s.shared) && Enabled(w, a, s, e) && (e.Commit? ==> L.Current(s.shared, e.stamp.runtime))
    ensures L.InStep(Do(w, a, s, e).shared)
  {
    hide F.Enabled, F.Do, L.Do, L.InStep, L.Current;
    match e
    case Loads(r) => LoadStaysInStep(s.shared, r);
    case Host(_) =>
    case Commit(st, q) => L.StepInStep(s.shared, L.Write(st.runtime, q));
  }

  lemma LoadStaysInStep(s: L.World, r: string)
    requires L.InStep(s)
    ensures L.InStep(L.Do(s, L.Load(r)))
  {
  }

  // ----- A standby that is promoted without reading again -----

  /** The run goes on with `e`. */
  lemma Extend(w: F.World, a: Authority, ss: seq<World>, es: seq<Event>, e: Event) returns (ss': seq<World>)
    requires Run(w, a, ss, es) && Enabled(w, a, ss[|es|], e)
    ensures Run(w, a, ss', es + [e]) && ss'[|es| + 1] == Do(w, a, ss[|es|], e)
  {
    hide Enabled, Do;
    ss' := ss + [Do(w, a, ss[|es|], e)];
    var es' := es + [e];
    forall i | 0 <= i < |es'| ensures Enabled(w, a, ss'[i], es'[i]) && ss'[i + 1] == Do(w, a, ss'[i], es'[i]) {
      assert i < |es| ==> ss'[i] == ss[i] && ss'[i + 1] == ss[i + 1] && es'[i] == es[i];
    }
  }

  /** The host with "1" registered for `a`, alone, with the lease and the stamps given. */
  function Alone(k: Key, a: Authority, r: string, epoch: int, stamps: set<Stamp>, writes: seq<Stamp>,
                 used: set<string>): F.System {
    F.System(State(map[k := [F.EntryFor(k, a, r)]], map[a := "data"], map[a := Lease(r, epoch)], map[]), F.Idle,
             map[FenceName(a) := FenceFile(a.service, a.authority, r, epoch)], stamps, writes, used)
  }

  /** A runtime registers and is promoted. */
  function Reign(k: Key, a: Authority, r: string): seq<Event> {
    [Host(F.Register(F.Exporter(k, a), r)), Host(F.PersistLease(F.CommandFor(k, a))), Host(F.FinishPromotion)]
  }

  /** "2" loads, waits while "1" writes, and takes over when "1" is gone. */
  function Takeover(k: Key, a: Authority, key: string): seq<Event> {
    [Loads("1"), Loads("2")] + Reign(k, a, "1")
    + [Commit(Stamp(a, "1", 1), L.FirstCreate(key)), Host(F.Exit("1"))] + Reign(k, a, "2")
  }

  lemma RegistersAndLeads(w: F.World, a: Authority, k: Key, ss: seq<World>, es: seq<Event>, r: string)
    returns (ss': seq<World>)
    requires Fits(w, a) && w.stateful(k) && Run(w, a, ss, es) && r != "" && r !in ss[|es|].host.used
    requires var h := ss[|es|].host;
             && h.promotion.Idle? && h.host.providers == map[] && h.host.bindings == map[]
             && (a in h.host.storage ==> h.host.storage[a] == "data") && LeaseOf(h.host.writers, a).runtime == ""
    ensures var s, epoch := ss[|es|], F.MemoryEpoch(ss[|es|].host, a) + 1;
            var es' := es + Reign(k, a, r);
            && Run(w, a, ss', es')
            && ss'[|es'|] == s.(host := F.System(
                 State(map[k := [F.EntryFor(k, a, r)]], s.host.host.storage[a := "data"],
                       s.host.host.writers[a := Lease(r, epoch)], map[]), F.Idle,
                 s.host.dir[FenceName(a) := FenceFile(a.service, a.authority, r, epoch)],
                 s.host.inFlight + {Stamp(a, r, epoch)}, s.host.writes, s.host.used + {r}))
  {
    hide F.Enabled, F.Do, L.Enabled, L.Do, PlanFor, FenceName;
    var h, p, e0 := ss[|es|].host, F.EntryFor(k, a, r), F.Register(F.Exporter(k, a), r);
    var e1 := F.PersistLease(F.CommandFor(k, a));
    F.RegisterStep(w, h, k, a, r, []);
    assert [] + [p] == [p];
    var ss1 := Extend(w, a, ss, es, Host(e0));
    var h1 := F.Do(w, h, e0);
    F.LoneCandidate(k, a, r);
    F.PromotionSteps(w, h1, k, a, p);
    var ss2 := Extend(w, a, ss1, es + [Host(e0)], Host(e1));
    ss' := Extend(w, a, ss2, es + [Host(e0)] + [Host(e1)], Host(F.FinishPromotion));
    assert es + [Host(e0)] + [Host(e1)] + [Host(F.FinishPromotion)] == es + Reign(k, a, r);
  }

  /** When the only runtime goes, nobody is registered and the lease keeps its epoch. */
  lemma ExitEmpties(w: F.World, k: Key, a: Authority, r: string, epoch: int, stamps: set<Stamp>, writes: seq<Stamp>,
                    used: set<string>)
    requires r != ""
    ensures var h := Alone(k, a, r, epoch, stamps, writes, used);
            && F.Enabled(w, h, F.Exit(r))
            && F.Do(w, h, F.Exit(r)) == h.(host := State(map[], map[a := "data"], map[a := Lease("", epoch)], map[]))
  {
    var p := F.EntryFor(k, a, r);
    assert Others([p], r) == [] by {
      assert [p][..0] == [];
    }
    assert Cleared(map[a := Lease(r, epoch)], r) == map[a := Lease("", epoch)];
  }

  /** "1" leads; both have read the empty log. */
  function Leading(k: Key, a: Authority): World {
    World(Alone(k, a, "1", 1, {Stamp(a, "1", 1)}, [], {"1"}), L.World([], map["1" := [], "2" := []]))
  }

  /** "1" has written and is gone. */
  function Vacant(k: Key, a: Authority, key: string): World {
    var h, op := Alone(k, a, "1", 1, {Stamp(a, "1", 1)}, [Stamp(a, "1", 1)], {"1"}), L.FirstRecord(key);
    World(h.(host := State(map[], map[a := "data"], map[a := Lease("", 1)], map[])),
          L.World([op], map["1" := [op], "2" := []]))
  }

  lemma FirstReign(w: F.World, a: Authority, k: Key) returns (ss: seq<World>)
    requires Fits(w, a) && w.stateful(k)
    ensures var es := [Loads("1"), Loads("2")] + Reign(k, a, "1"); Run(w, a, ss, es) && ss[|es|] == Leading(k, a)
  {
    hide FenceName;
    var s0 := World(F.System(State(map[], map[], map[], map[]), F.Idle, map[], {}, [], {}), L.World([], map[]));
    ss := [s0];
    assert Run(w, a, ss, []);
    ss := Extend(w, a, ss, [], Loads("1"));
    ss := Extend(w, a, ss, [] + [Loads("1")], Loads("2"));
    assert [] + [Loads("1")] + [Loads("2")] == [Loads("1"), Loads("2")];
    ss := RegistersAndLeads(w, a, k, ss, [Loads("1"), Loads("2")], "1");
  }

  lemma WritesAndGoes(w: F.World, a: Authority, k: Key, key: string, ss: seq<World>, es: seq<Event>)
    returns (ss': seq<World>)
    requires Fits(w, a) && Run(w, a, ss, es) && key != "" && ss[|es|] == Leading(k, a)
    ensures var es' := es + [Commit(Stamp(a, "1", 1), L.FirstCreate(key)), Host(F.Exit("1"))];
            Run(w, a, ss', es') && ss'[|es'|] == Vacant(k, a, key)
  {
    hide FenceName, L.Enabled, L.Do, L.FirstCreate, L.FirstRecord, Removed;
    var st, c := Stamp(a, "1", 1), Commit(Stamp(a, "1", 1), L.FirstCreate(key));
    L.FirstWrite(key, "1", "2");
    ss' := Extend(w, a, ss, es, c);
    ExitEmpties(w, k, a, "1", 1, {st}, [st], {"1"});
    ss' := Extend(w, a, ss', es + [c], Host(F.Exit("1")));
    assert es + [c] + [Host(F.Exit("1"))] == es + [c, Host(F.Exit("1"))];
  }

  lemma SecondBreaks(w: F.World, a: Authority, key: string, s: World) returns (q: L.Request)
    requires Fits(w, a) && key != ""
    requires Stamp(a, "2", 2) in s.host.inFlight && FenceAdmits(s.host.dir, Stamp(a, "2", 2))
    requires s.shared == L.World([L.FirstRecord(key)], map["1" := [L.FirstRecord(key)], "2" := []])
    ensures WorkRegistry.History(s.shared.log) && Enabled(w, a, s, Commit(Stamp(a, "2", 2), q))
    ensures !WorkRegistry.History(Do(w, a, s, Commit(Stamp(a, "2", 2), q)).shared.log)
  {
    hide FenceAdmits, L.Enabled, L.Do, L.FirstRecord;
    q := L.StandbyMayBreak(key, "1", "2");
  }

  /**
   The hypothesis of `PromotionsKeepHistory` is needed in every world with a stateful capability: this run promotes "2"
   over what it missed, and the fence lets it break the history.
   */
  lemma TakeoverBreaksHistory(w: F.World, a: Authority, k: Key, key: string) returns (ss: seq<World>, q: L.Request)
    requires Fits(w, a) && w.stateful(k) && key != ""
    ensures var es, e := Takeover(k, a, key), Commit(Stamp(a, "2", 2), q);
            && Run(w, a, ss, es) && WorkRegistry.History(ss[|es|].shared.log)
            && Enabled(w, a, ss[|es|], e) && !WorkRegistry.History(Do(w, a, ss[|es|], e).shared.log)
  {
    hide Enabled, Do, Reign, L.FirstCreate, L.FirstRecord, FenceName;
    var away := [Commit(Stamp(a, "1", 1), L.FirstCreate(key)), Host(F.Exit("1"))];
    var es := [Loads("1"), Loads("2")] + Reign(k, a, "1");
    ss := FirstReign(w, a, k);
    ss := WritesAndGoes(w, a, k, key, ss, es);
    ss := RegistersAndLeads(w, a, k, ss, es + away, "2");
    q := SecondBreaks(w, a, key, ss[|Takeover(k, a, key)|]);
  }
}
