/**
 What the host's table of providers says about the past (kernel/internal/registry/registry.go:251-488): which entries
 it holds, the health of each, and who holds a lease, all told from the registrations, exits and reports of a run.
 */
module HostHistory {
  import opened Wrappers
  import F = FencedWrites
  import opened Registry

  // ----- The reports about a runtime -----

  /** The reports about `runtime` among the first `n` events since it registered. */
  function Reports(es: seq<F.Event>, n: nat, runtime: string): seq<HealthEvent>
    requires n <= |es|
  {
    if n == 0 then []
    else
      var e := es[n - 1];
      if e.Register? && e.runtime == runtime then []
      else Reports(es, n - 1, runtime) + if e.Health? && e.subject == runtime then [e.report] else []
  }

  /** What came after the last `mark`; everything when there is none. */
  function Since(rs: seq<HealthEvent>, mark: HealthEvent): seq<HealthEvent> {
    if rs == [] || rs[|rs| - 1] == mark then [] else Since(rs[..|rs| - 1], mark) + [rs[|rs| - 1]]
  }

  function Count(rs: seq<HealthEvent>, e: HealthEvent): nat {
    if rs == [] then 0 else Count(rs[..|rs| - 1], e) + if rs[|rs| - 1] == e then 1 else 0
  }

  function FailedRequests(rs: seq<HealthEvent>): nat {
    Count(Since(rs, RequestSuccess), RequestFailure)
  }

  function MissedBeats(rs: seq<HealthEvent>): nat {
    Count(Since(rs, HeartbeatSuccess), HeartbeatFailure)
  }

  predicate ProcessUp(rs: seq<HealthEvent>) {
    ProcessHealth(false) !in Since(rs, ProcessHealth(true))
  }

  predicate DependenciesUp(rs: seq<HealthEvent>) {
    DependencyHealth(false) !in Since(rs, DependencyHealth(true))
  }

  /** An entry is what its runtime's reports make of it. */
  predicate Tells(rs: seq<HealthEvent>, p: Provider) {
    && p.failures == FailedRequests(rs)
    && (p.circuitOpen <==> FailedRequests(rs) >= 3)
    && p.missedHeartbeats == MissedBeats(rs)
    && (p.processHealthy <==> ProcessUp(rs))
    && (p.dependenciesHealthy <==> DependenciesUp(rs))
    && (p.healthy <==> ProcessUp(rs) && DependenciesUp(rs) && FailedRequests(rs) < 3 && MissedBeats(rs) < 3)
  }

  lemma SinceAppends(rs: seq<HealthEvent>, mark: HealthEvent, e: HealthEvent)
    ensures Since(rs + [e], mark) == if e == mark then [] else Since(rs, mark) + [e]
  {
    assert (rs + [e])[..|rs|] == rs;
  }

  lemma CountAppends(rs: seq<HealthEvent>, counted: HealthEvent, e: HealthEvent)
    ensures Count(rs + [e], counted) == Count(rs, counted) + if e == counted then 1 else 0
  {
    assert (rs + [e])[..|rs|] == rs;
  }

  /** One more report changes the entry as it changes the tale. */
  lemma OneMoreReport(rs: seq<HealthEvent>, p: Provider, e: HealthEvent)
    requires Tells(rs, p)
    ensures Tells(rs + [e], React(e, p))
  {
    SinceAppends(rs, RequestSuccess, e);
    SinceAppends(rs, HeartbeatSuccess, e);
    SinceAppends(rs, ProcessHealth(true), e);
    SinceAppends(rs, DependencyHealth(true), e);
    CountAppends(Since(rs, RequestSuccess), RequestFailure, e);
    CountAppends(Since(rs, HeartbeatSuccess), HeartbeatFailure, e);
  }

  // ----- The registrations in force -----

  /** What `runtime` registered, unless it has exited or the host has restarted since. */
  function InForce(es: seq<F.Event>, n: nat, runtime: string): Option<Manifest>
    requires n <= |es|
  {
    if n == 0 then None
    else
      match es[n - 1]
      case Register(m, r) => if r == runtime then Some(m) else InForce(es, n - 1, runtime)
      case Exit(r) => if r == runtime then None else InForce(es, n - 1, runtime)
      case Restart => None
      case _ => InForce(es, n - 1, runtime)
  }

  /** The entry is there for an export of a registration in force. */
  ghost predicate Exported(es: seq<F.Event>, n: nat, k: Key, p: Provider)
    requires n <= |es|
  {
    var m := InForce(es, n, p.runtime);
    m.Some? && p.offer in m.value.exports && p.offer.key == k && p.plugin == m.value.plugin && p.writerEpoch == 0
  }

  ghost predicate Truthful(s: F.System, es: seq<F.Event>, n: nat)
    requires n <= |es|
  {
    && (forall k, p :: Entry(s.host.providers, k, p) ==>
          Exported(es, n, k, p) && Tells(Reports(es, n, p.runtime), p))
    && (forall r :: InForce(es, n, r).Some? ==> r in s.used)
  }

  /** Every export of a registration in force has its entry. */
  ghost predicate Listed(s: F.System, es: seq<F.Event>, n: nat)
    requires n <= |es|
  {
    forall r, c | InForce(es, n, r).Some? && c in InForce(es, n, r).value.exports :: Lists(s, r, c)
  }

  /** An event that neither registers nor ends `r` leaves what it has in force, and adds its own report at most. */
  lemma HistoryStep(es: seq<F.Event>, n: nat, r: string)
    requires n < |es| && !es[n].Restart? && es[n] != F.Exit(r) && !(es[n].Register? && es[n].runtime == r)
    ensures InForce(es, n + 1, r) == InForce(es, n, r)
    ensures Reports(es, n + 1, r) ==
            Reports(es, n, r) + if es[n].Health? && es[n].subject == r then [es[n].report] else []
  {
  }

  lemma OldEntryStays(es: seq<F.Event>, n: nat, k: Key, x: Provider)
    requires n < |es| && !es[n].Restart? && !es[n].Health? && es[n] != F.Exit(x.runtime)
    requires !(es[n].Register? && es[n].runtime == x.runtime)
    requires Exported(es, n, k, x) && Tells(Reports(es, n, x.runtime), x)
    ensures Exported(es, n + 1, k, x) && Tells(Reports(es, n + 1, x.runtime), x)
  {
    hide Tells;
    HistoryStep(es, n, x.runtime);
    assert Reports(es, n, x.runtime) + [] == Reports(es, n, x.runtime);
  }

  lemma RegisterEntry(w: F.World, s: F.System, es: seq<F.Event>, n: nat, k: Key, x: Provider)
    requires n < |es| && es[n].Register? && F.Enabled(w, s, es[n]) && Truthful(s, es, n)
    requires Entry(F.Do(w, s, es[n]).host.providers, k, x)
    ensures Exported(es, n + 1, k, x) && Tells(Reports(es, n + 1, x.runtime), x)
  {
    hide Tells, StorageAgrees, Reserved, Reports;
    var m, runtime := es[n].manifest, es[n].runtime;
    F.RegisteredEntries(s.host.providers, m, runtime, |m.exports|, k, x);
    if Entry(s.host.providers, k, x) {
      OldEntryStays(es, n, k, x);
    } else {
      NewEntryTells(m, runtime, x.offer);
      NewReports(es, n);
    }
  }

  lemma NewReports(es: seq<F.Event>, n: nat)
    requires n < |es| && es[n].Register?
    ensures Reports(es, n + 1, es[n].runtime) == [] && InForce(es, n + 1, es[n].runtime) == Some(es[n].manifest)
  {
  }

  lemma HealthEntry(w: F.World, s: F.System, es: seq<F.Event>, n: nat, k: Key, x: Provider)
    requires n < |es| && es[n].Health? && F.Enabled(w, s, es[n]) && Truthful(s, es, n)
    requires Entry(F.Do(w, s, es[n]).host.providers, k, x)
    ensures Exported(es, n + 1, k, x) && Tells(Reports(es, n + 1, x.runtime), x)
  {
    hide Tells, Reports, InForce, React, TouchedAll;
    var runtime, report := es[n].subject, es[n].report;
    F.TouchedEntries(report, runtime, s.host.providers, k, x);
    var p :| Entry(s.host.providers, k, p) && x == Touched(report, runtime, p);
    SameIdentity(report, p);
    HistoryStep(es, n, p.runtime);
    var rs := Reports(es, n, p.runtime);
    if p.runtime == runtime {
      OneMoreReport(rs, p, report);
    } else {
      assert rs + [] == rs;
    }
  }

  lemma SameIdentity(e: HealthEvent, p: Provider)
    ensures var x := React(e, p);
            x.runtime == p.runtime && x.offer == p.offer && x.plugin == p.plugin && x.writerEpoch == p.writerEpoch
  {
  }

  lemma EntryStep(w: F.World, s: F.System, es: seq<F.Event>, n: nat, k: Key, x: Provider)
    requires n < |es| && F.Enabled(w, s, es[n]) && Truthful(s, es, n)
    requires Entry(F.Do(w, s, es[n]).host.providers, k, x)
    ensures Exported(es, n + 1, k, x) && Tells(Reports(es, n + 1, x.runtime), x)
  {
    hide Tells, Reports, InForce, Exported, FenceName, PlanFor, F.Enabled, Removed;
    match es[n] {
      case Register(_, _) => RegisterEntry(w, s, es, n, k, x);
      case Health(_, _) => HealthEntry(w, s, es, n, k, x);
      case Exit(runtime) =>
        F.RemainingEntries(s.host, runtime, k, x);
        OldEntryStays(es, n, k, x);
      case Restart => assert false;
      case _ => OldEntryStays(es, n, k, x);
    }
  }

  lemma NewEntryTells(m: Manifest, runtime: string, c: Capability)
    ensures Tells([], NewEntry(m, runtime, c))
  {
  }

  lemma UsedStep(w: F.World, s: F.System, es: seq<F.Event>, n: nat, r: string)
    requires n < |es| && F.Enabled(w, s, es[n]) && (InForce(es, n, r).Some? ==> r in s.used)
    ensures InForce(es, n + 1, r).Some? ==> r in F.Do(w, s, es[n]).used
  {
    hide F.Enabled, PlanFor, FenceName;
  }

  lemma StepIsTruthful(w: F.World, s: F.System, es: seq<F.Event>, n: nat)
    requires n < |es| && F.Enabled(w, s, es[n]) && Truthful(s, es, n)
    ensures Truthful(F.Do(w, s, es[n]), es, n + 1)
  {
    hide Tells, Reports, InForce, Exported, F.Enabled, F.Do;
    var t := F.Do(w, s, es[n]);
    forall k, x | Entry(t.host.providers, k, x)
      ensures Exported(es, n + 1, k, x) && Tells(Reports(es, n + 1, x.runtime), x)
    {
      EntryStep(w, s, es, n, k, x);
    }
    forall r ensures InForce(es, n + 1, r).Some? ==> r in t.used {
      UsedStep(w, s, es, n, r);
    }
  }

  ghost predicate Lists(s: F.System, r: string, c: Capability) {
    exists p :: Entry(s.host.providers, c.key, p) && p.runtime == r && p.offer == c
  }

  /** An event that does not end `r` keeps its entries. */
  lemma StaysListed(w: F.World, s: F.System, e: F.Event, r: string, c: Capability)
    requires F.Enabled(w, s, e) && Lists(s, r, c) && !e.Restart? && e != F.Exit(r)
    ensures Lists(F.Do(w, s, e), r, c)
  {
    hide FenceName, PlanFor, F.Enabled, Removed, TouchedAll, React, WithEntries;
    var ps, after := s.host.providers, F.Do(w, s, e).host.providers;
    var p :| Entry(ps, c.key, p) && p.runtime == r && p.offer == c;
    match e {
      case Register(m, runtime) =>
        F.RegisteredEntries(ps, m, runtime, |m.exports|, c.key, p);
        assert Entry(after, c.key, p);
      case Health(runtime, report) =>
        SameIdentity(report, p);
        F.TouchedEntries(report, runtime, ps, c.key, Touched(report, runtime, p));
        assert Entry(after, c.key, Touched(report, runtime, p));
      case Exit(runtime) =>
        F.RemainingEntries(s.host, runtime, c.key, p);
        assert Entry(after, c.key, p);
      case Restart =>
      case _ => assert Entry(after, c.key, p);
    }
  }

  lemma NewlyListed(w: F.World, s: F.System, e: F.Event, c: Capability)
    requires F.Enabled(w, s, e) && e.Register? && c in e.manifest.exports
    ensures Lists(F.Do(w, s, e), e.runtime, c)
  {
    hide WithEntries;
    var m, r := e.manifest, e.runtime;
    var i :| 0 <= i < |m.exports| && m.exports[i] == c;
    F.RegisteredEntries(s.host.providers, m, r, |m.exports|, c.key, NewEntry(m, r, c));
    assert Entry(F.Do(w, s, e).host.providers, c.key, NewEntry(m, r, c));
  }

  lemma StepIsListed(w: F.World, s: F.System, es: seq<F.Event>, n: nat, r: string, c: Capability)
    requires n < |es| && F.Enabled(w, s, es[n]) && Listed(s, es, n)
    requires InForce(es, n + 1, r).Some? && c in InForce(es, n + 1, r).value.exports
    ensures Lists(F.Do(w, s, es[n]), r, c)
  {
    hide F.Enabled, F.Do, Lists;
    if es[n].Register? && es[n].runtime == r {
      NewlyListed(w, s, es[n], c);
    } else {
      StaysListed(w, s, es[n], r, c);
    }
  }

  lemma {:induction false} RunIsTruthful(w: F.World, ss: seq<F.System>, es: seq<F.Event>, n: nat)
    requires F.Run(w, ss, es) && n <= |es|
    ensures Truthful(ss[n], es, n) && Listed(ss[n], es, n)
  {
    hide F.Do, F.Enabled, Tells, Reports, Truthful, Lists;
    if n == 0 {
      NobodyListed(ss[0], es);
    } else {
      RunIsTruthful(w, ss, es, n - 1);
      StepIsTruthful(w, ss[n - 1], es, n - 1);
      forall r, c | InForce(es, n, r).Some? && c in InForce(es, n, r).value.exports
        ensures Lists(ss[n], r, c)
      {
        StepIsListed(w, ss[n - 1], es, n - 1, r, c);
      }
    }
  }

  lemma NobodyListed(s: F.System, es: seq<F.Event>)
    requires F.Initial(s)
    ensures Truthful(s, es, 0) && Listed(s, es, 0)
  {
  }

  // ----- The theorems -----

  /**
   A capability's list holds exactly one kind of entry: those of the exports of registrations in force, under the plugin
   that registered them.
   */
  lemma TableIsInForce(w: F.World, ss: seq<F.System>, es: seq<F.Event>, n: nat, runtime: string, c: Capability)
    requires F.Run(w, ss, es) && n <= |es|
    ensures (exists k, p :: Entry(ss[n].host.providers, k, p) && p.runtime == runtime && p.offer == c) <==>
            InForce(es, n, runtime).Some? && c in InForce(es, n, runtime).value.exports
    ensures forall k, p :: Entry(ss[n].host.providers, k, p) && p.runtime == runtime ==>
              p.offer.key == k && InForce(es, n, runtime).Some? && p.plugin == InForce(es, n, runtime).value.plugin
  {
    hide Tells, Reports;
    RunIsTruthful(w, ss, es, n);
    assert forall k, p :: Entry(ss[n].host.providers, k, p) ==> Exported(es, n, k, p);
  }

  /**
   An entry's circuit is open exactly when three requests have failed since the last that succeeded, and its missed
   beats are those since the last that arrived; its process and its dependencies are as last reported. Nothing else
   bears on its health.
   */
  lemma HealthIsReported(w: F.World, ss: seq<F.System>, es: seq<F.Event>, n: nat, k: Key, p: Provider)
    requires F.Run(w, ss, es) && n <= |es| && Entry(ss[n].host.providers, k, p)
    ensures var rs := Reports(es, n, p.runtime);
            && (p.circuitOpen <==> Count(Since(rs, RequestSuccess), RequestFailure) >= 3)
            && p.missedHeartbeats == Count(Since(rs, HeartbeatSuccess), HeartbeatFailure)
            && (p.processHealthy <==> ProcessHealth(false) !in Since(rs, ProcessHealth(true)))
            && (p.dependenciesHealthy <==> DependencyHealth(false) !in Since(rs, DependencyHealth(true)))
            && (p.healthy <==> p.processHealthy && p.dependenciesHealthy && !p.circuitOpen && p.missedHeartbeats < 3)
  {
    RunIsTruthful(w, ss, es, n);
  }

  /** The runtime has an unhealthy entry. */
  ghost predicate Ails(ps: Providers, runtime: string) {
    exists k, p :: Entry(ps, k, p) && p.runtime == runtime && !p.healthy
  }

  /** Of a holder that was healthy in all its entries: the report trips the registry exactly when it leaves one unhealthy. */
  lemma TripsMeansUnhealthy(ps: Providers, runtime: string, e: HealthEvent)
    requires forall k, p :: Entry(ps, k, p) && p.runtime == runtime ==> p.healthy && Sound(p)
    ensures AnyTrips(e, runtime, ps) <==> Ails(TouchedAll(e, runtime, ps), runtime)
  {
    hide TouchedAll, React, Sound;
    var after := TouchedAll(e, runtime, ps);
    if k :| k in ps && ListTrips(e, runtime, ps[k]) {
      var i :| 0 <= i < |ps[k]| && ps[k][i].runtime == runtime && Trips(e, ps[k][i]);
      assert Entry(ps, k, ps[k][i]);
      SameIdentity(e, ps[k][i]);
      TripExact(e, ps[k][i]);
      F.TouchedEntries(e, runtime, ps, k, React(e, ps[k][i]));
      assert Entry(after, k, React(e, ps[k][i]));
    }
    if k, x :| Entry(after, k, x) && x.runtime == runtime && !x.healthy {
      F.TouchedEntries(e, runtime, ps, k, x);
      var p :| Entry(ps, k, p) && x == Touched(e, runtime, p);
      SameIdentity(e, p);
      TripExact(e, p);
      var i :| 0 <= i < |ps[k]| && ps[k][i] == p;
      assert ListTrips(e, runtime, ps[k]);
    }
  }

  lemma TripExact(e: HealthEvent, p: Provider)
    requires p.healthy && Sound(p)
    ensures Trips(e, p) <==> !React(e, p).healthy
  {
  }

  lemma OthersStayWell(s: State, runtime: string, e: HealthEvent, holder: string)
    requires holder != runtime && forall k, p :: Entry(s.providers, k, p) && p.runtime == holder ==> p.healthy
    ensures !Ails(TouchedAll(e, runtime, s.providers), holder)
  {
    hide TouchedAll, React;
    forall k, x | Entry(TouchedAll(e, runtime, s.providers), k, x) && x.runtime == holder ensures x.healthy {
      F.TouchedEntries(e, runtime, s.providers, k, x);
      var p :| Entry(s.providers, k, p) && x == Touched(e, runtime, p);
      SameIdentity(e, p);
    }
  }

  /** A report takes a lease from its holder exactly when it leaves the holder with an unhealthy entry. */
  lemma LeaseLostIff(w: F.World, ss: seq<F.System>, es: seq<F.Event>, n: nat, a: Authority)
    requires F.NamesDistinct(w) && F.NonEmptyNames(w) && F.Run(w, ss, es) && n < |es| && es[n].Health?
    requires a in ss[n].host.writers && ss[n].host.writers[a].runtime != ""
    ensures a in ss[n + 1].host.writers && ss[n + 1].host.writers[a].epoch == ss[n].host.writers[a].epoch
    ensures var holder := ss[n].host.writers[a].runtime;
            ss[n + 1].host.writers[a].runtime == if Ails(ss[n + 1].host.providers, holder) then "" else holder
  {
    hide FenceName, PlanFor, F.NamesDistinct, F.FlagsAgree, Ails, TouchedAll, AnyTrips, Sound;
    var s, runtime, e := ss[n].host, es[n].subject, es[n].report;
    var holder := s.writers[a].runtime;
    F.HolderIsHealthyExporter(w, ss, es, n, a);
    forall k, p | Entry(s.providers, k, p) && p.runtime == holder ensures p.healthy && Sound(p) {
      EntryIsSound(w, ss, es, n, k, p);
    }
    assert F.Enabled(w, ss[n], es[n]) && ss[n + 1] == F.Do(w, ss[n], es[n]);
    if holder == runtime {
      TripsMeansUnhealthy(s.providers, runtime, e);
    } else {
      OthersStayWell(s, runtime, e, holder);
    }
  }

  lemma EntryIsSound(w: F.World, ss: seq<F.System>, es: seq<F.Event>, n: nat, k: Key, p: Provider)
    requires F.Run(w, ss, es) && n <= |es| && Entry(ss[n].host.providers, k, p)
    ensures p.healthy == Sound(p)
  {
    HealthIsReported(w, ss, es, n, k, p);
  }

  // ----- Storage -----

  /** The manifest writes the authority. */
  ghost predicate Claims(m: Manifest, a: Authority) {
    exists i :: 0 <= i < |m.exports| && m.exports[i].stateful &&
                m.exports[i].service == a.service && m.exports[i].authority == a.authority
  }

  /** Step `i` registered a runtime that writes `a` under `namespace`, and the host has not restarted since. */
  ghost predicate ClaimedAt(es: seq<F.Event>, n: nat, a: Authority, namespace: string, i: nat)
    requires n <= |es|
  {
    && i < n && es[i].Register? && Claims(es[i].manifest, a) && es[i].manifest.namespace == namespace
    && forall u | i < u < n :: !es[u].Restart?
  }

  ghost predicate Claimed(es: seq<F.Event>, n: nat, a: Authority, namespace: string)
    requires n <= |es|
  {
    exists i :: ClaimedAt(es, n, a, namespace, i)
  }

  lemma {:induction false} ReservedMeans(storage: map<Authority, string>, m: Manifest, n: nat, a: Authority)
    requires n <= |m.exports|
    ensures var claims := exists i :: 0 <= i < n && m.exports[i].stateful &&
                                      m.exports[i].service == a.service && m.exports[i].authority == a.authority;
            && (a in Reserved(storage, m, n) <==> a in storage || claims)
            && (claims ==> Reserved(storage, m, n)[a] == m.namespace)
            && (!claims && a in storage ==> Reserved(storage, m, n)[a] == storage[a])
  {
    if n > 0 {
      ReservedMeans(storage, m, n - 1, a);
      var c := m.exports[n - 1];
      assert AuthorityOf(c) == a <==> c.service == a.service && c.authority == a.authority;
    }
  }

  lemma ClaimStep(es: seq<F.Event>, n: nat, a: Authority, namespace: string)
    requires n < |es|
    ensures Claimed(es, n + 1, a, namespace) <==>
            (es[n].Register? && Claims(es[n].manifest, a) && es[n].manifest.namespace == namespace) ||
            (!es[n].Restart? && Claimed(es, n, a, namespace))
  {
    hide Claims;
    if es[n].Register? && Claims(es[n].manifest, a) && es[n].manifest.namespace == namespace {
      assert ClaimedAt(es, n + 1, a, namespace, n);
    }
    if !es[n].Restart? && Claimed(es, n, a, namespace) {
      var i :| ClaimedAt(es, n, a, namespace, i);
      assert ClaimedAt(es, n + 1, a, namespace, i);
    }
    var next := n + 1;
    if i: nat :| ClaimedAt(es, next, a, namespace, i) {
      assert i < n ==> ClaimedAt(es, n, a, namespace, i);
    }
  }

  /** The registry remembers each authority's namespace from the registrations since its host started. */
  lemma {:induction false} StorageIsClaimed(w: F.World, ss: seq<F.System>, es: seq<F.Event>, n: nat, a: Authority)
    requires F.Run(w, ss, es) && n <= |es|
    ensures forall namespace ::
              Claimed(es, n, a, namespace) <==> a in ss[n].host.storage && ss[n].host.storage[a] == namespace
  {
    hide F.Do, F.Enabled, Claimed, Reserved;
    if n == 0 {
      assert forall namespace :: !Claimed(es, 0, a, namespace) by {
        NothingClaimed(es, a);
      }
    } else {
      var s, e := ss[n - 1], es[n - 1];
      StorageIsClaimed(w, ss, es, n - 1, a);
      StorageStep(w, s, e, a);
      forall namespace
        ensures Claimed(es, n, a, namespace) <==> a in ss[n].host.storage && ss[n].host.storage[a] == namespace
      {
        ClaimStep(es, n - 1, a, namespace);
      }
    }
  }

  lemma NothingClaimed(es: seq<F.Event>, a: Authority)
    ensures forall namespace :: !Claimed(es, 0, a, namespace)
  {
  }

  lemma StorageStep(w: F.World, s: F.System, e: F.Event, a: Authority)
    requires F.Enabled(w, s, e)
    ensures var before, after := s.host.storage, F.Do(w, s, e).host.storage;
            if e.Restart? then after == map[]
            else if e.Register? && Claims(e.manifest, a) then
              a in after && after[a] == e.manifest.namespace && (a in before ==> before[a] == e.manifest.namespace)
            else (a in after <==> a in before) && (a in before ==> after[a] == before[a])
  {
    hide PlanFor, FenceName, TouchedAll, Others, WithEntries, F.Admitted;
    if e.Register? {
      ReservedMeans(s.host.storage, e.manifest, |e.manifest.exports|, a);
    }
  }

  /** A registration is refused exactly when it writes an authority that is kept under another namespace. */
  lemma RefusedIfForeign(w: F.World, ss: seq<F.System>, es: seq<F.Event>, n: nat, m: Manifest)
    requires F.Run(w, ss, es) && n <= |es|
    ensures StorageAgrees(ss[n].host.storage, m) <==>
            forall a, namespace | Claims(m, a) && Claimed(es, n, a, namespace) :: namespace == m.namespace
  {
    hide Claimed;
    var storage := ss[n].host.storage;
    forall a ensures forall namespace :: Claimed(es, n, a, namespace) <==> a in storage && storage[a] == namespace {
      StorageIsClaimed(w, ss, es, n, a);
    }
    if !StorageAgrees(storage, m) {
      var i :| 0 <= i < |m.exports| && m.exports[i].stateful && AuthorityOf(m.exports[i]) in storage &&
               storage[AuthorityOf(m.exports[i])] != m.namespace;
      assert Claims(m, AuthorityOf(m.exports[i]));
      assert Claimed(es, n, AuthorityOf(m.exports[i]), storage[AuthorityOf(m.exports[i])]);
    }
  }
}
