/**
 The supervisor's dependency reconciliation (kernel/internal/supervisor/supervisor.go:107-138): up to eight
 passes over the running plugins, in whatever order the map of runs yields them, each telling the registry whether
 everything the plugin requires has a healthy provider.
 */
module Supervisor {
  import F = FencedWrites
  import opened Registry

  type Runs = map<string, Manifest>

  // ----- One visit, one pass, one reconciliation -----

  ghost predicate Ready(ps: Providers, m: Manifest) {
    forall i | 0 <= i < |m.required| :: HasHealthy(Entries(ps, m.required[i]))
  }

  function Verdict(ps: Providers, m: Manifest): HealthEvent {
    DependencyHealth(Missing(ps, m.required) == [])
  }

  function Visited(s: State, run: string, m: Manifest): State {
    Observed(s, run, Verdict(s.providers, m))
  }

  predicate Visitable(order: seq<string>, runs: Runs) {
    forall i | 0 <= i < |order| :: order[i] in runs
  }

  function Pass(s: State, order: seq<string>, runs: Runs): State
    requires Visitable(order, runs)
  {
    if order == [] then s
    else
      var run := order[|order| - 1];
      Visited(Pass(s, order[..|order| - 1], runs), run, runs[run])
  }

  predicate PassMoves(s: State, order: seq<string>, runs: Runs)
    requires Visitable(order, runs)
  {
    order != [] &&
    var run, before := order[|order| - 1], Pass(s, order[..|order| - 1], runs);
    PassMoves(s, order[..|order| - 1], runs) || AnyFlips(Verdict(before.providers, runs[run]), run, before.providers)
  }

  /** One way of ranging over the map of runs. */
  ghost predicate Ranges(order: seq<string>, runs: Runs) {
    Visitable(order, runs) && forall run | run in runs :: run in order
  }

  ghost function Passes(s: State, orders: seq<seq<string>>, runs: Runs): State
    requires forall n | 0 <= n < |orders| :: Ranges(orders[n], runs)
  {
    if orders == [] then s
    else
      assert Ranges(orders[|orders| - 1], runs);
      Pass(Passes(s, orders[..|orders| - 1], runs), orders[|orders| - 1], runs)
  }

  /** The passes one call makes: at most eight, the first that moves nothing being the last. */
  ghost predicate Schedule(s: State, orders: seq<seq<string>>, runs: Runs) {
    && 1 <= |orders| <= 8
    && (forall n | 0 <= n < |orders| :: Ranges(orders[n], runs))
    && (forall n | 0 <= n < |orders| - 1 :: PassMoves(Passes(s, orders[..n], runs), orders[n], runs))
    && (|orders| < 8 ==> !PassMoves(Passes(s, orders[..|orders| - 1], runs), orders[|orders| - 1], runs))
  }

  ghost predicate AllRange(orders: seq<seq<string>>, runs: Runs) {
    forall n | 0 <= n < |orders| :: Ranges(orders[n], runs)
  }

  ghost predicate Moving(s: State, orders: seq<seq<string>>, runs: Runs)
    requires AllRange(orders, runs)
  {
    forall n | 0 <= n < |orders| :: PassMoves(Passes(s, orders[..n], runs), orders[n], runs)
  }

  lemma NoPasses(s: State, runs: Runs)
    ensures AllRange([], runs) && Moving(s, [], runs) && Passes(s, [], runs) == s
  {
  }

  /** A further pass: the passes go on while it moves something, and are complete when it does not or is the eighth. */
  lemma OnePassMore(s: State, orders: seq<seq<string>>, order: seq<string>, runs: Runs)
    requires AllRange(orders, runs) && Moving(s, orders, runs) && Ranges(order, runs) && |orders| < 8
    ensures var longer := orders + [order];
            && AllRange(longer, runs)
            && Passes(s, longer, runs) == Pass(Passes(s, orders, runs), order, runs)
            && (PassMoves(Passes(s, orders, runs), order, runs) ==> Moving(s, longer, runs))
            && (PassMoves(Passes(s, orders, runs), order, runs) ==> |longer| < 8 || Schedule(s, longer, runs))
            && (!PassMoves(Passes(s, orders, runs), order, runs) ==> Schedule(s, longer, runs))
  {
    hide Pass, PassMoves, Ranges;
    var longer := orders + [order];
    assert longer[..|orders|] == orders;
    forall n | 0 <= n < |orders| ensures longer[..n] == orders[..n] && longer[n] == orders[n] {
    }
  }

  class Supervisor {
    const registry: Registry
    var runs: Runs

    constructor (registry: Registry)
      ensures this.registry == registry && runs == map[]
    {
      this.registry, runs := registry, map[];
    }

    /** The part of a start that follows the plugin's ready message; `launches` is whether it got that far. */
    method Start(m: Manifest, runtime: string, launches: bool) returns (ok: bool, ghost orders: seq<seq<string>>)
      requires runtime !in runs
      modifies this`runs, registry
      ensures ok == (launches && StorageAgrees(old(registry.storage), m))
      ensures !ok ==> runs == old(runs) && registry.Value() == old(registry.Value())
      ensures ok ==>
                var s := Registered(old(registry.Value()), m, runtime);
                && runs == old(runs)[runtime := m]
                && Schedule(s, orders, runs) && registry.Value() == Passes(s, orders, runs)
    {
      if !launches {
        return false, [];
      }
      runs := runs[runtime := m];
      var registered := registry.RegisterRuntime(m, runtime);
      if !registered {
        runs := runs - {runtime};
        return false, [];
      }
      orders := ReconcileDependencies();
      ok := true;
    }

    /** watch, once the process is gone: dependents see the loss before the entries disappear. */
    method Exited(runtime: string) returns (ghost orders: seq<seq<string>>)
      modifies this`runs, registry`providers, registry`writers
      ensures runs == old(runs) - {runtime}
      ensures var s := Observed(old(registry.Value()), runtime, ProcessHealth(false));
              Schedule(s, orders, runs) && registry.Value() == Removed(Passes(s, orders, runs), runtime)
    {
      var _ := registry.Observe(runtime, ProcessHealth(false));
      runs := runs - {runtime};
      orders := ReconcileDependencies();
      registry.RemoveRuntime(runtime);
    }

    method ReconcileDependencies() returns (ghost orders: seq<seq<string>>)
      modifies registry`providers, registry`writers
      ensures Schedule(old(registry.Value()), orders, runs)
      ensures registry.Value() == Passes(old(registry.Value()), orders, runs)
    {
      hide Pass, PassMoves, Passes, Moving, Schedule;
      orders := [];
      ghost var start := registry.Value();
      NoPasses(start, runs);
      for pass := 0 to 8
        invariant |orders| == pass
        invariant AllRange(orders, runs) && Moving(start, orders, runs)
        invariant registry.Value() == Passes(start, orders, runs)
        invariant pass == 8 ==> Schedule(start, orders, runs)
      {
        var changed, order := ReconcileOnce();
        OnePassMore(start, orders, order, runs);
        orders := orders + [order];
        if !changed {
          break;
        }
      }
    }

    method ReconcileOnce() returns (changed: bool, ghost order: seq<string>)
      modifies registry`providers, registry`writers
      ensures Ranges(order, runs)
      ensures registry.Value() == Pass(old(registry.Value()), order, runs)
      ensures changed == PassMoves(old(registry.Value()), order, runs)
    {
      changed, order := false, [];
      ghost var before := registry.Value();
      var rest := runs.Keys;
      while rest != {}
        invariant rest <= runs.Keys
        invariant Visitable(order, runs)
        invariant forall run | run in runs && run !in rest :: run in order
        invariant registry.Value() == Pass(before, order, runs)
        invariant changed == PassMoves(before, order, runs)
        decreases |rest|
      {
        var run :| run in rest;
        var missing := registry.MissingHealthyRequired(runs[run]);
        var moved := registry.Observe(run, DependencyHealth(missing == []));
        assert (order + [run])[..|order|] == order;
        changed, order := changed || moved, order + [run];
        rest := rest - {run};
      }
    }
  }

  // ----- The fixed point -----

  /** Every entry's health is what its flags say, which each registry operation maintains. */
  ghost predicate HealthFits(ps: Providers) {
    forall k, i | k in ps && 0 <= i < |ps[k]| :: ps[k][i].healthy == Sound(ps[k][i])
  }

  lemma StepHealthFits(w: F.World, s: F.System, e: F.Event)
    requires HealthFits(s.host.providers) && F.Enabled(w, s, e)
    ensures HealthFits(F.Do(w, s, e).host.providers)
  {
    var ps: Providers, after: Providers := s.host.providers, F.Do(w, s, e).host.providers;
    forall k, i | k in after && 0 <= i < |after[k]| ensures after[k][i].healthy == Sound(after[k][i]) {
      if e.Register? {
        F.RegisteredEntries(ps, e.manifest, e.runtime, |e.manifest.exports|, k, after[k][i]);
        assert Entry(after, k, after[k][i]);
      } else if e.Exit? {
        F.OtherEntries(ps[k], e.gone, after[k][i]);
      }
    }
  }

  /** Whatever has happened to a registry, its entries' health fits. */
  lemma {:induction false} ReachableHealthFits(w: F.World, ss: seq<F.System>, es: seq<F.Event>, i: nat)
    requires F.Run(w, ss, es) && i <= |es|
    ensures HealthFits(ss[i].host.providers)
  {
    if i > 0 {
      ReachableHealthFits(w, ss, es, i - 1);
      StepHealthFits(w, ss[i - 1], es[i - 1]);
    }
  }

  /** The run's entries carry the dependency flag its requirements call for. */
  ghost predicate Right(ps: Providers, run: string, m: Manifest) {
    forall k, i | k in ps && 0 <= i < |ps[k]| && ps[k][i].runtime == run ::
      ps[k][i].dependenciesHealthy == Ready(ps, m)
  }

  ghost predicate FixedPoint(ps: Providers, runs: Runs) {
    HealthFits(ps) && forall run | run in runs :: Right(ps, run, runs[run])
  }

  /** A rank for every run, above those of all runs that provide what it requires. */
  ghost predicate Ranked(ps: Providers, runs: Runs, rank: map<string, nat>) {
    && (forall run | run in runs :: run in rank)
    && (forall run, i, j | run in runs && 0 <= i < |runs[run].required| &&
          0 <= j < |Entries(ps, runs[run].required[i])| && Entries(ps, runs[run].required[i])[j].runtime in runs ::
          Below(Entries(ps, runs[run].required[i])[j].runtime, run, rank))
  }

  ghost predicate Below(low: string, high: string, rank: map<string, nat>) {
    low in rank && high in rank && rank[low] < rank[high]
  }

  lemma {:induction false} NothingMissing(ps: Providers, required: seq<Key>)
    ensures Missing(ps, required) == [] <==> forall i | 0 <= i < |required| :: HasHealthy(Entries(ps, required[i]))
  {
    if required == [] {
    } else {
      var front := required[..|required| - 1];
      NothingMissing(ps, front);
      assert required == front + [required[|required| - 1]];
    }
  }

  /**
   What is missing of a list is what is missing of its parts, in order; of one capability, itself if nobody healthy
   provides it.
   */
  lemma {:induction false} MissingMeans(ps: Providers, a: seq<Key>, b: seq<Key>, k: Key)
    ensures Missing(ps, a + b) == Missing(ps, a) + Missing(ps, b)
    ensures Missing(ps, [k]) == if exists i :: 0 <= i < |Entries(ps, k)| && Entries(ps, k)[i].healthy then [] else [k]
    decreases |b|
  {
    assert [k][..0] == [] && Missing(ps, []) == [];
    if b == [] {
      assert a + b == a;
    } else {
      var front, last := b[..|b| - 1], b[|b| - 1];
      MissingMeans(ps, a, front, k);
      assert (a + b)[..|a + b| - 1] == a + front;
    }
  }

  lemma VerdictIsReady(ps: Providers, m: Manifest)
    ensures Verdict(ps, m) == DependencyHealth(Ready(ps, m))
  {
    NothingMissing(ps, m.required);
  }

  /** A visit that flips nothing changes nothing, and finds the run's flags right. */
  lemma QuietVisit(s: State, run: string, m: Manifest)
    requires HealthFits(s.providers)
    ensures !AnyFlips(Verdict(s.providers, m), run, s.providers) <==> Right(s.providers, run, m)
    ensures Right(s.providers, run, m) ==> Visited(s, run, m).providers == s.providers
  {
    var ps, e := s.providers, Verdict(s.providers, m);
    VerdictIsReady(ps, m);
    if Right(ps, run, m) {
      forall k | k in ps ensures !ListFlips(e, run, ps[k]) && TouchedList(e, run, ps[k]) == ps[k] {
        assert forall i | 0 <= i < |ps[k]| && ps[k][i].runtime == run :: ps[k][i].dependenciesHealthy == Ready(ps, m);
      }
    } else {
      var k, i :| k in ps && 0 <= i < |ps[k]| && ps[k][i].runtime == run && ps[k][i].dependenciesHealthy != Ready(ps, m);
      assert Flips(e, ps[k][i]);
      assert ListFlips(e, run, ps[k]);
    }
  }

  lemma VisitKeepsShape(s: State, run: string, m: Manifest, runs: Runs, rank: map<string, nat>)
    requires HealthFits(s.providers) && Ranked(s.providers, runs, rank)
    ensures HealthFits(Visited(s, run, m).providers) && Ranked(Visited(s, run, m).providers, runs, rank)
  {
    var ps, after := s.providers, Visited(s, run, m).providers;
    forall r, i, j | r in runs && 0 <= i < |runs[r].required| && 0 <= j < |Entries(after, runs[r].required[i])| &&
                     Entries(after, runs[r].required[i])[j].runtime in runs
      ensures Below(Entries(after, runs[r].required[i])[j].runtime, r, rank)
    {
      assert Entries(after, runs[r].required[i])[j].runtime == Entries(ps, runs[r].required[i])[j].runtime;
    }
  }

  /** A visit to a run of no lower rank leaves what `q` requires as it was. */
  lemma ReadyKept(s: State, run: string, runs: Runs, rank: map<string, nat>, q: string)
    requires run in runs && q in runs && Ranked(s.providers, runs, rank) && rank[q] <= rank[run]
    ensures Ready(Visited(s, run, runs[run]).providers, runs[q]) == Ready(s.providers, runs[q])
  {
    var ps: Providers, after: Providers := s.providers, Visited(s, run, runs[run]).providers;
    forall i | 0 <= i < |runs[q].required| ensures Entries(after, runs[q].required[i]) == Entries(ps, runs[q].required[i]) {
      var list := Entries(ps, runs[q].required[i]);
      forall j | 0 <= j < |list| ensures list[j].runtime != run {
        assert list[j].runtime in runs ==> Below(list[j].runtime, q, rank);
      }
    }
  }

  lemma RightKept(s: State, run: string, runs: Runs, rank: map<string, nat>, q: string)
    requires run in runs && q in runs && Ranked(s.providers, runs, rank) && rank[q] <= rank[run]
    requires q != run ==> Right(s.providers, q, runs[q])
    ensures Right(Visited(s, run, runs[run]).providers, q, runs[q])
  {
    var ps: Providers, after: Providers := s.providers, Visited(s, run, runs[run]).providers;
    ReadyKept(s, run, runs, rank, q);
    VerdictIsReady(ps, runs[run]);
    forall k, i | k in after && 0 <= i < |after[k]| && after[k][i].runtime == q
      ensures after[k][i].dependenciesHealthy == Ready(after, runs[q])
    {
      assert ps[k][i].runtime == q;
    }
  }

  ghost predicate SettledBelow(ps: Providers, runs: Runs, rank: map<string, nat>, n: nat) {
    forall run | run in runs && run in rank && rank[run] < n :: Right(ps, run, runs[run])
  }

  /** A pass over runs settled below rank `n` keeps those and settles the ones of rank `n` it has come to. */
  lemma {:induction false} PassSettles(s: State, order: seq<string>, runs: Runs, rank: map<string, nat>, n: nat)
    requires HealthFits(s.providers) && Ranked(s.providers, runs, rank) && SettledBelow(s.providers, runs, rank, n)
    requires Visitable(order, runs)
    ensures var ps := Pass(s, order, runs).providers;
            && HealthFits(ps) && Ranked(ps, runs, rank) && SettledBelow(ps, runs, rank, n)
            && forall run | run in order && rank[run] == n :: Right(ps, run, runs[run])
    decreases |order|
  {
    if order == [] {
    } else {
      var front, r := order[..|order| - 1], order[|order| - 1];
      PassSettles(s, front, runs, rank, n);
      var before := Pass(s, front, runs);
      VisitKeepsShape(before, r, runs[r], runs, rank);
      assert order == front + [r];
      if Right(before.providers, r, runs[r]) {
        QuietVisit(before, r, runs[r]);
      } else {
        forall q | q in runs && (rank[q] < n || (q in order && rank[q] == n))
          ensures Right(Visited(before, r, runs[r]).providers, q, runs[q])
        {
          RightKept(before, r, runs, rank, q);
        }
      }
    }
  }

  /** Each pass settles one more rank. */
  lemma {:induction false} PassesSettle(s: State, orders: seq<seq<string>>, runs: Runs, rank: map<string, nat>, d: nat)
    requires HealthFits(s.providers) && Ranked(s.providers, runs, rank) && SettledBelow(s.providers, runs, rank, d)
    requires forall n | 0 <= n < |orders| :: Ranges(orders[n], runs)
    ensures var ps := Passes(s, orders, runs).providers;
            HealthFits(ps) && Ranked(ps, runs, rank) && SettledBelow(ps, runs, rank, d + |orders|)
    decreases |orders|
  {
    if orders == [] {
    } else {
      var front, order := orders[..|orders| - 1], orders[|orders| - 1];
      PassesSettle(s, front, runs, rank, d);
      PassSettles(Passes(s, front, runs), order, runs, rank, d + |front|);
      assert Ranges(order, runs);
    }
  }

  /** A pass that flips nothing found every run it visited right. */
  lemma {:induction false} QuietPass(s: State, order: seq<string>, runs: Runs)
    requires HealthFits(s.providers)
    requires Visitable(order, runs)
    requires !PassMoves(s, order, runs)
    ensures Pass(s, order, runs).providers == s.providers
    ensures forall run | run in order :: Right(s.providers, run, runs[run])
    decreases |order|
  {
    if order == [] {
    } else {
      var front, r := order[..|order| - 1], order[|order| - 1];
      QuietPass(s, front, runs);
      QuietVisit(Pass(s, front, runs), r, runs[r]);
      assert order == front + [r];
    }
  }

  lemma {:induction false} HealthStaysFitting(s: State, orders: seq<seq<string>>, runs: Runs)
    requires HealthFits(s.providers)
    requires forall n | 0 <= n < |orders| :: Ranges(orders[n], runs)
    ensures HealthFits(Passes(s, orders, runs).providers)
    decreases |orders|
  {
    if orders == [] {
    } else {
      HealthStaysFitting(s, orders[..|orders| - 1], runs);
      PassKeepsFitting(Passes(s, orders[..|orders| - 1], runs), orders[|orders| - 1], runs);
    }
  }

  lemma {:induction false} PassKeepsFitting(s: State, order: seq<string>, runs: Runs)
    requires HealthFits(s.providers)
    requires Visitable(order, runs)
    ensures HealthFits(Pass(s, order, runs).providers)
    decreases |order|
  {
    if order == [] {
    } else {
      PassKeepsFitting(s, order[..|order| - 1], runs);
    }
  }

  /** Stopping early is always stopping at a fixed point, whatever the dependency graph, cycles included. */
  lemma EarlyStopIsFixed(s: State, orders: seq<seq<string>>, runs: Runs)
    requires HealthFits(s.providers) && Schedule(s, orders, runs)
    requires !PassMoves(Passes(s, orders[..|orders| - 1], runs), orders[|orders| - 1], runs)
    ensures FixedPoint(Passes(s, orders, runs).providers, runs)
  {
    var front, order := orders[..|orders| - 1], orders[|orders| - 1];
    HealthStaysFitting(s, front, runs);
    QuietPass(Passes(s, front, runs), order, runs);
    assert Ranges(order, runs);
  }

  /**
   From any visiting order the call ends at a fixed point when no run ranks more than 7 above the ranks whose flags
   are right to begin with. With `d == 0` nothing is right to begin with: any stale flags, dependency depth at most 7.
   */
  lemma ReconcileReachesFixedPoint(s: State, orders: seq<seq<string>>, runs: Runs, rank: map<string, nat>, d: nat)
    requires HealthFits(s.providers) && Ranked(s.providers, runs, rank) && SettledBelow(s.providers, runs, rank, d)
    requires forall run | run in runs :: rank[run] <= 7 + d
    requires Schedule(s, orders, runs)
    ensures FixedPoint(Passes(s, orders, runs).providers, runs)
  {
    if |orders| < 8 {
      EarlyStopIsFixed(s, orders, runs);
    } else {
      PassesSettle(s, orders, runs, rank, d);
    }
  }

  // ----- There is one fixed point -----

  /** The same entries but for the dependency flag of running plugins, and the health that follows from it. */
  ghost predicate SameBase(a: Providers, b: Providers, runs: Runs) {
    && a.Keys == b.Keys
    && forall k | k in a :: |a[k]| == |b[k]| && forall i | 0 <= i < |a[k]| :: SameEntry(a[k][i], b[k][i], runs)
  }

  ghost predicate SameEntry(p: Provider, q: Provider, runs: Runs) {
    if p.runtime in runs then p.(dependenciesHealthy := true, healthy := true) == q.(dependenciesHealthy := true, healthy := true)
    else p == q
  }

  lemma {:induction false} PassKeepsBase(s: State, order: seq<string>, runs: Runs)
    requires Visitable(order, runs)
    ensures SameBase(s.providers, Pass(s, order, runs).providers, runs)
    decreases |order|
  {
    if order == [] {
    } else {
      PassKeepsBase(s, order[..|order| - 1], runs);
    }
  }

  lemma {:induction false} PassesKeepBase(s: State, orders: seq<seq<string>>, runs: Runs)
    requires forall n | 0 <= n < |orders| :: Ranges(orders[n], runs)
    ensures SameBase(s.providers, Passes(s, orders, runs).providers, runs)
    decreases |orders|
  {
    if orders == [] {
    } else {
      PassesKeepBase(s, orders[..|orders| - 1], runs);
      PassKeepsBase(Passes(s, orders[..|orders| - 1], runs), orders[|orders| - 1], runs);
    }
  }

  /** By induction on the rank: two fixed points over the same base agree on what each run requires. */
  lemma {:induction false} ReadyAgrees(a: Providers, b: Providers, runs: Runs, rank: map<string, nat>, run: string)
    requires FixedPoint(a, runs) && FixedPoint(b, runs) && SameBase(a, b, runs) && Ranked(a, runs, rank) && run in runs
    ensures Ready(a, runs[run]) == Ready(b, runs[run])
    decreases rank[run]
  {
    forall i | 0 <= i < |runs[run].required| ensures Entries(a, runs[run].required[i]) == Entries(b, runs[run].required[i]) {
      var list, other := Entries(a, runs[run].required[i]), Entries(b, runs[run].required[i]);
      forall j | 0 <= j < |list| ensures list[j] == other[j] {
        var low := list[j].runtime;
        if low in runs {
          assert Below(low, run, rank);
          ReadyAgrees(a, b, runs, rank, low);
        }
      }
    }
  }

  /** An acyclic dependency graph has one fixed point at most. */
  lemma FixedPointIsUnique(a: Providers, b: Providers, runs: Runs, rank: map<string, nat>)
    requires FixedPoint(a, runs) && FixedPoint(b, runs) && SameBase(a, b, runs) && Ranked(a, runs, rank)
    ensures a == b
  {
    forall k | k in a ensures a[k] == b[k] {
      forall i | 0 <= i < |a[k]| ensures a[k][i] == b[k][i] {
        if a[k][i].runtime in runs {
          ReadyAgrees(a, b, runs, rank, a[k][i].runtime);
        }
      }
    }
  }

  ghost predicate SameOwners(a: Providers, b: Providers) {
    && a.Keys == b.Keys
    && forall k | k in a :: |a[k]| == |b[k]| && forall i | 0 <= i < |a[k]| :: a[k][i].runtime == b[k][i].runtime
  }

  lemma BaseHasOwners(a: Providers, b: Providers, runs: Runs)
    requires SameBase(a, b, runs)
    ensures SameOwners(a, b)
  {
    forall k, i | k in a && 0 <= i < |a[k]| ensures a[k][i].runtime == b[k][i].runtime {
      assert SameEntry(a[k][i], b[k][i], runs);
    }
  }

  lemma RankedByOwners(a: Providers, b: Providers, runs: Runs, rank: map<string, nat>)
    requires Ranked(a, runs, rank) && SameOwners(a, b)
    ensures Ranked(b, runs, rank)
  {
    forall r, i, j | r in runs && 0 <= i < |runs[r].required| && 0 <= j < |Entries(b, runs[r].required[i])| &&
                     Entries(b, runs[r].required[i])[j].runtime in runs
      ensures Below(Entries(b, runs[r].required[i])[j].runtime, r, rank)
    {
      assert Entries(a, runs[r].required[i])[j].runtime == Entries(b, runs[r].required[i])[j].runtime;
    }
  }

  lemma {:induction false} RankedStays(s: State, orders: seq<seq<string>>, runs: Runs, rank: map<string, nat>)
    requires Ranked(s.providers, runs, rank)
    requires forall n | 0 <= n < |orders| :: Ranges(orders[n], runs)
    ensures Ranked(Passes(s, orders, runs).providers, runs, rank)
  {
    PassesKeepBase(s, orders, runs);
    BaseHasOwners(s.providers, Passes(s, orders, runs).providers, runs);
    RankedByOwners(s.providers, Passes(s, orders, runs).providers, runs, rank);
  }

  lemma BaseIsShared(s: Providers, t: Providers, a: Providers, b: Providers, runs: Runs)
    requires SameBase(s, t, runs) && SameBase(s, a, runs) && SameBase(t, b, runs)
    ensures SameBase(a, b, runs)
  {
    forall k | k in a ensures |a[k]| == |b[k]| && forall i | 0 <= i < |a[k]| :: SameEntry(a[k][i], b[k][i], runs) {
      forall i | 0 <= i < |a[k]| ensures SameEntry(a[k][i], b[k][i], runs) {
        assert SameEntry(s[k][i], t[k][i], runs) && SameEntry(s[k][i], a[k][i], runs) && SameEntry(t[k][i], b[k][i], runs);
      }
    }
  }

  /** Two calls on registries that differ in stale flags only, visiting in any two orders, end alike. */
  lemma VisitingOrderIsIrrelevant(s: State, t: State, orders: seq<seq<string>>, others: seq<seq<string>>, runs: Runs,
                                  rank: map<string, nat>)
    requires HealthFits(s.providers) && HealthFits(t.providers) && SameBase(s.providers, t.providers, runs)
    requires Ranked(s.providers, runs, rank) && forall run | run in runs :: rank[run] <= 7
    requires Schedule(s, orders, runs) && Schedule(t, others, runs)
    ensures Passes(s, orders, runs).providers == Passes(t, others, runs).providers
  {
    var a, b := Passes(s, orders, runs).providers, Passes(t, others, runs).providers;
    BaseHasOwners(s.providers, t.providers, runs);
    RankedByOwners(s.providers, t.providers, runs, rank);
    ReconcileReachesFixedPoint(s, orders, runs, rank, 0);
    ReconcileReachesFixedPoint(t, others, runs, rank, 0);
    PassesKeepBase(s, orders, runs);
    PassesKeepBase(t, others, runs);
    BaseIsShared(s.providers, t.providers, a, b, runs);
    RankedStays(s, orders, runs, rank);
    FixedPointIsUnique(a, b, runs, rank);
  }

  // ----- Exit -----

  ghost predicate Down(ps: Providers, runtime: string) {
    forall k, i | k in ps && 0 <= i < |ps[k]| && ps[k][i].runtime == runtime :: !ps[k][i].healthy
  }

  lemma RemovalKeepsHealthy(s: State, runtime: string, k: Key)
    requires Down(s.providers, runtime)
    ensures HasHealthy(Entries(Removed(s, runtime).providers, k)) == HasHealthy(Entries(s.providers, k))
  {
    var list, kept := Entries(s.providers, k), Entries(Removed(s, runtime).providers, k);
    assert kept == Others(list, runtime);
    if HasHealthy(list) {
      var i :| 0 <= i < |list| && list[i].healthy;
      F.OtherEntries(list, runtime, list[i]);
      assert list[i] in kept;
    }
    if HasHealthy(kept) {
      var i :| 0 <= i < |kept| && kept[i].healthy;
      F.OtherEntries(list, runtime, kept[i]);
      assert kept[i] in list;
    }
  }

  /** Dropping a runtime that is down everywhere leaves the other runs at their fixed point. */
  lemma RemovalKeepsFixedPoint(s: State, runs: Runs, runtime: string)
    requires FixedPoint(s.providers, runs) && Down(s.providers, runtime) && runtime !in runs
    ensures FixedPoint(Removed(s, runtime).providers, runs)
  {
    var ps: Providers, after: Providers := s.providers, Removed(s, runtime).providers;
    forall k | k in after ensures k in ps && forall i | 0 <= i < |after[k]| :: after[k][i] in ps[k] {
      forall i | 0 <= i < |after[k]| ensures after[k][i] in ps[k] {
        F.OtherEntries(ps[k], runtime, after[k][i]);
      }
    }
    forall run | run in runs ensures Right(after, run, runs[run]) {
      forall i | 0 <= i < |runs[run].required|
        ensures HasHealthy(Entries(after, runs[run].required[i])) == HasHealthy(Entries(ps, runs[run].required[i]))
      {
        RemovalKeepsHealthy(s, runtime, runs[run].required[i]);
      }
      assert Ready(after, runs[run]) == Ready(ps, runs[run]);
    }
  }

  /** Reconciliation does not touch a runtime that is no longer tracked. */
  lemma DownStays(s: State, orders: seq<seq<string>>, runs: Runs, runtime: string)
    requires Down(s.providers, runtime) && runtime !in runs
    requires forall n | 0 <= n < |orders| :: Ranges(orders[n], runs)
    ensures Down(Passes(s, orders, runs).providers, runtime)
  {
    PassesKeepBase(s, orders, runs);
    var ps, after: Providers := s.providers, Passes(s, orders, runs).providers;
    forall k, i | k in after && 0 <= i < |after[k]| && after[k][i].runtime == runtime ensures !after[k][i].healthy {
      assert SameEntry(ps[k][i], after[k][i], runs);
    }
  }

  /** After an exit the registry is at the fixed point of the runs that remain, with no entry of the one that left. */
  lemma ExitSettles(s: State, orders: seq<seq<string>>, runs: Runs, runtime: string, rank: map<string, nat>)
    requires HealthFits(s.providers) && runtime !in runs && Ranked(s.providers, runs, rank)
    requires forall run | run in runs :: rank[run] <= 7
    requires Schedule(Observed(s, runtime, ProcessHealth(false)), orders, runs)
    ensures var after := Removed(Passes(Observed(s, runtime, ProcessHealth(false)), orders, runs), runtime).providers;
            FixedPoint(after, runs) && forall k, i | k in after && 0 <= i < |after[k]| :: after[k][i].runtime != runtime
  {
    var t := Observed(s, runtime, ProcessHealth(false));
    assert Down(t.providers, runtime);
    RankedByOwners(s.providers, t.providers, runs, rank);
    ReconcileReachesFixedPoint(t, orders, runs, rank, 0);
    DownStays(t, orders, runs, runtime);
    var last := Passes(t, orders, runs);
    RemovalKeepsFixedPoint(last, runs, runtime);
    var after: Providers := Removed(last, runtime).providers;
    forall k, i | k in after && 0 <= i < |after[k]| ensures after[k][i].runtime != runtime {
      F.OtherEntries(last.providers[k], runtime, after[k][i]);
    }
  }
}
