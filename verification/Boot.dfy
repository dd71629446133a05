/**
 The boot loop of the host (kernel/cmd/kernel/main.go:71-97): start every admitted plugin whose required
 capabilities have healthy providers, until a round starts none. It runs on the supervisor and the registry.
 */
module Boot {
  import F = FencedWrites
  import opened Registry
  import opened Supervisor

  ghost predicate Exports(m: Manifest, k: Key) {
    exists i :: 0 <= i < |m.exports| && m.exports[i].key == k
  }

  ghost predicate Supplied(k: Key, started: set<Manifest>) {
    exists m :: m in started && Exports(m, k)
  }

  ghost predicate Startable(m: Manifest, started: set<Manifest>) {
    forall i | 0 <= i < |m.required| :: Supplied(m.required[i], started)
  }

  /** `started` lacks no plugin that launches and whose requirements it supplies. */
  ghost predicate Closed(started: set<Manifest>, all: seq<Manifest>, launches: Manifest -> bool) {
    forall m | m in all && launches(m) && Startable(m, started) :: m in started
  }

  /** The least such set. */
  ghost predicate Least(started: set<Manifest>, all: seq<Manifest>, launches: Manifest -> bool) {
    Closed(started, all, launches) && forall t: set<Manifest> | Closed(t, all, launches) :: started <= t
  }

  /** What admission leaves behind: the storage of every authority the manifest writes, under its namespace. */
  ghost predicate StorageReserved(storage: map<Authority, string>, m: Manifest) {
    forall i | 0 <= i < |m.exports| && m.exports[i].stateful ::
      AuthorityOf(m.exports[i]) in storage && storage[AuthorityOf(m.exports[i])] == m.namespace
  }

  /** The state between starts: the started plugins run, everything is healthy, everything is supplied. */
  ghost predicate Thriving(ps: Providers, runs: Runs) {
    && (forall k, i | k in ps && 0 <= i < |ps[k]| :: ps[k][i].healthy && Sound(ps[k][i]))
    && (forall run | run in runs :: Ready(ps, runs[run]))
  }

  ghost predicate Serves(ps: Providers, started: set<Manifest>) {
    forall k :: HasHealthy(Entries(ps, k)) <==> Supplied(k, started)
  }

  /** Every started plugin runs, under the runtime id it was given, and nothing else does. */
  ghost predicate RunsAre(runs: Runs, started: set<Manifest>, id: Manifest -> string) {
    && (forall m | m in started :: id(m) in runs && runs[id(m)] == m)
    && (forall run | run in runs :: runs[run] in started && id(runs[run]) == run)
  }

  ghost predicate Distinct(ms: seq<Manifest>) {
    forall i, j | 0 <= i < j < |ms| :: ms[i] != ms[j]
  }

  lemma StartableGrows(m: Manifest, started: set<Manifest>, more: set<Manifest>)
    requires Startable(m, started) && started <= more
    ensures Startable(m, more)
  {
    forall i | 0 <= i < |m.required| ensures Supplied(m.required[i], more) {
      assert Supplied(m.required[i], started);
      var x :| x in started && Exports(x, m.required[i]);
      assert x in more;
    }
  }

  lemma ReadyIsStartable(ps: Providers, m: Manifest, started: set<Manifest>)
    requires Serves(ps, started)
    ensures Ready(ps, m) <==> Startable(m, started)
    ensures Missing(ps, m.required) == [] <==> Startable(m, started)
  {
    NothingMissing(ps, m.required);
    forall i | 0 <= i < |m.required| ensures HasHealthy(Entries(ps, m.required[i])) <==> Supplied(m.required[i], started) {
    }
  }

  // ----- Reconciling a thriving registry changes nothing -----

  lemma ThrivingVisit(s: State, runs: Runs, run: string)
    requires Thriving(s.providers, runs) && run in runs
    ensures Visited(s, run, runs[run]) == s
    ensures !AnyFlips(Verdict(s.providers, runs[run]), run, s.providers)
  {
    var ps, e := s.providers, Verdict(s.providers, runs[run]);
    VerdictIsReady(ps, runs[run]);
    assert e == DependencyHealth(true);
    QuietVisit(s, run, runs[run]);
    forall k | k in ps ensures !ListTrips(e, run, ps[k]) {
    }
  }

  lemma {:induction false} ThrivingPass(s: State, runs: Runs, order: seq<string>)
    requires Thriving(s.providers, runs) && Visitable(order, runs)
    ensures Pass(s, order, runs) == s && !PassMoves(s, order, runs)
    decreases |order|
  {
    if order == [] {
    } else {
      ThrivingPass(s, runs, order[..|order| - 1]);
      ThrivingVisit(s, runs, order[|order| - 1]);
    }
  }

  lemma ThrivingReconcile(s: State, runs: Runs, orders: seq<seq<string>>)
    requires Thriving(s.providers, runs) && Schedule(s, orders, runs)
    ensures Passes(s, orders, runs) == s
  {
    assert Ranges(orders[0], runs);
    ThrivingPass(s, runs, orders[0]);
    assert orders[..0] == [];
    assert Passes(s, orders[..0], runs) == s;
    assert |orders| == 1;
  }

  // ----- One start -----

  lemma {:induction false} AlreadyReserved(storage: map<Authority, string>, m: Manifest, n: nat)
    requires StorageReserved(storage, m) && n <= |m.exports|
    ensures Reserved(storage, m, n) == storage
  {
    if n == 0 {
    } else {
      AlreadyReserved(storage, m, n - 1);
    }
  }

  lemma RegisteredEntry(s: State, m: Manifest, runtime: string, k: Key, x: Provider)
    ensures Entry(Registered(s, m, runtime).providers, k, x) <==>
            Entry(s.providers, k, x) || F.IsNew(m, runtime, |m.exports|, k, x)
  {
    F.RegisteredEntries(s.providers, m, runtime, |m.exports|, k, x);
  }

  lemma RegisteredSupplies(s: State, m: Manifest, runtime: string, k: Key)
    requires forall k, i | k in s.providers && 0 <= i < |s.providers[k]| :: s.providers[k][i].healthy
    ensures HasHealthy(Entries(Registered(s, m, runtime).providers, k)) <==>
            HasHealthy(Entries(s.providers, k)) || Exports(m, k)
  {
    var list, longer := Entries(s.providers, k), Entries(Registered(s, m, runtime).providers, k);
    if HasHealthy(longer) {
      var i :| 0 <= i < |longer| && longer[i].healthy;
      RegisteredEntry(s, m, runtime, k, longer[i]);
      if Entry(s.providers, k, longer[i]) {
        assert longer[i] in list;
      }
    }
    if HasHealthy(list) {
      var i :| 0 <= i < |list| && list[i].healthy;
      RegisteredEntry(s, m, runtime, k, list[i]);
      assert list[i] in longer;
    }
    if Exports(m, k) {
      var i :| 0 <= i < |m.exports| && m.exports[i].key == k;
      RegisteredEntry(s, m, runtime, k, NewEntry(m, runtime, m.exports[i]));
      assert NewEntry(m, runtime, m.exports[i]) in longer;
    }
  }

  /** A plugin that had all it requires joins a thriving registry. */
  lemma RegisteredThrives(s: State, runs: Runs, m: Manifest, runtime: string)
    requires Thriving(s.providers, runs) && Ready(s.providers, m)
    ensures Thriving(Registered(s, m, runtime).providers, runs[runtime := m])
  {
    var ps, after: Providers := s.providers, Registered(s, m, runtime).providers;
    forall k, i | k in after && 0 <= i < |after[k]| ensures after[k][i].healthy && Sound(after[k][i]) {
      RegisteredEntry(s, m, runtime, k, after[k][i]);
      assert Entry(after, k, after[k][i]);
    }
    forall x | Ready(ps, x) ensures Ready(after, x) {
      forall i | 0 <= i < |x.required| ensures HasHealthy(Entries(after, x.required[i])) {
        RegisteredSupplies(s, m, runtime, x.required[i]);
      }
    }
  }

  lemma RegisteredServes(s: State, runs: Runs, started: set<Manifest>, m: Manifest, runtime: string)
    requires Thriving(s.providers, runs) && Serves(s.providers, started)
    ensures Serves(Registered(s, m, runtime).providers, started + {m})
  {
    forall k ensures HasHealthy(Entries(Registered(s, m, runtime).providers, k)) <==> Supplied(k, started + {m}) {
      RegisteredSupplies(s, m, runtime, k);
      if Supplied(k, started) {
        var x :| x in started && Exports(x, k);
        assert x in started + {m};
      }
      if Exports(m, k) {
        assert m in started + {m};
      }
    }
  }

  /** What a visit of the loop makes of a pending plugin. */
  datatype Outcome = Waits | Fails | Starts

  function Attempt(m: Manifest, ready: bool, launches: Manifest -> bool): Outcome {
    if !ready then Waits else if launches(m) then Starts else Fails
  }

  ghost predicate Going(ps: Providers, runs: Runs, started: set<Manifest>, id: Manifest -> string) {
    Thriving(ps, runs) && Serves(ps, started) && RunsAre(runs, started, id)
  }

  /** Reconciling changes nothing. */
  ghost predicate Still(s: State, runs: Runs) {
    forall orders | Schedule(s, orders, runs) :: Passes(s, orders, runs) == s
  }

  ghost predicate Alive(supervisor: Supervisor, started: set<Manifest>, id: Manifest -> string)
    reads supervisor, supervisor.registry
  {
    Going(supervisor.registry.providers, supervisor.runs, started, id)
  }

  lemma StartKeepsGoing(s: State, runs: Runs, started: set<Manifest>, id: Manifest -> string, m: Manifest)
    requires Going(s.providers, runs, started, id) && id(m) !in runs
    requires Ready(s.providers, m) && StorageReserved(s.storage, m)
    ensures var t := Registered(s, m, id(m));
            && StorageAgrees(s.storage, m) && t.storage == s.storage
            && Going(t.providers, runs[id(m) := m], started + {m}, id)
            && Still(t, runs[id(m) := m])
  {
    AlreadyReserved(s.storage, m, |m.exports|);
    RegisteredThrives(s, runs, m, id(m));
    RegisteredServes(s, runs, started, m, id(m));
    var t, more := Registered(s, m, id(m)), runs[id(m) := m];
    forall orders | Schedule(t, orders, more) ensures Passes(t, orders, more) == t {
      ThrivingReconcile(t, more, orders);
    }
  }

  method TryStart(supervisor: Supervisor, m: Manifest, launches: Manifest -> bool, id: Manifest -> string,
                  ghost started: set<Manifest>)
    returns (outcome: Outcome)
    requires Alive(supervisor, started, id) && id(m) !in supervisor.runs
    requires StorageReserved(supervisor.registry.storage, m)
    modifies supervisor`runs, supervisor.registry
    ensures outcome == Attempt(m, Startable(m, started), launches)
    ensures Alive(supervisor, if outcome.Starts? then started + {m} else started, id)
    ensures supervisor.registry.storage == old(supervisor.registry.storage)
  {
    var missing := supervisor.registry.MissingHealthyRequired(m);
    ReadyIsStartable(supervisor.registry.providers, m, started);
    if missing != [] {
      return Waits;
    }
    StartKeepsGoing(supervisor.registry.Value(), supervisor.runs, started, id, m);
    var ok, _ := supervisor.Start(m, id(m), launches(m));
    outcome := if ok then Starts else Fails;
  }

  // ----- The loop -----

  /** Where a plugin that is neither started nor pending went: its start failed when it had all it required. */
  ghost predicate Accounted(all: seq<Manifest>, started: set<Manifest>, pending: seq<Manifest>, launches: Manifest -> bool) {
    forall m | m in all :: m in started || m in pending || (!launches(m) && Startable(m, started))
  }

  ghost predicate Forced(all: seq<Manifest>, started: set<Manifest>, launches: Manifest -> bool) {
    && (forall m | m in started :: m in all && launches(m))
    && (forall t: set<Manifest> | Closed(t, all, launches) :: started <= t)
  }

  lemma StartIsForced(all: seq<Manifest>, started: set<Manifest>, launches: Manifest -> bool, m: Manifest)
    requires Forced(all, started, launches) && m in all && launches(m) && Startable(m, started)
    ensures Forced(all, started + {m}, launches)
  {
    forall t: set<Manifest> | Closed(t, all, launches) ensures started + {m} <= t {
      StartableGrows(m, started, t);
    }
  }

  lemma AccountingGrows(all: seq<Manifest>, started: set<Manifest>, more: set<Manifest>, pending: seq<Manifest>,
                        rest: seq<Manifest>, launches: Manifest -> bool)
    requires Accounted(all, started, pending, launches) && started <= more
    requires forall m | m in pending :: m in rest || m in more || (!launches(m) && Startable(m, more))
    ensures Accounted(all, more, rest, launches)
  {
    forall m | m in all ensures m in more || m in rest || (!launches(m) && Startable(m, more)) {
      if m !in started && m !in pending {
        StartableGrows(m, started, more);
      }
    }
  }

  /** A round that has come to `pending[i]`. */
  ghost predicate Midway(all: seq<Manifest>, pending: seq<Manifest>, i: nat, started: set<Manifest>, next: seq<Manifest>,
                         progress: bool, launches: Manifest -> bool)
    requires i <= |pending|
  {
    && Distinct(next)
    && (forall m | m in next :: m in pending[..i] && m !in started)
    && (forall j | i <= j < |pending| :: pending[j] !in started)
    && Forced(all, started, launches) && Accounted(all, started, next + pending[i..], launches)
    && |next| <= i && (progress ==> |next| < i)
    && (!progress ==> forall m | m in next :: !Startable(m, started))
  }

  lemma PluginWaits(all: seq<Manifest>, pending: seq<Manifest>, i: nat, started: set<Manifest>, next: seq<Manifest>,
                    progress: bool, launches: Manifest -> bool)
    requires i < |pending| && Distinct(pending) && Midway(all, pending, i, started, next, progress, launches)
    requires !Startable(pending[i], started)
    ensures Midway(all, pending, i + 1, started, next + [pending[i]], progress, launches)
  {
    assert pending[i] !in pending[..i];
    assert pending[..i + 1] == pending[..i] + [pending[i]];
    assert next + pending[i..] == next + [pending[i]] + pending[i + 1..];
  }

  lemma PluginFails(all: seq<Manifest>, pending: seq<Manifest>, i: nat, started: set<Manifest>, next: seq<Manifest>,
                    progress: bool, launches: Manifest -> bool)
    requires i < |pending| && Distinct(pending) && Midway(all, pending, i, started, next, progress, launches)
    requires Startable(pending[i], started) && !launches(pending[i])
    ensures Midway(all, pending, i + 1, started, next, progress, launches)
  {
    assert pending[..i + 1] == pending[..i] + [pending[i]];
    assert pending[i..] == [pending[i]] + pending[i + 1..];
    AccountingGrows(all, started, started, next + pending[i..], next + pending[i + 1..], launches);
  }

  lemma PluginStarts(all: seq<Manifest>, pending: seq<Manifest>, i: nat, started: set<Manifest>, next: seq<Manifest>,
                     progress: bool, launches: Manifest -> bool)
    requires i < |pending| && Distinct(pending) && Midway(all, pending, i, started, next, progress, launches)
    requires Startable(pending[i], started) && launches(pending[i]) && pending[i] in all
    ensures Midway(all, pending, i + 1, started + {pending[i]}, next, true, launches)
  {
    assert pending[i] !in pending[..i];
    assert pending[..i + 1] == pending[..i] + [pending[i]];
    assert pending[i..] == [pending[i]] + pending[i + 1..];
    AccountingGrows(all, started, started + {pending[i]}, next + pending[i..], next + pending[i + 1..], launches);
    StartIsForced(all, started, launches, pending[i]);
  }

  /** One round over the pending plugins. */
  method Round(supervisor: Supervisor, ghost all: seq<Manifest>, pending: seq<Manifest>, launches: Manifest -> bool,
               id: Manifest -> string, before: set<Manifest>)
    returns (started: set<Manifest>, next: seq<Manifest>, progress: bool)
    requires Alive(supervisor, before, id)
    requires forall a, b | a in all && b in all && id(a) == id(b) :: a == b
    requires forall m | m in all :: StorageReserved(supervisor.registry.storage, m)
    requires Distinct(pending) && forall m | m in pending :: m in all && m !in before
    requires Forced(all, before, launches) && Accounted(all, before, pending, launches)
    modifies supervisor`runs, supervisor.registry
    ensures Alive(supervisor, started, id)
    ensures supervisor.registry.storage == old(supervisor.registry.storage)
    ensures Midway(all, pending, |pending|, started, next, progress, launches)
  {
    started, next, progress := before, [], false;
    assert [] + pending[0..] == pending;
    for i := 0 to |pending|
      invariant Alive(supervisor, started, id)
      invariant supervisor.registry.storage == old(supervisor.registry.storage)
      invariant Midway(all, pending, i, started, next, progress, launches)
    {
      var m := pending[i];
      FreshId(all, started, launches, supervisor.runs, id, m);
      var outcome := TryStart(supervisor, m, launches, id, started);
      PluginVisited(all, pending, i, started, next, progress, launches);
      match outcome {
        case Waits => next := next + [m];
        case Fails =>
        case Starts => started, progress := started + {m}, true;
      }
    }
  }

  lemma PluginVisited(all: seq<Manifest>, pending: seq<Manifest>, i: nat, started: set<Manifest>, next: seq<Manifest>,
                      progress: bool, launches: Manifest -> bool)
    requires i < |pending| && Distinct(pending) && Midway(all, pending, i, started, next, progress, launches)
    requires pending[i] in all
    ensures match Attempt(pending[i], Startable(pending[i], started), launches)
            case Waits => Midway(all, pending, i + 1, started, next + [pending[i]], progress, launches)
            case Fails => Midway(all, pending, i + 1, started, next, progress, launches)
            case Starts => Midway(all, pending, i + 1, started + {pending[i]}, next, true, launches)
  {
    match Attempt(pending[i], Startable(pending[i], started), launches) {
      case Waits => PluginWaits(all, pending, i, started, next, progress, launches);
      case Fails => PluginFails(all, pending, i, started, next, progress, launches);
      case Starts => PluginStarts(all, pending, i, started, next, progress, launches);
    }
  }

  lemma FreshId(all: seq<Manifest>, started: set<Manifest>, launches: Manifest -> bool, runs: Runs,
                id: Manifest -> string, m: Manifest)
    requires Forced(all, started, launches) && RunsAre(runs, started, id) && m in all && m !in started
    requires forall a, b | a in all && b in all && id(a) == id(b) :: a == b
    ensures id(m) !in runs
    ensures RunsAre(runs[id(m) := m], started + {m}, id)
  {
  }

  /**
   Starts what can start. `blocked` holds the plugins still waiting at the end; one whose start fails is not tried
   again, and is in neither.
   */
  method Boot(supervisor: Supervisor, all: seq<Manifest>, launches: Manifest -> bool, id: Manifest -> string)
    returns (started: set<Manifest>, blocked: seq<Manifest>)
    requires supervisor.runs == map[] && supervisor.registry.providers == map[]
    requires Distinct(all) && forall a, b | a in all && b in all && id(a) == id(b) :: a == b
    requires forall m | m in all :: StorageReserved(supervisor.registry.storage, m)
    modifies supervisor`runs, supervisor.registry
    ensures Least(started, all, launches)
    ensures forall m :: m in started ==> m in all && launches(m)
    ensures forall m :: m in blocked <==> m in all && !Startable(m, started)
    ensures Alive(supervisor, started, id)
  {
    started, blocked := {}, [];
    var pending := all;
    while pending != []
      invariant Alive(supervisor, started, id)
      invariant supervisor.registry.storage == old(supervisor.registry.storage)
      invariant Distinct(pending) && forall m | m in pending :: m in all && m !in started
      invariant Forced(all, started, launches) && Accounted(all, started, pending, launches)
      invariant blocked == []
      decreases |pending|
    {
      var progress, next;
      started, next, progress := Round(supervisor, all, pending, launches, id, started);
      assert pending[..|pending|] == pending && next + pending[|pending|..] == next;
      if !progress {
        blocked := next;
        break;
      }
      pending := next;
    }
  }

  /** What boots does not depend on the order of the manifests. */
  lemma ManifestOrderIsIrrelevant(all: seq<Manifest>, shuffled: seq<Manifest>, launches: Manifest -> bool,
                                  started: set<Manifest>, other: set<Manifest>)
    requires forall m :: m in all <==> m in shuffled
    requires Least(started, all, launches) && Least(other, shuffled, launches)
    ensures started == other
  {
    assert Closed(started, shuffled, launches) && Closed(other, all, launches);
  }
}
