/**
 How deep is too deep for the supervisor's eight passes (kernel/internal/supervisor/supervisor.go:107-138): a chain of
 plugins, each requiring the one below, whose bottom process dies.
 */
module Depth {
  import F = FencedWrites
  import opened Registry
  import opened Supervisor

  /** The plugin at height `i` of a chain: it exports its own name and requires the one below. */
  function Link(i: nat): string {
    seq(i + 1, _ => 'a')
  }

  function HeightOf(name: string): nat {
    if name == "" then 0 else |name| - 1
  }

  function LinkManifest(i: nat): Manifest {
    Manifest(Link(i), "", [Capability(Key(Link(i), 1), false, "", "", 0)], if i == 0 then [] else [Key(Link(i - 1), 1)])
  }

  /** The entry at height `i` once the news of the dead plugin at the bottom has climbed to height `n`. */
  function LinkEntry(i: nat, n: nat): Provider {
    Provider(Link(i), Link(i), 0, 0, 0, i > 0, i == 0 || i > n, false, i > n, Capability(Key(Link(i), 1), false, "", "", 0))
  }

  /** All that the rest needs to know of the names. */
  lemma LinkHeights()
    ensures forall i: nat :: HeightOf(Link(i)) == i && Link(i) != ""
  {
  }

  function Links(top: nat): set<string> {
    set i | 0 <= i <= top :: Link(i)
  }

  function ChainRuns(top: nat): Runs {
    map name | name in Links(top) :: LinkManifest(HeightOf(name))
  }

  function LinkKeys(top: nat): set<Key> {
    set i | 0 <= i <= top :: Key(Link(i), 1)
  }

  /** Links at height `from` and above have heard it one height further up than the others. */
  function Chain(top: nat, n: nat, from: nat): State {
    State(map k | k in LinkKeys(top) :: [LinkEntry(HeightOf(k.name), if HeightOf(k.name) >= from then n + 1 else n)], map[], map[], map[])
  }

  function Risen(top: nat, n: nat): State {
    Chain(top, n, top + 1)
  }

  /** From the top of the chain down to height `from`. */
  function Downwards(top: nat, from: nat): seq<string>
    requires from <= top + 1
    decreases top + 1 - from
  {
    if from == top + 1 then [] else Downwards(top, from + 1) + [Link(from)]
  }

  lemma LinkVerdict(top: nat, n: nat, i: nat)
    requires i <= top
    ensures Verdict(Chain(top, n, i + 1).providers, LinkManifest(i)) == DependencyHealth(i == 0 || i - 1 > n)
  {
    hide Link, HeightOf;
    LinkHeights();
    var s, m := Chain(top, n, i + 1), LinkManifest(i);
    VerdictIsReady(s.providers, m);
    if i > 0 {
      var list := Entries(s.providers, m.required[0]);
      assert m.required[0] in LinkKeys(top);
      assert list == [LinkEntry(i - 1, n)];
      assert HasHealthy(list) <==> list[0].healthy;
    }
  }

  lemma VisitLink(top: nat, n: nat, i: nat)
    requires i <= top
    ensures Visited(Chain(top, n, i + 1), Link(i), LinkManifest(i)) == Chain(top, n, i)
  {
    hide Link, HeightOf;
    LinkHeights();
    hide Verdict;
    LinkVerdict(top, n, i);
    var s, run, e := Chain(top, n, i + 1), Link(i), DependencyHealth(i == 0 || i - 1 > n);
    forall k | k in s.providers ensures TouchedList(e, run, s.providers[k]) == Chain(top, n, i).providers[k] {
      assert k.name == Link(HeightOf(k.name));
      assert k.name == run <==> HeightOf(k.name) == i;
    }
  }

  lemma PassStep(s: State, front: seq<string>, run: string, runs: Runs)
    requires Visitable(front, runs) && run in runs
    ensures Visitable(front + [run], runs)
    ensures Pass(s, front + [run], runs) == Visited(Pass(s, front, runs), run, runs[run])
  {
    assert (front + [run])[..|front|] == front;
  }

  lemma {:induction false} DownwardsVisitable(top: nat, from: nat)
    requires from <= top + 1
    ensures Visitable(Downwards(top, from), ChainRuns(top))
    decreases top + 1 - from
  {
    hide Link, HeightOf;
    LinkHeights();
    if from == top + 1 {
    } else {
      DownwardsVisitable(top, from + 1);
      assert Link(from) in Links(top);
    }
  }

  lemma RunOfLink(top: nat, i: nat)
    requires i <= top
    ensures Link(i) in ChainRuns(top) && ChainRuns(top)[Link(i)] == LinkManifest(i)
  {
    hide Link, HeightOf, LinkManifest;
    LinkHeights();
    assert Link(i) in Links(top);
  }

  lemma {:induction false} PassDown(top: nat, n: nat, from: nat)
    requires from <= top + 1
    ensures Visitable(Downwards(top, from), ChainRuns(top))
    ensures Pass(Risen(top, n), Downwards(top, from), ChainRuns(top)) == Chain(top, n, from)
    decreases top + 1 - from
  {
    hide Link, Chain, ChainRuns, LinkManifest, Visited, Visitable;
    DownwardsVisitable(top, from);
    if from == top + 1 {
    } else {
      hide Risen, Pass;
      PassDown(top, n, from + 1);
      RunOfLink(top, from);
      PassStep(Risen(top, n), Downwards(top, from + 1), Link(from), ChainRuns(top));
      VisitLink(top, n, from);
    }
  }

  lemma PassMovesStep(s: State, front: seq<string>, run: string, runs: Runs)
    requires Visitable(front, runs) && run in runs
    ensures Visitable(front + [run], runs)
    ensures var before := Pass(s, front, runs).providers;
            PassMoves(s, front + [run], runs) <==>
            PassMoves(s, front, runs) || AnyFlips(Verdict(before, runs[run]), run, before)
  {
    assert (front + [run])[..|front|] == front;
  }

  lemma NewsFlips(top: nat, n: nat)
    requires n < top
    ensures var s, m := Chain(top, n, n + 2), LinkManifest(n + 1);
            AnyFlips(Verdict(s.providers, m), Link(n + 1), s.providers)
  {
    hide Link, HeightOf;
    LinkHeights();
    var s, m := Chain(top, n, n + 2), LinkManifest(n + 1);
    VerdictIsReady(s.providers, m);
    var k := Key(Link(n + 1), 1);
    assert m.required[0] in LinkKeys(top) && k in LinkKeys(top);
    assert Entries(s.providers, m.required[0]) == [LinkEntry(n, n)];
    assert s.providers[k] == [LinkEntry(n + 1, n)];
    assert Flips(Verdict(s.providers, m), s.providers[k][0]);
    assert ListFlips(Verdict(s.providers, m), Link(n + 1), s.providers[k]);
  }

  /** The pass that takes the news from height `n` to `n + 1` flips the link there. */
  lemma {:induction false} PassDownMoves(top: nat, n: nat, from: nat)
    requires from <= n + 1 <= top
    requires Visitable(Downwards(top, from), ChainRuns(top))
    ensures PassMoves(Risen(top, n), Downwards(top, from), ChainRuns(top))
    decreases n + 1 - from
  {
    hide Link, Chain, ChainRuns, LinkManifest, Visitable, Risen, Pass, PassMoves, AnyFlips, Verdict;
    PassDown(top, n, from + 1);
    RunOfLink(top, from);
    PassMovesStep(Risen(top, n), Downwards(top, from + 1), Link(from), ChainRuns(top));
    if from <= n {
      PassDownMoves(top, n, from + 1);
    } else {
      NewsFlips(top, n);
    }
  }

  lemma {:induction false} DownwardsRanges(top: nat)
    ensures Ranges(Downwards(top, 0), ChainRuns(top))
  {
    hide Link, HeightOf;
    LinkHeights();
    PassDown(top, 0, 0);
    forall run | run in ChainRuns(top) ensures run in Downwards(top, 0) {
      var i :| 0 <= i <= top && run == Link(i);
      ReachesDown(top, 0, i);
    }
  }

  lemma {:induction false} ReachesDown(top: nat, from: nat, i: nat)
    requires from <= i <= top
    ensures Link(i) in Downwards(top, from)
    decreases i - from
  {
    if from == i {
    } else {
      ReachesDown(top, from + 1, i);
    }
  }

  function Repeated(top: nat, n: nat): seq<seq<string>> {
    seq(n, _ => Downwards(top, 0))
  }

  lemma AllHeard(top: nat, n: nat)
    ensures Chain(top, n, 0) == Risen(top, n + 1)
  {
    assert forall k | k in LinkKeys(top) :: Chain(top, n, 0).providers[k] == Risen(top, n + 1).providers[k];
  }

  lemma NewsClimbs(top: nat, n: nat)
    ensures Visitable(Downwards(top, 0), ChainRuns(top))
    ensures Pass(Risen(top, n), Downwards(top, 0), ChainRuns(top)) == Risen(top, n + 1)
  {
    PassDown(top, n, 0);
    AllHeard(top, n);
  }

  lemma RepeatedRanges(top: nat, n: nat)
    ensures forall j | 0 <= j < n :: Ranges(Repeated(top, n)[j], ChainRuns(top))
  {
    DownwardsRanges(top);
  }

  lemma {:induction false} ChainPasses(top: nat, n: nat)
    ensures forall j | 0 <= j < n :: Ranges(Repeated(top, n)[j], ChainRuns(top))
    ensures Passes(Risen(top, 0), Repeated(top, n), ChainRuns(top)) == Risen(top, n)
  {
    RepeatedRanges(top, n);
    if n == 0 {
    } else {
      var orders := Repeated(top, n);
      ChainPasses(top, n - 1);
      assert orders[..|orders| - 1] == Repeated(top, n - 1) && orders[|orders| - 1] == Downwards(top, 0);
      NewsClimbs(top, n - 1);
    }
  }

  lemma ChainSchedule(top: nat)
    requires top > 8
    ensures Schedule(Risen(top, 0), Repeated(top, 8), ChainRuns(top))
  {
    var s, orders, runs := Risen(top, 0), Repeated(top, 8), ChainRuns(top);
    RepeatedRanges(top, 8);
    forall n | 0 <= n < 7 ensures PassMoves(Passes(s, orders[..n], runs), orders[n], runs) {
      assert orders[..n] == Repeated(top, n);
      ChainPasses(top, n);
      PassDownMoves(top, n, 0);
    }
  }

  lemma ChainFits(top: nat, n: nat)
    ensures HealthFits(Risen(top, n).providers)
  {
  }

  lemma ChainFixed(top: nat, n: nat)
    ensures FixedPoint(Risen(top, n).providers, ChainRuns(top)) <==> top <= n
  {
    hide Link, HeightOf, LinkManifest, Risen, HealthFits, Right, ChainRuns;
    ChainFits(top, n);
    var ps, runs := Risen(top, n).providers, ChainRuns(top);
    forall i | 0 <= i <= top ensures Right(ps, Link(i), LinkManifest(i)) <==> i != n + 1 {
      LinkRight(top, n, i);
    }
    if top <= n {
      forall run | run in runs ensures Right(ps, run, runs[run]) {
        var i := LinkOfRun(top, run);
        RunOfLink(top, i);
      }
    } else {
      RunOfLink(top, n + 1);
    }
  }

  lemma LinkOfRun(top: nat, run: string) returns (i: nat)
    requires run in ChainRuns(top)
    ensures i <= top && run == Link(i)
  {
    hide Link;
    i :| 0 <= i <= top && run == Link(i);
  }

  lemma LinkRight(top: nat, n: nat, i: nat)
    requires i <= top
    ensures Right(Risen(top, n).providers, Link(i), LinkManifest(i)) <==> i != n + 1
  {
    hide Link, HeightOf;
    LinkHeights();
    var ps, m := Risen(top, n).providers, LinkManifest(i);
    if i > 0 {
      assert Entries(ps, m.required[0]) == [LinkEntry(i - 1, n)];
      assert HasHealthy(Entries(ps, m.required[0])) <==> Entries(ps, m.required[0])[0].healthy;
    }
    assert Ready(ps, m) <==> (i == 0 || i - 1 > n);
    assert Key(Link(i), 1) in ps && ps[Key(Link(i), 1)][0] == LinkEntry(i, n);
    forall k, j | k in ps && 0 <= j < |ps[k]| && ps[k][j].runtime == Link(i) ensures ps[k][j] == LinkEntry(i, n) {
      assert HeightOf(k.name) == HeightOf(ps[k][j].runtime);
    }
  }

  function Heights(top: nat): map<string, nat> {
    map name | name in Links(top) :: HeightOf(name)
  }

  lemma ChainRanked(top: nat)
    ensures Ranked(Risen(top, 0).providers, ChainRuns(top), Heights(top))
  {
    hide Link, HeightOf;
    LinkHeights();
    var ps, runs := Risen(top, 0).providers, ChainRuns(top);
    forall r, i, j | r in runs && 0 <= i < |runs[r].required| && 0 <= j < |Entries(ps, runs[r].required[i])| &&
                     Entries(ps, runs[r].required[i])[j].runtime in runs
      ensures Below(Entries(ps, runs[r].required[i])[j].runtime, r, Heights(top))
    {
      assert r == Link(HeightOf(r)) && HeightOf(r) > 0;
      assert Entries(ps, runs[r].required[i])[j] == LinkEntry(HeightOf(r) - 1, 0);
    }
  }

  lemma BottomSettled(top: nat)
    ensures SettledBelow(Risen(top, 0).providers, ChainRuns(top), Heights(top), 1)
  {
    hide Link, HeightOf;
    LinkHeights();
    LinkRight(top, 0, 0);
    assert forall r | r in Heights(top) && Heights(top)[r] < 1 :: r == Link(0);
  }

  // ----- The chain comes about -----

  const STATELESS := F.World(_ => false, _ => false)

  /** The links below height `n` have registered and nothing else has happened. */
  function ChainUp(n: nat): State {
    State(map k | k in KeysBelow(n) :: [LinkUp(HeightOf(k.name))], map[], map[], map[])
  }

  function KeysBelow(n: nat): set<Key> {
    set i | 0 <= i < n :: Key(Link(i), 1)
  }

  function LinkUp(i: nat): Provider {
    NewEntry(LinkManifest(i), Link(i), LinkManifest(i).exports[0])
  }

  function HostOf(s: State, n: nat): F.System {
    F.System(s, F.Idle, map[], {}, [], set i | 0 <= i < n :: Link(i))
  }

  lemma SoleExport(s: State, m: Manifest, runtime: string)
    requires |m.exports| == 1 && !m.exports[0].stateful && m.exports[0].key !in s.providers
    ensures Registered(s, m, runtime) ==
            s.(providers := s.providers[m.exports[0].key := [NewEntry(m, runtime, m.exports[0])]])
  {
    var p := NewEntry(m, runtime, m.exports[0]);
    assert Inserted([], p) == [p];
    assert WithEntries(s.providers, m, runtime, 0) == s.providers;
    assert Reserved(s.storage, m, 0) == s.storage;
  }

  lemma LinkRegisters(n: nat)
    ensures StorageAgrees(map[], LinkManifest(n))
    ensures Registered(ChainUp(n), LinkManifest(n), Link(n)) == ChainUp(n + 1)
  {
    hide Link, HeightOf;
    LinkHeights();
    var s, k := ChainUp(n), Key(Link(n), 1);
    assert k !in KeysBelow(n);
    SoleExport(s, LinkManifest(n), Link(n));
    hide LinkManifest, LinkUp, Registered, StorageAgrees;
    assert KeysBelow(n + 1) == KeysBelow(n) + {k};
    assert s.providers[k := [LinkUp(n)]] == ChainUp(n + 1).providers;
  }

  lemma LinkMayRegister(n: nat)
    ensures var s, e := HostOf(ChainUp(n), n), F.Register(LinkManifest(n), Link(n));
            F.Enabled(STATELESS, s, e) && F.Do(STATELESS, s, e) == HostOf(ChainUp(n + 1), n + 1)
  {
    LinkRegisters(n);
    assert Link(n) !in (set i | 0 <= i < n :: Link(i)) && Link(n) != "" by {
      hide Link, HeightOf;
      LinkHeights();
    }
    hide Link, Registered, F.Admitted;
    assert (set i | 0 <= i < n :: Link(i)) + {Link(n)} == set i | 0 <= i < n + 1 :: Link(i);
    LinkIsAdmitted(n);
  }

  lemma LinkIsAdmitted(n: nat)
    ensures F.Admitted(STATELESS, LinkManifest(n))
  {
  }

  lemma NoLinks()
    ensures F.Reachable(STATELESS, HostOf(ChainUp(0), 0))
  {
    var s := HostOf(ChainUp(0), 0);
    assert s.used == {} && s.host.providers == map[];
    assert F.Run(STATELESS, [s], []);
  }

  lemma LinkJoins(n: nat)
    requires F.Reachable(STATELESS, HostOf(ChainUp(n), n))
    ensures F.Reachable(STATELESS, HostOf(ChainUp(n + 1), n + 1))
  {
    hide *;
    LinkMayRegister(n);
    F.ReachStep(STATELESS, HostOf(ChainUp(n), n), F.Register(LinkManifest(n), Link(n)));
  }

  lemma {:induction false} LinksRegister(n: nat)
    ensures F.Reachable(STATELESS, HostOf(ChainUp(n), n))
  {
    hide *;
    if n == 0 {
      NoLinks();
    } else {
      LinksRegister(n - 1);
      LinkJoins(n - 1);
    }
  }

  /** The links register one by one and the bottom one's process is reported dead: that is where the bound is tried. */
  lemma ChainIsReached(top: nat)
    ensures F.Reachable(STATELESS, HostOf(Risen(top, 0), top + 1))
  {
    LinksRegister(top + 1);
    var s, e := HostOf(ChainUp(top + 1), top + 1), F.Health(Link(0), ProcessHealth(false));
    F.ReachStep(STATELESS, s, e);
    BottomDies(top);
    assert F.Do(STATELESS, s, e) == HostOf(Risen(top, 0), top + 1);
  }

  lemma LinkHears(i: nat)
    ensures Touched(ProcessHealth(false), Link(0), LinkUp(i)) == LinkEntry(i, 0)
  {
    assert Link(i) == Link(0) <==> i == 0 by {
      LinkHeights();
    }
  }

  lemma BottomDies(top: nat)
    ensures Observed(ChainUp(top + 1), Link(0), ProcessHealth(false)) == Risen(top, 0)
  {
    hide Link, HeightOf, LinkUp, LinkEntry, Touched;
    LinkHeights();
    var s, e := ChainUp(top + 1), ProcessHealth(false);
    assert KeysBelow(top + 1) == LinkKeys(top);
    forall k | k in s.providers ensures TouchedList(e, Link(0), s.providers[k]) == Risen(top, 0).providers[k] {
      LinkHears(HeightOf(k.name));
    }
    assert TouchedAll(e, Link(0), s.providers) == Risen(top, 0).providers;
    assert Cleared(map[], Link(0)) == map[];
  }

  ghost predicate EndsFixed(s: State, orders: seq<seq<string>>, runs: Runs) {
    Schedule(s, orders, runs) ==> FixedPoint(Passes(s, orders, runs).providers, runs)
  }

  /**
   The bound is exact: when the plugin at the bottom of a chain dies, eight passes are sure to carry the news to the
   top if and only if the chain is at most eight links high. Above that the call can end short of a fixed point.
   `ChainIsReached` gets the host there.
   */
  lemma EightPassesReachDepthEight(top: nat)
    ensures (forall orders :: EndsFixed(Risen(top, 0), orders, ChainRuns(top))) <==> top <= 8
  {
    var s, runs := Risen(top, 0), ChainRuns(top);
    if top <= 8 {
      ChainFits(top, 0);
      ChainRanked(top);
      BottomSettled(top);
      forall orders ensures EndsFixed(s, orders, runs) {
        if Schedule(s, orders, runs) {
          ReconcileReachesFixedPoint(s, orders, runs, Heights(top), 1);
        }
      }
    } else {
      ChainSchedule(top);
      ChainPasses(top, 8);
      ChainFixed(top, 8);
      assert !EndsFixed(s, Repeated(top, 8), runs);
    }
  }
}
