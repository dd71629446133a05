/**
 Where a request goes (kernel/internal/registry/registry.go:499-605), told without the planning functions: which entry
 it is routed to, when it promotes a writer, and exactly when it is refused, in every run of the host.
 */
module Routing {
  import opened Wrappers
  import opened Registry
  import O = ProviderOrder
  import F = FencedWrites
  import H = HostHistory

  // ----- Who comes first -----

  /** The strings agree up to `n`, where `a` ends or is smaller. */
  predicate SmallerAt(a: string, b: string, n: nat) {
    n <= |a| && n < |b| && a[..n] == b[..n] && (n == |a| || a[n] < b[n])
  }

  /** `a` is a proper first part of `b`, or smaller where they first differ. */
  ghost predicate Smaller(a: string, b: string) {
    exists n: nat :: SmallerAt(a, b, n)
  }

  /** `x` is preferred to `y`: by priority, or by plugin id under equal priority. */
  ghost predicate Preferred(x: Provider, y: Provider) {
    x.offer.priority > y.offer.priority || (x.offer.priority == y.offer.priority && Smaller(x.plugin, y.plugin))
  }

  lemma SmallerBeyondFirst(a: string, b: string, n: nat)
    requires a != [] && b != []
    ensures SmallerAt(a, b, n + 1) <==> a[0] == b[0] && SmallerAt(a[1..], b[1..], n)
  {
    if n + 1 <= |a| && n + 1 <= |b| {
      assert a[..n + 1] == [a[0]] + a[1..][..n] && b[..n + 1] == [b[0]] + b[1..][..n];
      assert a[..n + 1] == b[..n + 1] ==> a[..n + 1][1..] == b[..n + 1][1..] && a[..n + 1][0] == b[..n + 1][0];
      assert a[..n + 1][1..] == a[1..][..n] && b[..n + 1][1..] == b[1..][..n];
    }
  }

  lemma SmallerAtFirst(a: string, b: string)
    ensures SmallerAt(a, b, 0) <==> b != [] && (a == [] || a[0] < b[0])
  {
  }

  lemma {:induction false} LexLessMeans(a: string, b: string)
    ensures LexLess(a, b) <==> Smaller(a, b)
  {
    hide SmallerAt;
    SmallerAtFirst(a, b);
    if a != [] && b != [] {
      LexLessMeans(a[1..], b[1..]);
      if Smaller(a[1..], b[1..]) && a[0] == b[0] {
        var n: nat :| SmallerAt(a[1..], b[1..], n);
        SmallerBeyondFirst(a, b, n);
      }
      if n: nat :| SmallerAt(a, b, n) {
        if n > 0 {
          SmallerBeyondFirst(a, b, n - 1);
          assert a[0] == b[0] && SmallerAt(a[1..], b[1..], n - 1);
        }
      }
    } else {
      NothingBeyond(a, b);
    }
  }

  lemma NothingBeyond(a: string, b: string)
    requires a == [] || b == []
    ensures forall n: nat :: n > 0 ==> !SmallerAt(a, b, n)
  {
  }

  lemma BeforeMeans(x: Provider, y: Provider)
    ensures Before(x, y) <==> Preferred(x, y)
  {
    LexLessMeans(x.plugin, y.plugin);
  }

  // ----- What a request asks for -----

  /** A hint of the request counts, or else the host's binding; an empty one asks for nothing. */
  predicate Meets(hint: string, bound: string, actual: string) {
    if hint != "" then actual == hint else bound == "" || actual == bound
  }

  function BoundTo(s: State, k: Key): Binding {
    if k in s.bindings then s.bindings[k] else Binding("", "", "")
  }

  /** The provider hint allows the entry. */
  predicate HintAllows(s: State, q: Query, p: Provider) {
    Meets(q.provider, BoundTo(s, q.key).provider, p.plugin)
  }

  /** The entry is healthy and of the service and the authority asked for. */
  predicate Serves(s: State, q: Query, p: Provider) {
    && q.key in s.providers && p in s.providers[q.key] && p.healthy
    && Meets(q.service, BoundTo(s, q.key).service, p.offer.service)
    && Meets(q.authority, BoundTo(s, q.key).authority, p.offer.authority)
  }

  /** Not both halves of the authority are given, and the capability's entries have more than one. */
  ghost predicate Ambiguous(s: State, q: Query) {
    var b := BoundTo(s, q.key);
    && ((q.service == "" && b.service == "") || (q.authority == "" && b.authority == ""))
    && q.key in s.providers
    && exists x, y :: x in s.providers[q.key] && y in s.providers[q.key] &&
                      (x.offer.service != y.offer.service || x.offer.authority != y.offer.authority)
  }

  /** The one authority meant when nothing is ambiguous: `a` is that of exactly the entries asked for. */
  lemma TargetMeans(s: State, q: Query) returns (a: Authority)
    requires q.key in s.providers && s.providers[q.key] != []
    ensures var ps, b := Entries(s.providers, q.key), BindingOf(s, q.key);
            var target := Target(ps, Hint(q.service, b.service), Hint(q.authority, b.authority));
            && (target.None? <==> Ambiguous(s, q))
            && (target.Some? ==> target == Some(a))
            && (target.Some? ==> forall p | p in ps ::
                  Serves(s, q, p) <==> p.healthy && p.offer.service == a.service && p.offer.authority == a.authority)
  {
    var ps, b := Entries(s.providers, q.key), BindingOf(s, q.key);
    var service, authority := Hint(q.service, b.service), Hint(q.authority, b.authority);
    var target := Target(ps, service, authority);
    a := if target.Some? then target.value else Authority("", "");
    if service == "" || authority == "" {
      OnePair(ps);
      if target.None? {
        var x :| x in ps && AuthorityOf(x.offer) != AuthorityOf(ps[0].offer);
        assert ps[0] in ps;
      } else {
        assert forall p | p in ps :: AuthorityOf(p.offer) == AuthorityOf(ps[0].offer);
      }
    }
  }

  lemma OnePair(ps: seq<Provider>)
    requires ps != []
    ensures AuthoritiesOf(ps) == {AuthorityOf(ps[0].offer)} <==>
            forall p | p in ps :: AuthorityOf(p.offer) == AuthorityOf(ps[0].offer)
  {
    var all := AuthoritiesOf(ps);
    assert AuthorityOf(ps[0].offer) in all;
    forall p | p in ps ensures AuthorityOf(p.offer) in all {
      var i :| 0 <= i < |ps| && ps[i] == p;
      assert AuthorityOf(ps[i].offer) in all;
    }
    if forall p | p in ps :: AuthorityOf(p.offer) == AuthorityOf(ps[0].offer) {
      forall a | a in all ensures a == AuthorityOf(ps[0].offer) {
        var i :| 0 <= i < |ps| && a == AuthorityOf(ps[i].offer);
        assert ps[i] in ps;
      }
    }
  }

  /** The first that will do is one that will do, and none that will do is preferred to it. */
  lemma FirstMeans(ps: seq<Provider>, want: Provider -> bool)
    requires O.Ordered(ps)
    ensures First(ps, want).Some? <==> exists p :: p in ps && want(p)
    ensures First(ps, want).Some? ==> First(ps, want).value in ps && want(First(ps, want).value)
    ensures First(ps, want).Some? ==> forall p | p in ps && want(p) :: !Preferred(p, First(ps, want).value)
  {
    F.FirstIsOne(ps, want);
    forall p | p in ps && want(p) ensures First(ps, want).Some? && !Preferred(p, First(ps, want).value) {
      O.FirstIsBest(ps, want, p);
      BeforeMeans(p, First(ps, want).value);
    }
  }

  lemma HintMeans(s: State, q: Query, p: Provider)
    ensures var hint := Hint(q.provider, BindingOf(s, q.key).provider);
            && (Allowed(hint)(p) <==> HintAllows(s, q, p))
            && (Usable(hint)(p) <==> p.healthy && HintAllows(s, q, p))
            && (hint == "" || p.plugin == hint <==> HintAllows(s, q, p))
  {
  }

  // ----- Requests that any healthy replica may answer -----

  /** The entry may answer: of a stateless capability healthy and allowed, of a stateful one also of the authority asked for. */
  predicate MayAnswer(s: State, q: Query, stateful: bool, p: Provider) {
    && q.key in s.providers && p in s.providers[q.key] && p.healthy && HintAllows(s, q, p)
    && (stateful ==> Serves(s, q, p))
  }

  ghost predicate BestAnswer(s: State, q: Query, stateful: bool, t: Provider) {
    MayAnswer(s, q, stateful, t) && forall p | MayAnswer(s, q, stateful, p) :: !Preferred(p, t)
  }

  lemma StatelessPlan(s: State, q: Query)
    requires q.key in s.providers && s.providers[q.key] != [] && !s.providers[q.key][0].offer.stateful
    requires O.Ordered(s.providers[q.key])
    ensures var plan := PlanFor(s, q);
            && !plan.Promote?
            && (plan.Route? <==> exists p :: MayAnswer(s, q, false, p))
            && (plan.Route? ==> BestAnswer(s, q, false, plan.target))
  {
    var ps, hint := s.providers[q.key], Hint(q.provider, BindingOf(s, q.key).provider);
    FirstMeans(ps, Usable(hint));
    forall p ensures p in ps && Usable(hint)(p) <==> MayAnswer(s, q, false, p) {
      HintMeans(s, q, p);
    }
  }

  /** The candidates of an unambiguous request. */
  lemma CandidatesMean(s: State, q: Query, a: Authority)
    requires q.key in s.providers && O.Ordered(s.providers[q.key])
    requires forall p | p in s.providers[q.key] ::
               Serves(s, q, p) <==> p.healthy && p.offer.service == a.service && p.offer.authority == a.authority
    ensures O.Ordered(Candidates(s.providers[q.key], a))
    ensures forall p :: p in Candidates(s.providers[q.key], a) <==> Serves(s, q, p)
  {
    var ps := s.providers[q.key];
    O.CandidatesOrdered(ps, a);
    forall p ensures p in Candidates(ps, a) <==> Serves(s, q, p) {
      F.CandidateIsEntry(ps, a, p);
    }
  }

  lemma StatefulQueryPlan(s: State, q: Query)
    requires q.key in s.providers && s.providers[q.key] != [] && s.providers[q.key][0].offer.stateful
    requires O.Ordered(s.providers[q.key]) && !q.command
    ensures var plan := PlanFor(s, q);
            && !plan.Promote?
            && (plan.Route? <==> !Ambiguous(s, q) && exists p :: MayAnswer(s, q, true, p))
            && (plan.Route? ==> BestAnswer(s, q, true, plan.target))
  {
    hide Serves, Target;
    var ps, hint := s.providers[q.key], Hint(q.provider, BindingOf(s, q.key).provider);
    var a := TargetMeans(s, q);
    if !Ambiguous(s, q) {
      CandidatesMean(s, q, a);
      var candidates := Candidates(ps, a);
      FirstMeans(candidates, Allowed(hint));
      forall p ensures p in candidates && Allowed(hint)(p) <==> MayAnswer(s, q, true, p) {
        HintMeans(s, q, p);
        ServesIsHealthy(s, q, p);
      }
    }
  }

  lemma ServesIsHealthy(s: State, q: Query, p: Provider)
    ensures Serves(s, q, p) ==> q.key in s.providers && p in s.providers[q.key] && p.healthy
  {
  }

  // ----- Stateful commands -----

  /** The entry may answer and its runtime holds the authority's lease. */
  predicate Leads(s: State, q: Query, p: Provider) {
    var a := Authority(p.offer.service, p.offer.authority);
    Serves(s, q, p) && p.runtime != "" && a in s.writers && s.writers[a].runtime == p.runtime
  }

  /** What is said of the plan for a stateful command: the three outcomes exclude each other. */
  ghost predicate CommandExact(s: State, q: Query, plan: Plan) {
    var led := exists p :: Leads(s, q, p);
    && (plan.Route? <==> !Ambiguous(s, q) && exists p :: Leads(s, q, p) && HintAllows(s, q, p))
    && (plan.Promote? <==> !Ambiguous(s, q) && !led && exists p :: Serves(s, q, p) && HintAllows(s, q, p))
    && (plan == Refuse("not the active writer") <==>
          !Ambiguous(s, q) && led && forall p | Leads(s, q, p) :: !HintAllows(s, q, p))
  }

  ghost predicate CommandTarget(s: State, q: Query, plan: Plan) {
    match plan
    case Refuse(_) => true
    case Route(t) =>
      exists p :: Leads(s, q, p) && t == p.(writerEpoch := s.writers[Authority(p.offer.service, p.offer.authority)].epoch)
    case Promote(a, lease, t) =>
      && lease == Lease(t.runtime, (if a in s.writers then s.writers[a].epoch else 0) + 1)
      && exists p :: Chosen(s, q, p) && a == Authority(p.offer.service, p.offer.authority) && t == p.(writerEpoch := lease.epoch)
  }

  /** The best entry that may be promoted. */
  ghost predicate Chosen(s: State, q: Query, p: Provider) {
    Serves(s, q, p) && HintAllows(s, q, p) && forall x | Serves(s, q, x) && HintAllows(s, q, x) :: !Preferred(x, p)
  }

  lemma CommandPlanIs(s: State, q: Query, a: Authority)
    requires q.command && q.key in s.providers && s.providers[q.key] != [] && s.providers[q.key][0].offer.stateful
    requires var b := BindingOf(s, q.key);
             Target(s.providers[q.key], Hint(q.service, b.service), Hint(q.authority, b.authority)) == Some(a)
    ensures var candidates, hint := Candidates(s.providers[q.key], a), Hint(q.provider, BindingOf(s, q.key).provider);
            PlanFor(s, q) == if candidates == [] then Refuse("authority unavailable")
                             else CommandPlan(s.writers, a, candidates, hint)
  {
  }

  lemma LeadersMean(s: State, q: Query, a: Authority)
    requires q.key in s.providers && forall p | p in s.providers[q.key] :: p.runtime != ""
    requires forall p | Serves(s, q, p) :: AuthorityOf(p.offer) == a
    ensures forall p :: Leads(s, q, p) <==>
              Serves(s, q, p) && LeaseOf(s.writers, a).runtime != "" && Holding(LeaseOf(s.writers, a).runtime)(p)
  {
  }

  lemma CommandPlanExact(s: State, q: Query)
    requires q.command && q.key in s.providers && s.providers[q.key] != [] && s.providers[q.key][0].offer.stateful
    requires O.Ordered(s.providers[q.key]) && forall p | p in s.providers[q.key] :: p.runtime != ""
    requires forall x, y | x in s.providers[q.key] && y in s.providers[q.key] && x.runtime == y.runtime :: x.plugin == y.plugin
    ensures CommandExact(s, q, PlanFor(s, q)) && CommandTarget(s, q, PlanFor(s, q))
  {
    hide Target, Candidates, First, Preferred, PlanFor, CommandExact, CommandTarget;
    var ps, hint := s.providers[q.key], Hint(q.provider, BindingOf(s, q.key).provider);
    var a := TargetMeans(s, q);
    if Ambiguous(s, q) {
      AmbiguousRefused(s, q);
    } else {
      CandidatesMean(s, q, a);
      CommandPlanIs(s, q, a);
      forall p | Serves(s, q, p) ensures AuthorityOf(p.offer) == a {
        ServesIsHealthy(s, q, p);
      }
      LeadersMean(s, q, a);
      if Candidates(ps, a) == [] {
        NobodyServes(s, q, Candidates(ps, a));
      } else {
        LedPlan(s, q, a);
      }
    }
  }

  lemma AmbiguousRefused(s: State, q: Query)
    requires q.command && q.key in s.providers && s.providers[q.key] != [] && s.providers[q.key][0].offer.stateful
    requires Ambiguous(s, q)
    ensures CommandExact(s, q, PlanFor(s, q)) && CommandTarget(s, q, PlanFor(s, q))
  {
    hide Target;
    var a := TargetMeans(s, q);
  }

  lemma NobodyServes(s: State, q: Query, candidates: seq<Provider>)
    requires !Ambiguous(s, q) && candidates == [] && forall p :: p in candidates <==> Serves(s, q, p)
    ensures CommandExact(s, q, Refuse("authority unavailable")) && CommandTarget(s, q, Refuse("authority unavailable"))
  {
    hide Serves, Ambiguous;
  }

  /** With candidates at hand: the holder of the lease if it is one of them, and else the best that is allowed. */
  lemma LedPlan(s: State, q: Query, a: Authority)
    requires q.key in s.providers && !Ambiguous(s, q) && O.Ordered(Candidates(s.providers[q.key], a))
    requires forall x, y | x in s.providers[q.key] && y in s.providers[q.key] && x.runtime == y.runtime :: x.plugin == y.plugin
    requires forall p :: p in Candidates(s.providers[q.key], a) <==> Serves(s, q, p)
    requires forall p | Serves(s, q, p) :: AuthorityOf(p.offer) == a
    requires forall p :: Leads(s, q, p) <==>
               Serves(s, q, p) && LeaseOf(s.writers, a).runtime != "" && Holding(LeaseOf(s.writers, a).runtime)(p)
    ensures var plan := CommandPlan(s.writers, a, Candidates(s.providers[q.key], a),
                                    Hint(q.provider, BindingOf(s, q.key).provider));
            CommandExact(s, q, plan) && CommandTarget(s, q, plan)
  {
    hide Candidates, First, Preferred, Serves, Ambiguous, HintAllows, Leads;
    var candidates, hint := Candidates(s.providers[q.key], a), Hint(q.provider, BindingOf(s, q.key).provider);
    var lease := LeaseOf(s.writers, a);
    FirstMeans(candidates, Holding(lease.runtime));
    FirstMeans(candidates, Allowed(hint));
    forall p ensures Allowed(hint)(p) <==> HintAllows(s, q, p) {
      HintMeans(s, q, p);
    }
    if exists p :: Leads(s, q, p) {
      var w := First(candidates, Holding(lease.runtime)).value;
      HintMeans(s, q, w);
      forall p | Leads(s, q, p) ensures HintAllows(s, q, p) <==> HintAllows(s, q, w) {
        ServesIsHealthy(s, q, p);
        ServesIsHealthy(s, q, w);
        HintMeans(s, q, p);
      }
      assert Leads(s, q, w);
    } else {
      var chosen := First(candidates, Allowed(hint));
      if chosen.Some? {
        assert Chosen(s, q, chosen.value);
      }
    }
  }

  // ----- In every run of the host -----

  lemma {:induction false} InForceIsAdmitted(w: F.World, ss: seq<F.System>, es: seq<F.Event>, n: nat, runtime: string)
    requires F.Run(w, ss, es) && n <= |es| && H.InForce(es, n, runtime).Some?
    ensures F.Admitted(w, H.InForce(es, n, runtime).value) && runtime != ""
  {
    hide F.Do, F.Admitted, PlanFor, FenceName;
    assert F.Enabled(w, ss[n - 1], es[n - 1]);
    if !(es[n - 1].Register? && es[n - 1].runtime == runtime) {
      InForceIsAdmitted(w, ss, es, n - 1, runtime);
    }
  }

  /** What a capability's entries have in common in a run. */
  lemma EntriesOfRun(w: F.World, ss: seq<F.System>, es: seq<F.Event>, n: nat, k: Key)
    requires F.Run(w, ss, es) && n <= |es| && k in ss[n].host.providers
    ensures var ps := ss[n].host.providers[k];
            && O.Ordered(ps)
            && (forall p | p in ps :: p.runtime != "" && p.offer.stateful == w.stateful(k))
            && (forall x, y | x in ps && y in ps && x.runtime == y.runtime :: x.plugin == y.plugin)
  {
    hide H.InForce, O.Ordered;
    O.RunKeepsOrder(w, ss, es, n);
    forall p | p in ss[n].host.providers[k]
      ensures p.runtime != "" && p.offer.stateful == w.stateful(k)
      ensures H.InForce(es, n, p.runtime).Some? && p.plugin == H.InForce(es, n, p.runtime).value.plugin
    {
      assert Entry(ss[n].host.providers, k, p);
      H.TableIsInForce(w, ss, es, n, p.runtime, p.offer);
      InForceIsAdmitted(w, ss, es, n, p.runtime);
    }
  }

  /**
   A query, and any request for a stateless capability, goes to the best entry that may answer, and is refused exactly
   when there is none or, of a stateful capability, it is ambiguous which authority is meant.
   */
  lemma QueryGoesToBest(w: F.World, ss: seq<F.System>, es: seq<F.Event>, n: nat, q: Query)
    requires F.Run(w, ss, es) && n <= |es| && !(q.command && w.stateful(q.key))
    ensures var s, plan, stateful := ss[n].host, PlanFor(ss[n].host, q), w.stateful(q.key);
            && !plan.Promote?
            && (plan.Refuse? <==> (stateful && Ambiguous(s, q)) || !exists p :: MayAnswer(s, q, stateful, p))
            && (plan.Route? ==> BestAnswer(s, q, stateful, plan.target))
  {
    hide MayAnswer, Ambiguous, BestAnswer, O.Ordered;
    var s := ss[n].host;
    if q.key in s.providers && s.providers[q.key] != [] {
      EntriesOfRun(w, ss, es, n, q.key);
      assert s.providers[q.key][0] in s.providers[q.key];
      if w.stateful(q.key) {
        StatefulQueryPlan(s, q);
      } else {
        StatelessPlan(s, q);
      }
    } else {
      NobodyAnswers(s, q);
    }
  }

  lemma NobodyAnswers(s: State, q: Query)
    requires !(q.key in s.providers && s.providers[q.key] != [])
    ensures PlanFor(s, q) == Refuse("no provider") && !Ambiguous(s, q)
    ensures forall p :: !Serves(s, q, p)
    ensures forall p, stateful :: !MayAnswer(s, q, stateful, p)
  {
  }

  /**
   A command for a stateful capability is routed exactly to the entry of the lease's holder, if that is healthy and
   allowed; promotes the best allowed entry exactly when no holder is healthy; and is told that it names "not the active
   writer" exactly when the holder is healthy and not allowed.
   */
  lemma CommandGoesToWriter(w: F.World, ss: seq<F.System>, es: seq<F.Event>, n: nat, q: Query)
    requires F.Run(w, ss, es) && n <= |es| && q.command && w.stateful(q.key)
    ensures CommandExact(ss[n].host, q, PlanFor(ss[n].host, q)) && CommandTarget(ss[n].host, q, PlanFor(ss[n].host, q))
  {
    hide O.Ordered, PlanFor;
    var s := ss[n].host;
    if q.key in s.providers && s.providers[q.key] != [] {
      EntriesOfRun(w, ss, es, n, q.key);
      assert s.providers[q.key][0] in s.providers[q.key];
      CommandPlanExact(s, q);
    } else {
      NobodyAnswers(s, q);
    }
  }
}
