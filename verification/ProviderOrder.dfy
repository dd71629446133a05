/**
 The order of a capability's providers (kernel/internal/registry/registry.go:251-303): higher priority first, then
 plugin id, and among equals the order of registration. Routing and promotion take the first that will do, so the
 order decides who is chosen.
 */
module ProviderOrder {
  import opened Registry
  import F = FencedWrites

  /** Nobody stands behind one that comes before it. */
  ghost predicate Ordered(ps: seq<Provider>) {
    forall i, j | 0 <= i < j < |ps| :: !Before(ps[j], ps[i])
  }

  ghost predicate AllOrdered(ps: Providers) {
    forall k | k in ps :: Ordered(ps[k])
  }

  lemma {:induction false} LexLessOrder(a: string, b: string, c: string)
    ensures !LexLess(b, a) && !LexLess(c, b) ==> !LexLess(c, a)
    ensures LexLess(a, b) ==> !LexLess(b, a)
  {
    if a != [] && b != [] && c != [] {
      LexLessOrder(a[1..], b[1..], c[1..]);
    } else if a != [] && b != [] {
      LexLessOrder(a[1..], b[1..], c);
    }
  }

  lemma NotBeforeChains(a: Provider, b: Provider, c: Provider)
    requires !Before(b, a) && !Before(c, b)
    ensures !Before(c, a)
  {
    LexLessOrder(a.plugin, b.plugin, c.plugin);
  }

  lemma BeforeIsOneWay(a: Provider, b: Provider)
    requires Before(a, b)
    ensures !Before(b, a)
  {
    LexLessOrder(a.plugin, b.plugin, "");
  }

  /** A registration is a stable insertion: the others keep their order and the new entry stands behind its equals. */
  lemma {:induction false} InsertedInPlace(ps: seq<Provider>, p: Provider) returns (i: nat)
    requires Ordered(ps)
    ensures i <= |ps| && Inserted(ps, p) == ps[..i] + [p] + ps[i..]
    ensures forall j | 0 <= j < |ps| :: Before(p, ps[j]) <==> i <= j
    decreases |ps|
  {
    if ps != [] && Before(p, ps[|ps| - 1]) {
      var front, last := ps[..|ps| - 1], ps[|ps| - 1];
      i := InsertedInPlace(front, p);
      assert ps == front + [last];
      assert ps[i..] == front[i..] + [last];
    } else {
      i := |ps|;
      forall j | 0 <= j < |ps| ensures !Before(p, ps[j]) {
        if j < |ps| - 1 {
          NotBeforeChains(ps[j], ps[|ps| - 1], p);
        }
      }
    }
  }

  lemma InsertedOrdered(ps: seq<Provider>, p: Provider)
    requires Ordered(ps)
    ensures Ordered(Inserted(ps, p))
  {
    var i := InsertedInPlace(ps, p);
    var longer := Inserted(ps, p);
    forall m, n | 0 <= m < n < |longer| ensures !Before(longer[n], longer[m]) {
      if m == i {
        BeforeIsOneWay(p, ps[n - 1]);
      }
    }
  }

  lemma {:induction false} RegisteredOrdered(ps: Providers, m: Manifest, runtime: string, n: nat)
    requires n <= |m.exports| && AllOrdered(ps)
    ensures AllOrdered(WithEntries(ps, m, runtime, n))
  {
    if n > 0 {
      RegisteredOrdered(ps, m, runtime, n - 1);
      var before, c := WithEntries(ps, m, runtime, n - 1), m.exports[n - 1];
      InsertedOrdered(Entries(before, c.key), NewEntry(m, runtime, c));
    }
  }

  lemma {:induction false} OthersOrdered(ps: seq<Provider>, runtime: string)
    requires Ordered(ps)
    ensures Ordered(Others(ps, runtime))
    decreases |ps|
  {
    if ps != [] {
      var front, last := ps[..|ps| - 1], ps[|ps| - 1];
      OthersOrdered(front, runtime);
      var kept := Others(front, runtime);
      forall i | 0 <= i < |kept| ensures !Before(last, kept[i]) {
        F.OtherEntries(front, runtime, kept[i]);
      }
    }
  }

  lemma TouchedOrdered(e: HealthEvent, runtime: string, ps: seq<Provider>)
    requires Ordered(ps)
    ensures Ordered(TouchedList(e, runtime, ps))
  {
    var after := TouchedList(e, runtime, ps);
    forall i, j | 0 <= i < j < |after| ensures !Before(after[j], after[i]) {
      assert !Before(ps[j], ps[i]);
    }
  }

  lemma StepKeepsOrder(w: F.World, s: F.System, e: F.Event)
    requires AllOrdered(s.host.providers) && F.Enabled(w, s, e)
    ensures AllOrdered(F.Do(w, s, e).host.providers)
  {
    match e {
      case Register(m, runtime) => RegisteredOrdered(s.host.providers, m, runtime, |m.exports|);
      case Health(runtime, report) =>
        forall k | k in s.host.providers ensures Ordered(TouchedList(report, runtime, s.host.providers[k])) {
          TouchedOrdered(report, runtime, s.host.providers[k]);
        }
      case Exit(runtime) =>
        forall k | k in s.host.providers ensures Ordered(Others(s.host.providers[k], runtime)) {
          OthersOrdered(s.host.providers[k], runtime);
        }
      case _ =>
    }
  }

  /** In every run of the host the providers of every capability stand in order. */
  lemma {:induction false} RunKeepsOrder(w: F.World, ss: seq<F.System>, es: seq<F.Event>, i: nat)
    requires F.Run(w, ss, es) && i <= |es|
    ensures AllOrdered(ss[i].host.providers)
  {
    hide F.Do, F.Enabled;
    if i > 0 {
      RunKeepsOrder(w, ss, es, i - 1);
      StepKeepsOrder(w, ss[i - 1], es[i - 1]);
    }
  }

  // ----- Who is chosen -----

  lemma {:induction false} CandidatesOrdered(ps: seq<Provider>, a: Authority)
    requires Ordered(ps)
    ensures Ordered(Candidates(ps, a))
    decreases |ps|
  {
    if ps != [] {
      var front, last := ps[..|ps| - 1], ps[|ps| - 1];
      CandidatesOrdered(front, a);
      var found := Candidates(front, a);
      forall i | 0 <= i < |found| ensures !Before(last, found[i]) {
        F.CandidateIsEntry(front, a, found[i]);
      }
    }
  }

  lemma {:induction false} FirstIsBest(ps: seq<Provider>, want: Provider -> bool, x: Provider)
    requires Ordered(ps) && x in ps && want(x)
    ensures First(ps, want).Some? && !Before(x, First(ps, want).value)
  {
    if want(ps[0]) {
      var i :| 0 <= i < |ps| && ps[i] == x;
      if i == 0 {
        NotBeforeItself(x);
      }
    } else {
      assert x in ps[1..];
      FirstIsBest(ps[1..], want, x);
    }
  }

  lemma NotBeforeItself(x: Provider)
    ensures !Before(x, x)
  {
    if Before(x, x) {
      BeforeIsOneWay(x, x);
    }
  }

  /** A promotion takes the best of the healthy exporters of the authority that the request allows. */
  lemma PromotionTakesBest(w: F.World, ss: seq<F.System>, es: seq<F.Event>, i: nat, q: Query, x: Provider)
    requires F.Run(w, ss, es) && i <= |es| && PlanFor(ss[i].host, q).Promote?
    requires x in Entries(ss[i].host.providers, q.key) && x.healthy
    requires AuthorityOf(x.offer) == PlanFor(ss[i].host, q).subject
    requires Allowed(Hint(q.provider, BindingOf(ss[i].host, q.key).provider))(x)
    ensures !Before(x, PlanFor(ss[i].host, q).writer)
  {
    RunKeepsOrder(w, ss, es, i);
    var plan, ps := PlanFor(ss[i].host, q), Entries(ss[i].host.providers, q.key);
    var candidates := Candidates(ps, plan.subject);
    CandidatesOrdered(ps, plan.subject);
    F.CandidateIsEntry(ps, plan.subject, x);
    FirstIsBest(candidates, Allowed(Hint(q.provider, BindingOf(ss[i].host, q.key).provider)), x);
  }

  /** A stateless request goes to the best healthy provider it allows. */
  lemma StatelessRouteTakesBest(w: F.World, ss: seq<F.System>, es: seq<F.Event>, i: nat, q: Query, x: Provider)
    requires F.Run(w, ss, es) && i <= |es|
    requires x in Entries(ss[i].host.providers, q.key) && !Entries(ss[i].host.providers, q.key)[0].offer.stateful
    requires Usable(Hint(q.provider, BindingOf(ss[i].host, q.key).provider))(x)
    ensures PlanFor(ss[i].host, q).Route? && !Before(x, PlanFor(ss[i].host, q).target)
  {
    RunKeepsOrder(w, ss, es, i);
    FirstIsBest(Entries(ss[i].host.providers, q.key), Usable(Hint(q.provider, BindingOf(ss[i].host, q.key).provider)), x);
  }
}
