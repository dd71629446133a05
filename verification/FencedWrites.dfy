/**
 Single-writer fencing over whole runs: one host that promotes writers, loses its memory and restarts, and any
 number of plugin runtimes that hold delayed requests and re-check the lease file before they write
 (kernel/internal/registry/registry.go, kernel/sdk/go/fencing/fencing.go).

 A promotion is two steps, lease file first and memory second, with writes and crashes possible in between.
 */
module FencedWrites {
  import opened Wrappers
  import opened Registry

  datatype Promotion = Idle | Persisted(subject: Authority, lease: Lease, writer: Provider)

  datatype System = System(host: State, promotion: Promotion, dir: FenceDir, inFlight: set<Stamp>,
                           writes: seq<Stamp>, used: set<string>)

  datatype Event =
    | Register(manifest: Manifest, runtime: string)
    | Health(subject: string, report: HealthEvent)
    | Exit(gone: string)
    | RouteRequest(request: Query)
    | PersistLease(command: Query)
    | FinishPromotion
    | Restart
    | Write(stamp: Stamp)

  /** The authorities and the stateful capabilities that admitted manifests may declare. */
  datatype World = World(authorities: Authority -> bool, stateful: Key -> bool)

  predicate Admitted(w: World, m: Manifest) {
    forall i | 0 <= i < |m.exports| ::
      var c := m.exports[i];
      && c.stateful == w.stateful(c.key)
      && (c.stateful ==> w.authorities(AuthorityOf(c)) && c.service != "" && c.authority != "")
  }

  /** The metadata the router stamps on a request it sends to `p`. */
  function Stamped(p: Provider, command: bool): set<Stamp> {
    if p.offer.stateful && command then {Stamp(AuthorityOf(p.offer), p.runtime, p.writerEpoch)} else {}
  }

  ghost predicate Enabled(w: World, s: System, e: Event) {
    match e
    case Register(m, runtime) =>
      s.promotion.Idle? && runtime != "" && runtime !in s.used && Admitted(w, m) && StorageAgrees(s.host.storage, m)
    case Health(_, _) => s.promotion.Idle?
    case Exit(_) => s.promotion.Idle?
    case RouteRequest(q) => s.promotion.Idle? && PlanFor(s.host, q).Route?
    case PersistLease(q) => s.promotion.Idle? && q.command && PlanFor(s.host, q).Promote?
    case FinishPromotion => s.promotion.Persisted?
    case Restart => NamedByContents(s.dir)
    case Write(stamp) => stamp in s.inFlight && FenceAdmits(s.dir, stamp)
  }

  ghost function Do(w: World, s: System, e: Event): System
    requires Enabled(w, s, e)
  {
    match e
    case Register(m, runtime) => s.(host := Registered(s.host, m, runtime), used := s.used + {runtime})
    case Health(runtime, report) => s.(host := Observed(s.host, runtime, report))
    case Exit(runtime) => s.(host := Removed(s.host, runtime))
    case RouteRequest(q) => s.(inFlight := s.inFlight + Stamped(PlanFor(s.host, q).target, q.command))
    case PersistLease(q) =>
      var plan := PlanFor(s.host, q);
      s.(promotion := Persisted(plan.subject, plan.lease, plan.writer),
         dir := s.dir[FenceName(plan.subject) := FileFor(plan.subject, plan.lease)])
    case FinishPromotion =>
      s.(promotion := Idle,
         host := s.host.(writers := s.host.writers[s.promotion.subject := s.promotion.lease]),
         inFlight := s.inFlight + Stamped(s.promotion.writer, true))
    case Restart => s.(promotion := Idle, host := State(map[], map[], Restored(s.dir), s.host.bindings))
    case Write(stamp) => s.(writes := s.writes + [stamp])
  }

  ghost predicate Initial(s: System) {
    s == System(State(map[], map[], map[], s.host.bindings), Idle, map[], {}, [], {})
  }

  ghost predicate Run(w: World, ss: seq<System>, es: seq<Event>) {
    && |ss| == |es| + 1
    && Initial(ss[0])
    && forall i | 0 <= i < |es| :: Enabled(w, ss[i], es[i]) && ss[i + 1] == Do(w, ss[i], es[i])
  }

  // ----- The invariant -----

  function DiskEpoch(dir: FenceDir, a: Authority): int {
    if FenceName(a) in dir then dir[FenceName(a)].epoch else 0
  }

  function MemoryEpoch(s: System, a: Authority): int {
    LeaseOf(s.host.writers, a).epoch
  }

  predicate Promoting(s: System, a: Authority) {
    s.promotion.Persisted? && s.promotion.subject == a
  }

  /** No two authorities of the world share a lease file. */
  ghost predicate NamesDistinct(w: World) {
    forall a, b | w.authorities(a) && w.authorities(b) && FenceName(a) == FenceName(b) :: a == b
  }

  ghost predicate NonEmptyNames(w: World) {
    forall a: Authority | w.authorities(a) :: a.service != "" && a.authority != ""
  }

  predicate SameFlags(p: Provider, q: Provider) {
    && p.processHealthy == q.processHealthy && p.dependenciesHealthy == q.dependenciesHealthy
    && p.circuitOpen == q.circuitOpen && p.failures == q.failures && p.missedHeartbeats == q.missedHeartbeats
  }

  predicate EntryOk(w: World, used: set<string>, k: Key, p: Provider) {
    && p.offer.key == k && p.runtime != "" && p.runtime in used
    && p.healthy == Sound(p) && p.writerEpoch == 0
    && p.offer.stateful == w.stateful(k)
    && (p.offer.stateful ==> w.authorities(AuthorityOf(p.offer)))
  }

  ghost predicate EntriesOk(w: World, used: set<string>, ps: Providers) {
    && (forall k, p :: Entry(ps, k, p) ==> EntryOk(w, used, k, p))
    && FlagsAgree(ps)
  }

  /** The entries of one runtime carry the same flags and counters. */
  ghost predicate FlagsAgree(ps: Providers) {
    forall k, p, j, q :: Entry(ps, k, p) && Entry(ps, j, q) && p.runtime == q.runtime ==> SameFlags(p, q)
  }

  /** `runtime` is registered, exports `a`, and is healthy in every one of its entries. */
  ghost predicate Holds(ps: Providers, runtime: string, a: Authority) {
    && (exists k, p :: Entry(ps, k, p) && p.runtime == runtime && AuthorityOf(p.offer) == a)
    && (forall k, p :: Entry(ps, k, p) && p.runtime == runtime ==> p.healthy)
  }

  ghost predicate HostOk(w: World, s: System) {
    && EntriesOk(w, s.used, s.host.providers)
    && (forall a | a in s.host.writers ::
          && w.authorities(a)
          && (s.host.writers[a].runtime != "" ==> Holds(s.host.providers, s.host.writers[a].runtime, a)))
  }

  ghost predicate DirOk(w: World, s: System) {
    && NamedByContents(s.dir)
    && forall n | n in s.dir :: w.authorities(SubjectOf(s.dir[n])) && s.dir[n].epoch > 0
  }

  /** Memory and lease files agree on every epoch, and on the holder where memory has one. */
  ghost predicate MemoryMatchesDisk(w: World, s: System) {
    forall a | w.authorities(a) ::
      && DiskEpoch(s.dir, a) == MemoryEpoch(s, a) + (if Promoting(s, a) then 1 else 0)
      && (a in s.host.writers && s.host.writers[a].runtime != "" && !Promoting(s, a) ==>
            FenceName(a) in s.dir && s.dir[FenceName(a)].runtime == s.host.writers[a].runtime)
  }

  ghost predicate PromotionOk(w: World, s: System) {
    s.promotion.Persisted? ==>
      var Persisted(a, lease, p) := s.promotion;
      && w.authorities(a) && AuthorityOf(p.offer) == a && p.offer.stateful
      && p.runtime == lease.runtime && p.writerEpoch == lease.epoch
      && Holds(s.host.providers, lease.runtime, a)
      && FenceName(a) in s.dir && s.dir[FenceName(a)] == FileFor(a, lease)
  }

  /** A stamp lags the lease file of its authority or equals what it says. */
  predicate Behind(dir: FenceDir, s: Stamp) {
    && s.epoch <= DiskEpoch(dir, s.subject)
    && (FenceName(s.subject) in dir && s.epoch == dir[FenceName(s.subject)].epoch ==>
          s.runtime == dir[FenceName(s.subject)].runtime)
  }

  ghost predicate StampsOk(w: World, s: System) {
    && (forall st | st in s.inFlight :: w.authorities(st.subject) && Behind(s.dir, st) && st.epoch > 0)
    && (forall i | 0 <= i < |s.writes| :: w.authorities(s.writes[i].subject) && Behind(s.dir, s.writes[i]))
  }

  /** Per authority: epochs never go back, and one epoch means one runtime. */
  predicate InOrder(writes: seq<Stamp>) {
    forall i, j | 0 <= i < j < |writes| && writes[i].subject == writes[j].subject ::
      && writes[i].epoch <= writes[j].epoch
      && (writes[i].epoch == writes[j].epoch ==> writes[i].runtime == writes[j].runtime)
  }

  ghost predicate Inv(w: World, s: System) {
    && HostOk(w, s) && DirOk(w, s) && MemoryMatchesDisk(w, s) && PromotionOk(w, s) && StampsOk(w, s) && InOrder(s.writes)
  }

  // ----- Entries under the host's operations -----

  lemma {:induction false} InsertedEntries(ps: seq<Provider>, p: Provider, x: Provider)
    ensures x in Inserted(ps, p) <==> x in ps || x == p
  {
    if ps != [] && Before(p, ps[|ps| - 1]) {
      InsertedEntries(ps[..|ps| - 1], p, x);
      assert ps == ps[..|ps| - 1] + [ps[|ps| - 1]];
    }
  }

  ghost predicate IsNew(m: Manifest, runtime: string, n: nat, k: Key, x: Provider)
    requires n <= |m.exports|
  {
    exists i :: 0 <= i < n && m.exports[i].key == k && x == NewEntry(m, runtime, m.exports[i])
  }

  lemma {:induction false} RegisteredEntries(ps: Providers, m: Manifest, runtime: string, n: nat, k: Key, x: Provider)
    requires n <= |m.exports|
    ensures Entry(WithEntries(ps, m, runtime, n), k, x) <==> Entry(ps, k, x) || IsNew(m, runtime, n, k, x)
  {
    if n > 0 {
      RegisteredEntries(ps, m, runtime, n - 1, k, x);
      var before := WithEntries(ps, m, runtime, n - 1);
      var c := m.exports[n - 1];
      InsertedEntries(Entries(before, c.key), NewEntry(m, runtime, c), x);
    }
  }

  lemma TouchedEntries(e: HealthEvent, runtime: string, ps: Providers, k: Key, x: Provider)
    ensures Entry(TouchedAll(e, runtime, ps), k, x) <==> exists p :: Entry(ps, k, p) && x == Touched(e, runtime, p)
  {
    if Entry(TouchedAll(e, runtime, ps), k, x) {
      var i :| 0 <= i < |ps[k]| && TouchedList(e, runtime, ps[k])[i] == x;
      assert Entry(ps, k, ps[k][i]);
    }
    if p :| Entry(ps, k, p) && x == Touched(e, runtime, p) {
      var i :| 0 <= i < |ps[k]| && ps[k][i] == p;
      assert TouchedList(e, runtime, ps[k])[i] == x;
    }
  }

  lemma {:induction false} OtherEntries(ps: seq<Provider>, runtime: string, x: Provider)
    ensures x in Others(ps, runtime) <==> x in ps && x.runtime != runtime
  {
    if ps != [] {
      OtherEntries(ps[..|ps| - 1], runtime, x);
      assert ps == ps[..|ps| - 1] + [ps[|ps| - 1]];
    }
  }

  lemma RemainingEntries(s: State, runtime: string, k: Key, x: Provider)
    ensures Entry(Removed(s, runtime).providers, k, x) <==> Entry(s.providers, k, x) && x.runtime != runtime
  {
    if k in s.providers {
      OtherEntries(s.providers[k], runtime, x);
    }
  }

  // ----- What a plan says -----

  lemma {:induction false} FirstIsOne(ps: seq<Provider>, want: Provider -> bool)
    ensures First(ps, want).Some? ==> First(ps, want).value in ps && want(First(ps, want).value)
  {
    if ps != [] && !want(ps[0]) {
      FirstIsOne(ps[1..], want);
    }
  }

  lemma {:induction false} CandidateIsEntry(ps: seq<Provider>, a: Authority, x: Provider)
    ensures x in Candidates(ps, a) <==> x in ps && x.healthy && AuthorityOf(x.offer) == a
  {
    if ps != [] {
      CandidateIsEntry(ps[..|ps| - 1], a, x);
      assert ps == ps[..|ps| - 1] + [ps[|ps| - 1]];
    }
  }

  /** A healthy entry's runtime holds the entry's authority: its other entries have the same flags. */
  lemma HealthyHolds(w: World, used: set<string>, ps: Providers, k: Key, p: Provider)
    requires EntriesOk(w, used, ps) && Entry(ps, k, p) && p.healthy
    ensures Holds(ps, p.runtime, AuthorityOf(p.offer))
  {
  }

  /** A stateful command goes to the runtime and with the epoch that memory and lease file both name. */
  lemma RoutedToHolder(w: World, s: System, q: Query)
    requires HostOk(w, s) && q.command && PlanFor(s.host, q).Route?
    ensures var p := PlanFor(s.host, q).target;
            p.offer.stateful ==>
              && AuthorityOf(p.offer) in s.host.writers && p.runtime != ""
              && s.host.writers[AuthorityOf(p.offer)] == Lease(p.runtime, p.writerEpoch)
  {
    var ps := Entries(s.host.providers, q.key);
    assert forall p | p in ps :: Entry(s.host.providers, q.key, p);
    var b := BindingOf(s.host, q.key);
    var hint := Hint(q.provider, b.provider);
    FirstIsOne(ps, Usable(hint));
    assert Entry(s.host.providers, q.key, ps[0]);
    if ps[0].offer.stateful {
      var a := Target(ps, Hint(q.service, b.service), Hint(q.authority, b.authority)).value;
      var candidates := Candidates(ps, a);
      var lease := LeaseOf(s.host.writers, a);
      FirstIsOne(candidates, Holding(lease.runtime));
      var p := First(candidates, Holding(lease.runtime)).value;
      CandidateIsEntry(ps, a, p);
    }
  }

  lemma PromotedIsCandidate(w: World, s: System, q: Query)
    requires HostOk(w, s) && PlanFor(s.host, q).Promote?
    ensures var Promote(a, lease, p) := PlanFor(s.host, q);
            && w.authorities(a) && AuthorityOf(p.offer) == a && p.offer.stateful
            && p.runtime == lease.runtime != "" && p.writerEpoch == lease.epoch == MemoryEpoch(s, a) + 1
            && Holds(s.host.providers, lease.runtime, a)
  {
    var ps := Entries(s.host.providers, q.key);
    assert forall p | p in ps :: Entry(s.host.providers, q.key, p);
    var b := BindingOf(s.host, q.key);
    var hint := Hint(q.provider, b.provider);
    var a := Target(ps, Hint(q.service, b.service), Hint(q.authority, b.authority)).value;
    var candidates := Candidates(ps, a);
    FirstIsOne(candidates, Allowed(hint));
    var p := First(candidates, Allowed(hint)).value;
    CandidateIsEntry(ps, a, p);
    assert Entry(s.host.providers, q.key, p) && Entry(s.host.providers, q.key, ps[0]);
    HealthyHolds(w, s.used, s.host.providers, q.key, p);
  }

  // ----- Every step keeps the invariant -----

  lemma RegisterKeepsHost(w: World, s: System, m: Manifest, runtime: string)
    requires HostOk(w, s) && Enabled(w, s, Register(m, runtime))
    ensures HostOk(w, Do(w, s, Register(m, runtime)))
  {
    var ps, after := s.host.providers, WithEntries(s.host.providers, m, runtime, |m.exports|);
    forall k, x ensures Entry(after, k, x) <==> Entry(ps, k, x) || IsNew(m, runtime, |m.exports|, k, x) {
      RegisteredEntries(ps, m, runtime, |m.exports|, k, x);
    }
    forall a | a in s.host.writers && s.host.writers[a].runtime != ""
      ensures Holds(after, s.host.writers[a].runtime, a)
    {
      var k, p :| Entry(ps, k, p) && p.runtime == s.host.writers[a].runtime && AuthorityOf(p.offer) == a;
      assert Entry(after, k, p);
    }
  }

  lemma ReactionsAgree(e: HealthEvent, runtime: string, p: Provider, q: Provider)
    requires SameFlags(p, q) && p.runtime == q.runtime
    ensures SameFlags(Touched(e, runtime, p), Touched(e, runtime, q))
  {
  }

  lemma TouchedKeepsRuntime(e: HealthEvent, runtime: string, p: Provider)
    ensures Touched(e, runtime, p).runtime == p.runtime
  {
  }

  lemma TouchedPairAgrees(e: HealthEvent, runtime: string, ps: Providers, k: Key, x: Provider, j: Key, y: Provider)
    requires FlagsAgree(ps) && x.runtime == y.runtime
    requires Entry(TouchedAll(e, runtime, ps), k, x) && Entry(TouchedAll(e, runtime, ps), j, y)
    ensures SameFlags(x, y)
  {
    hide TouchedAll, Entry, Touched, SameFlags;
    TouchedEntries(e, runtime, ps, k, x);
    TouchedEntries(e, runtime, ps, j, y);
    var p :| Entry(ps, k, p) && x == Touched(e, runtime, p);
    var q :| Entry(ps, j, q) && y == Touched(e, runtime, q);
    TouchedKeepsRuntime(e, runtime, p);
    TouchedKeepsRuntime(e, runtime, q);
    ReactionsAgree(e, runtime, p, q);
  }

  lemma HealthKeepsEntries(w: World, used: set<string>, ps: Providers, runtime: string, e: HealthEvent)
    requires EntriesOk(w, used, ps)
    ensures EntriesOk(w, used, TouchedAll(e, runtime, ps))
  {
    var after := TouchedAll(e, runtime, ps);
    assert FlagsAgree(after) by {
      forall k, x, j, y | Entry(after, k, x) && Entry(after, j, y) && x.runtime == y.runtime
        ensures SameFlags(x, y)
      {
        TouchedPairAgrees(e, runtime, ps, k, x, j, y);
      }
    }
    forall k, x | Entry(after, k, x)
      ensures EntryOk(w, used, k, x)
    {
      TouchedEntries(e, runtime, ps, k, x);
      var p :| Entry(ps, k, p) && x == Touched(e, runtime, p);
      assert EntryOk(w, used, k, p);
    }
  }

  lemma HealthKeepsHost(w: World, s: System, runtime: string, e: HealthEvent)
    requires HostOk(w, s)
    ensures HostOk(w, s.(host := Observed(s.host, runtime, e)))
  {
    HealthKeepsEntries(w, s.used, s.host.providers, runtime, e);
    var writers := Observed(s.host, runtime, e).writers;
    forall a | a in writers && writers[a].runtime != ""
      ensures Holds(TouchedAll(e, runtime, s.host.providers), writers[a].runtime, a)
    {
      HealthKeepsHolder(s.host, runtime, e, writers[a].runtime, a);
    }
  }

  lemma HealthKeepsHolder(s: State, runtime: string, e: HealthEvent, holder: string, a: Authority)
    requires Holds(s.providers, holder, a)
    requires forall k, p :: Entry(s.providers, k, p) ==> p.healthy == Sound(p)
    requires holder == runtime ==> !AnyTrips(e, runtime, s.providers)
    ensures Holds(TouchedAll(e, runtime, s.providers), holder, a)
  {
    var ps, after := s.providers, TouchedAll(e, runtime, s.providers);
    var k, p :| Entry(ps, k, p) && p.runtime == holder && AuthorityOf(p.offer) == a;
    TouchedEntries(e, runtime, ps, k, Touched(e, runtime, p));
    assert Entry(after, k, Touched(e, runtime, p));
    if holder == runtime {
      UntrippedStaysHealthy(s, runtime, e);
    } else {
      forall j, x | Entry(after, j, x) && x.runtime == holder ensures x.healthy {
        TouchedEntries(e, runtime, ps, j, x);
      }
    }
  }

  lemma UntrippedStaysHealthy(s: State, runtime: string, e: HealthEvent)
    requires !AnyTrips(e, runtime, s.providers)
    requires forall k, p :: Entry(s.providers, k, p) && p.runtime == runtime ==> p.healthy && Sound(p)
    ensures forall k, x :: Entry(TouchedAll(e, runtime, s.providers), k, x) && x.runtime == runtime ==> x.healthy
  {
    forall k, x | Entry(TouchedAll(e, runtime, s.providers), k, x) && x.runtime == runtime
      ensures x.healthy
    {
      TouchedEntries(e, runtime, s.providers, k, x);
      var p :| Entry(s.providers, k, p) && x == Touched(e, runtime, p);
      var i :| 0 <= i < |s.providers[k]| && s.providers[k][i] == p;
      assert !ListTrips(e, runtime, s.providers[k]);
      assert !Trips(e, p);
    }
  }

  lemma ExitKeepsHost(w: World, s: System, runtime: string)
    requires HostOk(w, s)
    ensures HostOk(w, s.(host := Removed(s.host, runtime)))
  {
    var after := Removed(s.host, runtime);
    forall k, x ensures Entry(after.providers, k, x) <==> Entry(s.host.providers, k, x) && x.runtime != runtime {
      RemainingEntries(s.host, runtime, k, x);
    }
    forall a | a in after.writers && after.writers[a].runtime != ""
      ensures Holds(after.providers, after.writers[a].runtime, a)
    {
      var k, p :| Entry(s.host.providers, k, p) && p.runtime == s.host.writers[a].runtime && AuthorityOf(p.offer) == a;
      assert Entry(after.providers, k, p);
    }
  }

  lemma HostEventKeepsEpochs(w: World, s: System, host: State, runtime: string)
    requires MemoryMatchesDisk(w, s) && s.promotion.Idle?
    requires host.writers == s.host.writers || host.writers == Cleared(s.host.writers, runtime)
    ensures MemoryMatchesDisk(w, s.(host := host))
  {
    var t := s.(host := host);
    forall a | w.authorities(a)
      ensures MemoryEpoch(t, a) == MemoryEpoch(s, a) && Promoting(t, a) == Promoting(s, a)
    {
    }
  }

  /** The promotion's lease file replaces the one of its own authority, one epoch up, and no other. */
  lemma PersistedFile(w: World, s: System, q: Query, b: Authority)
    requires NamesDistinct(w) && Inv(w, s) && Enabled(w, s, PersistLease(q)) && w.authorities(b)
    ensures var a, t := PlanFor(s.host, q).subject, Do(w, s, PersistLease(q));
            && (b == a ==> DiskEpoch(t.dir, a) == DiskEpoch(s.dir, a) + 1 == PlanFor(s.host, q).lease.epoch)
            && (b != a ==> (FenceName(b) in t.dir <==> FenceName(b) in s.dir))
            && (b != a && FenceName(b) in s.dir ==> t.dir[FenceName(b)] == s.dir[FenceName(b)])
  {
    hide PlanFor, FenceName, EntriesOk, Holds, InOrder, DirOk, StampsOk;
    PromotedIsCandidate(w, s, q);
    var a := PlanFor(s.host, q).subject;
    assert b != a ==> FenceName(b) != FenceName(a);
  }

  lemma PersistKeepsBehind(w: World, s: System, q: Query, st: Stamp)
    requires NamesDistinct(w) && Inv(w, s) && Enabled(w, s, PersistLease(q)) && w.authorities(st.subject)
    requires Behind(s.dir, st)
    ensures Behind(Do(w, s, PersistLease(q)).dir, st)
  {
    hide PlanFor, FenceName, NamesDistinct, Inv;
    PersistedFile(w, s, q, st.subject);
  }

  lemma PersistMatchesDisk(w: World, s: System, q: Query)
    requires NamesDistinct(w) && Inv(w, s) && Enabled(w, s, PersistLease(q))
    ensures MemoryMatchesDisk(w, Do(w, s, PersistLease(q)))
  {
    hide PlanFor, FenceName, NamesDistinct, HostOk, DirOk, PromotionOk, StampsOk, InOrder;
    forall b | w.authorities(b) {
      PersistedFile(w, s, q, b);
    }
  }

  lemma PersistKeepsDir(w: World, s: System, q: Query)
    requires NamesDistinct(w) && NonEmptyNames(w) && Inv(w, s) && Enabled(w, s, PersistLease(q))
    ensures DirOk(w, Do(w, s, PersistLease(q))) && PromotionOk(w, Do(w, s, PersistLease(q)))
    ensures HostOk(w, Do(w, s, PersistLease(q)))
  {
    hide PlanFor, FenceName, NamesDistinct, EntriesOk, Holds, StampsOk, InOrder;
    PromotedIsCandidate(w, s, q);
    EpochsArePositive(w, s, PlanFor(s.host, q).subject);
  }

  lemma EpochsArePositive(w: World, s: System, a: Authority)
    requires Inv(w, s) && w.authorities(a) && s.promotion.Idle?
    ensures MemoryEpoch(s, a) >= 0
  {
    hide FenceName, HostOk, PromotionOk, StampsOk, InOrder;
    assert MemoryEpoch(s, a) == DiskEpoch(s.dir, a);
  }

  lemma PersistKeepsInv(w: World, s: System, q: Query)
    requires NamesDistinct(w) && NonEmptyNames(w) && Inv(w, s) && Enabled(w, s, PersistLease(q))
    ensures Inv(w, Do(w, s, PersistLease(q)))
  {
    hide PlanFor, FenceName, NamesDistinct, HostOk, DirOk, PromotionOk, MemoryMatchesDisk, Behind, InOrder;
    PersistKeepsDir(w, s, q);
    PersistMatchesDisk(w, s, q);
    forall st: Stamp | w.authorities(st.subject) && Behind(s.dir, st) ensures Behind(Do(w, s, PersistLease(q)).dir, st) {
      PersistKeepsBehind(w, s, q, st);
    }
  }

  lemma FinishKeepsInv(w: World, s: System)
    requires NamesDistinct(w) && NonEmptyNames(w) && Inv(w, s) && s.promotion.Persisted?
    ensures Inv(w, Do(w, s, FinishPromotion))
  {
    var t := Do(w, s, FinishPromotion);
    var a := s.promotion.subject;
    forall b | w.authorities(b) && b != a ensures MemoryEpoch(t, b) == MemoryEpoch(s, b) {
    }
    assert MemoryMatchesDisk(w, t);
    assert StampsOk(w, t);
  }

  lemma RestartKeepsInv(w: World, s: System)
    requires NamesDistinct(w) && NonEmptyNames(w) && Inv(w, s)
    ensures Inv(w, Do(w, s, Restart))
  {
    var t := Do(w, s, Restart);
    forall a | w.authorities(a) ensures MemoryEpoch(t, a) == DiskEpoch(s.dir, a) {
      if FenceName(a) in s.dir {
        var f := s.dir[FenceName(a)];
        assert FenceName(SubjectOf(f)) == FenceName(a);
        assert SubjectOf(f) == a;
        assert a in Subjects(s.dir);
      }
    }
    forall a | a in t.host.writers ensures w.authorities(a) {
    }
  }

  lemma WriteKeepsInv(w: World, s: System, stamp: Stamp)
    requires Inv(w, s) && Enabled(w, s, Write(stamp))
    ensures Inv(w, Do(w, s, Write(stamp)))
  {
    hide EntriesOk, Holds, NamedByContents, FenceName;
    assert InOrder(s.writes + [stamp]);
  }

  lemma RouteKeepsInv(w: World, s: System, q: Query)
    requires Inv(w, s) && Enabled(w, s, RouteRequest(q))
    ensures Inv(w, Do(w, s, RouteRequest(q)))
  {
    hide PlanFor, EntriesOk, Holds, InOrder, NamedByContents;
    if q.command {
      RoutedToHolder(w, s, q);
    }
  }

  lemma HostEventKeepsInv(w: World, s: System, e: Event)
    requires Inv(w, s) && Enabled(w, s, e) && (e.Register? || e.Health? || e.Exit?)
    ensures Inv(w, Do(w, s, e))
  {
    hide InOrder, Behind, EntriesOk, NamedByContents, FenceName, DiskEpoch;
    match e
    case Register(m, runtime) =>
      RegisterKeepsHost(w, s, m, runtime);
      HostEventKeepsEpochs(w, s, Registered(s.host, m, runtime), runtime);
    case Health(runtime, report) =>
      HealthKeepsHost(w, s, runtime, report);
      HostEventKeepsEpochs(w, s, Observed(s.host, runtime, report), runtime);
    case Exit(runtime) =>
      ExitKeepsHost(w, s, runtime);
      HostEventKeepsEpochs(w, s, Removed(s.host, runtime), runtime);
  }

  lemma StepKeepsInv(w: World, s: System, e: Event)
    requires NamesDistinct(w) && NonEmptyNames(w) && Inv(w, s) && Enabled(w, s, e)
    ensures Inv(w, Do(w, s, e))
  {
    hide Inv, Do;
    match e
    case RouteRequest(q) => RouteKeepsInv(w, s, q);
    case PersistLease(q) => PersistKeepsInv(w, s, q);
    case FinishPromotion => FinishKeepsInv(w, s);
    case Restart => RestartKeepsInv(w, s);
    case Write(stamp) => WriteKeepsInv(w, s, stamp);
    case _ => HostEventKeepsInv(w, s, e);
  }

  // ----- Whole runs -----

  lemma InitialInv(w: World, s: System)
    requires Initial(s)
    ensures Inv(w, s)
  {
  }

  lemma {:induction false} RunKeepsInv(w: World, ss: seq<System>, es: seq<Event>, i: nat)
    requires NamesDistinct(w) && NonEmptyNames(w) && Run(w, ss, es) && i <= |es|
    ensures Inv(w, ss[i])
  {
    if i == 0 {
      InitialInv(w, ss[0]);
    } else {
      RunKeepsInv(w, ss, es, i - 1);
      StepKeepsInv(w, ss[i - 1], es[i - 1]);
    }
  }

  /** In every run the writes of an authority have non-decreasing epochs, and equal epochs mean one runtime. */
  lemma WritesInOrder(w: World, ss: seq<System>, es: seq<Event>)
    requires NamesDistinct(w) && NonEmptyNames(w) && Run(w, ss, es)
    ensures InOrder(ss[|es|].writes)
  {
    RunKeepsInv(w, ss, es, |es|);
  }

  lemma DiskEpochRises(w: World, s: System, e: Event, a: Authority)
    requires NamesDistinct(w) && NonEmptyNames(w) && Inv(w, s) && Enabled(w, s, e) && w.authorities(a)
    ensures DiskEpoch(s.dir, a) <= DiskEpoch(Do(w, s, e).dir, a)
  {
    if e.PersistLease? {
      PromotedIsCandidate(w, s, e.command);
    }
  }

  lemma {:induction false} DiskEpochNeverFalls(w: World, ss: seq<System>, es: seq<Event>, i: nat, j: nat, a: Authority)
    requires NamesDistinct(w) && NonEmptyNames(w) && Run(w, ss, es) && i <= j <= |es| && w.authorities(a)
    ensures DiskEpoch(ss[i].dir, a) <= DiskEpoch(ss[j].dir, a)
    decreases j
  {
    if i < j {
      DiskEpochNeverFalls(w, ss, es, i, j - 1, a);
      RunKeepsInv(w, ss, es, j - 1);
      DiskEpochRises(w, ss[j - 1], es[j - 1], a);
    }
  }

  /** Once an epoch is in the lease file, no request stamped below it is ever written, however long it was delayed. */
  lemma StaleNeverWrites(w: World, ss: seq<System>, es: seq<Event>, i: nat, j: nat)
    requires NamesDistinct(w) && NonEmptyNames(w) && Run(w, ss, es)
    requires i <= j < |es| && es[j].Write?
    ensures DiskEpoch(ss[i].dir, es[j].stamp.subject) <= es[j].stamp.epoch
  {
    RunKeepsInv(w, ss, es, j);
    DiskEpochNeverFalls(w, ss, es, i, j, es[j].stamp.subject);
  }

  /** A lease that has a holder names a registered, healthy exporter, and the lease file says the same. */
  lemma HolderIsHealthyExporter(w: World, ss: seq<System>, es: seq<Event>, i: nat, a: Authority)
    requires NamesDistinct(w) && NonEmptyNames(w) && Run(w, ss, es) && i <= |es|
    requires a in ss[i].host.writers && ss[i].host.writers[a].runtime != ""
    ensures Holds(ss[i].host.providers, ss[i].host.writers[a].runtime, a)
    ensures FlagsAgree(ss[i].host.providers)
    ensures ss[i].promotion.Idle? ==>
              FenceName(a) in ss[i].dir && ss[i].dir[FenceName(a)] == FileFor(a, ss[i].host.writers[a])
  {
    RunKeepsInv(w, ss, es, i);
    if ss[i].promotion.Idle? {
      var f := ss[i].dir[FenceName(a)];
      assert FenceName(SubjectOf(f)) == FenceName(a);
    }
  }

  /** The stamps of the stateful commands that leave the host in a step, whether or not like ones are on their way. */
  ghost function Sent(w: World, s: System, e: Event): (sent: set<Stamp>)
    requires Enabled(w, s, e)
    ensures Do(w, s, e).inFlight == s.inFlight + sent
  {
    match e
    case RouteRequest(q) => Stamped(PlanFor(s.host, q).target, q.command)
    case FinishPromotion => Stamped(s.promotion.writer, true)
    case _ => {}
  }

  lemma SentNamesLease(w: World, s: System, e: Event, st: Stamp)
    requires HostOk(w, s) && PromotionOk(w, s) && Enabled(w, s, e) && st in Sent(w, s, e)
    ensures var after := Do(w, s, e);
            && after.promotion.Idle? && st.runtime != "" && w.authorities(st.subject)
            && st.subject in after.host.writers && after.host.writers[st.subject] == Lease(st.runtime, st.epoch)
  {
    if e.RouteRequest? {
      RoutedToHolder(w, s, e.request);
      var p := PlanFor(s.host, e.request).target;
      assert st == Stamp(AuthorityOf(p.offer), p.runtime, p.writerEpoch);
    } else {
      assert e.FinishPromotion?;
      var p := s.promotion.writer;
      assert st == Stamp(AuthorityOf(p.offer), p.runtime, p.writerEpoch);
    }
  }

  /** Every stateful command leaves the host with the runtime and epoch its authority's lease then names. */
  lemma CommandCarriesLease(w: World, ss: seq<System>, es: seq<Event>, i: nat, st: Stamp)
    requires NamesDistinct(w) && NonEmptyNames(w) && Run(w, ss, es) && i < |es|
    requires st in Sent(w, ss[i], es[i])
    ensures st.subject in ss[i + 1].host.writers && ss[i + 1].host.writers[st.subject] == Lease(st.runtime, st.epoch)
    ensures FenceAdmits(ss[i + 1].dir, st)
    ensures Holds(ss[i + 1].host.providers, st.runtime, st.subject)
  {
    RunKeepsInv(w, ss, es, i);
    SentNamesLease(w, ss[i], es[i], st);
    HolderIsHealthyExporter(w, ss, es, i + 1, st.subject);
    RunKeepsInv(w, ss, es, i + 1);
  }

  // ----- The file names must differ: two authorities with one lease file break the order -----

  function Exporter(k: Key, a: Authority): Manifest {
    Manifest("p", "data", [Capability(k, true, a.service, a.authority, 0)], [])
  }

  function EntryFor(k: Key, a: Authority, runtime: string): Provider {
    NewEntry(Exporter(k, a), runtime, Exporter(k, a).exports[0])
  }

  function CommandFor(k: Key, a: Authority): Query {
    Query(k, "", a.service, a.authority, true)
  }

  /** Some run ends in `s`. */
  ghost predicate Reachable(w: World, s: System) {
    exists ss, es :: Run(w, ss, es) && ss[|es|] == s
  }

  lemma ReachStep(w: World, s: System, e: Event)
    requires Reachable(w, s) && Enabled(w, s, e)
    ensures Reachable(w, Do(w, s, e))
  {
    var ss, es :| Run(w, ss, es) && ss[|es|] == s;
    var ss', es' := ss + [Do(w, s, e)], es + [e];
    forall i | 0 <= i < |es'| ensures Enabled(w, ss'[i], es'[i]) && ss'[i + 1] == Do(w, ss'[i], es'[i]) {
      assert i < |es| ==> ss'[i] == ss[i] && ss'[i + 1] == ss[i + 1] && es'[i] == es[i];
    }
    assert Run(w, ss', es') && ss'[|es'|] == Do(w, s, e);
  }

  /** Registering an exporter of `a` beside the entries `ps` of the same capability. */
  lemma RegisterStep(w: World, s: System, k: Key, a: Authority, runtime: string, ps: seq<Provider>)
    requires s.promotion.Idle? && w.stateful(k) && w.authorities(a) && NonEmptyNames(w)
    requires runtime != "" && runtime !in s.used
    requires a in s.host.storage ==> s.host.storage[a] == "data"
    requires s.host.providers == (if ps == [] then map[] else map[k := ps])
    requires ps == [] || (|ps| == 1 && ps[0].plugin == "p" && ps[0].offer.priority == 0)
    ensures var e := Register(Exporter(k, a), runtime);
            && Enabled(w, s, e)
            && Do(w, s, e) == s.(host := s.host.(providers := map[k := ps + [EntryFor(k, a, runtime)]],
                                                 storage := s.host.storage[a := "data"]),
                                 used := s.used + {runtime})
  {
    var m := Exporter(k, a);
    var c := m.exports[0];
    assert Reserved(s.host.storage, m, 0) == s.host.storage && WithEntries(s.host.providers, m, runtime, 0) == s.host.providers;
    assert AuthorityOf(c) == a && NewEntry(m, runtime, c) == EntryFor(k, a, runtime);
    assert Reserved(s.host.storage, m, 1) == s.host.storage[a := "data"];
    assert !LexLess("p", "p") by {
      assert "p"[1..] == "";
    }
    assert Inserted(ps, EntryFor(k, a, runtime)) == ps + [EntryFor(k, a, runtime)];
    assert WithEntries(s.host.providers, m, runtime, 1) == map[k := ps + [EntryFor(k, a, runtime)]];
  }

  lemma ReachRegister(w: World, s: System, k: Key, a: Authority, runtime: string, ps: seq<Provider>)
    requires Reachable(w, s) && s.promotion.Idle? && w.stateful(k) && w.authorities(a) && NonEmptyNames(w)
    requires runtime != "" && runtime !in s.used
    requires a in s.host.storage ==> s.host.storage[a] == "data"
    requires s.host.providers == (if ps == [] then map[] else map[k := ps])
    requires ps == [] || (|ps| == 1 && ps[0].plugin == "p" && ps[0].offer.priority == 0)
    ensures Reachable(w, s.(host := s.host.(providers := map[k := ps + [EntryFor(k, a, runtime)]],
                                            storage := s.host.storage[a := "data"]),
                            used := s.used + {runtime}))
  {
    hide Enabled, Do;
    RegisterStep(w, s, k, a, runtime, ps);
    ReachStep(w, s, Register(Exporter(k, a), runtime));
  }

  /** Promoting the one healthy candidate of an authority whose lease has no holder. */
  lemma PromotionSteps(w: World, s: System, k: Key, a: Authority, p: Provider)
    requires s.promotion.Idle? && NonEmptyNames(w) && w.authorities(a) && s.host.bindings == map[]
    requires k in s.host.providers && s.host.providers[k] != [] && s.host.providers[k][0].offer.stateful
    requires Candidates(s.host.providers[k], a) == [p] && p.offer.stateful && AuthorityOf(p.offer) == a
    requires LeaseOf(s.host.writers, a).runtime == ""
    ensures var lease, e := Lease(p.runtime, MemoryEpoch(s, a) + 1), PersistLease(CommandFor(k, a));
            && PlanFor(s.host, CommandFor(k, a)) == Promote(a, lease, p.(writerEpoch := lease.epoch))
            && Enabled(w, s, e) && Enabled(w, Do(w, s, e), FinishPromotion)
            && Do(w, Do(w, s, e), FinishPromotion) ==
               s.(host := s.host.(writers := s.host.writers[a := lease]),
                  dir := s.dir[FenceName(a) := FileFor(a, lease)],
                  inFlight := s.inFlight + {Stamp(a, p.runtime, lease.epoch)})
  {
    assert First([p], Allowed("")) == Some(p);
  }

  lemma ReachPromotion(w: World, s: System, k: Key, a: Authority, p: Provider)
    requires Reachable(w, s) && s.promotion.Idle? && NonEmptyNames(w) && w.authorities(a) && s.host.bindings == map[]
    requires k in s.host.providers && s.host.providers[k] != [] && s.host.providers[k][0].offer.stateful
    requires Candidates(s.host.providers[k], a) == [p] && p.offer.stateful && AuthorityOf(p.offer) == a
    requires LeaseOf(s.host.writers, a).runtime == ""
    ensures var lease := Lease(p.runtime, MemoryEpoch(s, a) + 1);
            Reachable(w, s.(host := s.host.(writers := s.host.writers[a := lease]),
                            dir := s.dir[FenceName(a) := FileFor(a, lease)],
                            inFlight := s.inFlight + {Stamp(a, p.runtime, lease.epoch)}))
  {
    hide Enabled, Do;
    PromotionSteps(w, s, k, a, p);
    ReachStep(w, s, PersistLease(CommandFor(k, a)));
    ReachStep(w, Do(w, s, PersistLease(CommandFor(k, a))), FinishPromotion);
  }

  /** One runtime wrote for `a` under epoch 2; the lease file says so. */
  function WroteTwo(k: Key, a: Authority): System {
    System(State(map[k := [EntryFor(k, a, "1")]], map[a := "data"], map[a := Lease("1", 2)], map[]), Idle,
           map[FenceName(a) := FenceFile(a.service, a.authority, "1", 2)],
           {Stamp(a, "1", 1), Stamp(a, "1", 2)}, [Stamp(a, "1", 2)], {"1"})
  }

  /** A promotion of `b` has replaced the lease file of `a`, and the host has restarted. */
  function ForgotA(k: Key, a: Authority, b: Authority): System {
    System(State(map[], map[], map[b := Lease("", 1)], map[]), Idle,
           map[FenceName(a) := FenceFile(b.service, b.authority, "2", 1)],
           {Stamp(a, "1", 1), Stamp(a, "1", 2), Stamp(b, "2", 1)}, [Stamp(a, "1", 2)], {"1", "2"})
  }

  /** The first runtime holds `a` under epoch `epoch`. */
  function Held(k: Key, a: Authority, epoch: int, stamps: set<Stamp>): System {
    System(State(map[k := [EntryFor(k, a, "1")]], map[a := "data"], map[a := Lease("1", epoch)], map[]), Idle,
           map[FenceName(a) := FenceFile(a.service, a.authority, "1", epoch)], stamps, [], {"1"})
  }

  lemma ReachHeld(w: World, k: Key, a: Authority)
    requires NonEmptyNames(w) && w.stateful(k) && w.authorities(a)
    ensures Reachable(w, Held(k, a, 1, {Stamp(a, "1", 1)}))
  {
    var s0 := System(State(map[], map[], map[], map[]), Idle, map[], {}, [], {});
    assert Run(w, [s0], []) && [s0][0] == s0;
    var p := EntryFor(k, a, "1");
    ReachRegister(w, s0, k, a, "1", []);
    var s1 := s0.(host := State(map[k := [p]], map[a := "data"], map[], map[]), used := {"1"});
    assert [] + [p] == [p];
    assert Reachable(w, s1);
    LoneCandidate(k, a, "1");
    ReachPromotion(w, s1, k, a, p);
  }

  lemma LoneCandidate(k: Key, a: Authority, r: string)
    ensures Candidates([EntryFor(k, a, r)], a) == [EntryFor(k, a, r)]
  {
    assert [EntryFor(k, a, r)][..0] == [];
  }

  lemma ReachWroteTwo(w: World, k: Key, a: Authority)
    requires NonEmptyNames(w) && w.stateful(k) && w.authorities(a)
    ensures Reachable(w, WroteTwo(k, a))
  {
    ReachHeld(w, k, a);
    var p, s2 := EntryFor(k, a, "1"), Held(k, a, 1, {Stamp(a, "1", 1)});
    ReachBlink(w, s2, k, a, p);
    var s3 := s2.(host := s2.host.(writers := map[a := Lease("", 1)]));
    LoneCandidate(k, a, "1");
    ReachPromotion(w, s3, k, a, p);
    var s4 := Held(k, a, 2, {Stamp(a, "1", 1), Stamp(a, "1", 2)});
    assert Reachable(w, s4);
    ReachStep(w, s4, Write(Stamp(a, "1", 2)));
    assert [] + [Stamp(a, "1", 2)] == [Stamp(a, "1", 2)];
  }

  lemma ReachForgotA(w: World, k: Key, a: Authority, b: Authority)
    requires NonEmptyNames(w) && w.stateful(k) && w.authorities(a) && w.authorities(b)
    requires a != b && FenceName(a) == FenceName(b)
    ensures Reachable(w, ForgotA(k, a, b))
  {
    ReachWroteTwo(w, k, a);
    var s5, p, p' := WroteTwo(k, a), EntryFor(k, a, "1"), EntryFor(k, b, "2");
    ReachRegister(w, s5, k, b, "2", [p]);
    var s6 := s5.(host := s5.host.(providers := map[k := [p, p']], storage := map[a := "data", b := "data"]), used := {"1", "2"});
    assert [p] + [p'] == [p, p'];
    assert Reachable(w, s6);
    OneCandidate(k, a, b, "1", "2");
    ReachPromotion(w, s6, k, b, p');
    var s7 := s6.(host := s6.host.(writers := map[a := Lease("1", 2), b := Lease("2", 1)]),
                  dir := ForgotA(k, a, b).dir, inFlight := ForgotA(k, a, b).inFlight);
    assert Reachable(w, s7);
    ReachRestart(w, s7, FenceName(a), b, a);
    assert s7.(host := State(map[], map[], map[b := Lease("", 1)], map[])) == ForgotA(k, a, b);
  }

  lemma SharedFileBreaksOrder(w: World, k: Key, a: Authority, b: Authority)
    requires NonEmptyNames(w) && w.stateful(k) && w.authorities(a) && w.authorities(b)
    requires a != b && FenceName(a) == FenceName(b)
    ensures exists s: System :: Reachable(w, s) && !InOrder(s.writes)
  {
    ReachForgotA(w, k, a, b);
    var s8, p := ForgotA(k, a, b), EntryFor(k, a, "3");
    ReachRegister(w, s8, k, a, "3", []);
    var s9 := s8.(host := s8.host.(providers := map[k := [p]], storage := map[a := "data"]), used := s8.used + {"3"});
    assert [] + [p] == [p];
    assert Reachable(w, s9);
    LoneCandidate(k, a, "3");
    ReachPromotion(w, s9, k, a, p);
    var lease := Lease("3", 1);
    var s10 := s9.(host := s9.host.(writers := s9.host.writers[a := lease]),
                   dir := s9.dir[FenceName(a) := FileFor(a, lease)], inFlight := s9.inFlight + {Stamp(a, "3", 1)});
    assert Reachable(w, s10);
    ReachStep(w, s10, Write(Stamp(a, "3", 1)));
    var writes := s10.writes + [Stamp(a, "3", 1)];
    assert writes[0] == Stamp(a, "1", 2) && writes[1] == Stamp(a, "3", 1);
    assert !InOrder(writes);
  }

  lemma OneCandidate(k: Key, a: Authority, b: Authority, r: string, r': string)
    requires a != b
    ensures Candidates([EntryFor(k, a, r), EntryFor(k, b, r')], b) == [EntryFor(k, b, r')]
  {
    var p, p' := EntryFor(k, a, r), EntryFor(k, b, r');
    assert [p][..0] == [] && [p, p'][..1] == [p];
    assert Candidates([], a) == [] && Candidates([], b) == [];
  }

  /** The holder misses a beat: its process is reported unhealthy, then healthy again. */
  lemma ReachBlink(w: World, s: System, k: Key, a: Authority, p: Provider)
    requires Reachable(w, s) && s.promotion.Idle? && s.host.providers == map[k := [p]] && p == EntryFor(k, a, "1")
    requires s.host.writers == map[a := Lease("1", 1)]
    ensures Reachable(w, s.(host := s.host.(writers := map[a := Lease("", 1)])))
  {
    var down, up := ProcessHealth(false), ProcessHealth(true);
    ReachStep(w, s, Health("1", down));
    var s' := Do(w, s, Health("1", down));
    var p' := React(down, p);
    assert TouchedList(down, "1", [p]) == [p'];
    assert s'.host.providers == map[k := [p']];
    assert ListTrips(down, "1", s.host.providers[k]) by {
      assert s.host.providers[k][0] == p && Trips(down, p);
    }
    assert s'.host.writers == map[a := Lease("", 1)];
    ReachStep(w, s', Health("1", up));
    assert React(up, p') == p;
    assert TouchedList(up, "1", [p']) == [p];
    assert TouchedAll(up, "1", s'.host.providers) == map[k := [p]];
    assert Cleared(s'.host.writers, "1") == s'.host.writers;
  }

  /** A restart reads back only the authority whose lease the shared file holds. */
  lemma ReachRestart(w: World, s: System, n: string, b: Authority, a: Authority)
    requires Reachable(w, s) && a != b && FenceName(b) == n && b.service != "" && b.authority != ""
    requires s.dir == map[n := FenceFile(b.service, b.authority, "2", 1)] && s.host.bindings == map[] && s.promotion.Idle?
    ensures Reachable(w, s.(host := State(map[], map[], map[b := Lease("", 1)], map[])))
  {
    assert NamedByContents(s.dir);
    assert Subjects(s.dir) == {b} by {
      assert n in s.dir && SubjectOf(s.dir[n]) == b;
    }
    assert Restored(s.dir) == map[b := Lease("", 1)];
    ReachStep(w, s, Restart);
  }

  /** Fencing keeps the writes of every run in order exactly when no two authorities share a lease file name. */
  lemma FencingNeedsDistinctNames(w: World, k: Key)
    requires NonEmptyNames(w) && w.stateful(k)
    ensures NamesDistinct(w) <==> forall s: System :: Reachable(w, s) ==> InOrder(s.writes)
  {
    if NamesDistinct(w) {
      forall s: System | Reachable(w, s) ensures InOrder(s.writes) {
        var ss, es :| Run(w, ss, es) && ss[|es|] == s;
        WritesInOrder(w, ss, es);
      }
    } else {
      var a, b :| w.authorities(a) && w.authorities(b) && FenceName(a) == FenceName(b) && a != b;
      SharedFileBreaksOrder(w, k, a, b);
    }
  }

  /** A lease file name holds no separator, so the file lies in the directory of lease files. */
  lemma FenceNameHasNoSeparator(a: Authority)
    ensures forall c | c in FenceName(a) :: c != '/' && c != '\\' && c != ':'
  {
    forall c | c in FenceName(a) ensures c != '/' && c != '\\' && c != ':' {
      var i :| 0 <= i < |FenceName(a)| && FenceName(a)[i] == c;
      var x, y := Safe(a.service), Safe(a.authority);
      assert FenceName(a)[i] == if i < |x| then x[i] else if i < |x| + 2 then '-' else y[i - |x| - 2];
    }
  }

  predicate PlainName(s: string) {
    forall c | c in s :: c != '/' && c != '\\' && c != ':' && c != '-'
  }

  lemma PlainIsSafe(s: string)
    requires PlainName(s)
    ensures Safe(s) == s
  {
    forall i | 0 <= i < |s| ensures Safe(s)[i] == s[i] {
      assert s[i] in s;
    }
  }

  lemma NoEarlierDash(x: string, u: string, y: string, v: string)
    requires PlainName(y) && x + "--" + u == y + "--" + v
    ensures |x| >= |y|
  {
    forall i | 0 <= i < |y| ensures y[i] != '-' {
      assert y[i] in y;
    }
    assert (x + "--" + u)[|x|] == '-';
  }

  /** Authorities whose names have neither separators nor dashes have lease files of their own. */
  lemma PlainNamesAreDistinct(a: Authority, b: Authority)
    requires PlainName(a.service) && PlainName(a.authority) && PlainName(b.service) && PlainName(b.authority)
    ensures FenceName(a) == FenceName(b) <==> a == b
  {
    PlainIsSafe(a.service);
    PlainIsSafe(a.authority);
    PlainIsSafe(b.service);
    PlainIsSafe(b.authority);
    if FenceName(a) == FenceName(b) {
      var name, n := FenceName(a), |a.service|;
      NoEarlierDash(a.service, a.authority, b.service, b.authority);
      NoEarlierDash(b.service, b.authority, a.service, a.authority);
      assert name[..n] == a.service && name[n + 2..] == a.authority;
      assert name[..n] == b.service && name[n + 2..] == b.authority;
    }
  }

  /** Replacing separators and joining with "--" is not injective. */
  lemma FenceNamesCollide()
    ensures FenceName(Authority("a/b", "c")) == FenceName(Authority("a_b", "c"))
    ensures FenceName(Authority("a--b", "c")) == FenceName(Authority("a", "b--c"))
  {
    assert Safe("a/b") == "a_b" && Safe("a_b") == "a_b" && Safe("c") == "c";
    assert Safe("a--b") == "a--b" && Safe("a") == "a" && Safe("b--c") == "b--c";
    assert "a--b" + "--" + "c" == "a" + "--" + "b--c";
  }
}
