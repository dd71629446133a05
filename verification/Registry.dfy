/**
 The host's registry (kernel/internal/registry/registry.go): provider entries, their health, the writer lease
 of each stateful authority, and the lease files the host shares with its plugins.

 `State` is the value of a registry; the class updates its fields in place and every method is proved to take
 one such value to the next.
 */
module Registry {
  import opened Wrappers

  datatype Key = Key(name: string, major: int)

  datatype Capability = Capability(key: Key, stateful: bool, service: string, authority: string, priority: int)

  datatype Manifest = Manifest(plugin: string, namespace: string, exports: seq<Capability>, required: seq<Key>)

  datatype Authority = Authority(service: string, authority: string)

  datatype Lease = Lease(runtime: string, epoch: int)

  datatype Binding = Binding(service: string, authority: string, provider: string)

  datatype Provider = Provider(plugin: string, runtime: string, writerEpoch: int, failures: int, missedHeartbeats: int,
                               processHealthy: bool, dependenciesHealthy: bool, circuitOpen: bool, healthy: bool,
                               offer: Capability)

  type Providers = map<Key, seq<Provider>>

  datatype State = State(providers: Providers, storage: map<Authority, string>,
                         writers: map<Authority, Lease>, bindings: map<Key, Binding>)

  function AuthorityOf(c: Capability): Authority {
    Authority(c.service, c.authority)
  }

  function Entries(ps: Providers, k: Key): seq<Provider> {
    if k in ps then ps[k] else []
  }

  ghost predicate Entry(ps: Providers, k: Key, p: Provider) {
    k in ps && p in ps[k]
  }

  // ----- Health -----

  datatype HealthEvent =
    | ProcessHealth(ok: bool)
    | DependencyHealth(ok: bool)
    | RequestFailure
    | RequestSuccess
    | HeartbeatFailure
    | HeartbeatSuccess

  predicate Sound(p: Provider) {
    p.processHealthy && p.dependenciesHealthy && !p.circuitOpen && p.missedHeartbeats < 3
  }

  function Recomputed(p: Provider): Provider {
    p.(healthy := Sound(p))
  }

  function React(e: HealthEvent, p: Provider): Provider {
    Recomputed(
      match e
      case ProcessHealth(ok) => p.(processHealthy := ok)
      case DependencyHealth(ok) => p.(dependenciesHealthy := ok)
      case RequestFailure => p.(failures := p.failures + 1, circuitOpen := p.circuitOpen || p.failures + 1 >= 3)
      case RequestSuccess => p.(failures := 0, circuitOpen := false)
      case HeartbeatFailure => p.(missedHeartbeats := p.missedHeartbeats + 1)
      case HeartbeatSuccess => p.(missedHeartbeats := 0))
  }

  /** Whether an entry's reaction makes the host take the writer leases away from its runtime. */
  predicate Trips(e: HealthEvent, p: Provider) {
    match e
    case ProcessHealth(_) => !React(e, p).healthy
    case DependencyHealth(_) => p.healthy && !React(e, p).healthy
    case RequestFailure => !React(e, p).healthy
    case RequestSuccess => false
    case HeartbeatFailure => !React(e, p).healthy
    case HeartbeatSuccess => false
  }

  predicate Flips(e: HealthEvent, p: Provider) {
    e.DependencyHealth? && p.dependenciesHealthy != e.ok
  }

  function Touched(e: HealthEvent, runtime: string, p: Provider): Provider {
    if p.runtime == runtime then React(e, p) else p
  }

  function TouchedList(e: HealthEvent, runtime: string, ps: seq<Provider>): seq<Provider> {
    seq(|ps|, i requires 0 <= i < |ps| => Touched(e, runtime, ps[i]))
  }

  function TouchedAll(e: HealthEvent, runtime: string, ps: Providers): Providers {
    map k | k in ps :: TouchedList(e, runtime, ps[k])
  }

  predicate ListTrips(e: HealthEvent, runtime: string, ps: seq<Provider>) {
    exists i :: 0 <= i < |ps| && ps[i].runtime == runtime && Trips(e, ps[i])
  }

  predicate ListFlips(e: HealthEvent, runtime: string, ps: seq<Provider>) {
    exists i :: 0 <= i < |ps| && ps[i].runtime == runtime && Flips(e, ps[i])
  }

  predicate AnyTrips(e: HealthEvent, runtime: string, ps: Providers) {
    exists k :: k in ps && ListTrips(e, runtime, ps[k])
  }

  predicate AnyFlips(e: HealthEvent, runtime: string, ps: Providers) {
    exists k :: k in ps && ListFlips(e, runtime, ps[k])
  }

  /** The runtime's leases lose their holder and keep their epoch. */
  function Cleared(writers: map<Authority, Lease>, runtime: string): map<Authority, Lease> {
    map a | a in writers :: if writers[a].runtime == runtime then writers[a].(runtime := "") else writers[a]
  }

  function Observed(s: State, runtime: string, e: HealthEvent): State {
    s.(providers := TouchedAll(e, runtime, s.providers),
       writers := if AnyTrips(e, runtime, s.providers) then Cleared(s.writers, runtime) else s.writers)
  }

  // ----- Registration and removal -----

  predicate LexLess(a: string, b: string) {
    |b| > 0 && (|a| == 0 || a[0] < b[0] || (a[0] == b[0] && LexLess(a[1..], b[1..])))
  }

  /** Higher priority first, then plugin id. */
  predicate Before(a: Provider, b: Provider) {
    a.offer.priority > b.offer.priority || (a.offer.priority == b.offer.priority && LexLess(a.plugin, b.plugin))
  }

  /** Insertion from the back, after the entries that `p` does not precede: what a stable sort does with a new last entry. */
  function Inserted(ps: seq<Provider>, p: Provider): seq<Provider> {
    if ps != [] && Before(p, ps[|ps| - 1]) then Inserted(ps[..|ps| - 1], p) + [ps[|ps| - 1]] else ps + [p]
  }

  function NewEntry(m: Manifest, runtime: string, c: Capability): Provider {
    Provider(m.plugin, runtime, 0, 0, 0, true, true, false, true, c)
  }

  predicate StorageAgrees(storage: map<Authority, string>, m: Manifest) {
    forall i | 0 <= i < |m.exports| && m.exports[i].stateful && AuthorityOf(m.exports[i]) in storage ::
      storage[AuthorityOf(m.exports[i])] == m.namespace
  }

  function Reserved(storage: map<Authority, string>, m: Manifest, n: nat): map<Authority, string>
    requires n <= |m.exports|
  {
    if n == 0 then storage
    else
      var before := Reserved(storage, m, n - 1);
      if m.exports[n - 1].stateful then before[AuthorityOf(m.exports[n - 1]) := m.namespace] else before
  }

  function WithEntries(ps: Providers, m: Manifest, runtime: string, n: nat): Providers
    requires n <= |m.exports|
  {
    if n == 0 then ps
    else
      var before := WithEntries(ps, m, runtime, n - 1);
      var c := m.exports[n - 1];
      before[c.key := Inserted(Entries(before, c.key), NewEntry(m, runtime, c))]
  }

  function Registered(s: State, m: Manifest, runtime: string): State {
    s.(storage := Reserved(s.storage, m, |m.exports|), providers := WithEntries(s.providers, m, runtime, |m.exports|))
  }

  function Others(ps: seq<Provider>, runtime: string): seq<Provider> {
    if ps == [] then []
    else Others(ps[..|ps| - 1], runtime) + if ps[|ps| - 1].runtime != runtime then [ps[|ps| - 1]] else []
  }

  function Removed(s: State, runtime: string): State {
    s.(providers := map k | k in s.providers && Others(s.providers[k], runtime) != [] :: Others(s.providers[k], runtime),
       writers := Cleared(s.writers, runtime))
  }

  /** The required capabilities with no healthy provider, in manifest order. */
  function Missing(ps: Providers, required: seq<Key>): seq<Key> {
    if required == [] then []
    else
      var last := required[|required| - 1];
      Missing(ps, required[..|required| - 1]) + if HasHealthy(Entries(ps, last)) then [] else [last]
  }

  predicate HasHealthy(ps: seq<Provider>) {
    exists i :: 0 <= i < |ps| && ps[i].healthy
  }

  // ----- Routing -----

  datatype Query = Query(key: Key, provider: string, service: string, authority: string, command: bool)

  datatype Plan =
    | Refuse(reason: string)
    | Route(target: Provider)
    | Promote(subject: Authority, lease: Lease, writer: Provider)

  function BindingOf(s: State, k: Key): Binding {
    if k in s.bindings then s.bindings[k] else Binding("", "", "")
  }

  function Hint(given: string, bound: string): string {
    if given == "" then bound else given
  }

  function First(ps: seq<Provider>, want: Provider -> bool): Option<Provider> {
    if ps == [] then None else if want(ps[0]) then Some(ps[0]) else First(ps[1..], want)
  }

  function Allowed(hint: string): Provider -> bool {
    (p: Provider) => hint == "" || p.plugin == hint
  }

  function Holding(runtime: string): Provider -> bool {
    (p: Provider) => p.runtime == runtime
  }

  function Usable(hint: string): Provider -> bool {
    (p: Provider) => p.healthy && (hint == "" || p.plugin == hint)
  }

  function Candidates(ps: seq<Provider>, a: Authority): seq<Provider> {
    if ps == [] then []
    else
      var p := ps[|ps| - 1];
      Candidates(ps[..|ps| - 1], a) + if p.healthy && AuthorityOf(p.offer) == a then [p] else []
  }

  function AuthoritiesOf(ps: seq<Provider>): set<Authority> {
    set i | 0 <= i < |ps| :: AuthorityOf(ps[i].offer)
  }

  /** The authority a stateful request means: its hints, completed when the capability has one logical pair. */
  function Target(ps: seq<Provider>, service: string, authority: string): Option<Authority> {
    if service != "" && authority != "" then Some(Authority(service, authority))
    else if ps == [] || AuthoritiesOf(ps) != {AuthorityOf(ps[0].offer)} then None
    else Some(Authority(Hint(service, ps[0].offer.service), Hint(authority, ps[0].offer.authority)))
  }

  function LeaseOf(writers: map<Authority, Lease>, a: Authority): Lease {
    if a in writers then writers[a] else Lease("", 0)
  }

  function CommandPlan(writers: map<Authority, Lease>, a: Authority, candidates: seq<Provider>, hint: string): Plan {
    var lease := LeaseOf(writers, a);
    var writer := if lease.runtime == "" then None else First(candidates, Holding(lease.runtime));
    if writer.Some? then
      if hint != "" && writer.value.plugin != hint then Refuse("not the active writer")
      else Route(writer.value.(writerEpoch := lease.epoch))
    else
      var chosen := First(candidates, Allowed(hint));
      if chosen.None? then Refuse("provider unavailable")
      else Promote(a, Lease(chosen.value.runtime, lease.epoch + 1), chosen.value.(writerEpoch := lease.epoch + 1))
  }

  function PlanFor(s: State, q: Query): Plan {
    var ps := Entries(s.providers, q.key);
    var b := BindingOf(s, q.key);
    var hint := Hint(q.provider, b.provider);
    if ps == [] then Refuse("no provider")
    else if !ps[0].offer.stateful then
      var p := First(ps, Usable(hint));
      if p.None? then Refuse("all providers unhealthy or filtered") else Route(p.value)
    else
      var target := Target(ps, Hint(q.service, b.service), Hint(q.authority, b.authority));
      if target.None? then Refuse("ambiguous authority")
      else
        var candidates := Candidates(ps, target.value);
        if candidates == [] then Refuse("authority unavailable")
        else if q.command then CommandPlan(s.writers, target.value, candidates, hint)
        else
          var p := First(candidates, Allowed(hint));
          if p.None? then Refuse("provider unavailable") else Route(p.value)
  }

  // ----- Lease files -----

  datatype FenceFile = FenceFile(service: string, authority: string, runtime: string, epoch: int)

  type FenceDir = map<string, FenceFile>

  function Safe(s: string): string {
    seq(|s|, i requires 0 <= i < |s| => if s[i] == '/' || s[i] == '\\' || s[i] == ':' then '_' else s[i])
  }

  function FenceName(a: Authority): string {
    Safe(a.service) + "--" + Safe(a.authority)
  }

  function FileFor(a: Authority, l: Lease): FenceFile {
    FenceFile(a.service, a.authority, l.runtime, l.epoch)
  }

  function SubjectOf(f: FenceFile): Authority {
    Authority(f.service, f.authority)
  }

  /** Every lease file carries the name its own contents give it. */
  ghost predicate NamedByContents(dir: FenceDir) {
    forall n | n in dir :: FenceName(SubjectOf(dir[n])) == n
  }

  /** The authorities the directory's files name, where neither half of the name is empty. */
  function Subjects(dir: FenceDir): set<Authority> {
    set n | n in dir && dir[n].service != "" && dir[n].authority != "" :: SubjectOf(dir[n])
  }

  /** What a restarting host reads back: the epochs, and no holders. */
  ghost function Restored(dir: FenceDir): map<Authority, Lease>
    requires NamedByContents(dir)
  {
    map a | a in Subjects(dir) :: Lease("", dir[FenceName(a)].epoch)
  }

  /**
   A lease that was written is read back after a restart with its epoch and without a holder. The lease of another
   authority survives the write exactly when its file has another name.
   */
  lemma PersistRestores(dir: FenceDir, a: Authority, l: Lease, b: Authority)
    requires NamedByContents(dir) && a.service != "" && a.authority != "" && b in Restored(dir) && b != a
    ensures var after := dir[FenceName(a) := FileFor(a, l)];
            && NamedByContents(after)
            && a in Restored(after) && Restored(after)[a] == Lease("", l.epoch)
            && (b in Restored(after) <==> FenceName(b) != FenceName(a))
            && (b in Restored(after) ==> Restored(after)[b] == Restored(dir)[b])
  {
    hide FenceName;
    var after := dir[FenceName(a) := FileFor(a, l)];
    assert SubjectOf(after[FenceName(a)]) == a;
    var n :| n in dir && SubjectOf(dir[n]) == b;
    assert FenceName(b) == n;
    if n != FenceName(a) {
      assert after[n] == dir[n];
    }
  }

  // ----- Write fences -----

  /** The fencing metadata of a request: the authority, the runtime it was routed to, and the epoch. */
  datatype Stamp = Stamp(subject: Authority, runtime: string, epoch: int)

  /** The stamp is complete, and the lease on disk names its runtime and its epoch. */
  predicate FenceAdmits(dir: FenceDir, s: Stamp) {
    && s.epoch > 0 && s.subject.service != "" && s.subject.authority != ""
    && FenceName(s.subject) in dir
    && dir[FenceName(s.subject)].runtime == s.runtime
    && dir[FenceName(s.subject)].epoch == s.epoch
  }

  // ----- The registry object -----

  /** The directory of lease files, shared by the host and the plugin processes. */
  class Fences {
    var dir: FenceDir

    constructor ()
      ensures dir == map[]
    {
      dir := map[];
    }

    /** Writes the lease to a temporary file and renames it; a failing write or rename leaves the old file. */
    method Persist(a: Authority, l: Lease, ioOk: bool) returns (ok: bool)
      modifies this`dir
      ensures ok == ioOk
      ensures dir == if ok then old(dir)[FenceName(a) := FileFor(a, l)] else old(dir)
    {
      if ioOk {
        dir := dir[FenceName(a) := FileFor(a, l)];
      }
      ok := ioOk;
    }
  }

  /** What a plugin's guarded mutations have done, by the stamps they ran under. */
  class Mutations {
    var made: seq<Stamp>

    constructor ()
      ensures made == []
    {
      made := [];
    }
  }

  /**
   WithWriteFence, in the process of the stamp's runtime and under the lock of the authority's lease file: the mutation
   runs only when the lease read there is the stamp's.
   */
  method WithWriteFence(fences: Fences, s: Stamp, mutations: Mutations) returns (r: Result<(), string>)
    modifies mutations
    ensures r.Ok? <==> FenceAdmits(fences.dir, s)
    ensures mutations.made == if r.Ok? then old(mutations.made) + [s] else old(mutations.made)
  {
    if s.epoch <= 0 || s.subject.service == "" || s.subject.authority == "" {
      return Err("missing stateful fencing metadata");
    }
    var name := FenceName(s.subject);
    if name !in fences.dir {
      return Err("no lease file");
    }
    var lease := fences.dir[name];
    if lease.runtime != s.runtime || lease.epoch != s.epoch {
      return Err("stale writer fence");
    }
    mutations.made := mutations.made + [s];
    r := Ok(());
  }

  class Registry {
    var providers: Providers
    var storage: map<Authority, string>
    var writers: map<Authority, Lease>
    var bindings: map<Key, Binding>
    const fences: Fences

    function Value(): State
      reads this
    {
      State(providers, storage, writers, bindings)
    }

    constructor (fences: Fences)
      ensures Value() == State(map[], map[], map[], map[]) && this.fences == fences
    {
      providers, storage, writers, bindings := map[], map[], map[], map[];
      this.fences := fences;
    }

    /** SetFenceRoot: epochs survive a restart of the host, holders do not. */
    method LoadFences()
      requires NamedByContents(fences.dir) && writers == map[]
      modifies this`writers
      ensures writers == Restored(fences.dir)
    {
      hide FenceName;
      var dir := fences.dir;
      var rest := dir.Keys;
      while rest != {}
        invariant rest <= dir.Keys
        invariant forall a | a in writers :: a in Subjects(dir) && writers[a] == Lease("", dir[FenceName(a)].epoch)
        invariant forall n | n in dir && n !in rest && dir[n].service != "" && dir[n].authority != "" ::
                    SubjectOf(dir[n]) in writers
        decreases |rest|
      {
        var n :| n in rest;
        var f := dir[n];
        if f.service != "" && f.authority != "" {
          writers := writers[SubjectOf(f) := Lease("", f.epoch)];
        }
        rest := rest - {n};
      }
    }

    method RegisterRuntime(m: Manifest, runtime: string) returns (ok: bool)
      modifies this
      ensures ok == StorageAgrees(old(storage), m)
      ensures Value() == if ok then Registered(old(Value()), m, runtime) else old(Value())
    {
      for i := 0 to |m.exports|
        invariant Value() == old(Value())
        invariant forall j | 0 <= j < i && m.exports[j].stateful && AuthorityOf(m.exports[j]) in storage ::
                    storage[AuthorityOf(m.exports[j])] == m.namespace
      {
        var c := m.exports[i];
        if c.stateful && AuthorityOf(c) in storage && storage[AuthorityOf(c)] != m.namespace {
          return false;
        }
      }
      for i := 0 to |m.exports|
        invariant Value() == old(Value()).(storage := Reserved(old(storage), m, i))
      {
        if m.exports[i].stateful {
          storage := storage[AuthorityOf(m.exports[i]) := m.namespace];
        }
      }
      for i := 0 to |m.exports|
        invariant Value() == old(Value()).(storage := Reserved(old(storage), m, |m.exports|),
                                           providers := WithEntries(old(providers), m, runtime, i))
      {
        var c := m.exports[i];
        var list := Entries(providers, c.key);
        providers := providers[c.key := Inserted(list, NewEntry(m, runtime, c))];
      }
      ok := true;
    }

    /** MarkHealth, MarkDependencyHealth, RecordFailure and its siblings: one pass over every entry of the runtime. */
    method Observe(runtime: string, e: HealthEvent) returns (changed: bool)
      modifies this`providers, this`writers
      ensures Value() == Observed(old(Value()), runtime, e)
      ensures changed == AnyFlips(e, runtime, old(providers))
    {
      var clear;
      providers, changed, clear := TouchMap(providers, runtime, e);
      if clear {
        ClearWriter(runtime);
      }
    }

    /** clearWriterIfUnhealthyLocked. */
    method ClearWriter(runtime: string)
      modifies this`writers
      ensures writers == Cleared(old(writers), runtime)
    {
      var rest := writers.Keys;
      while rest != {}
        invariant rest <= writers.Keys == old(writers).Keys
        invariant forall a | a in writers ::
                    writers[a] == if a in rest then old(writers)[a] else Cleared(old(writers), runtime)[a]
        decreases |rest|
      {
        var a :| a in rest;
        if writers[a].runtime == runtime {
          writers := writers[a := writers[a].(runtime := "")];
        }
        rest := rest - {a};
      }
    }

    method RemoveRuntime(runtime: string)
      modifies this`providers, this`writers
      ensures Value() == Removed(old(Value()), runtime)
    {
      hide Others, Cleared;
      providers := DropRuntime(providers, runtime);
      ClearWriter(runtime);
    }

    method MissingHealthyRequired(m: Manifest) returns (missing: seq<Key>)
      ensures missing == Missing(providers, m.required)
    {
      missing := [];
      for i := 0 to |m.required|
        invariant missing == Missing(providers, m.required[..i])
      {
        var found := false;
        var list := Entries(providers, m.required[i]);
        for j := 0 to |list|
          invariant found <==> exists n :: 0 <= n < j && list[n].healthy
        {
          if list[j].healthy {
            found := true;
            break;
          }
        }
        assert m.required[..i + 1][..i] == m.required[..i];
        if !found {
          missing := missing + [m.required[i]];
        }
      }
      assert m.required[..|m.required|] == m.required;
    }

    /**
     * ResolveForKind. A promotion reaches the lease file before the registry's memory; when the file cannot be
     * written nothing changes.
     */
    method Resolve(q: Query, ioOk: bool) returns (r: Result<Provider, string>)
      modifies this`writers, fences`dir
      ensures var plan := PlanFor(old(Value()), q);
              match plan {
                case Refuse(reason) => r == Err(reason) && unchanged(this) && fences.dir == old(fences.dir)
                case Route(p) => r == Ok(p) && unchanged(this) && fences.dir == old(fences.dir)
                case Promote(a, lease, p) =>
                  if ioOk then
                    r == Ok(p) && writers == old(writers)[a := lease] &&
                    fences.dir == old(fences.dir)[FenceName(a) := FileFor(a, lease)]
                  else r == Err("persist writer fence") && unchanged(this) && fences.dir == old(fences.dir)
              }
    {
      var plan := Decide(q);
      match plan {
        case Refuse(reason) => r := Err(reason);
        case Route(p) => r := Ok(p);
        case Promote(a, lease, p) =>
          var ok := fences.Persist(a, lease, ioOk);
          if !ok {
            return Err("persist writer fence");
          }
          writers := writers[a := lease];
          r := Ok(p);
      }
    }

    /** The part of ResolveForKind that only reads. */
    method Decide(q: Query) returns (plan: Plan)
      ensures plan == PlanFor(Value(), q)
    {
      var ps := Entries(providers, q.key);
      if ps == [] {
        return Refuse("no provider");
      }
      var b := BindingOf(Value(), q.key);
      var service, authority, hint := Hint(q.service, b.service), Hint(q.authority, b.authority), Hint(q.provider, b.provider);
      if !ps[0].offer.stateful {
        var p := FindFirst(ps, Usable(hint));
        return if p.None? then Refuse("all providers unhealthy or filtered") else Route(p.value);
      }
      if service == "" || authority == "" {
        var pairs := CollectAuthorities(ps);
        if pairs != {AuthorityOf(ps[0].offer)} {
          return Refuse("ambiguous authority");
        }
        service, authority := Hint(service, ps[0].offer.service), Hint(authority, ps[0].offer.authority);
      }
      var candidates := CollectCandidates(ps, Authority(service, authority));
      if candidates == [] {
        return Refuse("authority unavailable");
      }
      if q.command {
        plan := DecideCommand(Authority(service, authority), candidates, hint);
      } else {
        var p := FindFirst(candidates, Allowed(hint));
        plan := if p.None? then Refuse("provider unavailable") else Route(p.value);
      }
    }

    method DecideCommand(a: Authority, candidates: seq<Provider>, hint: string) returns (plan: Plan)
      ensures plan == CommandPlan(writers, a, candidates, hint)
    {
      var lease := LeaseOf(writers, a);
      if lease.runtime != "" {
        var writer := FindFirst(candidates, Holding(lease.runtime));
        if writer.Some? {
          if hint != "" && writer.value.plugin != hint {
            return Refuse("not the active writer");
          }
          return Route(writer.value.(writerEpoch := lease.epoch));
        }
      }
      var chosen := FindFirst(candidates, Allowed(hint));
      if chosen.None? {
        return Refuse("provider unavailable");
      }
      plan := Promote(a, Lease(chosen.value.runtime, lease.epoch + 1), chosen.value.(writerEpoch := lease.epoch + 1));
    }
  }

  method TouchMap(was: Providers, runtime: string, e: HealthEvent)
    returns (ps: Providers, changed: bool, clear: bool)
    ensures ps == TouchedAll(e, runtime, was)
    ensures clear == AnyTrips(e, runtime, was)
    ensures changed == AnyFlips(e, runtime, was)
  {
    hide TouchedList, ListTrips, ListFlips;
    ps, changed, clear := was, false, false;
    var rest := was.Keys;
    while rest != {}
      invariant rest <= was.Keys && ps.Keys == was.Keys
      invariant forall k | k in rest :: ps[k] == was[k]
      invariant forall k | k in was && k !in rest :: ps[k] == TouchedList(e, runtime, was[k])
      invariant clear <==> exists k :: k in was && k !in rest && ListTrips(e, runtime, was[k])
      invariant changed <==> exists k :: k in was && k !in rest && ListFlips(e, runtime, was[k])
      decreases |rest|
    {
      var k :| k in rest;
      var list, flips, trips := TouchList(was[k], runtime, e);
      ps := ps[k := list];
      changed, clear := changed || flips, clear || trips;
      rest := rest - {k};
    }
  }

  method DropRuntime(was: Providers, runtime: string) returns (ps: Providers)
    ensures ps == map k | k in was && Others(was[k], runtime) != [] :: Others(was[k], runtime)
  {
    ps := was;
    var rest := was.Keys;
    while rest != {}
      invariant rest <= was.Keys && ps.Keys <= was.Keys
      invariant forall k | k in rest :: k in ps && ps[k] == was[k]
      invariant forall k | k in was && k !in rest :: k in ps <==> Others(was[k], runtime) != []
      invariant forall k | k in ps && k !in rest :: ps[k] == Others(was[k], runtime)
      decreases |rest|
    {
      var k :| k in rest;
      var kept := Keep(was[k], runtime);
      ps := if kept == [] then ps - {k} else ps[k := kept];
      rest := rest - {k};
    }
  }

  method TouchList(ps: seq<Provider>, runtime: string, e: HealthEvent)
    returns (list: seq<Provider>, flips: bool, trips: bool)
    ensures list == TouchedList(e, runtime, ps)
    ensures flips == ListFlips(e, runtime, ps) && trips == ListTrips(e, runtime, ps)
  {
    list, flips, trips := ps, false, false;
    for i := 0 to |ps|
      invariant |list| == |ps|
      invariant forall j | 0 <= j < |ps| :: list[j] == if j < i then Touched(e, runtime, ps[j]) else ps[j]
      invariant flips <==> exists j :: 0 <= j < i && ps[j].runtime == runtime && Flips(e, ps[j])
      invariant trips <==> exists j :: 0 <= j < i && ps[j].runtime == runtime && Trips(e, ps[j])
    {
      if ps[i].runtime == runtime {
        list := list[i := React(e, ps[i])];
        flips, trips := flips || Flips(e, ps[i]), trips || Trips(e, ps[i]);
      }
    }
  }

  method Keep(ps: seq<Provider>, runtime: string) returns (kept: seq<Provider>)
    ensures kept == Others(ps, runtime)
  {
    kept := [];
    for i := 0 to |ps|
      invariant kept == Others(ps[..i], runtime)
    {
      assert ps[..i + 1][..i] == ps[..i];
      if ps[i].runtime != runtime {
        kept := kept + [ps[i]];
      }
    }
    assert ps[..|ps|] == ps;
  }

  method FindFirst(ps: seq<Provider>, want: Provider -> bool) returns (r: Option<Provider>)
    ensures r == First(ps, want)
  {
    for i := 0 to |ps|
      invariant First(ps, want) == First(ps[i..], want)
    {
      if want(ps[i]) {
        return Some(ps[i]);
      }
    }
    r := None;
  }

  method CollectAuthorities(ps: seq<Provider>) returns (pairs: set<Authority>)
    ensures pairs == AuthoritiesOf(ps)
  {
    pairs := {};
    for i := 0 to |ps|
      invariant pairs == set j | 0 <= j < i :: AuthorityOf(ps[j].offer)
    {
      pairs := pairs + {AuthorityOf(ps[i].offer)};
    }
  }

  method CollectCandidates(ps: seq<Provider>, a: Authority) returns (candidates: seq<Provider>)
    ensures candidates == Candidates(ps, a)
  {
    candidates := [];
    for i := 0 to |ps|
      invariant candidates == Candidates(ps[..i], a)
    {
      assert ps[..i + 1][..i] == ps[..i];
      if ps[i].healthy && AuthorityOf(ps[i].offer) == a {
        candidates := candidates + [ps[i]];
      }
    }
    assert ps[..|ps|] == ps;
  }
}
