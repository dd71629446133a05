/**
 Delegated authority in the router (kernel/internal/router/router.go, kernel/internal/authz/authz.go).

 A call is a step that opens a frame and a step that closes it. The provider of an open call may pass the
 call's opaque token back for child calls; the token dies with the call.

 A capability is written `name@major` throughout, as the grants' patterns match it.
 */
module Router {
  import opened Wrappers

  datatype Grant = Grant(capabilities: seq<string>, publishes: seq<string>, subscribes: seq<string>, serviceAuthority: bool,
                         delegations: map<string, seq<string>>)

  datatype Manifest = Manifest(required: seq<string>, optional: seq<string>, publishes: seq<string>, subscribes: seq<string>)

  /** Host policy after boot, the admitted manifests, the plugin behind each runtime id, and pattern matching. */
  datatype Policy = Policy(grants: map<string, Grant>, manifests: map<string, Manifest>,
                           pluginOf: string -> string, matches: (string, string) -> bool)

  datatype Delegation = Delegation(principal: string, actors: seq<string>, runtime: string, scope: set<string>)

  // ----- Authorization -----

  predicate AnyMatches(p: Policy, patterns: seq<string>, cap: string) {
    exists i :: 0 <= i < |patterns| && p.matches(patterns[i], cap)
  }

  predicate Granted(p: Policy, identity: string, cap: string) {
    identity in p.grants && AnyMatches(p, p.grants[identity].capabilities, cap)
  }

  predicate Declares(p: Policy, plugin: string, cap: string) {
    plugin in p.manifests && (cap in p.manifests[plugin].required || cap in p.manifests[plugin].optional)
  }

  predicate MayPublish(p: Policy, plugin: string, event: string) {
    && plugin in p.manifests && event in p.manifests[plugin].publishes
    && plugin in p.grants && AnyMatches(p, p.grants[plugin].publishes, event)
  }

  predicate MaySubscribe(p: Policy, plugin: string, event: string) {
    && plugin in p.manifests && event in p.manifests[plugin].subscribes
    && plugin in p.grants && AnyMatches(p, p.grants[plugin].subscribes, event)
  }

  /** The child patterns that `identity`'s delegations attach to the root capability `root`. */
  function DelegatedPatterns(p: Policy, identity: string, root: string): set<string> {
    if identity !in p.grants then {}
    else set t, x | t in p.grants[identity].delegations && p.matches(t, root) && x in p.grants[identity].delegations[t] :: x
  }

  ghost predicate ScopeAllows(p: Policy, scope: set<string>, cap: string) {
    exists x :: x in scope && p.matches(x, cap)
  }

  // ----- Admission of a call -----

  /** Who calls: an external identity, the host on behalf of a plugin, or a plugin's runtime. */
  datatype Caller = External(identity: string) | Host(plugin: string) | Runtime(id: string)

  datatype Context = Context(principal: string, actors: seq<string>, scope: set<string>)

  function NameOf(p: Policy, c: Caller): string {
    match c
    case External(identity) => identity
    case Host(plugin) => plugin
    case Runtime(id) => p.pluginOf(id)
  }

  /** The authority a call would exercise, before it is checked; `token` is "" when the runtime passes none. */
  function ContextOf(p: Policy, delegations: map<string, Delegation>, c: Caller, token: string, cap: string): Option<Context> {
    match c
    case External(identity) => Some(Context(identity, [identity], DelegatedPatterns(p, identity, cap)))
    case Host(plugin) => Some(Context(plugin, [plugin], {}))
    case Runtime(id) =>
      var plugin := p.pluginOf(id);
      if token == "" then
        if plugin in p.grants && p.grants[plugin].serviceAuthority then Some(Context(plugin, [plugin], {})) else None
      else if token in delegations && delegations[token].runtime == id then
        Some(Context(delegations[token].principal, delegations[token].actors + [plugin], delegations[token].scope))
      else None
  }

  ghost predicate Permitted(p: Policy, c: Caller, x: Context, cap: string) {
    if c.External? then Granted(p, c.identity, cap)
    else
      && Declares(p, NameOf(p, c), cap) && Granted(p, NameOf(p, c), cap)
      && (x.principal != NameOf(p, c) ==> Granted(p, x.principal, cap) || ScopeAllows(p, x.scope, cap))
  }

  ghost predicate Admitted(p: Policy, delegations: map<string, Delegation>, c: Caller, token: string, cap: string) {
    var x := ContextOf(p, delegations, c, token, cap);
    x.Some? && Permitted(p, c, x.value, cap)
  }

  // ----- The router object -----

  datatype Error = NeedsDelegation | BadDelegation | NotDeclared | NotGranted | Exceeds

  class Engine {
    const policy: Policy

    constructor (policy: Policy)
      ensures this.policy == policy
    {
      this.policy := policy;
    }

    method MatchList(patterns: seq<string>, cap: string) returns (ok: bool)
      ensures ok == AnyMatches(policy, patterns, cap)
    {
      for i := 0 to |patterns|
        invariant !AnyMatches(policy, patterns[..i], cap)
      {
        if policy.matches(patterns[i], cap) {
          return true;
        }
      }
      assert patterns[..|patterns|] == patterns;
      ok := false;
    }

    method CanExternal(identity: string, cap: string) returns (ok: bool)
      ensures ok == Granted(policy, identity, cap)
    {
      if identity !in policy.grants {
        return false;
      }
      ok := MatchList(policy.grants[identity].capabilities, cap);
    }

    method CanConsume(plugin: string, cap: string) returns (ok: bool)
      ensures ok == (Declares(policy, plugin, cap) && Granted(policy, plugin, cap))
    {
      if !Declares(policy, plugin, cap) {
        return false;
      }
      ok := CanExternal(plugin, cap);
    }

    method CanPublish(plugin: string, event: string) returns (ok: bool)
      ensures ok == MayPublish(policy, plugin, event)
    {
      if plugin !in policy.manifests || event !in policy.manifests[plugin].publishes || plugin !in policy.grants {
        return false;
      }
      ok := MatchList(policy.grants[plugin].publishes, event);
    }

    method CanSubscribe(plugin: string, event: string) returns (ok: bool)
      ensures ok == MaySubscribe(policy, plugin, event)
    {
      if plugin !in policy.manifests || event !in policy.manifests[plugin].subscribes || plugin !in policy.grants {
        return false;
      }
      ok := MatchList(policy.grants[plugin].subscribes, event);
    }

    method FanOut(clients: set<string>, event: string) returns (sentTo: set<string>)
      ensures sentTo == Subscribers(policy, clients, event)
    {
      hide MaySubscribe;
      sentTo := {};
      var rest := clients;
      while rest != {}
        invariant rest <= clients
        invariant sentTo == Subscribers(policy, clients - rest, event)
        decreases |rest|
      {
        var runtime :| runtime in rest;
        var subscribed := CanSubscribe(policy.pluginOf(runtime), event);
        if subscribed {
          sentTo := sentTo + {runtime};
        }
        rest := rest - {runtime};
      }
    }

    /** DelegationScope: concatenates the scopes of the matching triggers, in whatever order the map yields them. */
    method DelegationScope(identity: string, root: string) returns (scope: seq<string>)
      ensures (set x | x in scope) == DelegatedPatterns(policy, identity, root)
    {
      scope := [];
      if identity !in policy.grants {
        return;
      }
      var ds := policy.grants[identity].delegations;
      var rest := ds.Keys;
      while rest != {}
        invariant rest <= ds.Keys
        invariant forall x :: x in scope <==> exists t :: t in ds && t !in rest && policy.matches(t, root) && x in ds[t]
        decreases |rest|
      {
        var t :| t in rest;
        if policy.matches(t, root) {
          scope := scope + ds[t];
        }
        rest := rest - {t};
      }
    }
  }

  datatype Route = Route(provider: string)

  datatype CancelKey = CancelKey(consumer: Caller, request: string)

  datatype Call = Call(caller: Caller, token: string, cap: string, request: string)

  class RouterObject {
    const engine: Engine
    var delegations: map<string, Delegation>
    var inFlight: map<CancelKey, Route>

    constructor (engine: Engine)
      ensures this.engine == engine && delegations == map[] && inFlight == map[]
    {
      this.engine, delegations, inFlight := engine, map[], map[];
    }

    /** The first half of invoke: who is asking, with whose authority, and may they. */
    method Admit(c: Caller, token: string, cap: string) returns (r: Result<Context, Error>)
      ensures r.Ok? <==> Admitted(engine.policy, delegations, c, token, cap)
      ensures r.Ok? ==> Some(r.value) == ContextOf(engine.policy, delegations, c, token, cap)
    {
      var p := engine.policy;
      match c {
        case External(identity) =>
          var granted := engine.CanExternal(identity, cap);
          if !granted {
            return Err(NotGranted);
          }
          var scope := engine.DelegationScope(identity, cap);
          return Ok(Context(identity, [identity], set x | x in scope));
        case Host(plugin) =>
          var ok := engine.CanConsume(plugin, cap);
          return if ok then Ok(Context(plugin, [plugin], {})) else Err(NotDeclared);
        case Runtime(id) =>
          r := AdmitRuntime(id, token, cap);
      }
    }

    /** Whose authority a runtime may use: its token's, or its own when host policy lets it act as a service. */
    method Identify(id: string, token: string) returns (r: Result<Context, Error>)
      ensures var x := ContextOf(engine.policy, delegations, Runtime(id), token, "");
              if x.Some? then r == Ok(x.value) else r == Err(if token == "" then NeedsDelegation else BadDelegation)
    {
      var p := engine.policy;
      var caller := p.pluginOf(id);
      if token == "" {
        if !(caller in p.grants && p.grants[caller].serviceAuthority) {
          return Err(NeedsDelegation);
        }
        return Ok(Context(caller, [caller], {}));
      }
      if token !in delegations || delegations[token].runtime != id {
        return Err(BadDelegation);
      }
      var d := delegations[token];
      r := Ok(Context(d.principal, d.actors + [caller], d.scope));
    }

    method AdmitRuntime(id: string, token: string, cap: string) returns (r: Result<Context, Error>)
      ensures r.Ok? <==> Admitted(engine.policy, delegations, Runtime(id), token, cap)
      ensures r.Ok? ==> Some(r.value) == ContextOf(engine.policy, delegations, Runtime(id), token, cap)
    {
      var p := engine.policy;
      var caller := p.pluginOf(id);
      r := Identify(id, token);
      if r.Err? {
        return;
      }
      var x := r.value;
      var consumes := engine.CanConsume(caller, cap);
      if !consumes {
        return Err(NotDeclared);
      }
      if x.principal != caller {
        var direct := engine.CanExternal(x.principal, cap);
        var delegated := AllowsSet(x.scope, cap);
        if !direct && !delegated {
          return Err(Exceeds);
        }
      }
      r := Ok(x);
    }

    method AllowsSet(scope: set<string>, cap: string) returns (ok: bool)
      ensures ok == ScopeAllows(engine.policy, scope, cap)
    {
      var rest := scope;
      while rest != {}
        invariant rest <= scope
        invariant forall x | x in scope && x !in rest :: !engine.policy.matches(x, cap)
        decreases |rest|
      {
        var x :| x in rest;
        if engine.policy.matches(x, cap) {
          return true;
        }
        rest := rest - {x};
      }
      ok := false;
    }

    /** invoke up to the provider call: issue a token bound to the chosen provider's runtime, note the request. */
    method Begin(call: Call, provider: string, freshToken: string) returns (r: Result<Context, Error>)
      modifies this
      ensures r.Ok? <==> Admitted(engine.policy, old(delegations), call.caller, call.token, call.cap)
      ensures r.Ok? ==>
                && Some(r.value) == ContextOf(engine.policy, old(delegations), call.caller, call.token, call.cap)
                && delegations == old(delegations)[freshToken := Issued(r.value, provider)]
                && inFlight == Noted(old(inFlight), call, provider)
      ensures r.Err? ==> delegations == old(delegations) && inFlight == old(inFlight)
    {
      r := Admit(call.caller, call.token, call.cap);
      if r.Ok? {
        delegations := delegations[freshToken := Issued(r.value, provider)];
        if !call.caller.Host? {
          inFlight := inFlight[KeyOf(call) := Route(provider)];
        }
      }
    }

    /** publishEnvelope: whose event it is, and the connected runtimes it is sent to. */
    method Publish(c: Caller, token: string, event: string, clients: set<string>)
      returns (r: Result<Context, Error>, sentTo: set<string>)
      requires !c.External?
      ensures r.Ok? <==> MayPublish(engine.policy, NameOf(engine.policy, c), event) &&
                         ContextOf(engine.policy, delegations, c, token, event).Some?
      ensures r.Ok? ==> Some(r.value) == ContextOf(engine.policy, delegations, c, token, event)
      ensures sentTo == if r.Ok? then Subscribers(engine.policy, clients, event) else {}
    {
      var p, publisher := engine.policy, NameOf(engine.policy, c);
      sentTo := {};
      var may := engine.CanPublish(publisher, event);
      if !may {
        return Err(NotGranted), {};
      }
      r := Ok(Context(publisher, [publisher], {}));
      if c.Runtime? {
        r := Identify(c.id, token);
      }
      if r.Ok? {
        sentTo := engine.FanOut(clients, event);
      }
    }

    /** The deferred teardown of invoke. */
    method End(call: Call, token: string)
      modifies this
      ensures delegations == old(delegations) - {token}
      ensures inFlight == Forgotten(old(inFlight), call)
    {
      delegations := delegations - {token};
      if !call.caller.Host? {
        inFlight := inFlight - {KeyOf(call)};
      }
    }
  }

  /** The runtimes whose plugin declares the event and is granted it. */
  function Subscribers(p: Policy, clients: set<string>, event: string): set<string> {
    set x | x in clients && MaySubscribe(p, p.pluginOf(x), event)
  }

  function Issued(x: Context, provider: string): Delegation {
    Delegation(x.principal, x.actors, provider, x.scope)
  }

  function KeyOf(call: Call): CancelKey {
    CancelKey(call.caller, call.request)
  }

  function Noted(m: map<CancelKey, Route>, call: Call, provider: string): map<CancelKey, Route> {
    if call.caller.Host? then m else m[KeyOf(call) := Route(provider)]
  }

  function Forgotten(m: map<CancelKey, Route>, call: Call): map<CancelKey, Route> {
    if call.caller.Host? then m else m - {KeyOf(call)}
  }

  // ----- Whole runs: a forest of calls -----

  /** One invoke: its call, its parent if it was made with a token, what it was given, and whether it is still open. */
  datatype Frame = Frame(call: Call, parent: Option<nat>, context: Context, provider: string, token: string, open: bool)

  datatype State = State(delegations: map<string, Delegation>, inFlight: map<CancelKey, Route>, frames: seq<Frame>)

  datatype Event = Opens(call: Call, parent: Option<nat>, provider: string, token: string) | Closes(frame: nat)

  /** The frame whose token a call carries. */
  predicate IsParent(s: State, call: Call, parent: Option<nat>) {
    if call.caller.Runtime? && call.token != "" then
      parent.Some? && parent.value < |s.frames| && s.frames[parent.value].token == call.token
    else parent.None?
  }

  ghost predicate Enabled(p: Policy, s: State, e: Event) {
    match e
    case Opens(call, parent, _, token) =>
      && Admitted(p, s.delegations, call.caller, call.token, call.cap)
      && IsParent(s, call, parent)
      && token != "" && forall i | 0 <= i < |s.frames| :: s.frames[i].token != token
    case Closes(i) => i < |s.frames| && s.frames[i].open
  }

  ghost function Do(p: Policy, s: State, e: Event): State
    requires Enabled(p, s, e)
  {
    match e
    case Opens(call, parent, provider, token) =>
      var x := ContextOf(p, s.delegations, call.caller, call.token, call.cap).value;
      State(s.delegations[token := Issued(x, provider)], Noted(s.inFlight, call, provider),
            s.frames + [Frame(call, parent, x, provider, token, true)])
    case Closes(i) =>
      State(s.delegations - {s.frames[i].token}, Forgotten(s.inFlight, s.frames[i].call),
            s.frames[i := s.frames[i].(open := false)])
  }

  ghost predicate Run(p: Policy, ss: seq<State>, es: seq<Event>) {
    && |ss| == |es| + 1 && ss[0] == State(map[], map[], [])
    && forall i | 0 <= i < |es| :: Enabled(p, ss[i], es[i]) && ss[i + 1] == Do(p, ss[i], es[i])
  }

  /** Parents come before their children. */
  predicate Rooted(s: State) {
    forall i | 0 <= i < |s.frames| && s.frames[i].parent.Some? :: s.frames[i].parent.value < i
  }

  function Root(s: State, i: nat): nat
    requires Rooted(s) && i < |s.frames|
    ensures Root(s, i) <= i && s.frames[Root(s, i)].parent.None?
  {
    if s.frames[i].parent.None? then i else Root(s, s.frames[i].parent.value)
  }

  /** The names of the callers from the root of a call down to the call itself. */
  function PathTo(p: Policy, s: State, i: nat): seq<string>
    requires Rooted(s) && i < |s.frames|
  {
    var name := NameOf(p, s.frames[i].call.caller);
    if s.frames[i].parent.None? then [name] else PathTo(p, s, s.frames[i].parent.value) + [name]
  }

  // ----- The invariant -----

  /** A frame's context is what its root's is, with the path as its actors; its caller is its parent's provider. */
  ghost predicate FrameOk(p: Policy, s: State, i: nat)
    requires Rooted(s) && i < |s.frames|
  {
    var f, r := s.frames[i], s.frames[Root(s, i)];
    && f.context.principal == NameOf(p, r.call.caller)
    && f.context.scope == (if r.call.caller.External? then DelegatedPatterns(p, r.call.caller.identity, r.call.cap) else {})
    && f.context.actors == PathTo(p, s, i)
    && (f.parent.Some? ==> f.call.caller == Runtime(s.frames[f.parent.value].provider))
    && (f.parent.None? && f.call.caller.Runtime? ==> f.call.token == "")
    && Permitted(p, f.call.caller, f.context, f.call.cap)
  }

  /** Every live token is the token of an open frame, and carries that frame's context to that frame's provider. */
  ghost predicate TokensOk(s: State) {
    && (forall t | t in s.delegations :: exists i :: 0 <= i < |s.frames| && s.frames[i].token == t && s.frames[i].open)
    && (forall i | 0 <= i < |s.frames| && s.frames[i].token in s.delegations ::
          s.delegations[s.frames[i].token] == Issued(s.frames[i].context, s.frames[i].provider))
    && (forall i, j | 0 <= i < j < |s.frames| :: s.frames[i].token != s.frames[j].token)
    && (forall i | 0 <= i < |s.frames| :: s.frames[i].token != "")
  }

  /** A request noted for cancellation belongs to an open call of that very consumer, and names its provider. */
  ghost predicate CancelsOk(s: State) {
    forall k | k in s.inFlight :: !k.consumer.Host? && exists i :: 0 <= i < |s.frames| && NotedBy(s, k, i)
  }

  predicate NotedBy(s: State, k: CancelKey, i: nat)
    requires i < |s.frames| && k in s.inFlight
  {
    s.frames[i].open && KeyOf(s.frames[i].call) == k && s.inFlight[k] == Route(s.frames[i].provider)
  }

  ghost predicate Inv(p: Policy, s: State) {
    && Rooted(s) && TokensOk(s) && CancelsOk(s)
    && forall i | 0 <= i < |s.frames| :: FrameOk(p, s, i)
  }

  /** Adding a frame, or closing one, leaves the paths and roots of the others alone. */
  lemma {:induction false} SamePaths(p: Policy, s: State, t: State, i: nat)
    requires Rooted(s) && Rooted(t) && i < |s.frames| <= |t.frames|
    requires forall j | 0 <= j < |s.frames| :: t.frames[j].(open := true) == s.frames[j].(open := true)
    ensures Root(t, i) == Root(s, i) && PathTo(p, t, i) == PathTo(p, s, i)
  {
    assert t.frames[i].(open := true) == s.frames[i].(open := true);
    if s.frames[i].parent.Some? {
      SamePaths(p, s, t, s.frames[i].parent.value);
    }
  }

  lemma OldFramesOk(p: Policy, s: State, t: State)
    requires Inv(p, s) && Rooted(t) && |s.frames| <= |t.frames|
    requires forall j | 0 <= j < |s.frames| :: t.frames[j].(open := true) == s.frames[j].(open := true)
    ensures forall i | 0 <= i < |s.frames| :: FrameOk(p, t, i)
  {
    forall i | 0 <= i < |s.frames| ensures FrameOk(p, t, i) {
      SamePaths(p, s, t, i);
      assert FrameOk(p, s, i);
      assert t.frames[i].(open := true) == s.frames[i].(open := true);
      assert t.frames[Root(s, i)].(open := true) == s.frames[Root(s, i)].(open := true);
      if s.frames[i].parent.Some? {
        var j := s.frames[i].parent.value;
        assert t.frames[j].(open := true) == s.frames[j].(open := true);
      }
    }
  }

  lemma NewIsPermitted(p: Policy, s: State, e: Event)
    requires e.Opens? && Enabled(p, s, e)
    ensures var x := ContextOf(p, s.delegations, e.call.caller, e.call.token, e.call.cap);
            x.Some? && Permitted(p, e.call.caller, x.value, e.call.cap)
  {
  }

  lemma NewFrameOk(p: Policy, s: State, e: Event)
    requires Inv(p, s) && e.Opens? && Enabled(p, s, e)
    ensures Rooted(Do(p, s, e)) && FrameOk(p, Do(p, s, e), |s.frames|)
  {
    hide Permitted, Admitted, CancelsOk, DelegatedPatterns;
    var t, n := Do(p, s, e), |s.frames|;
    var f := t.frames[n];
    NewIsPermitted(p, s, e);
    if f.parent.Some? {
      var j := f.parent.value;
      assert FrameOk(p, s, j);
      SamePaths(p, s, t, j);
      assert t.frames[j] == s.frames[j] && t.frames[Root(s, j)] == s.frames[Root(s, j)];
      assert s.frames[j].token in s.delegations;
    }
  }

  lemma OpenKeepsCancels(p: Policy, s: State, e: Event)
    requires CancelsOk(s) && e.Opens? && Enabled(p, s, e)
    ensures CancelsOk(Do(p, s, e))
  {
    var t, n := Do(p, s, e), |s.frames|;
    forall k | k in t.inFlight
      ensures !k.consumer.Host? && exists i :: 0 <= i < |t.frames| && NotedBy(t, k, i)
    {
      if !e.call.caller.Host? && k == KeyOf(e.call) {
        assert NotedBy(t, k, n);
      } else {
        var i :| 0 <= i < n && NotedBy(s, k, i);
        assert NotedBy(t, k, i);
      }
    }
  }

  lemma OpenKeepsTokens(p: Policy, s: State, e: Event)
    requires TokensOk(s) && e.Opens? && Enabled(p, s, e)
    ensures TokensOk(Do(p, s, e))
  {
    var t, n := Do(p, s, e), |s.frames|;
    forall k | k in t.delegations
      ensures exists i :: 0 <= i < |t.frames| && t.frames[i].token == k && t.frames[i].open
    {
      if k == e.token {
        assert t.frames[n].token == k;
      } else {
        var i :| 0 <= i < n && s.frames[i].token == k && s.frames[i].open;
        assert t.frames[i] == s.frames[i];
      }
    }
  }

  lemma OpenKeepsInv(p: Policy, s: State, e: Event)
    requires Inv(p, s) && e.Opens? && Enabled(p, s, e)
    ensures Inv(p, Do(p, s, e))
  {
    hide TokensOk, CancelsOk, FrameOk, Admitted;
    OpenKeepsTokens(p, s, e);
    OpenKeepsCancels(p, s, e);
    NewFrameOk(p, s, e);
    OldFramesOk(p, s, Do(p, s, e));
  }

  lemma CloseKeepsCancels(p: Policy, s: State, e: Event)
    requires CancelsOk(s) && e.Closes? && Enabled(p, s, e)
    ensures CancelsOk(Do(p, s, e))
  {
    var t, n := Do(p, s, e), e.frame;
    forall k | k in t.inFlight
      ensures !k.consumer.Host? && exists i :: 0 <= i < |t.frames| && NotedBy(t, k, i)
    {
      var i :| 0 <= i < |s.frames| && NotedBy(s, k, i);
      assert i != n;
      assert NotedBy(t, k, i);
    }
  }

  lemma CloseKeepsTokens(p: Policy, s: State, e: Event)
    requires TokensOk(s) && e.Closes? && Enabled(p, s, e)
    ensures TokensOk(Do(p, s, e))
  {
    var t := Do(p, s, e);
    forall k | k in t.delegations
      ensures exists i :: 0 <= i < |t.frames| && t.frames[i].token == k && t.frames[i].open
    {
      var i :| 0 <= i < |s.frames| && s.frames[i].token == k && s.frames[i].open;
      assert t.frames[i] == s.frames[i];
    }
  }

  lemma CloseKeepsInv(p: Policy, s: State, e: Event)
    requires Inv(p, s) && e.Closes? && Enabled(p, s, e)
    ensures Inv(p, Do(p, s, e))
  {
    CloseKeepsTokens(p, s, e);
    CloseKeepsCancels(p, s, e);
    OldFramesOk(p, s, Do(p, s, e));
  }

  lemma {:induction false} RunKeepsInv(p: Policy, ss: seq<State>, es: seq<Event>, i: nat)
    requires Run(p, ss, es) && i <= |es|
    ensures Inv(p, ss[i])
  {
    if i > 0 {
      RunKeepsInv(p, ss, es, i - 1);
      if es[i - 1].Opens? {
        OpenKeepsInv(p, ss[i - 1], es[i - 1]);
      } else {
        CloseKeepsInv(p, ss[i - 1], es[i - 1]);
      }
    }
  }

  // ----- The theorems -----

  /**
   * In every call tree rooted at an external identity: each call below is within the identity's own grants or its
   * delegation list for the root capability; its caller declares and is granted it; the actors are the path.
   */
  lemma ConfusedDeputyFree(p: Policy, ss: seq<State>, es: seq<Event>, n: nat, i: nat)
    requires Run(p, ss, es) && n <= |es| && i < |ss[n].frames|
    ensures Rooted(ss[n])
    ensures var s := ss[n];
            var f, root := s.frames[i], s.frames[Root(s, i)];
            && f.context.actors == PathTo(p, s, i)
            && f.context.principal == NameOf(p, root.call.caller)
            && (root.call.caller.External? ==>
                  var u := root.call.caller.identity;
                  && (Granted(p, u, f.call.cap) || ScopeAllows(p, DelegatedPatterns(p, u, root.call.cap), f.call.cap))
                  && (f.parent.None? ==> Granted(p, u, f.call.cap)))
            && (f.parent.Some? ==>
                  var plugin := p.pluginOf(s.frames[f.parent.value].provider);
                  f.call.caller == Runtime(s.frames[f.parent.value].provider) &&
                  Declares(p, plugin, f.call.cap) && Granted(p, plugin, f.call.cap))
  {
    RunKeepsInv(p, ss, es, n);
    assert FrameOk(p, ss[n], i);
  }

  /** A token is honoured only from the runtime it was issued to, and only while the call that issued it is open. */
  lemma TokenDiesWithCall(p: Policy, ss: seq<State>, es: seq<Event>, n: nat)
    requires Run(p, ss, es) && n < |es| && es[n].Opens?
    requires es[n].call.caller.Runtime? && es[n].call.token != ""
    ensures var s, f := ss[n], es[n].parent;
            && f.Some? && f.value < |s.frames| && s.frames[f.value].open
            && s.frames[f.value].token == es[n].call.token && s.frames[f.value].provider == es[n].call.caller.id
  {
    RunKeepsInv(p, ss, es, n);
    var s := ss[n];
    var i :| 0 <= i < |s.frames| && s.frames[i].token == es[n].call.token && s.frames[i].open;
    assert i == es[n].parent.value;
  }

  /** An event published under a token is stamped with the open call it belongs to: its principal, and its path. */
  lemma EventsCarryTheirCall(p: Policy, ss: seq<State>, es: seq<Event>, n: nat, id: string, token: string, event: string)
    returns (i: nat)
    requires Run(p, ss, es) && n <= |es| && token != ""
    requires ContextOf(p, ss[n].delegations, Runtime(id), token, event).Some?
    ensures Rooted(ss[n])
    ensures i < |ss[n].frames| && ss[n].frames[i].open && ss[n].frames[i].token == token && ss[n].frames[i].provider == id
    ensures var x := ContextOf(p, ss[n].delegations, Runtime(id), token, event).value;
            && x.principal == NameOf(p, ss[n].frames[Root(ss[n], i)].call.caller)
            && x.actors == PathTo(p, ss[n], i) + [p.pluginOf(id)]
  {
    RunKeepsInv(p, ss, es, n);
    var s := ss[n];
    i :| 0 <= i < |s.frames| && s.frames[i].token == token && s.frames[i].open;
    assert FrameOk(p, s, i);
  }

  /** A cancel is forwarded only to the provider of an open call that the same consumer made under that request id. */
  lemma CancelReachesOwnCall(p: Policy, ss: seq<State>, es: seq<Event>, n: nat, k: CancelKey)
    requires Run(p, ss, es) && n <= |es| && k in ss[n].inFlight
    ensures exists i :: 0 <= i < |ss[n].frames| && ss[n].frames[i].open && KeyOf(ss[n].frames[i].call) == k &&
                        ss[n].inFlight[k].provider == ss[n].frames[i].provider
  {
    RunKeepsInv(p, ss, es, n);
    var i :| 0 <= i < |ss[n].frames| && NotedBy(ss[n], k, i);
  }

  // ----- What a call leaves behind, and which entries stand -----

  /**
   A call that opens and closes again leaves the live tokens as they were, and the cancellation entries too exactly
   when its consumer had no entry under that request id.
   */
  lemma EndUndoesBegin(p: Policy, s: State, e: Event)
    requires Inv(p, s) && e.Opens? && Enabled(p, s, e)
    ensures Enabled(p, Do(p, s, e), Closes(|s.frames|))
    ensures var t := Do(p, Do(p, s, e), Closes(|s.frames|));
            && t.delegations == s.delegations
            && (t.inFlight == s.inFlight <==> e.call.caller.Host? || KeyOf(e.call) !in s.inFlight)
  {
    hide Admitted, CancelsOk, FrameOk, ContextOf, IsParent;
    var k, n, t := KeyOf(e.call), |s.frames|, Do(p, s, e);
    assert e.token !in s.delegations;
    assert t.frames[n].open && t.frames[n].token == e.token && t.frames[n].call == e.call;
    if !e.call.caller.Host? && k in s.inFlight {
      assert k !in Do(p, t, Closes(n)).inFlight;
    }
  }

  predicate StartsUnder(e: Event, k: CancelKey) {
    e.Opens? && !e.call.caller.Host? && KeyOf(e.call) == k
  }

  predicate EndsUnder(s: State, e: Event, k: CancelKey) {
    e.Closes? && e.frame < |s.frames| && !s.frames[e.frame].call.caller.Host? && KeyOf(s.frames[e.frame].call) == k
  }

  /** Step `m` started a call under `k`, and up to step `n` no call under `k` started or ended since. */
  ghost predicate LastStart(ss: seq<State>, es: seq<Event>, n: nat, k: CancelKey, m: nat)
    requires n <= |es| < |ss|
  {
    m < n && StartsUnder(es[m], k) && forall u | m < u < n :: !StartsUnder(es[u], k) && !EndsUnder(ss[u], es[u], k)
  }

  lemma EntryStep(p: Policy, s: State, e: Event, k: CancelKey)
    requires Enabled(p, s, e)
    ensures var t := Do(p, s, e);
            && (StartsUnder(e, k) ==> k in t.inFlight && t.inFlight[k] == Route(e.provider))
            && (EndsUnder(s, e, k) ==> k !in t.inFlight)
            && (!StartsUnder(e, k) && !EndsUnder(s, e, k) ==>
                  (k in t.inFlight <==> k in s.inFlight) && (k in s.inFlight ==> t.inFlight[k] == s.inFlight[k]))
  {
  }

  /**
   A cancellation entry stands exactly when the last call of that consumer to start or end under that request id was
   one that started, and it names that call's provider.
   */
  lemma {:induction false} EntryIsLastStart(p: Policy, ss: seq<State>, es: seq<Event>, n: nat, k: CancelKey)
    requires Run(p, ss, es) && n <= |es|
    ensures k in ss[n].inFlight <==> exists m: nat :: LastStart(ss, es, n, k, m)
    ensures forall m: nat :: LastStart(ss, es, n, k, m) ==> k in ss[n].inFlight && ss[n].inFlight[k] == Route(es[m].provider)
  {
    hide Do, Enabled, StartsUnder, EndsUnder;
    if n > 0 {
      var i := n - 1;
      EntryIsLastStart(p, ss, es, i, k);
      assert Enabled(p, ss[i], es[i]) && ss[n] == Do(p, ss[i], es[i]);
      EntryStep(p, ss[i], es[i], k);
      NotBoth(ss[i], es[i], k);
      if StartsUnder(es[i], k) {
        assert LastStart(ss, es, n, k, i);
      } else if !EndsUnder(ss[i], es[i], k) {
        assert forall m: nat :: m < i ==> (LastStart(ss, es, n, k, m) <==> LastStart(ss, es, i, k, m));
      }
    }
  }

  lemma NotBoth(s: State, e: Event, k: CancelKey)
    ensures !(StartsUnder(e, k) && EndsUnder(s, e, k))
  {
  }

  /** No consumer has two open calls under one request id. */
  ghost predicate IdsDistinct(s: State) {
    forall i, j | 0 <= i < j < |s.frames| && s.frames[i].open && s.frames[j].open && !s.frames[i].call.caller.Host? ::
      KeyOf(s.frames[i].call) != KeyOf(s.frames[j].call)
  }

  predicate Cancellable(s: State, f: Frame) {
    KeyOf(f.call) in s.inFlight && s.inFlight[KeyOf(f.call)] == Route(f.provider)
  }

  lemma OpenStaysCancellable(p: Policy, s: State, e: Event, i: nat)
    requires Enabled(p, s, e) && IdsDistinct(s) && IdsDistinct(Do(p, s, e)) && i < |Do(p, s, e).frames|
    requires i < |s.frames| && s.frames[i].open && !s.frames[i].call.caller.Host? ==> Cancellable(s, s.frames[i])
    ensures var t := Do(p, s, e);
            t.frames[i].open && !t.frames[i].call.caller.Host? ==> Cancellable(t, t.frames[i])
  {
    hide Admitted, ContextOf, Granted, Permitted;
    var t := Do(p, s, e);
    if t.frames[i].open && !t.frames[i].call.caller.Host? {
      var k := KeyOf(t.frames[i].call);
      EntryStep(p, s, e, k);
      if e.Opens? && i < |s.frames| {
        assert t.frames[i] == s.frames[i] && t.frames[|s.frames|].call == e.call;
        assert KeyOf(e.call) != k;
      } else if e.Closes? {
        assert e.frame != i && s.frames[i] == t.frames[i];
        assert KeyOf(s.frames[e.frame].call) != k;
      }
    }
  }

  /** While consumers keep the ids of their open calls distinct, every open call can be cancelled. */
  lemma {:induction false} DistinctIdsKeepEntries(p: Policy, ss: seq<State>, es: seq<Event>, n: nat)
    requires Run(p, ss, es) && n <= |es|
    requires forall m | 0 <= m <= n :: IdsDistinct(ss[m])
    ensures forall i | 0 <= i < |ss[n].frames| && ss[n].frames[i].open && !ss[n].frames[i].call.caller.Host? ::
              Cancellable(ss[n], ss[n].frames[i])
  {
    if n > 0 {
      var m := n - 1;
      DistinctIdsKeepEntries(p, ss, es, m);
      assert Enabled(p, ss[m], es[m]) && ss[n] == Do(p, ss[m], es[m]);
      assert IdsDistinct(ss[m]) && IdsDistinct(ss[n]);
      forall i | 0 <= i < |ss[n].frames| && ss[n].frames[i].open && !ss[n].frames[i].call.caller.Host?
        ensures Cancellable(ss[n], ss[n].frames[i])
      {
        OpenStaysCancellable(p, ss[m], es[m], i);
      }
    }
  }

  function CallBy(u: string, cap: string): Call {
    Call(External(u), "", cap, "r")
  }

  /**
   Two calls of one consumer under one id: once the first has ended, the other is the only open call under the id, and
   cannot be cancelled. Being alone under its id is not enough.
   */
  lemma SharedIdLosesEntry(p: Policy, u: string, cap: string, a: string, b: string)
    returns (ss: seq<State>, es: seq<Event>)
    requires Granted(p, u, cap)
    ensures Run(p, ss, es) && |es| == 3 && IdsDistinct(ss[3])
    ensures |ss[3].frames| == 2 && ss[3].frames[1].open && ss[3].frames[1].provider == b
    ensures KeyOf(ss[3].frames[1].call) !in ss[3].inFlight
  {
    var s0 := State(map[], map[], []);
    var e0, e1, e2 := Opens(CallBy(u, cap), None, a, "t"), Opens(CallBy(u, cap), None, b, "tt"), Closes(0);
    var s1 := Do(p, s0, e0);
    assert s1.frames[0].token == "t" && |s1.frames| == 1;
    assert "t" != "tt";
    var s2 := Do(p, s1, e1);
    assert s2.frames[0].open;
    var s3 := Do(p, s2, e2);
    ss, es := [s0, s1, s2, s3], [e0, e1, e2];
  }
}
