/**
 Which calls the router admits (kernel/internal/router/router.go:241-294, kernel/internal/authz/authz.go), told in terms
 of the host policy's patterns and the open calls alone.
 */
module CallAuthority {
  import opened Router

  /** One of the identity's capability patterns matches. */
  ghost predicate GrantedByPolicy(p: Policy, identity: string, cap: string) {
    identity in p.grants &&
    exists i :: 0 <= i < |p.grants[identity].capabilities| && p.matches(p.grants[identity].capabilities[i], cap)
  }

  /** A delegation of the identity whose trigger matches `root` lists a pattern that matches `cap`. */
  ghost predicate DelegatedByPolicy(p: Policy, identity: string, root: string, cap: string) {
    identity in p.grants &&
    var ds := p.grants[identity].delegations;
    exists t, i :: t in ds && 0 <= i < |ds[t]| && p.matches(t, root) && p.matches(ds[t][i], cap)
  }

  /** The plugin's manifest declares that it consumes the capability, and the policy grants it to the plugin. */
  ghost predicate MayConsume(p: Policy, plugin: string, cap: string) {
    && plugin in p.manifests
    && (cap in p.manifests[plugin].required || cap in p.manifests[plugin].optional)
    && GrantedByPolicy(p, plugin, cap)
  }

  lemma ScopeMeans(p: Policy, identity: string, root: string, cap: string)
    ensures ScopeAllows(p, DelegatedPatterns(p, identity, root), cap) <==> DelegatedByPolicy(p, identity, root, cap)
  {
    var scope := DelegatedPatterns(p, identity, root);
    if identity in p.grants {
      var ds := p.grants[identity].delegations;
      if ScopeAllows(p, scope, cap) {
        var x :| x in scope && p.matches(x, cap);
        var t :| t in ds && p.matches(t, root) && x in ds[t];
        var i :| 0 <= i < |ds[t]| && ds[t][i] == x;
      }
      if DelegatedByPolicy(p, identity, root, cap) {
        var t, i :| t in ds && 0 <= i < |ds[t]| && p.matches(t, root) && p.matches(ds[t][i], cap);
        var x := ds[t][i];
        assert x in ds[t];
        assert x in scope;
      }
    }
  }

  // ----- The tokens of open calls -----

  ghost predicate TokensLive(s: State) {
    forall i | 0 <= i < |s.frames| && s.frames[i].open :: s.frames[i].token in s.delegations
  }

  lemma StepKeepsTokensLive(p: Policy, s: State, e: Event)
    requires TokensOk(s) && TokensLive(s) && Enabled(p, s, e)
    ensures TokensLive(Do(p, s, e))
  {
    hide Admitted, ContextOf, IsParent;
    var t := Do(p, s, e);
    forall i | 0 <= i < |t.frames| && t.frames[i].open ensures t.frames[i].token in t.delegations {
      if e.Closes? {
        assert i != e.frame && t.frames[i] == s.frames[i];
      }
    }
  }

  lemma {:induction false} OpenTokensLive(p: Policy, ss: seq<State>, es: seq<Event>, n: nat)
    requires Run(p, ss, es) && n <= |es|
    ensures TokensLive(ss[n])
  {
    hide Do, Enabled, FrameOk;
    if n > 0 {
      OpenTokensLive(p, ss, es, n - 1);
      RunKeepsInv(p, ss, es, n - 1);
      StepKeepsTokensLive(p, ss[n - 1], es[n - 1]);
    }
  }

  // ----- Who is admitted -----

  /** Call `i` is open, and the runtime serves it under the token. */
  predicate ServesUnder(s: State, runtime: string, token: string, i: nat) {
    i < |s.frames| && s.frames[i].open && s.frames[i].provider == runtime && s.frames[i].token == token
  }

  /** The principal at the root of call `i` may use the capability: it is the plugin itself, or is granted, or has delegated. */
  ghost predicate WithinRoot(p: Policy, s: State, i: nat, plugin: string, cap: string)
    requires Rooted(s) && i < |s.frames|
  {
    var root := s.frames[Root(s, i)].call;
    var principal := NameOf(p, root.caller);
    || principal == plugin
    || GrantedByPolicy(p, principal, cap)
    || (root.caller.External? && DelegatedByPolicy(p, principal, root.cap, cap))
  }

  /** A runtime that passes a token: exactly while it serves the token's call, within its own grant and the root's authority. */
  ghost predicate ChildAdmitted(p: Policy, s: State, runtime: string, token: string, cap: string)
    requires Rooted(s)
  {
    var plugin := p.pluginOf(runtime);
    MayConsume(p, plugin, cap) && exists i :: ServesUnder(s, runtime, token, i) && WithinRoot(p, s, i, plugin, cap)
  }

  lemma OneFrameServes(s: State, runtime: string, token: string, i: nat, j: nat)
    requires TokensOk(s) && ServesUnder(s, runtime, token, i) && ServesUnder(s, runtime, token, j)
    ensures i == j
  {
  }

  lemma TokenOfFrame(p: Policy, s: State, runtime: string, token: string, i: nat)
    requires Inv(p, s) && TokensLive(s) && token != "" && ServesUnder(s, runtime, token, i)
    ensures var x := ContextOf(p, s.delegations, Runtime(runtime), token, "");
            && x.Some? && x.value.principal == NameOf(p, s.frames[Root(s, i)].call.caller)
            && x.value.scope == s.frames[i].context.scope
  {
    assert FrameOk(p, s, i);
    assert s.delegations[s.frames[i].token] == Issued(s.frames[i].context, s.frames[i].provider);
  }

  lemma ScopeOfFrame(p: Policy, s: State, i: nat, cap: string)
    requires Inv(p, s) && i < |s.frames|
    ensures var root := s.frames[Root(s, i)].call;
            ScopeAllows(p, s.frames[i].context.scope, cap) <==>
            root.caller.External? && DelegatedByPolicy(p, NameOf(p, root.caller), root.cap, cap)
  {
    hide DelegatedPatterns, DelegatedByPolicy;
    assert FrameOk(p, s, i);
    var root := s.frames[Root(s, i)].call;
    if root.caller.External? {
      ScopeMeans(p, root.caller.identity, root.cap, cap);
    }
  }

  lemma GrantMeans(p: Policy, plugin: string, cap: string)
    ensures Granted(p, plugin, cap) <==> GrantedByPolicy(p, plugin, cap)
    ensures Declares(p, plugin, cap) && Granted(p, plugin, cap) <==> MayConsume(p, plugin, cap)
  {
  }

  lemma ChildMeans(p: Policy, s: State, runtime: string, token: string, cap: string)
    requires Inv(p, s) && TokensLive(s) && token != ""
    ensures Admitted(p, s.delegations, Runtime(runtime), token, cap) <==> ChildAdmitted(p, s, runtime, token, cap)
  {
    hide FrameOk, MayConsume, GrantedByPolicy, DelegatedByPolicy, Granted, Declares, ScopeAllows, CancelsOk;
    var plugin := p.pluginOf(runtime);
    GrantMeans(p, plugin, cap);
    if i :| ServesUnder(s, runtime, token, i) {
      TokenOfFrame(p, s, runtime, token, i);
      ScopeOfFrame(p, s, i, cap);
      GrantMeans(p, NameOf(p, s.frames[Root(s, i)].call.caller), cap);
      forall j | ServesUnder(s, runtime, token, j) ensures j == i {
        OneFrameServes(s, runtime, token, i, j);
      }
    } else if token in s.delegations {
      var i :| 0 <= i < |s.frames| && s.frames[i].token == token && s.frames[i].open;
      assert s.delegations[token] == Issued(s.frames[i].context, s.frames[i].provider);
      assert !ServesUnder(s, runtime, token, i);
    }
  }

  /**
   The router's whole verdict in every run: an external identity needs a capability pattern; the host acting for a plugin
   needs the plugin's declaration and grant; a runtime without a token needs these and service authority; a runtime with
   a token needs these, to be serving the open call the token was issued for, and the authority of that call's root.
   */
  lemma AdmittedIff(p: Policy, ss: seq<State>, es: seq<Event>, n: nat, c: Caller, token: string, cap: string)
    requires Run(p, ss, es) && n <= |es|
    ensures Rooted(ss[n])
    ensures Admitted(p, ss[n].delegations, c, token, cap) <==>
            match c
            case External(identity) => GrantedByPolicy(p, identity, cap)
            case Host(plugin) => MayConsume(p, plugin, cap)
            case Runtime(id) =>
              if token != "" then ChildAdmitted(p, ss[n], id, token, cap)
              else
                && p.pluginOf(id) in p.grants && p.grants[p.pluginOf(id)].serviceAuthority
                && MayConsume(p, p.pluginOf(id), cap)
  {
    hide Inv, MayConsume, GrantedByPolicy, ChildAdmitted, Granted, Declares, DelegatedPatterns;
    RunKeepsInv(p, ss, es, n);
    OpenTokensLive(p, ss, es, n);
    InvIsRooted(p, ss[n]);
    GrantMeans(p, NameOf(p, c), cap);
    if c.Runtime? && token != "" {
      ChildMeans(p, ss[n], c.id, token, cap);
    }
  }

  lemma InvIsRooted(p: Policy, s: State)
    requires Inv(p, s)
    ensures Rooted(s)
  {
  }

  /** In a call tree rooted at an external identity every call is granted or delegated to that identity, for that root. */
  lemma NoCallExceedsItsRoot(p: Policy, ss: seq<State>, es: seq<Event>, n: nat, i: nat)
    requires Run(p, ss, es) && n <= |es| && i < |ss[n].frames|
    ensures Rooted(ss[n])
    ensures var cap, root := ss[n].frames[i].call.cap, ss[n].frames[Root(ss[n], i)].call;
            root.caller.External? ==>
              GrantedByPolicy(p, root.caller.identity, cap) || DelegatedByPolicy(p, root.caller.identity, root.cap, cap)
  {
    hide FrameOk, Inv, DelegatedPatterns, DelegatedByPolicy, GrantedByPolicy, Granted;
    ConfusedDeputyFree(p, ss, es, n, i);
    var cap, root := ss[n].frames[i].call.cap, ss[n].frames[Root(ss[n], i)].call;
    if root.caller.External? {
      GrantMeans(p, root.caller.identity, cap);
      ScopeMeans(p, root.caller.identity, root.cap, cap);
    }
  }

  /** A delegation whose trigger does not match the root call adds nothing to its scope, whatever patterns it lists. */
  lemma OtherTriggersAddNothing(p: Policy, identity: string, root: string, t: string, patterns: seq<string>)
    requires identity in p.grants && !p.matches(t, root)
    ensures var g := p.grants[identity];
            var q := p.(grants := p.grants[identity := g.(delegations := g.delegations[t := patterns])]);
            DelegatedPatterns(q, identity, root) == DelegatedPatterns(p, identity, root)
  {
    var g := p.grants[identity];
    var q := p.(grants := p.grants[identity := g.(delegations := g.delegations[t := patterns])]);
    var before, after := DelegatedPatterns(p, identity, root), DelegatedPatterns(q, identity, root);
    forall x ensures x in before <==> x in after {
      if x in before {
        var u :| u in g.delegations && p.matches(u, root) && x in g.delegations[u];
        assert u in q.grants[identity].delegations && q.matches(u, root) && x in q.grants[identity].delegations[u];
      }
      if x in after {
        var u :| u in q.grants[identity].delegations && q.matches(u, root) && x in q.grants[identity].delegations[u];
        assert u in g.delegations && p.matches(u, root) && x in g.delegations[u];
      }
    }
  }

  // ----- Events -----

  ghost predicate MatchesOne(p: Policy, patterns: seq<string>, event: string) {
    exists i :: 0 <= i < |patterns| && p.matches(patterns[i], event)
  }

  /** An event from `publisher` goes to `runtime`: both plugins declare it, and the policy grants each its side. */
  ghost predicate Flows(p: Policy, publisher: string, runtime: string, event: string) {
    var reader := p.pluginOf(runtime);
    && publisher in p.manifests && event in p.manifests[publisher].publishes
    && publisher in p.grants && MatchesOne(p, p.grants[publisher].publishes, event)
    && reader in p.manifests && event in p.manifests[reader].subscribes
    && reader in p.grants && MatchesOne(p, p.grants[reader].subscribes, event)
  }

  /** What a publisher who is admitted reaches is what the policy lets flow, of the runtimes connected. */
  lemma EventsFlow(p: Policy, publisher: string, clients: set<string>, event: string)
    ensures (if MayPublish(p, publisher, event) then Subscribers(p, clients, event) else {}) ==
            set x | x in clients && Flows(p, publisher, x, event)
  {
    forall x ensures MayPublish(p, publisher, event) && MaySubscribe(p, p.pluginOf(x), event) <==> Flows(p, publisher, x, event) {
    }
  }
}
