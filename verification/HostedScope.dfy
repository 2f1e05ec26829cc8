/** The domain scope of a hosted session: what is selected, and what one request may use of it. */
module HostedScope {
  import opened Options
  import opened Sorting

  datatype Scope = Scope(read: seq<string>, write: seq<string>, primary: Option<string>)

  datatype Source = TokenDefault | Session

  // ---------------------------------------------------------------- scopes

  predicate Subset(a: seq<string>, b: seq<string>) { forall d :: d in a ==> d in b }

  /** Writable domains are readable, and there is a primary exactly when something is writable. */
  predicate WellScoped(s: Scope) {
    && Subset(s.write, s.read)
    && if s.primary.Some? then s.primary.value in s.write else s.write == []
  }

  predicate Within(s: Scope, grants: Scope, extra: set<string>) {
    && (forall d :: d in s.read ==> d in grants.read || d in extra)
    && (forall d :: d in s.write ==> d in grants.write || d in extra)
  }

  /** `_effective_binding`: what is left of a selection under the grants of one request. */
  function Effective(selected: Scope, grants: Scope): Scope {
    var read := Filter(selected.read, (d: string) => d in grants.read);
    var write := Filter(selected.write, (d: string) => d in grants.write && d in read);
    Scope(read, write,
          if selected.primary.Some? && selected.primary.value in write then selected.primary
          else if write != [] then Some(write[0]) else None)
  }

  /** A scope with one more writable domain, which becomes its primary. */
  function Expanded(s: Scope, domain: string): Scope {
    Scope(Dedup(s.read + [domain]), Dedup(s.write + [domain]), Some(domain))
  }

  lemma ExpandedIsScoped(s: Scope, domain: string, grants: Scope, created: set<string>)
    ensures WellScoped(s) ==> WellScoped(Expanded(s, domain))
    ensures Within(s, grants, created) ==> Within(Expanded(s, domain), grants, created + {domain})
  {
    DedupMembers(s.read + [domain]);
    DedupMembers(s.write + [domain]);
  }

  lemma DedupIsScoped(s: Scope, grants: Scope)
    requires WellScoped(s) && Within(s, grants, {})
    ensures var d := Scope(Dedup(s.read), Dedup(s.write), s.primary); WellScoped(d) && Within(d, grants, {})
  {
    DedupMembers(s.read);
    DedupMembers(s.write);
  }

  /** Whatever was selected, a request sees exactly what its token still grants, well scoped. */
  lemma EffectiveScope(selected: Scope, grants: Scope)
    ensures var e := Effective(selected, grants);
            && WellScoped(e) && Within(e, grants, {})
            && (forall d :: d in e.read <==> d in selected.read && d in grants.read)
            && (forall d :: d in e.write <==> d in selected.write && d in grants.write && d in e.read)
            && (selected.primary.Some? && selected.primary.value in e.write ==> e.primary == selected.primary)
  {
    var read := Filter(selected.read, (d: string) => d in grants.read);
    FilterMembers(selected.read, (d: string) => d in grants.read);
    FilterMembers(selected.write, (d: string) => d in grants.write && d in read);
  }

  /** A well-formed selection that is fully granted comes through untouched. */
  lemma EffectiveKeepsGranted(selected: Scope, grants: Scope)
    requires WellScoped(selected) && Within(selected, grants, {})
    ensures Effective(selected, grants) == selected
  {
    FilterAll(selected.read, (d: string) => d in grants.read);
    FilterAll(selected.write, (d: string) => d in grants.write && d in selected.read);
  }

  // ---------------------------------------------------------------- selecting

  /** What one `wiki_bind` call names; the scope of the request fills in the rest. */
  datatype Ask = Ask(read: Option<seq<string>>, write: Option<seq<string>>, primary: Option<string>)

  function Asked(current: Scope, ask: Ask): Scope {
    var write := if ask.write.Some? then ask.write.value else current.write;
    Scope(if ask.read.Some? then ask.read.value else current.read, write,
          if ask.primary.Some? then ask.primary
          else if current.primary.Some? && current.primary.value in write then current.primary
          else if write != [] then Some(write[0]) else None)
  }

  /** What a call leaves out stays as it is, except that a primary no longer writable gives way to the first writable domain. */
  lemma AskFillsIn(current: Scope, ask: Ask)
    ensures var asked := Asked(current, ask);
            && (ask.read == Some(asked.read) || (ask.read == None && asked.read == current.read))
            && (ask.write == Some(asked.write) || (ask.write == None && asked.write == current.write))
            && (ask.primary.Some? ==> asked.primary == ask.primary)
            && (ask.primary.None? && current.primary.Some? && current.primary.value in asked.write ==> asked.primary == current.primary)
            && (ask.primary.None? && (current.primary.None? || current.primary.value !in asked.write) ==>
                  if asked.write == [] then asked.primary.None? else asked.primary == Some(asked.write[0]))
    ensures ask == Ask(None, None, None) && WellScoped(current) ==> Asked(current, ask) == current
  {
  }

  /** Every domain that the call itself names is granted: to read, or to write for a writable one and for a primary. */
  predicate OnlyGranted(ask: Ask, grants: Scope) {
    && (ask.read.Some? ==> Subset(ask.read.value, grants.read))
    && (ask.write.Some? ==> Subset(ask.write.value, grants.write))
    && (ask.primary.Some? ==> ask.primary.value in grants.write)
  }

  datatype Refusal = DomainNotGranted | ReadProtected | WriteProtected | WriteNotRead | PrimaryNotWritable | NotFound(domain: string)

  datatype BindResult = Refused(reason: Refusal) | Selected(scope: Scope)

  datatype Call = Bind(ask: Ask, existing: set<string>) | Create(domain: string)

  datatype Request = Request(grants: Scope, calls: seq<Call>)

  ghost function Created(calls: seq<Call>): set<string> {
    if calls == [] then {}
    else Created(calls[..|calls| - 1]) + match calls[|calls| - 1] case Create(domain) => {domain} case Bind(_, _) => {}
  }

  class SelectedState {
    var scope: Scope
    var source: Source

    constructor (scope: Scope, source: Source)
      ensures this.scope == scope && this.source == source
    {
      this.scope, this.source := scope, source;
    }

    method Set(scope: Scope)
      modifies this
      ensures this.scope == scope && source == Session
    {
      this.scope, source := scope, Session;
    }
  }

  class BindingState {
    const selected: SelectedState
    var effective: Scope
    /** The unnarrowed grants of the current request. */
    var token: Option<Scope>
    var requestedPrimary: Option<string>
    var primarySubstituted: bool

    /** A session that has selected nothing starts from the grants of its token. */
    constructor (grants: Scope)
      ensures fresh(selected) && selected.scope == grants && selected.source == TokenDefault
      ensures effective == grants && token.None?
    {
      selected := new SelectedState(grants, TokenDefault);
      effective, token, requestedPrimary, primarySubstituted := grants, None, None, false;
    }

    /** During a request, with the domains it has created so far. */
    ghost predicate Serving(created: set<string>)
      reads this
    {
      token.Some? && WellScoped(effective) && Within(effective, token.value, created)
    }

    method SetEffective(scope: Scope, grants: Scope, requested: Option<string>, substituted: bool)
      modifies this
      ensures effective == scope && token == Some(grants)
      ensures requestedPrimary == requested && primarySubstituted == substituted
    {
      effective, token, requestedPrimary, primarySubstituted := scope, Some(grants), requested, substituted;
    }

    method ResetEffective()
      modifies this
      ensures effective == selected.scope && token.None? && requestedPrimary.None? && !primarySubstituted
    {
      effective, token, requestedPrimary, primarySubstituted := selected.scope, None, None, false;
    }

    /** Before a request is dispatched. */
    method BeginRequest(grants: Scope)
      modifies this
      ensures effective == Effective(selected.scope, grants) && token == Some(grants)
      ensures Serving({})
      ensures requestedPrimary == selected.scope.primary
      ensures primarySubstituted <==>
                selected.scope.primary.Some? && selected.scope.primary.value !in effective.write
    {
      var current := Effective(selected.scope, grants);
      EffectiveScope(selected.scope, grants);
      var requested := selected.scope.primary;
      SetEffective(current, grants, requested, requested.Some? && current.primary != requested);
    }

    /** Both checks of a selection: the middleware's against the grants, then the tool's own. */
    method Bind(ask: Ask, existing: set<string>, ghost created: set<string>) returns (r: BindResult)
      requires Serving(created)
      modifies this, selected
      ensures token == old(token) && Serving(created)
      ensures r.Selected? <==>
                var asked := Asked(old(effective), ask);
                && WellScoped(asked) && Within(asked, token.value, {})
                && (forall d :: d in asked.read ==> d in existing)
      ensures r.Selected? ==>
                var asked := Asked(old(effective), ask);
                && r.scope == Scope(Dedup(asked.read), Dedup(asked.write), asked.primary)
                && selected.scope == effective == r.scope && selected.source == Session
                && WellScoped(r.scope) && Within(r.scope, token.value, {})
      ensures r == Refused(DomainNotGranted) <==> !OnlyGranted(ask, token.value)
      ensures r.Refused? && r.reason.NotFound? ==> r.reason.domain !in existing && r.reason.domain in Asked(old(effective), ask).read
      ensures !r.Selected? ==>
                selected.scope == old(selected.scope) && selected.source == old(selected.source) && effective == old(effective)
    {
      var grants := token.value;
      var named := (if ask.write.Some? then ask.write.value else []) + if ask.primary.Some? then [ask.primary.value] else [];
      if !Subset(if ask.read.Some? then ask.read.value else [], grants.read) || !Subset(named, grants.write) {
        assert ask.primary.Some? ==> ask.primary.value in named;
        return Refused(DomainNotGranted);
      }
      var asked := Asked(effective, ask);
      if !Subset(asked.read, grants.read) {
        return Refused(ReadProtected);
      }
      if !Subset(asked.write, grants.write) {
        return Refused(WriteProtected);
      }
      if !Subset(asked.write, asked.read) {
        return Refused(WriteNotRead);
      }
      if (asked.write != [] && (asked.primary.None? || asked.primary.value !in asked.write))
         || (asked.write == [] && asked.primary.Some?) {
        return Refused(PrimaryNotWritable);
      }
      var wanted := asked.read + asked.write;
      for i := 0 to |wanted|
        invariant forall k :: 0 <= k < i ==> wanted[k] in existing
      {
        if wanted[i] !in existing {
          return Refused(NotFound(wanted[i]));
        }
      }
      assert forall d :: d in asked.read ==> d in wanted;
      var narrowed := Scope(Dedup(asked.read), Dedup(asked.write), asked.primary);
      DedupIsScoped(asked, grants);
      selected.Set(narrowed);
      effective := narrowed;
      r := Selected(narrowed);
    }

    /** A domain created during the request joins both the selection and the request, as their primary. */
    method ExpandDomain(domain: string, ghost created: set<string>)
      requires Serving(created)
      modifies this, selected
      ensures token == old(token) && Serving(created + {domain})
      ensures effective == Expanded(old(effective), domain)
      ensures selected.scope == Expanded(old(selected.scope), domain)
      ensures selected.source == Session
      ensures WellScoped(old(selected.scope)) ==> WellScoped(selected.scope)
    {
      ExpandedIsScoped(effective, domain, token.value, created);
      ExpandedIsScoped(selected.scope, domain, token.value, created);
      var scope := Expanded(selected.scope, domain);
      effective := Expanded(effective, domain);
      selected.Set(scope);
    }

    /** One call of a request. */
    method Dispatch(call: Call, ghost before: seq<Call>)
      requires Serving(Created(before))
      modifies this, selected
      ensures token == old(token) && Serving(Created(before + [call]))
    {
      assert (before + [call])[..|before|] == before;
      match call {
        case Bind(ask, existing) =>
          var _ := Bind(ask, existing, Created(before));
        case Create(domain) =>
          ExpandDomain(domain, Created(before));
      }
    }

    /** One request: every call of it leaves a scope that its token grants or that it has created itself (`scopes`). */
    method Serve(request: Request) returns (start: Scope, scopes: seq<Scope>)
      modifies this, selected
      ensures start == Effective(old(selected.scope), request.grants)
      ensures WellScoped(start) && Within(start, request.grants, {})
      ensures |scopes| == |request.calls|
      ensures forall i :: 0 <= i < |scopes| ==>
                WellScoped(scopes[i]) && Within(scopes[i], request.grants, Created(request.calls[..i + 1]))
      ensures effective == selected.scope && token.None?
    {
      EffectiveScope(selected.scope, request.grants);
      BeginRequest(request.grants);
      start, scopes := effective, [];
      for i := 0 to |request.calls|
        invariant token == Some(request.grants) && Serving(Created(request.calls[..i]))
        invariant |scopes| == i
        invariant forall k :: 0 <= k < i ==>
                    WellScoped(scopes[k]) && Within(scopes[k], request.grants, Created(request.calls[..k + 1]))
      {
        assert request.calls[..i + 1] == request.calls[..i] + [request.calls[i]];
        Dispatch(request.calls[i], request.calls[..i]);
        scopes := scopes + [effective];
      }
      ResetEffective();
    }

    /** A whole session, whatever the grants become between its requests. */
    method Run(requests: seq<Request>) returns (starts: seq<Scope>)
      modifies this, selected
      ensures |starts| == |requests|
      ensures forall i :: 0 <= i < |starts| ==> WellScoped(starts[i]) && Within(starts[i], requests[i].grants, {})
    {
      starts := [];
      for i := 0 to |requests|
        invariant |starts| == i
        invariant forall k :: 0 <= k < i ==> WellScoped(starts[k]) && Within(starts[k], requests[k].grants, {})
      {
        var start, _ := Serve(requests[i]);
        starts := starts + [start];
      }
    }

    /** However narrow the session has become, any granted scope over existing domains can be selected again. */
    method SelectAgain(earlier: seq<Request>, scope: Scope, grants: Scope, existing: set<string>) returns (next: Scope)
      requires WellScoped(scope) && Within(scope, grants, {}) && forall d :: d in scope.read ==> d in existing
      modifies this, selected
      ensures next == Scope(Dedup(scope.read), Dedup(scope.write), scope.primary)
      ensures selected.scope == next && selected.source == Session
    {
      var _ := Run(earlier);
      BeginRequest(grants);
      var r := Bind(Ask(Some(scope.read), Some(scope.write), scope.primary), existing, {});
      ResetEffective();
      EffectiveKeepsGranted(selected.scope, grants);
      BeginRequest(grants);
      next := effective;
    }
  }
}
