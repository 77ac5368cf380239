/** The secure-query middleware: it decides whether the caller may skip
    tenant isolation, injects the trusted subdomain filter when it may not,
    insists on a `project_id ==` filter, and commits the resulting options.
    Gin's context is replaced by explicit inputs (the binding result, the
    permission list if the context holds one, the X-Client-Subdomain header,
    "" when absent) and by the returned Outcome. */
module SecureQuery {
  import opened QueryModel

  const BypassPermission := "read:all_subdomains"
  const SubdomainField := "subdomain"
  const ProjectField := "project_id"
  const EqualsOp := "=="
  const StatusBadRequest := 400
  const StatusForbidden := 403

  /** What the middleware does with a request: abort with one of three
      rejections, or commit the secure options and pass on to the handler. */
  datatype Outcome =
    | Malformed(details: string)
    | MissingTenantScope
    | MissingProjectFilter
    | Ok(options: QueryOptions)

  /** The HTTP status the middleware aborts with. */
  function AbortStatus(o: Outcome): (status: int)
    requires !o.Ok?
    ensures status == StatusForbidden <==> o.MissingTenantScope?
    ensures status == StatusBadRequest <==> (o.Malformed? || o.MissingProjectFilter?)
  {
    if o.MissingTenantScope? then StatusForbidden else StatusBadRequest
  }

  /** The caller is exempt from tenant isolation exactly when the context
      carries a permission list holding the bypass permission. */
  predicate Bypass(permissions: Option<seq<string>>)
  {
    permissions.Some? && BypassPermission in permissions.value
  }

  /** The trusted isolation filter built from the header. */
  function SubdomainFilter(tenant: string): Filter
  {
    Filter(SubdomainField, EqualsOp, Text(tenant))
  }

  predicate IsProjectFilter(f: Filter)
  {
    f.field == ProjectField && f.op == EqualsOp
  }

  /** Some filter constrains `project_id` with `==`; its value is not looked at. */
  predicate HasProjectFilter(filters: seq<Filter>)
  {
    exists i :: 0 <= i < |filters| && IsProjectFilter(filters[i])
  }

  /** The whole decision as a function of the request: the specification the
      middleware method below is proved against. */
  function Policy(binding: Binding, permissions: Option<seq<string>>, header: string): Outcome
  {
    match binding
    case BindError(details) => Malformed(details)
    case Bound(options) =>
      if !Bypass(permissions) && header == "" then MissingTenantScope
      else
        var filters :=
          if Bypass(permissions) then options.filters
          else options.filters + [SubdomainFilter(header)];
        if HasProjectFilter(filters) then Ok(QueryOptions(filters))
        else MissingProjectFilter
  }

  /** The scan of the permission list: it stops at the first entry equal
      to the bypass permission; an absent list grants nothing. */
  method ScanPermissions(permissions: Option<seq<string>>) returns (bypassFilter: bool)
    ensures bypassFilter <==>
      permissions.Some? &&
      exists i :: 0 <= i < |permissions.value| && permissions.value[i] == BypassPermission
    ensures bypassFilter == Bypass(permissions)
  {
    bypassFilter := false;
    if permissions.Some? {
      var perms := permissions.value;
      var i := 0;
      while i < |perms|
        invariant 0 <= i <= |perms|
        invariant forall j :: 0 <= j < i ==> perms[j] != BypassPermission
      {
        if perms[i] == BypassPermission {
          bypassFilter := true;
          break;
        }
        i := i + 1;
      }
    }
  }

  /** The scan of the final filters: it stops at the first filter on
      `project_id` with operator `==`, whatever its value. */
  method ScanProjectFilter(filters: seq<Filter>) returns (hasProjectFilter: bool)
    ensures hasProjectFilter <==>
      exists i :: 0 <= i < |filters| && filters[i].field == ProjectField && filters[i].op == EqualsOp
    ensures hasProjectFilter == HasProjectFilter(filters)
  {
    hasProjectFilter := false;
    var k := 0;
    while k < |filters|
      invariant 0 <= k <= |filters|
      invariant forall j :: 0 <= j < k ==> !IsProjectFilter(filters[j])
    {
      if filters[k].field == ProjectField && filters[k].op == EqualsOp {
        hasProjectFilter := true;
        break;
      }
      k := k + 1;
    }
  }

  /** The middleware as written: a flag set by an early-exit scan of the
      permissions, the header check, an append to the filter list, a second
      early-exit scan for the project filter, and the commit. */
  method ConditionalSubdomainFilter(binding: Binding, permissions: Option<seq<string>>, header: string)
    returns (outcome: Outcome)
    ensures outcome == Policy(binding, permissions, header)
  {
    if binding.BindError? {
      return Malformed(binding.details);
    }
    var options := binding.options;

    var bypassFilter := ScanPermissions(permissions);

    if !bypassFilter {
      if header == "" {
        return MissingTenantScope;
      }
      options := options.(filters := options.filters + [SubdomainFilter(header)]);
    }

    var hasProjectFilter := ScanProjectFilter(options.filters);
    if !hasProjectFilter {
      return MissingProjectFilter;
    }

    outcome := Ok(options);
  }

  /** The injected filter is never mistaken for the project filter, so the
      project check sees exactly what the client submitted. */
  lemma {:induction false} InjectionKeepsProjectCheck(filters: seq<Filter>, tenant: string)
    ensures !IsProjectFilter(SubdomainFilter(tenant))
    ensures HasProjectFilter(filters + [SubdomainFilter(tenant)]) <==> HasProjectFilter(filters)
  {
    var extended := filters + [SubdomainFilter(tenant)];
    if HasProjectFilter(filters) {
      var i :| 0 <= i < |filters| && IsProjectFilter(filters[i]);
      assert extended[i] == filters[i];
    }
    if HasProjectFilter(extended) {
      var i :| 0 <= i < |extended| && IsProjectFilter(extended[i]);
      assert i < |filters| && extended[i] == filters[i];
    }
  }

  /** A body that does not bind is rejected as malformed, carrying the
      decode diagnostic, whatever the permissions and header are. */
  lemma MalformedFirst(details: string, permissions: Option<seq<string>>, header: string)
    ensures Policy(BindError(details), permissions, header) == Malformed(details)
    ensures AbortStatus(Malformed(details)) == StatusBadRequest
  {
  }

  /** Without bypass an empty header is refused with 403 whatever filters
      were submitted, so this rejection takes precedence over the
      project check. */
  lemma MissingHeaderForbidden(options: QueryOptions, permissions: Option<seq<string>>)
    requires !Bypass(permissions)
    ensures Policy(Bound(options), permissions, "") == MissingTenantScope
    ensures AbortStatus(MissingTenantScope) == StatusForbidden
  {
  }

  /** Without bypass and with a header, the secure filters are the client's
      filters followed by exactly one trusted subdomain filter; every client
      filter, a client `subdomain` filter included, keeps its position. */
  lemma {:induction false} NonBypassAppendsIsolationFilter(options: QueryOptions, permissions: Option<seq<string>>, header: string)
    requires !Bypass(permissions) && header != ""
    ensures Policy(Bound(options), permissions, header) ==
      if HasProjectFilter(options.filters) then Ok(QueryOptions(options.filters + [SubdomainFilter(header)]))
      else MissingProjectFilter
    ensures Policy(Bound(options), permissions, header).Ok? ==>
      var secured := Policy(Bound(options), permissions, header).options.filters;
      |secured| == |options.filters| + 1 &&
      secured[..|options.filters|] == options.filters &&
      secured[|options.filters|] == Filter(SubdomainField, EqualsOp, Text(header))
  {
    InjectionKeepsProjectCheck(options.filters, header);
  }

  /** With bypass the submitted filters are committed exactly as sent, and
      the header plays no part. */
  lemma BypassKeepsFilters(options: QueryOptions, permissions: Option<seq<string>>, header: string)
    requires Bypass(permissions)
    ensures Policy(Bound(options), permissions, header) ==
      if HasProjectFilter(options.filters) then Ok(options) else MissingProjectFilter
  {
  }

  /** A request is let through exactly when it binds, the caller is either
      privileged or names a tenant, and the client submitted a
      `project_id ==` filter; every committed query holds one. */
  lemma {:induction false} OkExactly(binding: Binding, permissions: Option<seq<string>>, header: string)
    ensures Policy(binding, permissions, header).Ok? <==>
      binding.Bound? && (Bypass(permissions) || header != "") && HasProjectFilter(binding.options.filters)
    ensures Policy(binding, permissions, header).Ok? ==>
      HasProjectFilter(Policy(binding, permissions, header).options.filters)
  {
    if binding.Bound? && !Bypass(permissions) {
      InjectionKeepsProjectCheck(binding.options.filters, header);
    }
  }

  /** The rejection that wins: a malformed body before anything else, a
      missing tenant before a missing project filter. */
  lemma {:induction false} RejectionOrder(binding: Binding, permissions: Option<seq<string>>, header: string)
    ensures Policy(binding, permissions, header) == MissingTenantScope <==>
      binding.Bound? && !Bypass(permissions) && header == ""
    ensures Policy(binding, permissions, header) == MissingProjectFilter <==>
      binding.Bound? && (Bypass(permissions) || header != "") && !HasProjectFilter(binding.options.filters)
  {
    if binding.Bound? && !Bypass(permissions) {
      InjectionKeepsProjectCheck(binding.options.filters, header);
    }
  }

  /** Every query committed for a caller without the bypass permission
      carries the isolation filter for that caller's own header, after all
      of the client's filters. */
  lemma IsolationInvariant(binding: Binding, permissions: Option<seq<string>>, header: string)
    requires !Bypass(permissions)
    requires Policy(binding, permissions, header).Ok?
    ensures header != ""
    ensures SubdomainFilter(header) in Policy(binding, permissions, header).options.filters
    ensures forall f :: f in binding.options.filters ==> f in Policy(binding, permissions, header).options.filters
  {
    assert Policy(binding, permissions, header).options.filters ==
      binding.options.filters + [SubdomainFilter(header)];
  }

  /** The decision depends on the permissions only through the bypass flag. */
  lemma OnlyBypassMatters(binding: Binding, p1: Option<seq<string>>, p2: Option<seq<string>>, header: string)
    requires Bypass(p1) == Bypass(p2)
    ensures Policy(binding, p1, header) == Policy(binding, p2, header)
  {
  }

  /** A client that submits its own `subdomain ==` filter for another tenant
      keeps it, and the trusted one is added beside it: the committed query
      then holds two `subdomain ==` filters, which a store that ANDs its
      filters can only satisfy with no documents. */
  lemma ClientSubdomainFilterCoexists()
    ensures
      var project := Filter(ProjectField, EqualsOp, Text("p1"));
      var evil := Filter(SubdomainField, EqualsOp, Text("evil"));
      Policy(Bound(QueryOptions([project, evil])), None, "acme") ==
        Ok(QueryOptions([project, evil, SubdomainFilter("acme")]))
  {
    var project := Filter(ProjectField, EqualsOp, Text("p1"));
    var evil := Filter(SubdomainField, EqualsOp, Text("evil"));
    var secured := [project, evil] + [SubdomainFilter("acme")];
    assert secured == [project, evil, SubdomainFilter("acme")];
    assert IsProjectFilter(secured[0]);
  }

  /** More than one project filter is accepted as well; the check asks for
      at least one, not exactly one. */
  lemma DuplicateProjectFiltersAccepted(permissions: Option<seq<string>>)
    requires Bypass(permissions)
    ensures
      var filters := [Filter(ProjectField, EqualsOp, Text("p1")), Filter(ProjectField, EqualsOp, Text("p2"))];
      Policy(Bound(QueryOptions(filters)), permissions, "") == Ok(QueryOptions(filters))
  {
    var filters := [Filter(ProjectField, EqualsOp, Text("p1")), Filter(ProjectField, EqualsOp, Text("p2"))];
    assert IsProjectFilter(filters[0]);
  }

  /** Concrete requests: a scoped query committed with the tenant filter
      appended, the same query refused without a header, and an empty query
      refused even for a privileged caller. */
  lemma ConcreteRequests()
    ensures
      var project := Filter(ProjectField, EqualsOp, Text("p1"));
      Policy(Bound(QueryOptions([project])), None, "acme") == Ok(QueryOptions([project, SubdomainFilter("acme")]))
    ensures
      var project := Filter(ProjectField, EqualsOp, Text("p1"));
      Policy(Bound(QueryOptions([project])), Some(["read:own"]), "") == MissingTenantScope
    ensures Policy(Bound(QueryOptions([])), Some(["read:own", BypassPermission]), "") == MissingProjectFilter
  {
    var project := Filter(ProjectField, EqualsOp, Text("p1"));
    assert [project] + [SubdomainFilter("acme")] == [project, SubdomainFilter("acme")];
    assert IsProjectFilter([project, SubdomainFilter("acme")][0]);
    assert ["read:own", BypassPermission][1] == BypassPermission;
  }
}
