# Secure query policy of the query gateway

The gateway takes a client's query (a list of field/operator/value filters)
and runs it against a multi-tenant document store. Before the query reaches
the store, the middleware `ConditionalSubdomainFilterMiddleware`
(queryservice/middleware.go) enforces the tenant policy:

1. the request body must bind as query options, otherwise 400;
2. a caller whose permission list holds `read:all_subdomains` bypasses tenant
   isolation; any other caller must send a non-empty `X-Client-Subdomain`
   header, otherwise 403;
3. for a caller without bypass, the trusted filter `subdomain == <header>` is
   appended to the client's filters;
4. the final filters must contain a `project_id ==` filter, otherwise 400;
5. the final options are committed for the handler.

`query_model.dfy` (module `QueryModel`) holds the values: `Filter`,
`QueryOptions`, and `Binding`, the result of binding the body. `middleware.dfy`
(module `SecureQuery`) holds the policy. `Policy` is the decision as a pure
function. `ConditionalSubdomainFilter` is the middleware as written: a flag
set by an early-exit scan of the permissions (`ScanPermissions`), the header
check, the append, and a second early-exit scan for the project filter
(`ScanProjectFilter`). It is proved equal to
`Policy`, and the lemmas state the security properties of `Policy`.

Gin's context is replaced by explicit inputs and outputs. The inputs are the
binding result, the permission list (`None` when the context has no
`permissions` entry) and the header (`""` when it is absent, as
`GetHeader` returns). The output is an `Outcome`: one of three rejections or
`Ok` with the committed options. `AbortStatus` gives the status code of a
rejection.

The service's intent is that every executed query carries exactly one
`subdomain ==` filter and exactly one `project_id ==` filter, that a
privileged caller may also be recognised by an "admin" role, that the tenant
may come from a login claim, and that operators come from a fixed set. The
model follows the code where it differs from that intent:
- The code guarantees at least one of each filter, not exactly one. A
  client's own `subdomain ==` filter stays beside the injected one
  (`ClientSubdomainFilterCoexists`), and two client `project_id ==` filters
  are accepted (`DuplicateProjectFiltersAccepted`).
- The code only has the permission-list bypass and the header as tenant
  source; only those are modelled.
- The code keeps the operator as a string and compares it only with `==`.

## Model

| member | source | states |
|---|---|---|
| SecureQuery.ConditionalSubdomainFilter | queryservice/middleware.go:13-78 | the middleware with its two early-exit loops returns exactly the outcome `Policy` specifies, for every body, permission list and header |
| SecureQuery.AbortStatus | queryservice/middleware.go:18-71 | a rejection aborts with 403 exactly when the tenant scope is missing, and with 400 exactly for a malformed body or a missing project filter |
| SecureQuery.MalformedFirst | queryservice/middleware.go:17-21 | a body that fails to bind is rejected as malformed with its decode detail, whatever the permissions and header; no later step decides anything |
| SecureQuery.ScanPermissions | queryservice/middleware.go:24-37 | the early-exit scan sets the bypass flag exactly when a permission list is present and some entry equals `read:all_subdomains`; no list means no bypass |
| SecureQuery.ScanProjectFilter | queryservice/middleware.go:62-68 | the early-exit scan finds a filter exactly when some filter has field `project_id` and operator `==`, whatever its value |
| SecureQuery.MissingHeaderForbidden | queryservice/middleware.go:42-50 | without bypass an empty header gives 403 whatever filters were submitted, so this check takes precedence over the project check |
| SecureQuery.NonBypassAppendsIsolationFilter | queryservice/middleware.go:52-57 | without bypass and with a header, the committed filters are the client's filters followed by exactly one `subdomain == header`; length grows by one and every client filter keeps its position |
| SecureQuery.BypassKeepsFilters | queryservice/middleware.go:41-74 | with bypass the submitted filters are committed unchanged, nothing is injected, and the header plays no part |
| SecureQuery.InjectionKeepsProjectCheck | queryservice/middleware.go:52-68 | the injected subdomain filter never satisfies the project check, so appending it leaves the outcome of that check unchanged |
| SecureQuery.OkExactly | queryservice/middleware.go:61-74 | a request succeeds exactly when it binds, the caller bypasses or sends a header, and the client submitted a `project_id ==` filter; every committed query holds one, whatever its value |
| SecureQuery.RejectionOrder | queryservice/middleware.go:42-72 | the 403 happens exactly for a bound body, no bypass and an empty header; the project rejection happens exactly when the tenant check passed and no project filter was submitted |
| SecureQuery.IsolationInvariant | queryservice/middleware.go:42-74 | every query committed for a caller without bypass names a non-empty tenant, holds `subdomain == header` and keeps every client filter |
| SecureQuery.OnlyBypassMatters | queryservice/middleware.go:24-42 | the permissions influence the outcome only through the bypass decision |
| SecureQuery.ClientSubdomainFilterCoexists | queryservice/middleware.go:52-57 | a client `subdomain == evil` filter is kept and the trusted `subdomain == acme` is appended after it |
| SecureQuery.DuplicateProjectFiltersAccepted | queryservice/middleware.go:62-68 | two `project_id ==` filters pass the check, which asks for at least one |
| SecureQuery.ConcreteRequests | queryservice/middleware.go:42-72 | a scoped query gets the tenant filter appended; the same query without a header is refused with 403; an empty query is refused for a privileged caller too |

## Left out

- queryservice/handler.go: the handler reads the Firestore client and the committed options from the context, applies each filter with `Where`, iterates the documents and writes JSON. This is database and network I/O through a library that is not part of this model.
- main.go: a hello-world HTTP server with no logic.
- JSON binding (`ShouldBindJSON`) is an input, the `Binding` value. The definition of `firebase.QueryOptions` is not part of this model, so its fields other than `Filters`, and the rules that make a body fail to bind, are not modelled.
- Gin's context: `Get`/`Set`, `AbortWithStatusJSON` and `Next` become the explicit inputs and the returned `Outcome`. The error message texts of the rejections are not modelled.
- Go's type assertions on the permissions entry: a permissions value that is not a `[]interface{}` reads as an empty list, and a non-string (or nil) entry that comes before any `read:all_subdomains` entry makes the scan panic; later entries are never looked at. Permissions are modelled as a list of strings.
- Debug logging.
