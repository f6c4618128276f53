# Sling servlet resolver — a Dafny model

This project models the resolution engine of Apache Sling's `SlingServletResolver`:

- how one servlet is chosen for a request from an ordered list of candidate resources;
- the negotiation with `OptingServlet`s, which may decline a request;
- the lookup cache in front of that choice, and its invalidation by content-change events;
- the resolver's other entry points: absolute resource types, scripts found by name, and the lazily created default servlets;
- error-handler resolution by status code and by exception class hierarchy, with the recursion guard on the `javax.servlet.error.request_uri` attribute;
- the registration bookkeeping for servlet services: references bound before activation are queued and replayed once, in order, when the component activates.

Layout:

- `types.dfy` (module `ResolverTypes`): servlets (`Plain` or `Opting` with an accept function), resources, a resource resolver's view (a map from path to resource, plus the ordered search path), request attributes, exceptions with their class chain, service references, and the constants.
- `negotiation.dfy` (module `Negotiation`): the negotiation and the cache as functions of the cache state (`FirstQualifying`, `Negotiate`, `Resolved`, `CacheAfter`), and the theorem that a coherent cache never changes an answer (`CacheIsTransparent`).
- `error_resolution.dfy` (module `ErrorResolution`): the error anchor resource, `String.valueOf` for status codes, and the level at which the exception walk stops.
- `registry.dfy` (module `Registry`): what `createServlet` does to the registrations, the replay of the pending queue, and `List.remove`.
- `resolver.dfy` (module `ServletResolution`): the `SlingServletResolver` class. It has one field for each piece of state this model covers: `cache`, `defaultServlet`, `defaultErrorServlet`, `activated` (the source's `context != null`), `pendingServlets` and `servletsByReference`. Each method is proved against the functions above. `Request` is a class whose attribute map the error handlers update in place.

Abstractions:

- A request's candidate list and its cache key come together as a `Collector<K>`, and the key type `K` is opaque. Both are inputs, because the collector's enumeration and key equality are not part of this model.
- The error handlers take a function from (method name, anchor resource) to a collector, in place of `new ResourceCollector(name, ERROR_HANDLER_PATH, resource)`.
- The outcome of each foreign call is an input: `init` of a default servlet (`defaultInitOk`), `service` of an error handler (`ServiceResult`), and the checks made in `createServlet` (fields of `ServiceRef`).
- Java exceptions are explicit results: `Outcome.Thrown` and `Completion.Abrupt`.

Behaviour of the code worth noting:

- An empty resource type makes `resolveServlet` throw from `charAt(0)`. It does not fall back to the default servlet.
- An absolute resource type whose direct lookup yields nothing still goes through the cache and the deep search.
- A recursive error-handling call logs and returns. Nothing is reported upward.
- For status errors, a string-valued `sling.core.current.servletName` overwrites any recorded `javax.servlet.error.servlet_name`.
- The cache is cleared only when the event path starts with a search path entry. A search path entry that merely lies below the event path does not trigger it.
- The configured cache size is only an initial capacity. Nothing bounds the cache.

## Model

| member | source | states |
|---|---|---|
| `Negotiation.FirstQualifying` | src/main/java/org/apache/sling/servlets/resolver/internal/SlingServletResolver.java:468-483 | The winning index is the first candidate in list order that adapts to a servlet that is plain or whose `accepts` is true. No earlier candidate qualifies. The index is `|cands|` when no candidate qualifies. |
| `Negotiation.Negotiate` | src/main/java/org/apache/sling/servlets/resolver/internal/SlingServletResolver.java:468-498 | Negotiation yields null exactly when no candidate qualifies. Otherwise it yields the servlet of some candidate, and that servlet accepts the request. |
| `Negotiation.FirstAdaptable` | src/main/java/org/apache/sling/servlets/resolver/internal/SlingServletResolver.java:473-474 | The first candidate that adapts to any servlet. Every earlier candidate adapts to none. |
| `Negotiation.CacheAfter` | src/main/java/org/apache/sling/servlets/resolver/internal/SlingServletResolver.java:467-486 | Cache write rule. A cache exists afterwards iff it existed before. A null result never changes the cache. A change only adds the key, on a miss, with a plain winner and no opting servlet before it. Every eligible miss is written. |
| `Negotiation.PlainLeaderWinsEveryRequest` | src/main/java/org/apache/sling/servlets/resolver/internal/SlingServletResolver.java:473-482 | Suppose the first adaptable candidate's servlet is plain. Then negotiation picks it for every request. |
| `Negotiation.EligibleWinnerIsCachedCorrectly` | src/main/java/org/apache/sling/servlets/resolver/internal/SlingServletResolver.java:479-481 | A winner the write rule admits always sits on the first adaptable candidate. So the entry it writes is valid for every request with that key. |
| `Negotiation.CacheIsTransparent` | src/main/java/org/apache/sling/servlets/resolver/internal/SlingServletResolver.java:449-486 | Assume every cache entry is valid for the candidates its key enumerates to. Then `getServlet` returns exactly the uncached negotiation result for the current request, and the cache stays valid. |
| `Negotiation.SecondLookupHits` | src/main/java/org/apache/sling/servlets/resolver/internal/SlingServletResolver.java:449-452 | After a lookup writes an entry, every later lookup with the same key returns that servlet and leaves the cache unchanged, whatever the request or candidates. |
| `ServletResolution.SlingServletResolver.GetServlet` | src/main/java/org/apache/sling/servlets/resolver/internal/SlingServletResolver.java:447-499 | A cache hit is returned without looking at the candidates. Otherwise the result and the new cache are exactly the negotiation result and the cache write rule. |
| `ServletResolution.SlingServletResolver.ResolveServlet` | src/main/java/org/apache/sling/servlets/resolver/internal/SlingServletResolver.java:173-239 | A null resource throws, and so does an empty type. Only a type starting with '/' is looked up directly, at exactly that path, and a direct hit is returned with the cache untouched. Otherwise the deep search runs, and its result and cache update are those of `getServlet`. The default servlet is used only when both fail. |
| `ServletResolution.SlingServletResolver.FindScript` | src/main/java/org/apache/sling/servlets/resolver/internal/SlingServletResolver.java:243-279 | An absolute name is looked up at exactly that path. A relative name yields the script at `searchPath[i] + name` for the smallest `i` that has one, or null when no entry has one. |
| `ServletResolution.SlingServletResolver.GetDefaultServlet` | src/main/java/org/apache/sling/servlets/resolver/internal/SlingServletResolver.java:506-519 | The default servlet is created once, on first use. It stays unset while its `init` fails. Once set, it is never replaced. |
| `ServletResolution.SlingServletResolver.GetDefaultErrorServlet` | src/main/java/org/apache/sling/servlets/resolver/internal/SlingServletResolver.java:528-541 | The same lazy, set-once behaviour, for the default error handler servlet. |
| `ErrorResolution.NatString` | src/main/java/org/apache/sling/servlets/resolver/internal/SlingServletResolver.java:309-310 | The status code's decimal digits: at least one digit and no leading zero. |
| `ErrorResolution.ParseNatString` | src/main/java/org/apache/sling/servlets/resolver/internal/SlingServletResolver.java:309-310 | Reading the digits back gives the number. |
| `ErrorResolution.StatusNamesAreDistinct` | src/main/java/org/apache/sling/servlets/resolver/internal/SlingServletResolver.java:309-313 | Distinct status codes give distinct method names: `String.valueOf` is injective on `int`. |
| `ErrorResolution.StatusLookupsAreIndependent` | src/main/java/org/apache/sling/servlets/resolver/internal/SlingServletResolver.java:308-313 | Suppose the collector gives different method names different keys. Then the lookup for one status code never writes or changes the cache entry another status code is looked up under, so that status resolves the same before and after it. |
| `ErrorResolution.FirstHandledLevel` | src/main/java/org/apache/sling/servlets/resolver/internal/SlingServletResolver.java:368-379 | The walk stops at the first class whose simple name resolves to a servlet. Every earlier class resolves to null. |
| `ErrorResolution.WalkFound` | src/main/java/org/apache/sling/servlets/resolver/internal/SlingServletResolver.java:365-379 | The walk finds nothing iff no class below `Object` resolves. Otherwise it finds the lookup result of one of those classes. |
| `ErrorResolution.WalkCache` | src/main/java/org/apache/sling/servlets/resolver/internal/SlingServletResolver.java:365-379 | The walk leaves the cache unchanged when it finds nothing. It never creates or drops the cache. |
| `ErrorResolution.NatStringInjective` | src/main/java/org/apache/sling/servlets/resolver/internal/SlingServletResolver.java:309-310 | Different numbers give different digit strings. |
| `ServletResolution.SlingServletResolver.WalkClassChain` | src/main/java/org/apache/sling/servlets/resolver/internal/SlingServletResolver.java:365-383 | Simple names are tried from the most derived class up, never `Object`'s, stopping at the first non-null servlet. Only that lookup can touch the cache. The default error servlet is the fallback. |
| `ServletResolution.SlingServletResolver.FindErrorServlet` | src/main/java/org/apache/sling/servlets/resolver/internal/SlingServletResolver.java:313-318 | The servlet for the status code, or the default error servlet when the lookup yields null. |
| `ServletResolution.SlingServletResolver.InvokeErrorHandler` | src/main/java/org/apache/sling/servlets/resolver/internal/SlingServletResolver.java:543-568 | Sets the request URI attribute. Sets the servlet name attribute to the handler's name only when it is absent. Leaves all other attributes alone. Rethrows an IOException from `service` and swallows every other fault. A null handler with no recorded name throws. |
| `ServletResolution.SlingServletResolver.HandleErrorStatus` | src/main/java/org/apache/sling/servlets/resolver/internal/SlingServletResolver.java:287-342 | If the request URI attribute is already set, nothing changes. Otherwise it resolves the status handler with the default as fallback. The lookup is anchored at the request's resource, or, when there is none, at a synthetic `sling/servlet/errorhandler` resource at the path info (lines 416-424). It records status, message (removed when null), the request URI and the failing servlet's name, changes no other attribute, and invokes the handler. |
| `ServletResolution.SlingServletResolver.HandleThrowable` | src/main/java/org/apache/sling/servlets/resolver/internal/SlingServletResolver.java:344-403 | The same recursion guard. The handler comes from the exception walk, anchored as for status errors (lines 416-424). It records the exception, its class, its message, the request URI and the handler name when absent, changes no other attribute, and invokes the handler. |
| `ServletResolution.SlingServletResolver.HandleEvent` | src/main/java/org/apache/sling/servlets/resolver/internal/SlingServletResolver.java:770-788 | The cache is cleared iff a cache exists and the event path starts with some search path entry. Otherwise it is unchanged. |
| `ServletResolution.SlingServletResolver.Activate` | src/main/java/org/apache/sling/servlets/resolver/internal/SlingServletResolver.java:599-618 | Empties the queue and marks the component active. Creates an empty cache only when the configured size (default 200) exceeds 5. Registers the queued references once, in arrival order. |
| `ServletResolution.SlingServletResolver.BindServlet` | src/main/java/org/apache/sling/servlets/resolver/internal/SlingServletResolver.java:649-655 | Before activation, the reference is appended to the queue and nothing is registered. After activation, it is registered at once and the queue is unchanged. |
| `ServletResolution.SlingServletResolver.UnbindServlet` | src/main/java/org/apache/sling/servlets/resolver/internal/SlingServletResolver.java:657-660 | Removes the first queued occurrence of the reference and drops its live registration. |
| `ServletResolution.SlingServletResolver.CreateServlet` | src/main/java/org/apache/sling/servlets/resolver/internal/SlingServletResolver.java:670-733 | Registers the reference iff it has a name, a Sling resource provider, a locatable service and a successful `init`, with its own name and servlet paths. Any other reference leaves the registrations unchanged. The result says whether it did. |
| `ServletResolution.SlingServletResolver.DestroyServlet` | src/main/java/org/apache/sling/servlets/resolver/internal/SlingServletResolver.java:741-765 | Removes the registration. The result says whether there was one to tear down. |
| `Registry.CreatedAllAppend` | src/main/java/org/apache/sling/servlets/resolver/internal/SlingServletResolver.java:649-668 | Replaying a queue with one more reference equals replaying the queue and then creating that reference. So a reference bound before activation ends up exactly as if bound right after it. |
| `Registry.CreatedAllRegisters` | src/main/java/org/apache/sling/servlets/resolver/internal/SlingServletResolver.java:664-733 | After a replay, the registered references are the earlier ones plus exactly the creatable queued ones, each with its own registration. Earlier registrations that were not queued are kept. |
| `Registry.FirstIndex` | src/main/java/org/apache/sling/servlets/resolver/internal/SlingServletResolver.java:658 | The first position of the reference in the queue, or the queue's length when it is absent. |
| `Registry.RemoveFirst` | src/main/java/org/apache/sling/servlets/resolver/internal/SlingServletResolver.java:658 | Only the first occurrence is deleted, and the rest keep their order. An absent reference leaves the queue unchanged. The multiset loses exactly one copy. |
| `ServletResolution.SlingServletResolver.constructor` | src/main/java/org/apache/sling/servlets/resolver/internal/SlingServletResolver.java:147-164 | Starts inactive. There is no cache, no default servlets, an empty queue and no registrations. |

## Left out

- Candidate enumeration: `ResourceCollector` (the candidate order and key equality) is not part of this model. The candidate list and the key are inputs.
- Diagnostics: logging and the `RequestProgressTracker` timers. `RequestUtil.getServletName` is not part of this model and is taken not to fail.
- Concurrency: the `ConcurrentHashMap` and the `synchronized` blocks. The cache is a plain map updated one call at a time.
- Setup and teardown: the admin session login and impersonation, and the `SlingException` they raise. Also the servlet root property, `ServletResourceProviderFactory`, the event handler registration, and `deactivate`. These are component plumbing and foreign calls.
- Foreign calls: `init`, `service`, `destroy` and `locateService` run no code in the model. Their outcomes are inputs.
- Foreign calls made during lookup: `adaptTo` (line 473) and `OptingServlet.accepts` (line 477) are total in the model. They become a resource's `servlet` field and a servlet's `accepts` function. An exception either of them throws would leave `getServlet`, `resolveServlet` (no catch at lines 173-239) and both `handleError` overloads (try/finally only), and the model does not capture that.
- What `service` observes of the request is not modelled. The model records only that the attributes are set before the call.
- Registration and lookup are not linked. A registration's servlet paths are recorded, but the model does not connect them to the resource tree that lookups see.
- Opting servlets decide from the request URI, the path info and the attributes. Other request state is not modelled.
- Resource resolver semantics: `getResource` is an exact-path lookup. Resolution of relative paths against the search path is not modelled.
- Null values: the model has no null for a resource type (line 183), a script name (line 248), a throwable (line 359), a path info (line 420), an event path in `handleEvent` or a request URI. Each of these is a string or value in the model, so the `NullPointerException` each would raise is not modelled.
- Integer width: status codes and cache sizes are unbounded integers. Java `int` overflow does not arise in these operations.
- Servlet identity: servlets are compared as values, by kind, name and accept function, not as object identities.
- Constants from other files: `SlingConstants`, `EngineConstants` and `ServletResolverConstants` are not part of this model. Their attribute names and the error handler path are written out with the values Sling publishes.
