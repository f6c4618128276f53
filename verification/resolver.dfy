/**
 * The servlet resolver component: resolution of servlets for requests and
 * of scripts by name, error handler resolution, the lookup cache and its
 * invalidation, and the registration of servlet services.
 */
module ServletResolution {
  import opened ResolverTypes
  import opened Negotiation
  import opened ErrorResolution
  import opened Registry

  /** A request; only its attributes change while it is being handled. */
  class Request {
    const uri: string
    const pathInfo: string
    const resource: Option<Resource>
    var attributes: map<string, Attr>

    constructor (uri: string, pathInfo: string, resource: Option<Resource>, attributes: map<string, Attr>)
      ensures this.uri == uri && this.pathInfo == pathInfo && this.resource == resource
      ensures this.attributes == attributes
    {
      this.uri := uri;
      this.pathInfo := pathInfo;
      this.resource := resource;
      this.attributes := attributes;
    }

    /** What an opting servlet sees of the request. */
    function View(): RequestView
      reads this
    {
      RequestView(uri, pathInfo, attributes)
    }
  }

  /** A name starting with '/' is an absolute path (`startsWith("/")`). */
  predicate IsAbsolute(name: string)
  {
    "/" <= name
  }

  /** The servlet adapted from the resource at `path`, if there is one. */
  function ServletAt(resolver: ResourceResolver, path: string): Option<Servlet>
  {
    match GetResource(resolver, path)
    case Some(res) => res.servlet
    case None => None
  }

  /** The script adapted from the resource at `path`, if there is one. */
  function ScriptAt(resolver: ResourceResolver, path: string): Option<Script>
  {
    match GetResource(resolver, path)
    case Some(res) => res.script
    case None => None
  }

  /**
   * The direct lookup `resolveServlet` tries for a non-empty resource type:
   * only a type whose first character is '/' is looked up, at exactly that path.
   */
  function AbsoluteServlet(resolver: ResourceResolver, resourceType: string): Option<Servlet>
    requires |resourceType| > 0
  {
    if resourceType[0] == '/' then ServletAt(resolver, resourceType) else None
  }

  /** A message attribute value: a null message removes the attribute. */
  function MessageAttr(message: Option<string>): Option<Attr>
  {
    match message
    case Some(m) => Some(StrAttr(m))
    case None => None
  }

  /** The attributes agree on every name outside `names`. */
  ghost predicate AgreeOutside(a: map<string, Attr>, b: map<string, Attr>, names: set<string>)
  {
    forall k :: k !in names ==> GetAttribute(a, k) == GetAttribute(b, k)
  }

  lemma AgreeOutsideTrans(a: map<string, Attr>, b: map<string, Attr>, c: map<string, Attr>, n1: set<string>, n2: set<string>)
    requires AgreeOutside(a, b, n1) && AgreeOutside(b, c, n2)
    ensures AgreeOutside(a, c, n1 + n2)
  {
  }

  /**
   * The error servlet name that invoking `handler` leaves in `attrs`: the one
   * already recorded, otherwise the handler's own name.
   */
  function ReportedName(attrs: map<string, Attr>, handler: Option<Servlet>): Option<Attr>
  {
    if ErrorServletName in attrs then Some(attrs[ErrorServletName])
    else if handler.Some? then Some(StrAttr(handler.value.name))
    else None
  }

  /**
   * How invoking `handler` ends, given the servlet name it leaves recorded:
   * with no handler and no recorded name, reading the handler's name
   * dereferences null; with no handler but a recorded name, the null
   * dereference in `service` is swallowed; an IOException from `service` is
   * rethrown and anything else it raises is swallowed.
   * Both outcomes with no handler assume that the name lookup the source
   * logs just before the call (`RequestUtil.getServletName`) does not fail
   * on a null servlet; the handler is null only when the default error
   * servlet's `init` failed.
   */
  function InvocationResult(handler: Option<Servlet>, recordedName: Option<Attr>, service: ServiceResult): Completion
  {
    if handler.None? && recordedName.None? then Abrupt(NullPointer)
    else if handler.Some? && service == RaisedIOException then Abrupt(IOFailure)
    else Normal
  }

  /**
   * The name status error handling records for the failing servlet: Sling's
   * current servlet name when it is a string, otherwise what invoking the
   * handler leaves.
   */
  function StatusReportedName(attrs: map<string, Attr>, handler: Option<Servlet>): Option<Attr>
  {
    match GetAttribute(attrs, SlingCurrentServletName)
    case Some(StrAttr(n)) => Some(StrAttr(n))
    case _ => ReportedName(attrs, handler)
  }

  class SlingServletResolver<K(==)> {
    /** The lookup cache; None when no cache was created. */
    var cache: Option<map<K, Servlet>>
    /** The default servlet and default error servlet, created on first use. */
    var defaultServlet: Option<Servlet>
    var defaultErrorServlet: Option<Servlet>
    /** Whether the component was activated (its context is set). */
    var activated: bool
    /** References bound before activation, in arrival order. */
    var pendingServlets: seq<ServiceRef>
    /** The live registrations by service reference. */
    var servletsByReference: map<ServiceRef, Registration>

    constructor ()
      ensures cache.None? && defaultServlet.None? && defaultErrorServlet.None?
      ensures !activated && pendingServlets == [] && servletsByReference == map[]
    {
      cache := None;
      defaultServlet := None;
      defaultErrorServlet := None;
      activated := false;
      pendingServlets := [];
      servletsByReference := map[];
    }

    // ---------- resolution ----------

    /**
     * `getServlet`: a cache hit is returned without looking at the
     * candidates; otherwise the first candidate that adapts to a servlet
     * accepting the request wins, and it is cached under the write rule.
     */
    method GetServlet(c: Collector<K>, req: RequestView) returns (s: Option<Servlet>)
      modifies this`cache
      ensures s == Resolved(old(cache), c, req)
      ensures cache == CacheAfter(old(cache), c, req)
      ensures old(cache).Some? && c.key in old(cache).value ==>
        s == Some(old(cache).value[c.key]) && cache == old(cache)
    {
      if cache.Some? && c.key in cache.value {
        return Some(cache.value[c.key]);
      }
      var candidates := c.candidates;
      var hasOptingServlet := false;
      var i := 0;
      while i < |candidates|
        invariant 0 <= i <= |candidates|
        invariant cache == old(cache)
        invariant forall j :: 0 <= j < i ==> !Qualifies(candidates[j], req)
        invariant hasOptingServlet <==> OptingBefore(candidates, i)
      {
        var candidate := candidates[i].servlet;
        if candidate.Some? {
          var isOptingServlet := candidate.value.Opting?;
          var servletAcceptsRequest := !isOptingServlet || candidate.value.accepts(req);
          if servletAcceptsRequest {
            assert FirstQualifying(candidates, req) == i;
            if !hasOptingServlet && !isOptingServlet && cache.Some? {
              cache := Some(cache.value[c.key := candidate.value]);
            }
            return candidate;
          }
          if isOptingServlet {
            hasOptingServlet := true;
          }
        }
        i := i + 1;
      }
      return None;
    }

    /**
     * `resolveServlet`: an absolute resource type is looked up directly; the
     * deep search runs whenever that yields nothing; the default servlet is
     * the last resort. A missing resource or an empty type fails as the
     * source's dereference and `charAt(0)` do.
     */
    method ResolveServlet(req: Request, scriptResolver: ResourceResolver, collector: Collector<K>, defaultInitOk: bool)
      returns (out: Outcome<Option<Servlet>>)
      modifies this`cache, this`defaultServlet
      ensures req.resource.None? ==>
        out == Thrown(NullPointer) && cache == old(cache) && defaultServlet == old(defaultServlet)
      ensures req.resource.Some? && req.resource.value.resourceType == [] ==>
        out == Thrown(IndexOutOfBounds) && cache == old(cache) && defaultServlet == old(defaultServlet)
      ensures req.resource.Some? && req.resource.value.resourceType != [] ==>
        var direct := AbsoluteServlet(scriptResolver, req.resource.value.resourceType);
        var found := Resolved(old(cache), collector, req.View());
        && (direct.Some? ==> out == Returned(direct) && cache == old(cache) && defaultServlet == old(defaultServlet))
        && (direct.None? ==> cache == CacheAfter(old(cache), collector, req.View()))
        && (direct.None? && found.Some? ==> out == Returned(found) && defaultServlet == old(defaultServlet))
        && (direct.None? && found.None? ==>
              defaultServlet == LazyDefault(old(defaultServlet), defaultInitOk, DefaultServlet)
              && out == Returned(defaultServlet))
    {
      if req.resource.None? {
        return Thrown(NullPointer);
      }
      var resourceType := req.resource.value.resourceType;
      if |resourceType| == 0 {
        return Thrown(IndexOutOfBounds);
      }
      var servlet: Option<Servlet> := None;
      if resourceType[0] == '/' {
        var res := GetResource(scriptResolver, resourceType);
        if res.Some? {
          servlet := res.value.servlet;
        }
      }
      if servlet.None? {
        servlet := GetServlet(collector, req.View());
      }
      if servlet.None? {
        servlet := GetDefaultServlet(defaultInitOk);
      }
      return Returned(servlet);
    }

    /**
     * `findScript`: an absolute name is looked up at exactly that path; a
     * relative one under each search path entry in order, and the first
     * entry that yields a script wins.
     */
    method FindScript(resolver: ResourceResolver, name: string) returns (script: Option<Script>)
      ensures IsAbsolute(name) ==> script == ScriptAt(resolver, name)
      ensures !IsAbsolute(name) && script.None? ==>
        forall i :: 0 <= i < |resolver.searchPath| ==> ScriptAt(resolver, resolver.searchPath[i] + name).None?
      ensures !IsAbsolute(name) && script.Some? ==>
        exists i :: 0 <= i < |resolver.searchPath| && script == ScriptAt(resolver, resolver.searchPath[i] + name)
          && forall j :: 0 <= j < i ==> ScriptAt(resolver, resolver.searchPath[j] + name).None?
    {
      script := None;
      if IsAbsolute(name) {
        var resource := GetResource(resolver, name);
        if resource.Some? {
          script := resource.value.script;
        }
      } else {
        var path := resolver.searchPath;
        var i := 0;
        while script.None? && i < |path|
          invariant 0 <= i <= |path|
          invariant script.None? ==> forall j :: 0 <= j < i ==> ScriptAt(resolver, path[j] + name).None?
          invariant script.Some? ==> 0 < i && script == ScriptAt(resolver, path[i - 1] + name)
          invariant script.Some? ==> forall j :: 0 <= j < i - 1 ==> ScriptAt(resolver, path[j] + name).None?
        {
          var resource := GetResource(resolver, path[i] + name);
          if resource.Some? {
            script := resource.value.script;
          }
          i := i + 1;
        }
      }
    }

    /** `getDefaultServlet`: created once on first use; stays unset while its `init` fails. */
    method GetDefaultServlet(initOk: bool) returns (s: Option<Servlet>)
      modifies this`defaultServlet
      ensures defaultServlet == LazyDefault(old(defaultServlet), initOk, DefaultServlet)
      ensures s == defaultServlet
    {
      if defaultServlet.None? {
        if initOk {
          defaultServlet := Some(DefaultServlet);
        }
      }
      return defaultServlet;
    }

    /** `getDefaultErrorServlet`: as `getDefaultServlet`, for the default error handler. */
    method GetDefaultErrorServlet(initOk: bool) returns (s: Option<Servlet>)
      modifies this`defaultErrorServlet
      ensures defaultErrorServlet == LazyDefault(old(defaultErrorServlet), initOk, DefaultErrorServlet)
      ensures s == defaultErrorServlet
    {
      if defaultErrorServlet.None? {
        if initOk {
          defaultErrorServlet := Some(DefaultErrorServlet);
        }
      }
      return defaultErrorServlet;
    }

    // ---------- error handling ----------

    /** Looks up an error servlet and falls back to the default error servlet. */
    method FindErrorServlet(c: Collector<K>, req: RequestView, defaultInitOk: bool) returns (servlet: Option<Servlet>)
      modifies this`cache, this`defaultErrorServlet
      ensures servlet == ChosenErrorServlet(Resolved(old(cache), c, req), old(defaultErrorServlet), defaultInitOk)
      ensures cache == CacheAfter(old(cache), c, req)
      ensures defaultErrorServlet == if Resolved(old(cache), c, req).Some? then old(defaultErrorServlet) else servlet
    {
      servlet := GetServlet(c, req);
      if servlet.None? {
        servlet := GetDefaultErrorServlet(defaultInitOk);
      }
    }

    /**
     * The private `handleError(Servlet, …)`: records the request URI (which
     * arms the recursion guard), records the handler's name unless a name is
     * already recorded, then calls the handler.
     */
    method InvokeErrorHandler(handler: Option<Servlet>, req: Request, service: ServiceResult) returns (done: Completion)
      modifies req
      ensures GetAttribute(req.attributes, ErrorRequestUri) == Some(StrAttr(req.uri))
      ensures GetAttribute(req.attributes, ErrorServletName) == ReportedName(old(req.attributes), handler)
      ensures AgreeOutside(req.attributes, old(req.attributes), {ErrorRequestUri, ErrorServletName})
      ensures done == InvocationResult(handler, ReportedName(old(req.attributes), handler), service)
    {
      req.attributes := req.attributes[ErrorRequestUri := StrAttr(req.uri)];
      if ErrorServletName !in req.attributes {
        if handler.None? {
          return Abrupt(NullPointer);
        }
        req.attributes := req.attributes[ErrorServletName := StrAttr(handler.value.name)];
      }
      if handler.None? {
        return Normal;
      }
      if service == RaisedIOException {
        return Abrupt(IOFailure);
      }
      return Normal;
    }

    /**
     * `handleError(int, …)`: unless an error is already being handled, looks
     * up the handler for the status code (falling back to the default error
     * servlet), records status, message and the failing servlet's name, and
     * invokes the handler.
     */
    method HandleErrorStatus(status: int, message: Option<string>, req: Request,
                             errorCollector: (string, Resource) -> Collector<K>,
                             defaultInitOk: bool, service: ServiceResult)
      returns (done: Completion)
      modifies this`cache, this`defaultErrorServlet, req
      ensures ErrorRequestUri in old(req.attributes) ==>
        done == Normal && req.attributes == old(req.attributes)
        && cache == old(cache) && defaultErrorServlet == old(defaultErrorServlet)
      ensures ErrorRequestUri !in old(req.attributes) ==>
        var c := errorCollector(DecimalString(status), ErrorResource(req.resource, req.pathInfo));
        var found := Resolved(old(cache), c, old(req.View()));
        var handler := ChosenErrorServlet(found, old(defaultErrorServlet), defaultInitOk);
        && cache == CacheAfter(old(cache), c, old(req.View()))
        && defaultErrorServlet == (if found.Some? then old(defaultErrorServlet) else handler)
        && GetAttribute(req.attributes, ErrorRequestUri) == Some(StrAttr(req.uri))
        && GetAttribute(req.attributes, ErrorStatus) == Some(IntAttr(status))
        && GetAttribute(req.attributes, ErrorMessage) == MessageAttr(message)
        && GetAttribute(req.attributes, ErrorServletName) == StatusReportedName(old(req.attributes), handler)
        && AgreeOutside(req.attributes, old(req.attributes), {ErrorRequestUri, ErrorStatus, ErrorMessage, ErrorServletName})
        && done == InvocationResult(handler, StatusReportedName(old(req.attributes), handler), service)
    {
      if ErrorRequestUri in req.attributes {
        return Normal;
      }
      var resource := ErrorResource(req.resource, req.pathInfo);
      var c := errorCollector(DecimalString(status), resource);
      var servlet := FindErrorServlet(c, req.View(), defaultInitOk);
      req.attributes := req.attributes[ErrorStatus := IntAttr(status)];
      req.attributes := SetAttribute(req.attributes, ErrorMessage, MessageAttr(message));
      var servletName := GetAttribute(req.attributes, SlingCurrentServletName);
      if servletName.Some? && servletName.value.StrAttr? {
        req.attributes := req.attributes[ErrorServletName := servletName.value];
      }
      ghost var staged := req.attributes;
      assert AgreeOutside(staged, old(req.attributes), {ErrorStatus, ErrorMessage, ErrorServletName});
      done := InvokeErrorHandler(servlet, req, service);
      AgreeOutsideTrans(req.attributes, staged, old(req.attributes), {ErrorRequestUri, ErrorServletName}, {ErrorStatus, ErrorMessage, ErrorServletName});
    }

    /**
     * The exception walk: tries the simple name of each class of the chain
     * in order, never that of java.lang.Object, and stops at the first that
     * resolves; falls back to the default error servlet when none does.
     */
    method WalkClassChain(chain: seq<JavaClass>, errorCollector: (string, Resource) -> Collector<K>,
                          resource: Resource, view: RequestView, defaultInitOk: bool)
      returns (servlet: Option<Servlet>)
      requires ValidClassChain(chain)
      modifies this`cache, this`defaultErrorServlet
      ensures var found := WalkFound(old(cache), chain, errorCollector, resource, view);
        && servlet == ChosenErrorServlet(found, old(defaultErrorServlet), defaultInitOk)
        && defaultErrorServlet == (if found.Some? then old(defaultErrorServlet) else servlet)
      ensures cache == WalkCache(old(cache), chain, errorCollector, resource, view)
    {
      ghost var below := chain[..|chain| - 1];
      servlet := None;
      var tClass := 0;
      while servlet.None? && chain[tClass] != ObjectClass
        invariant 0 <= tClass <= |below|
        invariant defaultErrorServlet == old(defaultErrorServlet)
        invariant servlet.None? ==> cache == old(cache)
        invariant servlet.None? ==>
          forall j :: 0 <= j < tClass ==> Resolved(old(cache), errorCollector(below[j].simpleName, resource), view).None?
        invariant servlet.Some? ==> 0 < tClass
        invariant servlet.Some? ==> FirstHandledLevel(old(cache), below, errorCollector, resource, view) == tClass - 1
        invariant servlet.Some? ==> servlet == Resolved(old(cache), errorCollector(below[tClass - 1].simpleName, resource), view)
        invariant servlet.Some? ==> cache == CacheAfter(old(cache), errorCollector(below[tClass - 1].simpleName, resource), view)
        decreases |chain| - tClass
      {
        var c := errorCollector(chain[tClass].simpleName, resource);
        servlet := GetServlet(c, view);
        tClass := tClass + 1;
      }
      if servlet.None? {
        servlet := GetDefaultErrorServlet(defaultInitOk);
      }
    }

    /**
     * `handleError(Throwable, …)`: unless an error is already being handled,
     * tries the simple names of the exception's class and its superclasses
     * in order (never Object) and stops at the first that resolves, falling
     * back to the default error servlet; records the exception, its class
     * and its message, and invokes the handler.
     */
    method HandleThrowable(t: Throwable, req: Request,
                           errorCollector: (string, Resource) -> Collector<K>,
                           defaultInitOk: bool, service: ServiceResult)
      returns (done: Completion)
      requires ValidClassChain(t.classChain)
      modifies this`cache, this`defaultErrorServlet, req
      ensures ErrorRequestUri in old(req.attributes) ==>
        done == Normal && req.attributes == old(req.attributes)
        && cache == old(cache) && defaultErrorServlet == old(defaultErrorServlet)
      ensures ErrorRequestUri !in old(req.attributes) ==>
        var anchor := ErrorResource(req.resource, req.pathInfo);
        var view := old(req.View());
        var found := WalkFound(old(cache), t.classChain, errorCollector, anchor, view);
        var handler := ChosenErrorServlet(found, old(defaultErrorServlet), defaultInitOk);
        && cache == WalkCache(old(cache), t.classChain, errorCollector, anchor, view)
        && defaultErrorServlet == (if found.Some? then old(defaultErrorServlet) else handler)
        && GetAttribute(req.attributes, ErrorRequestUri) == Some(StrAttr(req.uri))
        && GetAttribute(req.attributes, ErrorException) == Some(ThrowableAttr(t))
        && GetAttribute(req.attributes, ErrorExceptionType) == Some(ClassAttr(t.classChain[0]))
        && GetAttribute(req.attributes, ErrorMessage) == MessageAttr(t.message)
        && GetAttribute(req.attributes, ErrorServletName) == ReportedName(old(req.attributes), handler)
        && AgreeOutside(req.attributes, old(req.attributes), {ErrorRequestUri, ErrorException, ErrorExceptionType, ErrorMessage, ErrorServletName})
        && done == InvocationResult(handler, ReportedName(old(req.attributes), handler), service)
    {
      if ErrorRequestUri in req.attributes {
        return Normal;
      }
      var resource := ErrorResource(req.resource, req.pathInfo);
      var servlet := WalkClassChain(t.classChain, errorCollector, resource, req.View(), defaultInitOk);
      req.attributes := req.attributes[ErrorException := ThrowableAttr(t)];
      req.attributes := req.attributes[ErrorExceptionType := ClassAttr(t.classChain[0])];
      req.attributes := SetAttribute(req.attributes, ErrorMessage, MessageAttr(t.message));
      ghost var staged := req.attributes;
      assert AgreeOutside(staged, old(req.attributes), {ErrorException, ErrorExceptionType, ErrorMessage});
      done := InvokeErrorHandler(servlet, req, service);
      AgreeOutsideTrans(req.attributes, staged, old(req.attributes), {ErrorRequestUri, ErrorServletName}, {ErrorException, ErrorExceptionType, ErrorMessage});
    }

    // ---------- cache invalidation ----------

    /**
     * `handleEvent`: when there is a cache and the event's path starts with
     * any search path entry, the whole cache is cleared; otherwise it is
     * left as it is.
     */
    method HandleEvent(path: string, searchPaths: seq<string>)
      modifies this`cache
      ensures old(cache).Some? && (exists i :: 0 <= i < |searchPaths| && searchPaths[i] <= path) ==>
        cache == Some(map[])
      ensures old(cache).None? || (forall i :: 0 <= i < |searchPaths| ==> !(searchPaths[i] <= path)) ==>
        cache == old(cache)
    {
      if cache.Some? {
        var flushCache := false;
        var index := 0;
        while !flushCache && index < |searchPaths|
          invariant 0 <= index <= |searchPaths|
          invariant flushCache <==> exists j :: 0 <= j < index && searchPaths[j] <= path
        {
          if searchPaths[index] <= path {
            flushCache := true;
          }
          index := index + 1;
        }
        if flushCache {
          cache := Some(map[]);
        }
      }
    }

    // ---------- registration ----------

    /**
     * `activate`: takes the pending queue, marks the component active,
     * creates a cache when the configured size (200 when unset) exceeds 5,
     * and registers the queued references once, in arrival order.
     */
    method Activate(configuredCacheSize: Option<int>)
      modifies this`pendingServlets, this`activated, this`cache, this`servletsByReference
      ensures activated && pendingServlets == []
      ensures var size := if configuredCacheSize.Some? then configuredCacheSize.value else DefaultCacheSize;
        cache == if size > CacheSizeThreshold then Some(map[]) else old(cache)
      ensures servletsByReference == CreatedAll(old(servletsByReference), old(pendingServlets))
    {
      var refs := pendingServlets;
      pendingServlets := [];
      activated := true;
      var cacheSize := if configuredCacheSize.Some? then configuredCacheSize.value else DefaultCacheSize;
      if cacheSize > CacheSizeThreshold {
        cache := Some(map[]);
      }
      for i := 0 to |refs|
        invariant activated && pendingServlets == []
        invariant cache == if cacheSize > CacheSizeThreshold then Some(map[]) else old(cache)
        invariant servletsByReference == CreatedAll(old(servletsByReference), refs[..i])
      {
        var _ := CreateServlet(refs[i]);
        CreatedAllAppend(old(servletsByReference), refs[..i], refs[i]);
        assert refs[..i + 1] == refs[..i] + [refs[i]];
      }
      assert refs[..|refs|] == refs;
    }

    /** `bindServlet`: queued before activation, registered at once after it. */
    method BindServlet(r: ServiceRef)
      modifies this`pendingServlets, this`servletsByReference
      ensures !activated ==>
        pendingServlets == old(pendingServlets) + [r] && servletsByReference == old(servletsByReference)
      ensures activated ==>
        pendingServlets == old(pendingServlets) && servletsByReference == Created(old(servletsByReference), r)
    {
      if !activated {
        pendingServlets := pendingServlets + [r];
      } else {
        var _ := CreateServlet(r);
      }
    }

    /** `unbindServlet`: drops the reference from the queue and destroys its live registration. */
    method UnbindServlet(r: ServiceRef)
      modifies this`pendingServlets, this`servletsByReference
      ensures pendingServlets == RemoveFirst(old(pendingServlets), r)
      ensures servletsByReference == old(servletsByReference) - {r}
    {
      pendingServlets := RemoveFirst(pendingServlets, r);
      var _ := DestroyServlet(r);
    }

    /** `createServlet`: registers the reference when every check passes. */
    method CreateServlet(r: ServiceRef) returns (created: bool)
      requires activated
      modifies this`servletsByReference
      ensures created == Creatable(r)
      ensures servletsByReference == Created(old(servletsByReference), r)
    {
      if r.name.None? {
        return false;
      }
      if r.servletPaths.None? {
        return false;
      }
      if !r.serviceAvailable {
        return false;
      }
      if !r.initSucceeds {
        return false;
      }
      servletsByReference := servletsByReference[r := Registration(r.name.value, r.servletPaths.value)];
      return true;
    }

    /**
     * `destroyServlet`: removes the live registration, if any; `destroyed`
     * tells whether there was one to unregister and tear down.
     */
    method DestroyServlet(r: ServiceRef) returns (destroyed: bool)
      modifies this`servletsByReference
      ensures destroyed == (r in old(servletsByReference))
      ensures servletsByReference == old(servletsByReference) - {r}
    {
      destroyed := r in servletsByReference;
      servletsByReference := servletsByReference - {r};
    }
  }
}
