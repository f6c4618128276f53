/**
 * Values the servlet resolver works with: servlets, resources of the
 * content tree, the read-only view a resource resolver gives of that tree,
 * request attributes, exceptions and service references.
 *
 * Resources, servlets and service references are objects owned by other
 * components; the resolver only reads them, so they are modelled as values.
 */
module ResolverTypes {

  datatype Option<+T> = None | Some(value: T)

  /** The immutable part of a request that an opting servlet may inspect. */
  datatype RequestView = RequestView(uri: string, pathInfo: string, attributes: map<string, Attr>)

  /**
   * A servlet a resource adapts to. A plain servlet accepts every request;
   * an opting servlet decides per request (`OptingServlet.accepts`).
   * `name` is the servlet name of its configuration.
   */
  datatype Servlet =
    | Plain(name: string)
    | Opting(name: string, accepts: RequestView -> bool)

  /** A script a resource adapts to, identified by its script resource path. */
  datatype Script = Script(resourcePath: string)

  /**
   * A node of the content tree. `servlet` and `script` are the results of
   * `adaptTo(Servlet.class)` and `adaptTo(SlingScript.class)`.
   */
  datatype Resource = Resource(path: string, resourceType: string, servlet: Option<Servlet>, script: Option<Script>)

  /** What a resource resolver offers: lookup by exact path, and the ordered search path. */
  datatype ResourceResolver = ResourceResolver(resources: map<string, Resource>, searchPath: seq<string>)

  function GetResource(resolver: ResourceResolver, path: string): Option<Resource>
  {
    if path in resolver.resources then Some(resolver.resources[path]) else None
  }

  /**
   * A resource collector: the cache key it stands for and the candidate
   * resources it finds, most specific first. How candidates are enumerated
   * is outside this model, so both are inputs.
   */
  datatype Collector<K> = Collector(key: K, candidates: seq<Resource>)

  /** A Java class, by its fully qualified name and its simple name. */
  datatype JavaClass = JavaClass(name: string, simpleName: string)

  const ObjectClass := JavaClass("java.lang.Object", "Object")

  /**
   * An exception: its class followed by each superclass, most derived
   * first, and its message (None for a null message).
   */
  datatype Throwable = Throwable(classChain: seq<JavaClass>, message: Option<string>)

  /**
   * What the Java type system guarantees of a class chain: it ends at
   * java.lang.Object, and Object occurs nowhere else.
   */
  predicate ValidClassChain(chain: seq<JavaClass>)
  {
    && |chain| >= 1
    && chain[|chain| - 1] == ObjectClass
    && forall i :: 0 <= i < |chain| - 1 ==> chain[i] != ObjectClass
  }

  /** Values stored as request attributes. */
  datatype Attr =
    | StrAttr(s: string)
    | IntAttr(i: int)
    | ThrowableAttr(t: Throwable)
    | ClassAttr(c: JavaClass)

  /** Runtime exceptions the modelled code can raise. */
  datatype Fault = NullPointer | IndexOutOfBounds | IOFailure

  /** How a call returning a value ends. */
  datatype Outcome<+T> = Returned(value: T) | Thrown(fault: Fault)

  /** How a call returning nothing ends. */
  datatype Completion = Normal | Abrupt(fault: Fault)

  /** How a servlet's `service` call ends (a foreign call, so an input). */
  datatype ServiceResult = Completed | RaisedIOException | RaisedOther

  /**
   * A service reference to a servlet, with the answers the foreign calls
   * made about it will give: its configured servlet name, the servlet paths
   * its resource provider would publish (None: not destined for Sling),
   * whether the service can be located, and whether its `init` succeeds.
   */
  datatype ServiceRef = ServiceRef(
    id: nat,
    name: Option<string>,
    servletPaths: Option<seq<string>>,
    serviceAvailable: bool,
    initSucceeds: bool)

  /** A live registration: the servlet's name and the paths its provider publishes. */
  datatype Registration = Registration(name: string, paths: seq<string>)

  // Request attribute names (the Java Servlet error attributes and Sling's current servlet name)
  const ErrorStatus := "javax.servlet.error.status_code"
  const ErrorMessage := "javax.servlet.error.message"
  const ErrorRequestUri := "javax.servlet.error.request_uri"
  const ErrorServletName := "javax.servlet.error.servlet_name"
  const ErrorException := "javax.servlet.error.exception"
  const ErrorExceptionType := "javax.servlet.error.exception_type"
  const SlingCurrentServletName := "sling.core.current.servletName"

  /** Resource type of the synthetic resource error handling falls back to. */
  const ErrorHandlerPath := "sling/servlet/errorhandler"

  /** Default cache size and the threshold at or below which no cache is created. */
  const DefaultCacheSize := 200
  const CacheSizeThreshold := 5

  /** Names the two built-in default servlets are initialised with. */
  const DefaultServlet := Plain("Sling Core Default Servlet")
  const DefaultErrorServlet := Plain("Sling Default Error Handler Servlet")

  /** `setAttribute(name, value)`; a null value removes the attribute. */
  function SetAttribute(attrs: map<string, Attr>, name: string, value: Option<Attr>): map<string, Attr>
  {
    match value
    case Some(v) => attrs[name := v]
    case None => attrs - {name}
  }

  /** `getAttribute(name)`; None stands for null. */
  function GetAttribute(attrs: map<string, Attr>, name: string): Option<Attr>
  {
    if name in attrs then Some(attrs[name]) else None
  }

  /**
   * A lazily created default servlet: kept once set; otherwise created now,
   * unless its `init` fails, in which case it stays unset.
   */
  function LazyDefault(current: Option<Servlet>, initOk: bool, created: Servlet): (r: Option<Servlet>)
    ensures current.Some? ==> r == current
    ensures current.None? ==> (r.Some? <==> initOk)
    ensures r.Some? ==> r == current || r == Some(created)
  {
    if current.Some? then current
    else if initOk then Some(created)
    else None
  }
}
