/**
 * Pure parts of error resolution: the resource error handling is anchored
 * at, the method name a status code is looked up under, and which level of
 * an exception's class chain the exception walk settles on.
 */
module ErrorResolution {
  import opened ResolverTypes
  import opened Negotiation

  /**
   * `getErrorResource`: the request's resource, or, when none was assigned
   * yet, a synthetic resource at the request's path info typed as the error
   * handler root (it adapts to nothing).
   */
  function ErrorResource(resource: Option<Resource>, pathInfo: string): Resource
  {
    match resource
    case Some(res) => res
    case None => Resource(pathInfo, ErrorHandlerPath, None, None)
  }

  predicate IsDigit(ch: char)
  {
    '0' as int <= ch as int <= '9' as int
  }

  function DigitChar(d: nat): (ch: char)
    requires d < 10
    ensures IsDigit(ch) && ch as int - '0' as int == d
  {
    (d + '0' as int) as char
  }

  /** Decimal digits of a natural number, without leading zeros. */
  function NatString(n: nat): (s: string)
    ensures |s| >= 1
    ensures forall i :: 0 <= i < |s| ==> IsDigit(s[i])
    ensures n > 0 ==> s[0] != '0'
  {
    if n < 10 then [DigitChar(n)]
    else NatString(n / 10) + [DigitChar(n % 10)]
  }

  /** `String.valueOf(int)`: an optional minus sign, then the digits of the magnitude. */
  function DecimalString(n: int): string
  {
    if n < 0 then "-" + NatString(-n) else NatString(n)
  }

  /** Reads back a string of decimal digits. */
  function ParseDigits(s: string): nat
    requires forall i :: 0 <= i < |s| ==> IsDigit(s[i])
  {
    if |s| == 0 then 0
    else
      assert IsDigit(s[|s| - 1]);
      10 * ParseDigits(s[..|s| - 1]) + (s[|s| - 1] as int - '0' as int)
  }

  lemma {:induction false} ParseNatString(n: nat)
    ensures ParseDigits(NatString(n)) == n
  {
    if n >= 10 {
      var s := NatString(n);
      assert s[..|s| - 1] == NatString(n / 10);
      ParseNatString(n / 10);
    }
  }

  /** Different numbers have different digit strings. */
  lemma NatStringInjective(m: nat, n: nat)
    ensures NatString(m) == NatString(n) ==> m == n
  {
    ParseNatString(m);
    ParseNatString(n);
  }

  /**
   * Distinct status codes are looked up under distinct method names
   * (`String.valueOf` is injective on `int`).
   */
  lemma StatusNamesAreDistinct(a: int, b: int)
    requires a != b
    ensures DecimalString(a) != DecimalString(b)
  {
    if a < 0 && b < 0 {
      NatStringInjective(-a, -b);
      assert DecimalString(a)[1..] == NatString(-a);
      assert DecimalString(b)[1..] == NatString(-b);
    } else if a >= 0 && b >= 0 {
      NatStringInjective(a, b);
    } else if a < 0 {
      assert DecimalString(a)[0] == '-';
      assert IsDigit(DecimalString(b)[0]);
    } else {
      assert DecimalString(b)[0] == '-';
      assert IsDigit(DecimalString(a)[0]);
    }
  }

  /**
   * When the error collector gives different method names different cache
   * keys, the lookup for status `b` never writes the entry status `a` is
   * looked up under: that entry is absent after it exactly when it was absent
   * before, and keeps its servlet otherwise. So what status `a` resolves to
   * is the same before and after the lookup for status `b`.
   */
  lemma StatusLookupsAreIndependent<K>(
    cache: Option<map<K, Servlet>>, errorCollector: (string, Resource) -> Collector<K>, anchor: Resource,
    a: int, b: int, reqA: RequestView, reqB: RequestView)
    requires a != b
    requires forall m, n :: errorCollector(m, anchor).key == errorCollector(n, anchor).key ==> m == n
    ensures var ka := errorCollector(DecimalString(a), anchor).key;
      var after := CacheAfter(cache, errorCollector(DecimalString(b), anchor), reqB);
      after.Some? ==>
        && (ka in after.value <==> ka in cache.value)
        && (ka in cache.value ==> after.value[ka] == cache.value[ka])
    ensures var ca := errorCollector(DecimalString(a), anchor);
      var cb := errorCollector(DecimalString(b), anchor);
      Resolved(CacheAfter(cache, cb, reqB), ca, reqA) == Resolved(cache, ca, reqA)
  {
    StatusNamesAreDistinct(a, b);
  }

  /**
   * The level of a list of classes the exception walk stops at: the first
   * class whose simple name's error collector resolves to a servlet against
   * the cache as it was when the walk began, or |classes| when none does.
   */
  function FirstHandledLevel<K(==)>(
    cache: Option<map<K, Servlet>>, classes: seq<JavaClass>,
    errorCollector: (string, Resource) -> Collector<K>, anchor: Resource, req: RequestView): (i: nat)
    ensures i <= |classes|
    ensures i < |classes| ==> Resolved(cache, errorCollector(classes[i].simpleName, anchor), req).Some?
    ensures forall j :: 0 <= j < i ==> Resolved(cache, errorCollector(classes[j].simpleName, anchor), req).None?
  {
    if |classes| == 0 then 0
    else if Resolved(cache, errorCollector(classes[0].simpleName, anchor), req).Some? then 0
    else 1 + FirstHandledLevel(cache, classes[1..], errorCollector, anchor, req)
  }

  /**
   * The servlet the exception walk finds over a class chain, Object's level
   * excluded: the lookup result at the first level that resolves, None when
   * no level does.
   */
  function WalkFound<K(==)>(
    cache: Option<map<K, Servlet>>, chain: seq<JavaClass>,
    errorCollector: (string, Resource) -> Collector<K>, anchor: Resource, req: RequestView): (r: Option<Servlet>)
    requires |chain| >= 1
    ensures r.None? <==>
      forall j :: 0 <= j < |chain| - 1 ==> Resolved(cache, errorCollector(chain[j].simpleName, anchor), req).None?
    ensures r.Some? ==>
      exists j :: 0 <= j < |chain| - 1 && r == Resolved(cache, errorCollector(chain[j].simpleName, anchor), req)
  {
    var below := chain[..|chain| - 1];
    var level := FirstHandledLevel(cache, below, errorCollector, anchor, req);
    if level < |below| then
      assert below[level] == chain[level];
      Resolved(cache, errorCollector(below[level].simpleName, anchor), req)
    else
      assert forall j :: 0 <= j < |chain| - 1 ==> below[j] == chain[j];
      None
  }

  /**
   * The cache after the exception walk: only the lookup at the level the
   * walk stops at can write to it.
   */
  function WalkCache<K(==)>(
    cache: Option<map<K, Servlet>>, chain: seq<JavaClass>,
    errorCollector: (string, Resource) -> Collector<K>, anchor: Resource, req: RequestView): (r: Option<map<K, Servlet>>)
    requires |chain| >= 1
    ensures WalkFound(cache, chain, errorCollector, anchor, req).None? ==> r == cache
    ensures r.Some? <==> cache.Some?
  {
    var below := chain[..|chain| - 1];
    var level := FirstHandledLevel(cache, below, errorCollector, anchor, req);
    if level < |below| then CacheAfter(cache, errorCollector(below[level].simpleName, anchor), req) else cache
  }

  /**
   * The error servlet chosen from a lookup result: the result itself, or the
   * lazily created default error servlet.
   */
  function ChosenErrorServlet(found: Option<Servlet>, defaultBefore: Option<Servlet>, defaultInitOk: bool): Option<Servlet>
  {
    if found.Some? then found else LazyDefault(defaultBefore, defaultInitOk, DefaultErrorServlet)
  }
}
