/**
 * The negotiation `getServlet` performs over an ordered candidate list, and
 * the lookup cache in front of it, as functions of the cache's state.
 * `SlingServletResolver.GetServlet` is proved to compute exactly these.
 */
module Negotiation {
  import opened ResolverTypes

  /** Whether an adapted servlet takes the request: plain ones always do. */
  function Accepts(s: Servlet, req: RequestView): bool
  {
    match s
    case Plain(_) => true
    case Opting(_, accepts) => accepts(req)
  }

  /** A candidate qualifies when it adapts to a servlet that accepts the request. */
  predicate Qualifies(c: Resource, req: RequestView)
  {
    c.servlet.Some? && Accepts(c.servlet.value, req)
  }

  predicate IsOpting(c: Resource)
  {
    c.servlet.Some? && c.servlet.value.Opting?
  }

  /** Index of the first qualifying candidate, |cands| when there is none. */
  function FirstQualifying(cands: seq<Resource>, req: RequestView): (i: nat)
    ensures i <= |cands|
    ensures i < |cands| ==> Qualifies(cands[i], req)
    ensures forall j :: 0 <= j < i ==> !Qualifies(cands[j], req)
  {
    if |cands| == 0 then 0
    else if Qualifies(cands[0], req) then 0
    else 1 + FirstQualifying(cands[1..], req)
  }

  /** Index of the first candidate that adapts to a servlet at all, |cands| when none does. */
  function FirstAdaptable(cands: seq<Resource>): (i: nat)
    ensures i <= |cands|
    ensures i < |cands| ==> cands[i].servlet.Some?
    ensures forall j :: 0 <= j < i ==> cands[j].servlet.None?
  {
    if |cands| == 0 then 0
    else if cands[0].servlet.Some? then 0
    else 1 + FirstAdaptable(cands[1..])
  }

  /** The servlet negotiation picks: the first qualifying candidate's, or None. */
  function Negotiate(cands: seq<Resource>, req: RequestView): (r: Option<Servlet>)
    ensures r.Some? ==> Accepts(r.value, req)
    ensures r.None? <==> forall j :: 0 <= j < |cands| ==> !Qualifies(cands[j], req)
    ensures r.Some? ==> exists j :: 0 <= j < |cands| && cands[j].servlet == r
  {
    var i := FirstQualifying(cands, req);
    if i < |cands| then cands[i].servlet else None
  }

  /** Whether an opting servlet was met before position i. */
  predicate OptingBefore(cands: seq<Resource>, i: nat)
    requires i <= |cands|
  {
    exists j :: 0 <= j < i && IsOpting(cands[j])
  }

  /** The winner may be cached: it is plain and no opting servlet came before it. */
  predicate CacheEligible(cands: seq<Resource>, req: RequestView)
  {
    var i := FirstQualifying(cands, req);
    i < |cands| && cands[i].servlet.value.Plain? && !OptingBefore(cands, i)
  }

  /** What `getServlet` returns for a cache in state `cache` (None: no cache). */
  function Resolved<K(==)>(cache: Option<map<K, Servlet>>, c: Collector<K>, req: RequestView): Option<Servlet>
  {
    if cache.Some? && c.key in cache.value then Some(cache.value[c.key])
    else Negotiate(c.candidates, req)
  }

  /**
   * The cache after `getServlet`. The cache write rule: an entry is added only
   * on a miss of an existing cache whose negotiation winner is plain with no
   * opting servlet before it; a null result and an opting winner are never cached.
   */
  function CacheAfter<K(==)>(cache: Option<map<K, Servlet>>, c: Collector<K>, req: RequestView): (r: Option<map<K, Servlet>>)
    ensures r.Some? <==> cache.Some?
    ensures Resolved(cache, c, req).None? ==> r == cache
    ensures r != cache ==>
      && c.key !in cache.value
      && Negotiate(c.candidates, req).Some?
      && Negotiate(c.candidates, req).value.Plain?
      && !OptingBefore(c.candidates, FirstQualifying(c.candidates, req))
      && r.value == cache.value[c.key := Negotiate(c.candidates, req).value]
    ensures cache.Some? && c.key !in cache.value && CacheEligible(c.candidates, req) ==>
      r.value == cache.value[c.key := Negotiate(c.candidates, req).value]
  {
    if cache.Some? && c.key !in cache.value && CacheEligible(c.candidates, req)
    then Some(cache.value[c.key := Negotiate(c.candidates, req).value])
    else cache
  }

  /**
   * A cached servlet is correct for a candidate list when it is the plain
   * servlet of the first candidate that adapts at all: then negotiation
   * picks it whatever the request.
   */
  ghost predicate CachedCorrectly(cands: seq<Resource>, s: Servlet)
  {
    var i := FirstAdaptable(cands);
    i < |cands| && cands[i].servlet == Some(s) && s.Plain?
  }

  /** Every entry of the cache is correct for the candidates its key enumerates to. */
  ghost predicate Coherent<K>(cache: Option<map<K, Servlet>>, enumerate: K -> seq<Resource>)
  {
    cache.Some? ==> forall k :: k in cache.value ==> CachedCorrectly(enumerate(k), cache.value[k])
  }

  /** A plain servlet on the first adaptable candidate wins every negotiation. */
  lemma PlainLeaderWinsEveryRequest(cands: seq<Resource>, s: Servlet, req: RequestView)
    requires CachedCorrectly(cands, s)
    ensures FirstQualifying(cands, req) == FirstAdaptable(cands)
    ensures Negotiate(cands, req) == Some(s)
  {
    var a := FirstAdaptable(cands);
    assert Qualifies(cands[a], req);
  }

  /** A cache-eligible winner sits on the first adaptable candidate, so it is cached correctly. */
  lemma EligibleWinnerIsCachedCorrectly(cands: seq<Resource>, req: RequestView)
    requires CacheEligible(cands, req)
    ensures Negotiate(cands, req).Some?
    ensures CachedCorrectly(cands, Negotiate(cands, req).value)
  {
    var q := FirstQualifying(cands, req);
    forall j | 0 <= j < q
      ensures cands[j].servlet.None?
    {
      assert !IsOpting(cands[j]);
      assert !Qualifies(cands[j], req);
    }
    assert FirstAdaptable(cands) == q;
  }

  /**
   * The cache never changes what a lookup answers: with a coherent cache and
   * a collector that enumerates its key's candidates, `getServlet` returns
   * the negotiation result for this very request, and the cache stays coherent.
   */
  lemma {:induction false} CacheIsTransparent<K>(
    cache: Option<map<K, Servlet>>, enumerate: K -> seq<Resource>, c: Collector<K>, req: RequestView)
    requires Coherent(cache, enumerate)
    requires c.candidates == enumerate(c.key)
    ensures Resolved(cache, c, req) == Negotiate(c.candidates, req)
    ensures Coherent(CacheAfter(cache, c, req), enumerate)
  {
    if cache.Some? && c.key in cache.value {
      PlainLeaderWinsEveryRequest(c.candidates, cache.value[c.key], req);
    } else if cache.Some? && CacheEligible(c.candidates, req) {
      EligibleWinnerIsCachedCorrectly(c.candidates, req);
      var m := CacheAfter(cache, c, req).value;
      forall k | k in m
        ensures CachedCorrectly(enumerate(k), m[k])
      {
        if k != c.key {
          assert k in cache.value;
        }
      }
    }
  }

  /**
   * A lookup that wrote an entry is answered from the cache by every later
   * lookup with the same key, whatever the request and candidate list.
   */
  lemma SecondLookupHits<K>(cache: Option<map<K, Servlet>>, c: Collector<K>, req: RequestView, c': Collector<K>, req': RequestView)
    requires cache.Some? && c.key !in cache.value && CacheEligible(c.candidates, req)
    requires c'.key == c.key
    ensures Resolved(CacheAfter(cache, c, req), c', req') == Resolved(cache, c, req)
    ensures CacheAfter(CacheAfter(cache, c, req), c', req') == CacheAfter(cache, c, req)
  {
  }
}
