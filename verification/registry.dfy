/**
 * The servlet registration bookkeeping as functions: what `createServlet`
 * does to the registrations, the replay of a queue of references, and the
 * removal `unbindServlet` applies to the pending queue.
 */
module Registry {
  import opened ResolverTypes

  /**
   * `createServlet` registers a reference when it has a servlet name, its
   * resource provider is destined for Sling, the service can be located and
   * its `init` succeeds; otherwise it gives up and registers nothing.
   */
  predicate Creatable(r: ServiceRef)
  {
    r.name.Some? && r.servletPaths.Some? && r.serviceAvailable && r.initSucceeds
  }

  /** The registrations after `createServlet(r)`. */
  function Created(regs: map<ServiceRef, Registration>, r: ServiceRef): map<ServiceRef, Registration>
  {
    if Creatable(r) then regs[r := Registration(r.name.value, r.servletPaths.value)] else regs
  }

  /** The registrations after `createServlet` on each reference of `refs`, in order. */
  function CreatedAll(regs: map<ServiceRef, Registration>, refs: seq<ServiceRef>): map<ServiceRef, Registration>
    decreases |refs|
  {
    if |refs| == 0 then regs
    else CreatedAll(Created(regs, refs[0]), refs[1..])
  }

  /**
   * Replaying a queue and then one more reference is the same as replaying
   * the queue with that reference appended: a reference bound before
   * activation ends up exactly as if it had been bound right after it.
   */
  lemma {:induction false} CreatedAllAppend(regs: map<ServiceRef, Registration>, refs: seq<ServiceRef>, r: ServiceRef)
    ensures CreatedAll(regs, refs + [r]) == Created(CreatedAll(regs, refs), r)
    decreases |refs|
  {
    if |refs| == 0 {
      assert refs + [r] == [r];
      assert [r][1..] == [];
    } else {
      assert (refs + [r])[1..] == refs[1..] + [r];
      CreatedAllAppend(Created(regs, refs[0]), refs[1..], r);
    }
  }

  /**
   * After a replay, the registered references are the ones registered before
   * plus every creatable reference of the queue, with the registration its
   * own properties give.
   */
  lemma {:induction false} CreatedAllRegisters(regs: map<ServiceRef, Registration>, refs: seq<ServiceRef>)
    ensures CreatedAll(regs, refs).Keys == regs.Keys + set r | r in refs && Creatable(r)
    ensures forall r :: r in refs && Creatable(r) ==>
      CreatedAll(regs, refs)[r] == Registration(r.name.value, r.servletPaths.value)
    ensures forall r :: r in regs && r !in refs ==> CreatedAll(regs, refs)[r] == regs[r]
    decreases |refs|
  {
    if |refs| > 0 {
      CreatedAllRegisters(Created(regs, refs[0]), refs[1..]);
      forall r | r in refs
        ensures r == refs[0] || r in refs[1..]
      {
        var k :| 0 <= k < |refs| && refs[k] == r;
        if k > 0 {
          assert refs[1..][k - 1] == r;
        }
      }
    }
  }

  /** Position of the first occurrence of `x` in `s`, |s| when there is none. */
  function FirstIndex<T(==)>(s: seq<T>, x: T): (i: nat)
    ensures i <= |s|
    ensures i < |s| ==> s[i] == x
    ensures x !in s[..i]
  {
    if |s| == 0 then 0
    else if s[0] == x then 0
    else
      assert s[..1 + FirstIndex(s[1..], x)] == [s[0]] + s[1..][..FirstIndex(s[1..], x)];
      1 + FirstIndex(s[1..], x)
  }

  /**
   * `List.remove(Object)`: deletes the first occurrence of `x`, if any,
   * keeping the order of the rest.
   */
  function RemoveFirst<T(==)>(s: seq<T>, x: T): (r: seq<T>)
    ensures x !in s ==> r == s
    ensures x in s ==> var i := FirstIndex(s, x); r == s[..i] + s[i + 1..]
    ensures multiset(r) == multiset(s) - multiset{x}
  {
    var i := FirstIndex(s, x);
    if i == |s| then s
    else
      assert s == s[..i] + [s[i]] + s[i + 1..];
      s[..i] + s[i + 1..]
  }
}
