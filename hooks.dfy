/** The two hook chains: pre-request hooks, which may veto a request, and
    post-response hooks, which are only told the outcome. */
module Hooks {
  import opened GoRuntime
  import opened Errors

  /** The indices 0 .. n-1 in increasing order. */
  function Range(n: nat): (s: seq<nat>)
    ensures |s| == n && forall i :: 0 <= i < n ==> s[i] == i
  {
    seq(n, i => i)
  }

  /** The index of the first pre-request hook that returns an error for
      `r`, or `|hooks|` when none does. */
  function VetoIndex<Rq>(hooks: seq<Rq -> Option<HttpError>>, r: Rq): (k: nat)
    ensures k <= |hooks|
    ensures forall j :: 0 <= j < k ==> hooks[j](r).None?
    ensures k < |hooks| ==> hooks[k](r).Some?
  {
    if |hooks| == 0 then 0
    else if hooks[0](r).Some? then 0
    else 1 + VetoIndex(hooks[1..], r)
  }

  /** The three properties of VetoIndex determine it: the first failing hook is unique. */
  lemma VetoIndexUnique<Rq>(hooks: seq<Rq -> Option<HttpError>>, r: Rq, k: nat)
    requires k <= |hooks|
    requires forall j :: 0 <= j < k ==> hooks[j](r).None?
    requires k < |hooks| ==> hooks[k](r).Some?
    ensures k == VetoIndex(hooks, r)
  {
  }

  /** `callPreRequestHooks(hooks, r)`.  Besides the result, `calls` lists the
      indices of the hooks that were invoked, in invocation order. */
  method CallPreRequestHooks<Rq>(hooks: seq<Rq -> Option<HttpError>>, r: Rq)
    returns (err: Option<HttpError>, calls: seq<nat>)
    ensures err.None? <==> forall i :: 0 <= i < |hooks| ==> hooks[i](r).None?
    ensures err.None? ==> calls == Range(|hooks|)
    ensures err.Some? ==>
      var k := VetoIndex(hooks, r);
      k < |hooks| && err == hooks[k](r) && calls == Range(k + 1)
  {
    calls := [];
    var i := 0;
    while i < |hooks|
      invariant 0 <= i <= |hooks|
      invariant forall j :: 0 <= j < i ==> hooks[j](r).None?
      invariant calls == Range(i)
    {
      var e := hooks[i](r);
      calls := calls + [i];
      if e.Some? {
        VetoIndexUnique(hooks, r, i);
        return e, calls;
      }
      i := i + 1;
    }
    VetoIndexUnique(hooks, r, |hooks|);
    return None, calls;
  }

  /** The dispatch log of a loop `for i := range hooks { go hooks[i](arg) }`
      over `n` hooks: hook i once, at position i, with `arg`. */
  function Dispatches<A>(n: nat, arg: A): (d: seq<(nat, A)>)
    ensures |d| == n
    ensures forall i :: 0 <= i < n ==> d[i] == (i, arg)
  {
    if n == 0 then [] else Dispatches(n - 1, arg) + [(n - 1, arg)]
  }

  /** `callPostResponseHooks(hooks, httpErr, status)`: every hook is started
      once, on its own goroutine, with the same error and status. */
  method CallPostResponseHooks<H>(hooks: seq<H>, httpErr: Option<HttpError>, status: int,
                                  g: Goroutines<(Option<HttpError>, int)>)
    modifies g
    ensures g.started == old(g.started) + Dispatches(|hooks|, (httpErr, status))
  {
    var i := 0;
    while i < |hooks|
      invariant 0 <= i <= |hooks|
      invariant g.started == old(g.started) + Dispatches(i, (httpErr, status))
    {
      g.Go(i, (httpErr, status));
      i := i + 1;
    }
  }
}
