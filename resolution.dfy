/** The aggregation half of `fetchAllVersions`: which error the mutex-guarded `firstErr` slot
    ends up holding once every fetch has completed, taken in a given completion order. */
module Resolution {
  import opened Wrappers

  /** The registry: a provider source maps to its latest version, or to the text of the error
      the fetch failed with. */
  type Fetcher = string -> Result<string, string>

  /** order lists the indices 0..n-1, each once, in the order their goroutines took the mutex. */
  predicate IsCompletionOrder(order: seq<nat>, n: nat)
  {
    && |order| == n
    && (forall k :: 0 <= k < |order| ==> order[k] < n)
    && (forall j, k :: 0 <= j < k < |order| ==> order[j] != order[k])
    && (forall i :: 0 <= i < n ==> i in order)
  }

  /** `fmt.Errorf("failed to fetch version for %s: %w", name, err).Error()` */
  function FetchErrorText(name: string, cause: string): string
  {
    "failed to fetch version for " + name + ": " + cause
  }

  predicate FetchFails<P>(ps: seq<P>, source: P -> string, fetch: Fetcher, i: nat)
    requires i < |ps|
  {
    fetch(source(ps[i])).Failure?
  }

  /** The error recorded by the first failing fetch in completion order, or None. */
  function FirstError<P>(ps: seq<P>, name: P -> string, source: P -> string, fetch: Fetcher, order: seq<nat>): (r: Option<string>)
    requires forall k :: 0 <= k < |order| ==> order[k] < |ps|
  {
    if order == [] then None
    else
      match fetch(source(ps[order[0]]))
      case Failure(e) => Some(FetchErrorText(name(ps[order[0]]), e))
      case Success(_) => FirstError(ps, name, source, fetch, order[1..])
  }

  /** The slot stays empty exactly when no fetch fails; otherwise it holds the error of the
      earliest failure in completion order. */
  lemma {:induction false} FirstErrorIsEarliest<P>(ps: seq<P>, name: P -> string, source: P -> string, fetch: Fetcher, order: seq<nat>)
    requires forall k :: 0 <= k < |order| ==> order[k] < |ps|
    ensures FirstError(ps, name, source, fetch, order).None? <==>
              forall k :: 0 <= k < |order| ==> !FetchFails(ps, source, fetch, order[k])
    ensures FirstError(ps, name, source, fetch, order).Some? ==>
              exists k :: 0 <= k < |order| && FetchFails(ps, source, fetch, order[k]) &&
                (forall j :: 0 <= j < k ==> !FetchFails(ps, source, fetch, order[j])) &&
                FirstError(ps, name, source, fetch, order).value ==
                  FetchErrorText(name(ps[order[k]]), fetch(source(ps[order[k]])).error)
  {
    if order != [] && fetch(source(ps[order[0]])).Success? {
      var rest := order[1..];
      FirstErrorIsEarliest(ps, name, source, fetch, rest);
      assert forall j :: 0 < j < |order| ==> order[j] == rest[j - 1];
      if FirstError(ps, name, source, fetch, rest).Some? {
        var k' :| 0 <= k' < |rest| && FetchFails(ps, source, fetch, rest[k']) &&
            (forall j :: 0 <= j < k' ==> !FetchFails(ps, source, fetch, rest[j])) &&
            FirstError(ps, name, source, fetch, rest).value ==
              FetchErrorText(name(ps[rest[k']]), fetch(source(ps[rest[k']])).error);
        assert FetchFails(ps, source, fetch, order[k' + 1]);
      }
    }
  }

  /** One more goroutine takes the mutex: the slot keeps an earlier error, otherwise records
      this one's failure. */
  lemma {:induction false} FirstErrorSnoc<P>(ps: seq<P>, name: P -> string, source: P -> string, fetch: Fetcher, pre: seq<nat>, i: nat)
    requires forall k :: 0 <= k < |pre| ==> pre[k] < |ps|
    requires i < |ps|
    ensures FirstError(ps, name, source, fetch, pre + [i]) ==
              if FirstError(ps, name, source, fetch, pre).Some? then FirstError(ps, name, source, fetch, pre)
              else if fetch(source(ps[i])).Failure? then Some(FetchErrorText(name(ps[i]), fetch(source(ps[i])).error))
              else None
  {
    if pre == [] {
      assert [i][1..] == [];
    } else {
      assert (pre + [i])[1..] == pre[1..] + [i];
      FirstErrorSnoc(ps, name, source, fetch, pre[1..], i);
    }
  }

  /** The error is absent exactly when every fetch succeeded, whatever the completion order. */
  lemma NoErrorIffAllSucceed<P>(ps: seq<P>, name: P -> string, source: P -> string, fetch: Fetcher, order: seq<nat>)
    requires IsCompletionOrder(order, |ps|)
    ensures FirstError(ps, name, source, fetch, order).None? <==>
              forall i :: 0 <= i < |ps| ==> fetch(source(ps[i])).Success?
  {
    FirstErrorIsEarliest(ps, name, source, fetch, order);
    if FirstError(ps, name, source, fetch, order).None? {
      forall i | 0 <= i < |ps| ensures fetch(source(ps[i])).Success? {
        assert i in order;
        var k :| 0 <= k < |order| && order[k] == i;
        assert !FetchFails(ps, source, fetch, order[k]);
      }
    }
  }

  /** When exactly one fetch fails, the error names that provider in every completion order. */
  lemma SingleFailureNamed<P>(ps: seq<P>, name: P -> string, source: P -> string, fetch: Fetcher, order: seq<nat>, bad: nat)
    requires IsCompletionOrder(order, |ps|)
    requires bad < |ps| && fetch(source(ps[bad])).Failure?
    requires forall i :: 0 <= i < |ps| && i != bad ==> fetch(source(ps[i])).Success?
    ensures FirstError(ps, name, source, fetch, order) ==
              Some(FetchErrorText(name(ps[bad]), fetch(source(ps[bad])).error))
  {
    FirstErrorIsEarliest(ps, name, source, fetch, order);
    assert bad in order;
    var k :| 0 <= k < |order| && order[k] == bad;
    assert FetchFails(ps, source, fetch, order[k]);
  }

  /** A provider after its fetch: marked with the fetched version, or unchanged on failure. */
  function Refreshed<P>(p: P, source: P -> string, mark: (P, string) -> P, fetch: Fetcher): P
  {
    match fetch(source(p))
    case Success(v) => mark(p, v)
    case Failure(_) => p
  }

  function AllRefreshed<P>(ps: seq<P>, source: P -> string, mark: (P, string) -> P, fetch: Fetcher): (rs: seq<P>)
    ensures |rs| == |ps| && forall i :: 0 <= i < |ps| ==> rs[i] == Refreshed(ps[i], source, mark, fetch)
  {
    seq(|ps|, i requires 0 <= i < |ps| => Refreshed(ps[i], source, mark, fetch))
  }

  /** The list once the providers in done have been refreshed. */
  function PartlyRefreshed<P>(ps: seq<P>, source: P -> string, mark: (P, string) -> P, fetch: Fetcher, done: set<nat>): (rs: seq<P>)
    ensures |rs| == |ps|
  {
    seq(|ps|, j requires 0 <= j < |ps| => if j in done then Refreshed(ps[j], source, mark, fetch) else ps[j])
  }

  lemma RefreshOne<P>(ps: seq<P>, source: P -> string, mark: (P, string) -> P, fetch: Fetcher, done: set<nat>, i: nat)
    requires i < |ps| && i !in done
    ensures PartlyRefreshed(ps, source, mark, fetch, done)[i := Refreshed(ps[i], source, mark, fetch)] ==
              PartlyRefreshed(ps, source, mark, fetch, done + {i})
  {
  }

  /** The body of `fetchAllVersions`: the goroutines, taken one at a time in the order they
      acquired the mutex, each write their own slot of a copy of the list, and the first failure
      is kept. The list does not depend on the order; the error is the first failure in it. */
  method FetchAll<P>(ps: seq<P>, name: P -> string, source: P -> string, mark: (P, string) -> P,
                     fetch: Fetcher, order: seq<nat>)
    returns (updated: seq<P>, err: Option<string>)
    requires IsCompletionOrder(order, |ps|)
    ensures updated == AllRefreshed(ps, source, mark, fetch)
    ensures err == FirstError(ps, name, source, fetch, order)
  {
    var n := |ps|;
    var slots := new P[n](i requires 0 <= i < n => ps[i]);
    err := None;
    ghost var done: set<nat> := {};
    var k := 0;
    while k < n
      invariant 0 <= k <= n
      invariant forall t :: 0 <= t < k ==> order[t] in done
      invariant forall j :: j in done ==> j in order[..k]
      invariant slots[..] == PartlyRefreshed(ps, source, mark, fetch, done)
      invariant err == FirstError(ps, name, source, fetch, order[..k])
    {
      var i := order[k];
      assert order[..k + 1] == order[..k] + [i];
      FirstErrorSnoc(ps, name, source, fetch, order[..k], i);
      assert forall t :: 0 <= t < k ==> order[..k][t] != i;
      assert i !in order[..k];
      RefreshOne(ps, source, mark, fetch, done, i);
      var p := slots[i];
      assert p == ps[i];
      var r := fetch(source(p));
      if r.Failure? {
        if err.None? {
          err := Some(FetchErrorText(name(p), r.error));
        }
      } else {
        slots[i] := mark(p, r.value);
      }
      done := done + {i};
      k := k + 1;
    }
    assert order[..n] == order;
    forall j | 0 <= j < n ensures j in done {
      assert j in order;
    }
    updated := slots[..];
  }
}
