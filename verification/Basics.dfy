/** Shared vocabulary: options, failing calls, Go's string helpers, and the order of a Go map range. */
module Basics {

  datatype Option<+T> = None | Some(value: T)

  /** The next call to an API fails; an empty list means that every later call succeeds. */
  predicate CallFails(faults: seq<bool>) {
    faults != [] && faults[0]
  }

  function LaterCalls(faults: seq<bool>): seq<bool> {
    if faults == [] then [] else faults[1..]
  }

  /** The next `k` calls succeed. */
  predicate AllSucceed(faults: seq<bool>, k: nat)
    decreases k
  {
    k == 0 || (!CallFails(faults) && AllSucceed(LaterCalls(faults), k - 1))
  }

  function AfterCalls(faults: seq<bool>, k: nat): seq<bool>
    decreases k
  {
    if k == 0 then faults else AfterCalls(LaterCalls(faults), k - 1)
  }

  lemma {:induction false} CallsInTwo(faults: seq<bool>, j: nat, k: nat)
    ensures AllSucceed(faults, j + k) <==> AllSucceed(faults, j) && AllSucceed(AfterCalls(faults, j), k)
    ensures AfterCalls(faults, j + k) == AfterCalls(AfterCalls(faults, j), k)
    decreases j
  {
    if j > 0 { CallsInTwo(LaterCalls(faults), j - 1, k); }
  }

  lemma OneCall(faults: seq<bool>)
    ensures AllSucceed(faults, 1) <==> !CallFails(faults)
    ensures AfterCalls(faults, 1) == LaterCalls(faults)
  {
    assert AllSucceed(LaterCalls(faults), 0);
    assert AfterCalls(LaterCalls(faults), 0) == LaterCalls(faults);
  }

  lemma TwoCalls(faults: seq<bool>, k: nat)
    ensures AllSucceed(faults, 2 + k)
            <==> !CallFails(faults) && !CallFails(LaterCalls(faults)) && AllSucceed(LaterCalls(LaterCalls(faults)), k)
    ensures AfterCalls(faults, 2 + k) == AfterCalls(LaterCalls(LaterCalls(faults)), k)
  {
    var later := LaterCalls(faults);
    assert AllSucceed(later, 1 + k) == (!CallFails(later) && AllSucceed(LaterCalls(later), k));
    assert AfterCalls(later, 1 + k) == AfterCalls(LaterCalls(later), k);
  }

  lemma {:induction false} NoneFails(k: nat)
    ensures AllSucceed([], k) && AfterCalls([], k) == []
  {
    if k > 0 { NoneFails(k - 1); }
  }

  /** The list with every `s` taken out. */
  function Without(list: seq<string>, s: string): (r: seq<string>)
    ensures s !in r && forall x :: x in r <==> x in list && x != s
  {
    if list == [] then [] else (if list[0] == s then [] else [list[0]]) + Without(list[1..], s)
  }

  predicate HasSuffix(s: string, suffix: string) {
    |suffix| <= |s| && s[|s| - |suffix|..] == suffix
  }

  predicate HasPrefix(s: string, prefix: string) {
    |prefix| <= |s| && s[..|prefix|] == prefix
  }

  /** `strings.Index(s, c)`, with None for -1. */
  function IndexOf(s: string, c: char): (r: Option<nat>)
    ensures r.None? <==> c !in s
    ensures r.Some? ==> r.value < |s| && s[r.value] == c && c !in s[..r.value]
  {
    if s == "" then None
    else if s[0] == c then Some(0)
    else
      match IndexOf(s[1..], c)
      case None => None
      case Some(k) => assert s[..k + 1] == [s[0]] + s[1..][..k]; Some(k + 1)
  }

  /** `order` visits every element of `s` exactly once. */
  ghost predicate Listing<T(!new)>(order: seq<T>, s: set<T>) {
    && (forall x :: x in order <==> x in s)
    && (forall i, j :: 0 <= i < j < |order| ==> order[i] != order[j])
  }

  /** The order in which `range` happens to visit a Go map: any listing of its keys. */
  method RangeOrder<T(==, !new)>(keys: set<T>) returns (order: seq<T>)
    ensures Listing(order, keys)
  {
    var rest := keys;
    order := [];
    while rest != {}
      invariant rest <= keys
      invariant forall x :: x in order <==> x in keys && x !in rest
      invariant forall i, j :: 0 <= i < j < |order| ==> order[i] != order[j]
      decreases |rest|
    {
      var k :| k in rest;
      rest := rest - {k};
      order := order + [k];
    }
  }
}
