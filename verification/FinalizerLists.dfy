/**
 * `Contains` and `Remove` of pkg/controllerutils/utils.go. `Remove` shifts the slice's own backing
 * array while a range loop, whose length was fixed at the start, still reads from that array.
 */
module FinalizerLists {
  import opened Basics

  /**
   * The loop from index `i`: `b` is the backing array, `b[..len]` the slice. None is the panic of
   * slicing from `i + 1` past the slice's current length.
   */
  function RemoveFrom(b: seq<string>, len: nat, i: nat, s: string): Option<seq<string>>
    requires len <= |b| && i <= |b|
    decreases |b| - i
  {
    if i == |b| then Some(b[..len])
    else if b[i] != s then RemoveFrom(b, len, i + 1, s)
    else if i + 1 > len then None
    else RemoveFrom(CloseGap(b, len, i), len - 1, i + 1, s)
  }

  /** The backing array after `append(list[:i], list[i+1:]...)`; its last slot goes stale. */
  function CloseGap(b: seq<string>, len: nat, i: nat): (r: seq<string>)
    requires i < len <= |b|
    ensures |r| == |b|
  {
    b[..i] + b[i + 1..len] + b[len - 1..]
  }

  function Remove(list: seq<string>, s: string): Option<seq<string>> {
    RemoveFrom(list, |list|, 0, s)
  }

  /** `list` is the backing array of a slice that fills it; `len` is the length of the returned slice. */
  method RemoveInPlace(list: array<string>, s: string) returns (panicked: bool, len: nat)
    modifies list
    ensures panicked <==> Remove(old(list[..]), s).None?
    ensures !panicked ==> len <= list.Length && list[..len] == Remove(old(list[..]), s).value
  {
    panicked, len := false, list.Length;
    var i := 0;
    while i < list.Length
      invariant 0 <= i <= list.Length && len <= list.Length
      invariant RemoveFrom(list[..], len, i, s) == Remove(old(list[..]), s)
    {
      if list[i] == s {
        if i + 1 > len {
          return true, len;
        }
        ghost var b := list[..];
        forall k | i <= k < len - 1 {
          list[k] := list[k + 1];
        }
        assert list[..] == CloseGap(b, len, i);
        len := len - 1;
      }
      i := i + 1;
    }
  }

  method Contains(list: seq<string>, s: string) returns (found: bool)
    ensures found <==> s in list
  {
    for i := 0 to |list|
      invariant s !in list[..i]
    {
      if list[i] == s {
        return true;
      }
    }
    return false;
  }

  /**
   * What the loop does to the part `rest` it has not read: after a removal the element that slides
   * into the hole is skipped, and once something was removed (`dirty`) the stale end of the array
   * repeats `last`, the list's final element.
   */
  function Sweep(rest: seq<string>, s: string, dirty: bool, last: string): Option<seq<string>> {
    if rest == [] then
      if dirty && last == s then None else Some([])
    else if rest[0] != s then
      Prepend([rest[0]], Sweep(rest[1..], s, dirty, last))
    else if |rest| == 1 then
      if dirty then None else Some([])
    else
      Prepend([rest[1]], Sweep(rest[2..], s, true, last))
  }

  function Prepend(xs: seq<string>, r: Option<seq<string>>): Option<seq<string>> {
    if r.None? then None else Some(xs + r.value)
  }

  lemma PrependTwice(xs: seq<string>, x: string, r: Option<seq<string>>)
    ensures Prepend(xs, Prepend([x], r)) == Prepend(xs + [x], r)
    ensures Prepend([], r) == r
  {
    if r.Some? {
      assert xs + ([x] + r.value) == xs + [x] + r.value && [] + r.value == r.value;
    }
  }

  lemma StaleEnd(b: seq<string>, len: nat, i: nat, s: string)
    requires len <= i <= |b|
    requires forall j :: i <= j < |b| ==> b[j] == b[|b| - 1]
    ensures RemoveFrom(b, len, i, s) ==
            if i < |b| && b[|b| - 1] == s then None else Some(b[..len])
    decreases |b| - i
  {
  }

  lemma GapFacts(b: seq<string>, len: nat, i: nat, last: string)
    requires i < len <= |b|
    requires b[len - 1] == last && forall j :: len <= j < |b| ==> b[j] == last
    ensures forall j :: len - 1 <= j < |b| ==> CloseGap(b, len, i)[j] == last
    ensures i + 1 == len ==> CloseGap(b, len, i)[..len - 1] == b[..i]
    ensures i + 1 < len ==> CloseGap(b, len, i)[..i + 1] == b[..i] + [b[i + 1]]
    ensures i + 1 < len ==> CloseGap(b, len, i)[i + 1..len - 1] == b[i + 2..len]
    ensures i + 2 < len ==> CloseGap(b, len, i)[len - 2] == last
  {
  }

  lemma {:induction false} RemoveIsSweep(b: seq<string>, len: nat, i: nat, s: string, last: string)
    requires i <= len <= |b|
    requires forall j :: len <= j < |b| ==> b[j] == last
    requires i < len ==> b[len - 1] == last
    ensures RemoveFrom(b, len, i, s) == Prepend(b[..i], Sweep(b[i..len], s, len < |b|, last))
    decreases |b| - i
  {
    var rest := b[i..len];
    if i == len {
      StaleEnd(b, len, i, s);
      assert rest == [] && b[..i] + [] == b[..len];
    } else if b[i] != s {
      RemoveIsSweep(b, len, i + 1, s, last);
      PrependTwice(b[..i], rest[0], Sweep(rest[1..], s, len < |b|, last));
      assert rest[1..] == b[i + 1..len] && b[..i + 1] == b[..i] + [rest[0]];
    } else {
      var b' := CloseGap(b, len, i);
      GapFacts(b, len, i, last);
      if i + 1 == len {
        StaleEnd(b', len - 1, i + 1, s);
        assert b[..i] + [] == b[..i];
      } else {
        RemoveIsSweep(b', len - 1, i + 1, s, last);
        PrependTwice(b[..i], rest[1], Sweep(rest[2..], s, true, last));
        assert rest[2..] == b[i + 2..len] && b[i + 1] == rest[1];
      }
    }
  }

  predicate NoneAdjacent(list: seq<string>, s: string) {
    |list| < 2 || (!(list[0] == s && list[1] == s) && NoneAdjacent(list[1..], s))
  }

  function Init(list: seq<string>): seq<string> {
    if list == [] then [] else list[..|list| - 1]
  }

  /** A final `s` that is not the only one. */
  predicate RepeatsFinal(list: seq<string>, s: string) {
    list != [] && list[|list| - 1] == s && s in Init(list)
  }

  lemma Cancel(x: string, r: Option<seq<string>>, t: seq<string>)
    ensures Prepend([x], r) == Some([x] + t) <==> r == Some(t)
  {
    if r.Some? && [x] + r.value == [x] + t {
      assert r.value == ([x] + r.value)[1..] == ([x] + t)[1..] == t;
    }
  }

  lemma {:induction false} SweepRemovesAll(rest: seq<string>, s: string, dirty: bool, last: string)
    requires rest != [] ==> rest[|rest| - 1] == last
    ensures Sweep(rest, s, dirty, last) == Some(Without(rest, s))
            <==> NoneAdjacent(rest, s) && (last == s ==> !dirty && s !in Init(rest))
  {
    if |rest| == 1 {
      assert rest == [rest[0]];
    } else if |rest| > 1 {
      var tail := rest[1..];
      assert Init(rest) == [rest[0]] + Init(tail);
      if rest[0] != s {
        SweepRemovesAll(tail, s, dirty, last);
        Cancel(rest[0], Sweep(tail, s, dirty, last), Without(tail, s));
      } else {
        assert tail[1..] == rest[2..];
        SweepRemovesAll(tail[1..], s, true, last);
        Cancel(rest[1], Sweep(tail[1..], s, true, last), Without(tail[1..], s));
        assert rest[0] in Init(rest);
        var r := Sweep(rest, s, dirty, last);
        assert r == Prepend([rest[1]], Sweep(tail[1..], s, true, last));
        if rest[1] == s {
          assert r.Some? ==> s == r.value[0] && s in r.value;
        } else {
          assert Without(rest, s) == Without(tail, s) == [rest[1]] + Without(tail[1..], s);
        }
      }
    }
  }

  /**
   * `Remove` takes out every `s` and keeps the rest in order exactly when no two `s` are adjacent
   * and a final `s` is the only one. Otherwise it leaves an `s` behind or panics.
   */
  lemma RemoveRemovesAll(list: seq<string>, s: string)
    ensures Remove(list, s) == Some(Without(list, s))
            <==> NoneAdjacent(list, s) && !RepeatsFinal(list, s)
  {
    if list == [] {
      assert list[..0] == [];
    } else {
      var last := list[|list| - 1];
      RemoveIsSweep(list, |list|, 0, s, last);
      SweepRemovesAll(list, s, false, last);
      PrependTwice([], s, Sweep(list, s, false, last));
      assert list[0..|list|] == list;
    }
  }

  lemma {:induction false} SweepPanicsIff(rest: seq<string>, s: string, dirty: bool, last: string)
    requires rest != [] ==> rest[|rest| - 1] == last
    ensures Sweep(rest, s, dirty, last) == None <==> last == s && (dirty || s in Init(rest))
  {
    if rest != [] && rest[0] != s {
      SweepPanicsIff(rest[1..], s, dirty, last);
      assert |rest| > 1 ==> Init(rest) == [rest[0]] + Init(rest[1..]);
    } else if |rest| > 1 {
      SweepPanicsIff(rest[2..], s, true, last);
      assert Init(rest)[0] == s;
    }
  }

  /** `Remove` panics exactly when a final `s` is not the only one. */
  lemma RemovePanicsIff(list: seq<string>, s: string)
    ensures Remove(list, s) == None <==> RepeatsFinal(list, s)
  {
    if list != [] {
      var last := list[|list| - 1];
      RemoveIsSweep(list, |list|, 0, s, last);
      SweepPanicsIff(list, s, false, last);
      assert list[0..|list|] == list;
    }
  }

  /** Both ways to go wrong: two adjacent `s` at the end panic, and elsewhere the second one stays. */
  lemma RepeatsGoWrong(s: string, x: string)
    requires x != s
    ensures Remove([s, s], s) == None
    ensures Remove([s, s, x], s) == Some([s, x])
  {
    var pair, triple := [s, s], [s, s, x];
    assert CloseGap(pair, 2, 0) == pair && RemoveFrom(pair, 1, 1, s) == None;
    var b := CloseGap(triple, 3, 0);
    assert b == [s, x, x] && b[..2] == [s, x];
    assert RemoveFrom(b, 2, 1, s) == RemoveFrom(b, 2, 2, s) == RemoveFrom(b, 2, 3, s);
  }

  /** The finalizer lists this operator writes have no duplicates; there `Remove` is exact. */
  lemma RemoveOnDistinct(list: seq<string>, s: string)
    requires forall i, j :: 0 <= i < j < |list| ==> list[i] != list[j]
    ensures Remove(list, s) == Some(Without(list, s))
  {
    RemoveRemovesAll(list, s);
    DistinctIsNoneAdjacent(list, s);
    if list != [] { assert list[|list| - 1] !in Init(list); }
  }

  lemma DistinctIsNoneAdjacent(list: seq<string>, s: string)
    requires forall i, j :: 0 <= i < j < |list| ==> list[i] != list[j]
    ensures NoneAdjacent(list, s)
  {
  }
}
