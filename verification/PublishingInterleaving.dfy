/**
 * Interleavings of this controller with the cluster ingress operator, which takes its finalizer off
 * an IngressController once it has cleaned up.
 */
module PublishingInterleaving {
  import opened Basics
  import opened IngressControllers
  import opened KubeApi
  import opened Publishing
  import opened PublishingFrame

  /** The two finalizers, each at most once, in either order. */
  ghost predicate OurFinalizers(f: seq<string>) {
    && (forall x :: x in f ==> x == CLUSTER_FINALIZER || x == CLOUD_FINALIZER)
    && (|f| <= 1 || (|f| == 2 && f[0] != f[1]))
  }

  lemma OnlyCloudLeft(f: seq<string>)
    requires OurFinalizers(f) && CLUSTER_FINALIZER !in f && CLOUD_FINALIZER in f
    ensures f == [CLOUD_FINALIZER]
  {
    assert forall i :: 0 <= i < |f| ==> f[i] in f;
  }

  lemma CloudAdded(f: seq<string>)
    requires OurFinalizers(f) && CLOUD_FINALIZER !in f
    ensures OurFinalizers(f + [CLOUD_FINALIZER])
  {
    assert forall i :: 0 <= i < |f| ==> f[i] in f;
  }

  // --- Actions ---

  /** The other controller takes its finalizer off the object. */
  function DropClusterFinalizer(w: World, name: string): World {
    if name !in w.ics then w
    else
      var ic := w.ics[name].(finalizers := Without(w.ics[name].finalizers, CLUSTER_FINALIZER));
      w.(ics := if ic.deleting && ic.finalizers == [] then w.ics - {name} else w.ics[name := ic])
  }

  lemma WithoutKeepsOurs(f: seq<string>, s: string)
    requires OurFinalizers(f)
    ensures OurFinalizers(Without(f, s))
  {
    if f != [] {
      assert Without(f, s) == (if f[0] == s then [] else [f[0]]) + Without(f[1..], s);
      if |f| == 2 { assert f[1..] == [f[1]] && f[1..][1..] == []; }
    }
  }

  lemma DropTouchesItsName(w: World, name: string)
    ensures SameOutside(w.ics, DropClusterFinalizer(w, name).ics, {name})
  {
  }

  lemma CloudStays()
    ensures Without([CLOUD_FINALIZER], CLUSTER_FINALIZER) == [CLOUD_FINALIZER]
  {
    assert CLOUD_FINALIZER != CLUSTER_FINALIZER by { assert |CLOUD_FINALIZER| != |CLUSTER_FINALIZER|; }
    assert Without([CLOUD_FINALIZER], CLUSTER_FINALIZER) == [CLOUD_FINALIZER] + Without([], CLUSTER_FINALIZER);
  }

  lemma FirstIsIn(list: seq<string>)
    ensures list == [] || list[0] in list
  {
  }

  lemma NothingLeft(f: seq<string>)
    requires OurFinalizers(f) && CLOUD_FINALIZER !in f
    ensures Without(f, CLUSTER_FINALIZER) == []
  {
    FirstIsIn(Without(f, CLUSTER_FINALIZER));
  }

  /** The other controller drops its finalizer from an object, or a pass with its own failures. */
  datatype Action = Drop(name: string) | OnePass(input: PassInput)

  function Act(c: Cluster, s: Strategy, a: Action, w: World): World {
    match a
    case Drop(name) => DropClusterFinalizer(w, name)
    case OnePass(input) => RunPass(c, s, w, input).w
  }

  function RunActions(c: Cluster, s: Strategy, w: World, actions: seq<Action>): World
    decreases actions
  {
    if actions == [] then w else RunActions(c, s, Act(c, s, actions[0], w), actions[1..])
  }

  predicate CallsSucceed(actions: seq<Action>) {
    forall a :: a in actions && a.OnePass? ==> a.input.faults == []
  }

  predicate DropsOnly(actions: seq<Action>, name: string) {
    forall a :: a in actions && a.Drop? ==> a.name == name
  }

  lemma OneAction(c: Cluster, s: Strategy, w: World, a: Action, rest: seq<Action>)
    ensures RunActions(c, s, w, [a] + rest) == RunActions(c, s, Act(c, s, a, w), rest)
    ensures RunActions(c, s, w, []) == w
  {
    assert ([a] + rest)[1..] == rest;
  }

  lemma PassDrop(c: Cluster, s: Strategy, w: World, input: PassInput, name: string)
    ensures RunActions(c, s, w, [OnePass(input), Drop(name)]) == DropClusterFinalizer(RunPass(c, s, w, input).w, name)
  {
    var w1 := RunPass(c, s, w, input).w;
    assert [OnePass(input)] + [Drop(name)] == [OnePass(input), Drop(name)] && [Drop(name)] + [] == [Drop(name)];
    OneAction(c, s, w, OnePass(input), [Drop(name)]);
    OneAction(c, s, w1, Drop(name), []);
    OneAction(c, s, DropClusterFinalizer(w1, name), Drop(name), []);
  }

  lemma {:induction false} LoopStopsAt(c: Cluster, base: string, entries: seq<ApplicationIngress>, i: nat,
                                       w: World, m: Seen)
    requires i < |entries|
    requires VisitAll(c, base, entries[..i], w, m).flow == Continue
    ensures var before := VisitAll(c, base, entries[..i], w, m);
            var visit := Visit(c, base, entries[i], before.w, before.seen);
            visit.flow != Continue ==> VisitAll(c, base, entries, w, m) == visit
  {
    hide Visit;
    if i > 0 {
      var first := Visit(c, base, entries[0], w, m);
      assert entries[..i][1..] == entries[1..][..i - 1] && entries[..i][0] == entries[0];
      LoopStopsAt(c, base, entries[1..], i - 1, first.w, first.seen);
    }
  }

  // --- Progress ---

  /** How far one action gets the replacement at least. */
  function RankAfter(rank: nat, a: Action): nat {
    if a.OnePass? then (if rank == 0 then 1 else if rank == 2 then 3 else rank)
    else if rank == 1 then 2 else rank
  }

  function Progress(rank: nat, actions: seq<Action>): nat
    decreases actions
  {
    if actions == [] then rank else Progress(RankAfter(rank, actions[0]), actions[1..])
  }

  lemma {:induction false} ProgressIsMonotone(a: nat, b: nat, actions: seq<Action>)
    requires a <= b <= 3
    ensures Progress(a, actions) <= Progress(b, actions) <= 3
    ensures b == 3 ==> Progress(b, actions) == 3
    decreases actions
  {
    if actions != [] {
      ProgressIsMonotone(RankAfter(a, actions[0]), RankAfter(b, actions[0]), actions[1..]);
    }
  }

  lemma {:induction false} PassEnds(rank: nat, actions: seq<Action>, k: nat)
    requires 2 <= rank <= 3 && k < |actions| && actions[k].OnePass?
    ensures Progress(rank, actions) == 3
    decreases actions
  {
    var next, rest := RankAfter(rank, actions[0]), actions[1..];
    if k == 0 || rank == 3 { ProgressIsMonotone(3, 3, rest); } else { PassEnds(next, rest, k - 1); }
  }

  lemma {:induction false} DropPassEnds(rank: nat, actions: seq<Action>, j: nat, k: nat)
    requires 1 <= rank <= 3 && j < k < |actions| && actions[j].Drop? && actions[k].OnePass?
    ensures Progress(rank, actions) == 3
    decreases actions
  {
    var next, rest := RankAfter(rank, actions[0]), actions[1..];
    if rank >= 2 { PassEnds(rank, actions, k); }
    else if j == 0 { PassEnds(next, rest, k - 1); }
    else { DropPassEnds(next, rest, j - 1, k - 1); }
  }

  /** Somewhere a pass, later a drop, and still later a pass. */
  ghost predicate PassDropPass(actions: seq<Action>) {
    exists i, j, k :: 0 <= i < j < k < |actions| && actions[i].OnePass? && actions[j].Drop? && actions[k].OnePass?
  }

  lemma {:induction false} PassDropPassEnds(rank: nat, actions: seq<Action>, i: nat, j: nat, k: nat)
    requires rank <= 3 && i < j < k < |actions| && actions[i].OnePass? && actions[j].Drop? && actions[k].OnePass?
    ensures Progress(rank, actions) == 3
    decreases actions
  {
    var next, rest := RankAfter(rank, actions[0]), actions[1..];
    if rank >= 1 { DropPassEnds(rank, actions, j, k); }
    else if i == 0 { DropPassEnds(next, rest, j - 1, k - 1); }
    else { PassDropPassEnds(next, rest, i - 1, j - 1, k - 1); }
  }
}
