/** Which published objects the annotation step reaches. */
module PublishingNotes {
  import opened Basics
  import opened IngressControllers
  import opened KubeApi
  import opened Publishing
  import opened PublishingFrame
  import opened PublishingConvergence

  predicate HasNote(ics: Controllers, n: string) {
    n in ics && "ingress.operator.openshift.io/auto-delete-load-balancer" in ics[n].annotations
  }

  ghost predicate NoRepeats(order: seq<string>) {
    forall i, j :: 0 <= i < j < |order| ==> order[i] != order[j]
  }

  /** Published objects exist and are live, as a completed loop has found. */
  ghost predicate PublishedLive(m: Seen, ics: Controllers) {
    forall n :: Published(m, n) ==> n in ics && !ics[n].deleting
  }

  /** The calls the step makes if all succeed: a get and a patch each, and a get of the first annotated one. */
  function NoteCalls(ics: Controllers, m: Seen, order: seq<string>): nat
    decreases order
  {
    if order == [] then 0
    else if !Published(m, order[0]) then NoteCalls(ics, m, order[1..])
    else if HasNote(ics, order[0]) then 1
    else 2 + NoteCalls(ics, m, order[1..])
  }

  lemma {:induction false} NoteCallsSame(a: Controllers, b: Controllers, m: Seen, order: seq<string>)
    requires forall i :: 0 <= i < |order| ==> SameAt(a, b, order[i])
    ensures NoteCalls(a, m, order) == NoteCalls(b, m, order)
    decreases order
  {
    if order != [] {
      assert SameAt(a, b, order[0]);
      NoteCallsSame(a, b, m, order[1..]);
    }
  }

  /** The step continues exactly if those calls succeed. */
  lemma {:induction false} AnnotateIff(w: World, m: Seen, order: seq<string>)
    requires NoRepeats(order) && PublishedLive(m, w.ics)
    ensures var r := Annotate(w, m, order);
            && (r.flow == Continue <==> AllSucceed(w.faults, NoteCalls(w.ics, m, order)))
            && (r.flow == Continue ==> r.w.faults == AfterCalls(w.faults, NoteCalls(w.ics, m, order)))
    decreases order
  {
    if order != [] {
      var n, rest := order[0], order[1..];
      if !Published(m, n) {
        AnnotateIff(w, m, rest);
      } else if HasNote(w.ics, n) {
        OneCall(w.faults);
      } else {
        var w' := AfterStore(w.Next(), n, Annotated(w.ics[n]));
        TwoCalls(w.faults, NoteCalls(w.ics, m, rest));
        if !w.Fails() && !w.Next().Fails() {
          forall i | 0 <= i < |rest| ensures SameAt(w.ics, w'.ics, rest[i]) {
            assert rest[i] == order[i + 1] != n;
          }
          NoteCallsSame(w.ics, w'.ics, m, rest);
          AnnotateIff(w', m, rest);
        }
      }
    }
  }

  // --- All published objects, or not ---

  ghost predicate AllNoted(s: Strategy, ics: Controllers) {
    forall n :: Refers(s.entries, n) ==> HasNote(ics, n)
  }

  ghost predicate NoneNoted(s: Strategy, ics: Controllers) {
    forall n :: Refers(s.entries, n) ==> !HasNote(ics, n)
  }

  /** Without an annotated object in its way the step reaches every published one. */
  lemma {:induction false} NoneThenAll(w: World, m: Seen, order: seq<string>)
    requires w.faults == [] && NoRepeats(order) && PublishedLive(m, w.ics)
    requires forall i :: 0 <= i < |order| && Published(m, order[i]) ==> !HasNote(w.ics, order[i])
    ensures var r := Annotate(w, m, order);
            forall n :: Published(m, n) && (n in order || HasNote(w.ics, n)) ==> HasNote(r.w.ics, n)
    decreases order
  {
    if order != [] {
      var n, rest := order[0], order[1..];
      assert forall x :: x in order <==> x == n || x in rest;
      if !Published(m, n) {
        NoneThenAll(w, m, rest);
      } else {
        var w' := AfterStore(w.Next(), n, Annotated(w.ics[n]));
        assert HasNote(w'.ics, n) && w'.faults == [];
        forall i | 0 <= i < |rest| && Published(m, rest[i]) ensures !HasNote(w'.ics, rest[i]) {
          assert rest[i] == order[i + 1] != n;
        }
        NoneThenAll(w', m, rest);
      }
    }
  }

  /** If all are annotated the step keeps them so, whatever fails. */
  lemma {:induction false} AllStay(w: World, m: Seen, order: seq<string>)
    requires forall n :: Published(m, n) ==> HasNote(w.ics, n)
    ensures Annotate(w, m, order).w.ics == w.ics
    decreases order
  {
    if order != [] && !Published(m, order[0]) { AllStay(w, m, order[1..]); }
  }

  lemma {:induction false} SomeListing(s: set<string>) returns (order: seq<string>)
    ensures Listing(order, s)
    decreases |s|
  {
    order := [];
    if s != {} {
      var x :| x in s;
      order := SomeListing(s - {x});
      order := [x] + order;
    }
  }

  lemma ListingFrom(s: set<string>, x: string) returns (order: seq<string>)
    requires x in s
    ensures Listing(order, s) && order[0] == x
  {
    var rest := SomeListing(s - {x});
    order := [x] + rest;
  }

  /** The rest of the pass leaves published objects as the step left them. */
  lemma PublishedAfter(c: Cluster, s: Strategy, w: World, o: Choices, n: string)
    requires GetsThrough(c, s, w) && Refers(s.entries, n)
    ensures var notes := Annotate(Loop(c, s, w).w, Loop(c, s, w).seen, o.annotate).w;
            HasNote(Reconcile(c, Some(s), w, o).w.ics, n) <==> HasNote(notes.ics, n)
  {
    hide Annotate, LastStep;
    var loop := Loop(c, s, w);
    LoopFacts(c, s, w);
    var notes := Annotate(loop.w, loop.seen, o.annotate);
    var noted := Noted(c, s, loop.w, loop.seen, o);
    AnnotateChangesNotes(loop.w, loop.seen, o.annotate);
    AliasWritesNothing(c, notes.w, s.listening, o.cloud);
    AfterLoopInTwo(c, s, loop.w, loop.seen, o);
    LastStepSparesPublished(c, noted.w, loop.seen, o, n);
  }

  /**
   * A pass without failing calls whose loop completes annotates all published objects, in whatever
   * order the map is visited, exactly if all or none were annotated before: the step returns at the
   * first annotated one.
   */
  lemma AnnotatesAllIff(c: Cluster, s: Strategy, w: World, cloud: CloudSide)
    requires GetsThrough(c, s, w) && w.faults == []
    ensures (forall o :: ValidOrders(c, Some(s), w, o) ==> AllNoted(s, Reconcile(c, Some(s), w, o).w.ics))
            <==> AllNoted(s, w.ics) || NoneNoted(s, w.ics)
  {
    hide Annotate, Reconcile, VisitAll;
    var loop := Loop(c, s, w);
    LoopFacts(c, s, w);
    FaultFree(c, s, w);
    var m := loop.seen;
    if AllNoted(s, w.ics) || NoneNoted(s, w.ics) {
      forall o | ValidOrders(c, Some(s), w, o) ensures AllNoted(s, Reconcile(c, Some(s), w, o).w.ics) {
        if AllNoted(s, w.ics) { AllStay(loop.w, m, o.annotate); } else { NoneThenAll(loop.w, m, o.annotate); }
        forall n | Refers(s.entries, n) ensures HasNote(Reconcile(c, Some(s), w, o).w.ics, n) {
          PublishedAfter(c, s, w, o, n);
        }
      }
    } else {
      var x :| Refers(s.entries, x) && HasNote(w.ics, x);
      var y :| Refers(s.entries, y) && !HasNote(w.ics, y);
      var order := ListingFrom(m.Keys, x);
      var o := Choices(order, order, cloud);
      AnnotatedFirst(loop.w, m, order);
      PublishedAfter(c, s, w, o, y);
      assert ValidOrders(c, Some(s), w, o) && !AllNoted(s, Reconcile(c, Some(s), w, o).w.ics);
    }
  }

  lemma AnnotatedFirst(w: World, m: Seen, order: seq<string>)
    requires order != [] && Published(m, order[0]) && HasNote(w.ics, order[0])
    ensures Annotate(w, m, order).w.ics == w.ics
  {
  }

  /** Two published objects, the annotated one visited first: the other gets nothing. */
  lemma SecondGetsNothing(a: IngressController, b: IngressController)
    requires DELETE_LB in a.annotations && DELETE_LB !in b.annotations
    ensures var w := World(map["a" := a, "b" := b], []);
            Annotate(w, map["a" := true, "b" := true], ["a", "b"]) == Step(w, Continue)
  {
  }

  lemma FaultFree(c: Cluster, s: Strategy, w: World)
    requires GetsThrough(c, s, w) && w.faults == []
    ensures Loop(c, s, w).w.faults == []
  {
    assert AfterReads(w) == w;
    FaultFreeLoop(c, BaseSeen(c, w), s.entries, w, InitialSeen(w));
  }
}
