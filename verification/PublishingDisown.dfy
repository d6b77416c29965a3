/**
 * On 4.13 or later a strategy without a `default` entry hands `default` back to the cluster ingress
 * operator.
 */
module PublishingDisown {
  import opened Basics
  import opened IngressControllers
  import opened KubeApi
  import opened Publishing
  import opened PublishingFrame

  ghost predicate Disowns(c: Cluster, s: Strategy) {
    c.gates.v413 && !Refers(s.entries, DEFAULT)
  }

  lemma LoopSparesDefault(c: Cluster, s: Strategy, w: World)
    requires !Refers(s.entries, DEFAULT)
    ensures SameAt(w.ics, Loop(c, s, w).w.ics, DEFAULT)
  {
    var names := set i | 0 <= i < |s.entries| && NameOf(s.entries[i]).Some? :: NameOf(s.entries[i]).value;
    assert DEFAULT !in names;
    LoopTouchesReferredNames(c, BaseSeen(c, w), s.entries, AfterReads(w), InitialSeen(w), names);
  }

  /**
   * Whatever calls fail, a disowning pass either leaves `default` exactly as it was or replaces its
   * annotations and finalizers; ending cleanly means it did the latter. It never deletes it.
   */
  lemma PassDisownsOrSpares(c: Cluster, s: Strategy, w: World, o: Choices)
    requires Disowns(c, s) && DEFAULT in w.ics
    ensures var r := Reconcile(c, Some(s), w, o);
            && DEFAULT in r.w.ics
            && (r.w.ics[DEFAULT] == w.ics[DEFAULT] || r.w.ics[DEFAULT] == Disowned(w.ics[DEFAULT]))
            && (r.outcome == Done ==> r.w.ics[DEFAULT] == Disowned(w.ics[DEFAULT]))
  {
    if !w.Fails() && !ReadsFail(c, w) && NoNewSecond(s.entries, InitialSeen(w)) == Continue {
      var loop := Loop(c, s, w);
      LoopFacts(c, s, w);
      LoopSparesDefault(c, s, w);
      if loop.flow == Continue {
        var noted := Noted(c, s, loop.w, loop.seen, o);
        AfterLoopInTwo(c, s, loop.w, loop.seen, o);
        NotedChangesNotes(c, s, loop.w, loop.seen, o);
        assert noted.w.ics[DEFAULT] == w.ics[DEFAULT];
        DisownEitherWay(noted.w);
      }
    }
  }

  lemma DisownEitherWay(w: World)
    requires DEFAULT in w.ics
    ensures DEFAULT in Disown(w).w.ics
    ensures Disown(w).w.ics[DEFAULT] == if Disown(w).flow == Continue then Disowned(w.ics[DEFAULT]) else w.ics[DEFAULT]
  {
  }

  /**
   * Disowning is stable: over any run `default` keeps its spec, status and deletion mark, and once a
   * pass has ended cleanly it stays owned by the cluster operator, with that operator's finalizer
   * only, whatever calls fail later.
   */
  lemma {:induction false} DisowningIsStable(c: Cluster, s: Strategy, w: World, turns: seq<PassInput>)
    requires Disowns(c, s) && DEFAULT in w.ics
    ensures var ics := RunPasses(c, s, w, turns).ics;
            && DEFAULT in ics
            && (ics[DEFAULT] == w.ics[DEFAULT] || ics[DEFAULT] == Disowned(w.ics[DEFAULT]))
    ensures w.ics[DEFAULT] == Disowned(w.ics[DEFAULT]) ==> RunPasses(c, s, w, turns).ics[DEFAULT] == w.ics[DEFAULT]
  {
    if turns != [] {
      var last := turns[|turns| - 1];
      DisowningIsStable(c, s, w, turns[..|turns| - 1]);
      PassDisownsOrSpares(c, s, RunPasses(c, s, w, turns[..|turns| - 1]).(faults := last.faults), last.choices);
    }
  }

  lemma CleanPassDisownsForGood(c: Cluster, s: Strategy, w: World, o: Choices, turns: seq<PassInput>)
    requires Disowns(c, s) && DEFAULT in w.ics && Reconcile(c, Some(s), w, o).outcome == Done
    ensures var ics := RunPasses(c, s, Reconcile(c, Some(s), w, o).w, turns).ics;
            && DEFAULT in ics
            && !ics[DEFAULT].Owned()
            && ics[DEFAULT].annotations == map[OWNER := CLUSTER_OPERATOR, DELETE_LB := "true"]
            && ics[DEFAULT].finalizers == [CLUSTER_FINALIZER]
            && ics[DEFAULT].spec == w.ics[DEFAULT].spec && ics[DEFAULT].deleting == w.ics[DEFAULT].deleting
  {
    PassDisownsOrSpares(c, s, w, o);
    DisowningIsStable(c, s, Reconcile(c, Some(s), w, o).w, turns);
  }
}
