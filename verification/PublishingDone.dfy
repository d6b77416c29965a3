/** When a pass of the PublishingStrategy controller ends with no error and no requeue. */
module PublishingDone {
  import opened Basics
  import opened EntryFields
  import opened IngressControllers
  import opened KubeApi
  import opened Publishing
  import opened PublishingFrame
  import opened PublishingConvergence
  import opened PublishingNotes
  import opened PublishingPanics
  import opened PublishingEntry
  import CloudClients

  // --- The steps after the loop ---

  /** The calls that make the client of a platform. */
  function ClientCalls(platform: Option<string>): nat {
    if platform == Some("AWS") then 2 else 5
  }

  /** The platform is read, it is one of two, and its client can be made. */
  predicate ClientMade(platform: Option<string>, usable: bool, faults: seq<bool>) {
    platform in {Some("AWS"), Some("GCP")} && usable && AllSucceed(faults, 1 + ClientCalls(platform))
  }

  lemma AliasContinuesIff(c: Cluster, w: World, listening: string, cloud: CloudSide)
    ensures var r := AliasScope(c, w, listening, cloud);
            && (r.flow == Continue <==>
                  && ClientMade(c.platform, cloud.usable, w.faults)
                  && (listening == "internal" || listening == "external" ==> cloud.answer == Switched))
            && (r.flow == Continue ==> r.w == After(w, 1 + ClientCalls(c.platform)))
  {
    OneCall(w.faults);
    if c.platform.Some? {
      var calls := CloudClients.BuildCalls(c.platform.value);
      CloudClients.ClientIff(c.platform.value, cloud.usable, w.Next().faults);
      CloudClients.MakeSucceedsIff(w.Next().faults, calls);
      CallsInTwo(w.faults, 1, calls);
    }
  }

  lemma DisownContinuesIff(w: World)
    ensures Disown(w).flow == Continue <==> "default" in w.ics && AllSucceed(w.faults, 2)
  {
    TwoCalls(w.faults, 0);
  }

  /** A get and a delete for each name that was owned and is not published. */
  function DeleteCalls(m: Seen, order: seq<string>): nat
    decreases order
  {
    if order == [] then 0 else (if order[0] in m && !m[order[0]] then 2 else 0) + DeleteCalls(m, order[1..])
  }

  lemma {:induction false} DeleteContinuesIff(w: World, m: Seen, order: seq<string>)
    requires NoRepeats(order)
    requires forall i :: 0 <= i < |order| && order[i] in m && !m[order[i]] ==> order[i] in w.ics
    ensures DeleteUnpublished(w, m, order).flow == Continue <==> AllSucceed(w.faults, DeleteCalls(m, order))
    decreases order
  {
    if order != [] {
      var n, rest := order[0], order[1..];
      if n in m && !m[n] {
        var w' := AfterDelete(w.Next(), n);
        TwoCalls(w.faults, DeleteCalls(m, rest));
        forall i | 0 <= i < |rest| && rest[i] in m && !m[rest[i]] ensures rest[i] in w'.ics {
          assert rest[i] == order[i + 1] != n;
        }
        DeleteContinuesIff(w', m, rest);
      } else {
        DeleteContinuesIff(w, m, rest);
      }
    }
  }

  /** The same, by the entries: the listed names are owned or `default`, and referred to or not. */
  ghost function CallsForDeletes(entries: seq<ApplicationIngress>, order: seq<string>): nat
    decreases order
  {
    if order == [] then 0 else (if Refers(entries, order[0]) then 0 else 2) + CallsForDeletes(entries, order[1..])
  }

  lemma {:induction false} DeleteCallsOfEntries(entries: seq<ApplicationIngress>, m: Seen, order: seq<string>)
    requires forall n :: Published(m, n) <==> Refers(entries, n)
    requires forall i :: 0 <= i < |order| ==> order[i] in m
    ensures DeleteCalls(m, order) == CallsForDeletes(entries, order)
    decreases order
  {
    if order != [] {
      assert Published(m, order[0]) <==> Refers(entries, order[0]);
      DeleteCallsOfEntries(entries, m, order[1..]);
    }
  }

  /** A name marked as not published was owned when the pass listed the objects. */
  lemma {:induction false} UnseenWasOwned(c: Cluster, base: string, entries: seq<ApplicationIngress>, w: World, m: Seen)
    requires VisitAll(c, base, entries, w, m).flow == Continue
    ensures var seen := VisitAll(c, base, entries, w, m).seen;
            forall n :: n in seen && !seen[n] ==> n in m && !m[n]
  {
    hide Visit;
    if entries != [] {
      var first := Visit(c, base, entries[0], w, m);
      VisitContinues(c, base, entries[0], w, m);
      UnseenWasOwned(c, base, entries[1..], first.w, first.seen);
    }
  }

  /** The last step: hand `default` back, or clean up. */
  lemma LastStepContinuesIff(c: Cluster, w: World, m: Seen, o: Choices)
    requires Listing(o.delete, m.Keys) && forall n :: n in m && !m[n] ==> n in w.ics
    ensures LastStep(c, w, m, o).flow == Continue
            <==> if c.gates.v413 && !Published(m, "default") then "default" in w.ics && AllSucceed(w.faults, 2)
                 else AllSucceed(w.faults, DeleteCalls(m, o.delete))
  {
    DisownContinuesIff(w);
    DeleteContinuesIff(w, m, o.delete);
  }

  lemma AfterLoopDoneIff(c: Cluster, s: Strategy, w: World, m: Seen, o: Choices)
    requires Listing(o.annotate, m.Keys) && Listing(o.delete, m.Keys) && PublishedLive(m, w.ics)
    requires forall n :: n in m && !m[n] ==> n in w.ics
    ensures var notes := NoteCalls(w.ics, m, o.annotate);
            var noted := AfterCalls(w.faults, notes);
            var last := AfterCalls(noted, 1 + ClientCalls(c.platform));
            AfterLoop(c, s, w, m, o).outcome == Done
            <==> && AllSucceed(w.faults, notes)
                 && ClientMade(c.platform, o.cloud.usable, noted)
                 && (s.listening == "internal" || s.listening == "external" ==> o.cloud.answer == Switched)
                 && (if c.gates.v413 && !Published(m, "default") then "default" in w.ics && AllSucceed(last, 2)
                     else AllSucceed(last, DeleteCalls(m, o.delete)))
  {
    hide Annotate, AliasScope, LastStep, AllSucceed, AfterCalls;
    var notes := Annotate(w, m, o.annotate);
    AnnotateIff(w, m, o.annotate);
    AnnotateChangesNotes(w, m, o.annotate);
    AliasContinuesIff(c, notes.w, s.listening, o.cloud);
    AliasWritesNothing(c, notes.w, s.listening, o.cloud);
    AfterLoopInTwo(c, s, w, m, o);
    var alias := AliasScope(c, notes.w, s.listening, o.cloud);
    assert notes.w.ics.Keys == w.ics.Keys;
    LastStepContinuesIff(c, alias.w, m, o);
  }

  // --- The pass ---

  /** The entry is in its place: a default one ends in the base domain, and its object is as wanted. */
  ghost predicate InPlace(c: Cluster, base: string, e: ApplicationIngress, ics: Controllers) {
    && (e.isDefault ==> exists p :: e.dnsName == p + base)
    && c.platform.Some?
    && exists name :: name in ics && Names(e, name) && AsWanted(c, e, ics[name])
  }

  lemma PassesMeans(c: Cluster, base: string, e: ApplicationIngress, ics: Controllers)
    ensures Passes(c, base, e, ics) <==> InPlace(c, base, e, ics)
  {
    hide Names, AsWanted, Settled, NameOf;
    SuffixText(e.dnsName, base);
    forall name ensures NameOf(e) == Some(name) <==> Names(e, name) { NamesIff(e, name); }
    if NameOf(e).Some? && NameOf(e).value in ics { SettledMeans(c, e, ics[NameOf(e).value]); }
  }

  /** The base domain the loop compares with; a failing read leaves it empty. */
  function LoopBase(c: Cluster, w: World): string {
    if CallFails(AfterCalls(w.faults, 1)) || c.apiHost.None? || |c.apiHost.value| < 4 then "" else c.apiHost.value[4..]
  }

  /** How many calls the loop and the annotation step make after the three reads. */
  ghost function CallsSoFar(s: Strategy, w: World, o: Choices): nat {
    2 * |s.entries| + CallsForNotes(s.entries, w.ics, o.annotate)
  }

  /**
   * Exactly when a pass ends cleanly, for every state, strategy, pattern of failing calls, order and
   * answer of the cloud: it reads the strategy, then the base domain unless that read fails, then the
   * objects; every secondary entry has its owned object; every entry is in its place; the calls of the
   * loop and of the annotations succeed; the platform is one of the two, and its client is made; a strategy that
   * asks for internal or external has the API switched, not refused; and the last step's calls succeed,
   * where `default` has to exist if it is to be handed back.
   */
  lemma PassDoneIff(c: Cluster, s: Strategy, w: World, o: Choices)
    requires ValidOrders(c, Some(s), w, o)
    ensures var calls := CallsSoFar(s, w, o);
            var noted := AfterCalls(w.faults, 3 + calls);
            var last := AfterCalls(noted, 1 + ClientCalls(c.platform));
            Reconcile(c, Some(s), w, o).outcome == Done
            <==> && !CallFails(w.faults) && !CallFails(AfterCalls(w.faults, 2))
                 && (CallFails(AfterCalls(w.faults, 1)) || c.apiHost.None? || |c.apiHost.value| >= 4)
                 && (forall j :: 0 <= j < |s.entries| ==> Accepted(s.entries[j], w.ics))
                 && (forall j :: 0 <= j < |s.entries| ==> InPlace(c, LoopBase(c, w), s.entries[j], w.ics))
                 && AllSucceed(AfterCalls(w.faults, 3), calls)
                 && ClientMade(c.platform, o.cloud.usable, noted)
                 && (s.listening == "internal" || s.listening == "external" ==> o.cloud.answer == Switched)
                 && (if c.gates.v413 && !Refers(s.entries, "default") then "default" in w.ics && AllSucceed(last, 2)
                     else AllSucceed(last, CallsForDeletes(s.entries, o.delete)))
  {
    hide VisitAll, NoNewSecond, AfterLoop, Accepted, InPlace, Passes, ClientMade, Refers;
    hide CallsForDeletes, CallsForNotes, AllSucceed, AfterCalls, LoopBase, BaseSeen;
    ReadsMean(c, w);
    SecondCheckIff(s.entries, w);
    LoopIff(c, BaseSeen(c, w), s.entries, AfterReads(w), InitialSeen(w));
    forall j | 0 <= j < |s.entries|
      ensures Passes(c, BaseSeen(c, w), s.entries[j], w.ics) <==> InPlace(c, LoopBase(c, w), s.entries[j], w.ics)
    {
      PassesMeans(c, BaseSeen(c, w), s.entries[j], w.ics);
    }
    CallsInTwo(w.faults, 3, CallsSoFar(s, w, o));
    CallsInTwo(AfterCalls(w.faults, 3), 2 * |s.entries|, CallsForNotes(s.entries, w.ics, o.annotate));
    if !w.Fails() && !ReadsFail(c, w) && NoNewSecond(s.entries, InitialSeen(w)) == Continue
       && Loop(c, s, w).flow == Continue {
      var loop := Loop(c, s, w);
      LoopFacts(c, s, w);
      UnseenWasOwned(c, BaseSeen(c, w), s.entries, AfterReads(w), InitialSeen(w));
      NoteCallsOfEntries(s.entries, w.ics, loop.seen, o.annotate);
      DeleteCallsOfEntries(s.entries, loop.seen, o.delete);
      AfterLoopDoneIff(c, s, loop.w, loop.seen, o);
    }
  }

  lemma ReadsMean(c: Cluster, w: World)
    ensures ReadsFail(c, w) <==>
              || CallFails(w.faults) || CallFails(AfterCalls(w.faults, 2))
              || (!CallFails(AfterCalls(w.faults, 1)) && c.apiHost.Some? && |c.apiHost.value| < 4)
    ensures AfterReads(w).faults == AfterCalls(w.faults, 3) && BaseSeen(c, w) == LoopBase(c, w)
  {
    OneCall(w.faults);
    TwoCalls(w.faults, 0);
    TwoCalls(w.faults, 1);
    OneCall(w.Next().Next().faults);
  }
}
