/**
 * Repeated passes over a quiet cluster: each requeue repairs one field for good, so their number is
 * bounded by the mismatches there are at the start.
 */
module PublishingConvergence {
  import opened Basics
  import opened IngressControllers
  import opened KubeApi
  import opened Publishing
  import opened PublishingFrame

  /** The object passes the checks that would delete it; its patchable fields may still differ. */
  predicate Ready(c: Cluster, e: ApplicationIngress, ic: IngressController) {
    && !ic.deleting
    && (c.IsAws() ==> ValidateAwsType(ic, TypeOn(c, e)) == Pass)
    && (ValidateStaticSpec(c.gates, ic, Desired(c, e))
        || (NameOf(e) == Some(DEFAULT) && ValidateStaticStatus(c.gates, ic, Desired(c, e))))
    && !PlacementCrashes(ic.spec)
  }

  predicate ReadyEntry(c: Cluster, e: ApplicationIngress, ics: Controllers) {
    && NameOf(e).Some?
    && NameOf(e).value in ics
    && Ready(c, e, ics[NameOf(e).value])
    && (if e.isDefault then HasSuffix(e.dnsName, c.BaseDomain()) else ics[NameOf(e).value].Owned())
  }

  ghost predicate AllReady(c: Cluster, entries: seq<ApplicationIngress>, ics: Controllers) {
    forall i :: 0 <= i < |entries| ==> ReadyEntry(c, entries[i], ics)
  }

  ghost predicate Distinct(entries: seq<ApplicationIngress>) {
    forall i, j :: 0 <= i < j < |entries| ==> NameOf(entries[i]) != NameOf(entries[j])
  }

  function MismatchesOf(c: Cluster, e: ApplicationIngress, ics: Controllers): (n: nat)
    ensures n <= 4
  {
    if NameOf(e).Some? && NameOf(e).value in ics
    then Mismatches(c.gates, ics[NameOf(e).value].spec, Desired(c, e)) else 0
  }

  function Total(c: Cluster, entries: seq<ApplicationIngress>, ics: Controllers): nat {
    if entries == [] then 0 else MismatchesOf(c, entries[0], ics) + Total(c, entries[1..], ics)
  }

  lemma {:induction false} TotalAtMostFour(c: Cluster, entries: seq<ApplicationIngress>, ics: Controllers)
    ensures Total(c, entries, ics) <= 4 * |entries|
  {
    if entries != [] { TotalAtMostFour(c, entries[1..], ics); }
  }

  function Patched(c: Cluster, e: ApplicationIngress, field: PatchField, ics: Controllers): Controllers
    requires NameOf(e).Some? && NameOf(e).value in ics
  {
    var ic := ics[NameOf(e).value];
    ics[NameOf(e).value := ic.(spec := CopyField(field, ic.spec, Desired(c, e)))]
  }

  /** The suffix check, against the base domain the pass has read. */
  predicate SuffixOk(base: string, e: ApplicationIngress) {
    e.isDefault ==> HasSuffix(e.dnsName, base)
  }

  /** On a ready entry a visit passes on or fails, writing nothing, or patches one differing field. */
  lemma VisitReady(c: Cluster, base: string, e: ApplicationIngress, w: World, m: Seen)
    requires ReadyEntry(c, e, w.ics) && SuffixOk(base, e)
    ensures var r := Visit(c, base, e, w, m);
            var patch := ValidatePatchable(c.gates, w.ics[NameOf(e).value].spec, Desired(c, e));
            match r.flow
            case Continue => r.w.ics == w.ics && Settled(c, e, w.ics[NameOf(e).value])
            case Stop(outcome) =>
              if outcome == Requeue
              then patch.Differs? && r.w.ics == Patched(c, e, patch.field, w.ics)
                  && !Settled(c, e, w.ics[NameOf(e).value])
              else (outcome == Failed || (outcome == Panicked && c.platform.None?)) && r.w.ics == w.ics
    ensures w.faults == [] ==>
              Visit(c, base, e, w, m).flow != Stop(Failed) && Visit(c, base, e, w, m).w.faults == []
  {
    var name, w2 := NameOf(e).value, w.Next().Next();
    var ic := w.ics[name];
    if !w.Fails() && !w.Next().Fails() && c.platform.Some? {
      StaticContinues(c, w2, name, ic, Desired(c, e));
      assert EnsureExisting(c, w2, name, ic, e) == EnsurePatchable(c, w2, name, ic, Desired(c, e));
    }
  }

  lemma {:induction false} LoopReady(c: Cluster, base: string, entries: seq<ApplicationIngress>, w: World, m: Seen)
    returns (i: nat, field: PatchField)
    requires AllReady(c, entries, w.ics)
    requires forall j :: 0 <= j < |entries| ==> SuffixOk(base, entries[j])
    ensures var r := VisitAll(c, base, entries, w, m);
            match r.flow
            case Continue => r.w.ics == w.ics
            case Stop(outcome) =>
              if outcome == Requeue
              then && i < |entries|
                   && ValidatePatchable(c.gates, w.ics[NameOf(entries[i]).value].spec, Desired(c, entries[i]))
                      == Differs(field)
                   && r.w.ics == Patched(c, entries[i], field, w.ics)
                   && !Settled(c, entries[i], w.ics[NameOf(entries[i]).value])
              else (outcome == Failed || (outcome == Panicked && c.platform.None?)) && r.w.ics == w.ics
    ensures w.faults == [] ==> VisitAll(c, base, entries, w, m).flow != Stop(Failed)
  {
    hide Visit, Settled, ValidatePatchable, Desired, Patched;
    i, field := 0, Selector;
    if entries != [] {
      var first := Visit(c, base, entries[0], w, m);
      VisitReady(c, base, entries[0], w, m);
      if first.flow == Continue {
        i, field := LoopReady(c, base, entries[1..], first.w, first.seen);
        i := i + 1;
      } else if first.flow == Stop(Requeue) {
        field := ValidatePatchable(c.gates, w.ics[NameOf(entries[0]).value].spec, Desired(c, entries[0])).field;
      }
    }
  }

  lemma PatchKeepsReady(c: Cluster, e: ApplicationIngress, field: PatchField, ics: Controllers)
    requires ReadyEntry(c, e, ics)
    requires ValidatePatchable(c.gates, ics[NameOf(e).value].spec, Desired(c, e)) == Differs(field)
    ensures ReadyEntry(c, e, Patched(c, e, field, ics))
    ensures MismatchesOf(c, e, Patched(c, e, field, ics)) < MismatchesOf(c, e, ics)
  {
    PatchRepairs(c, e, ics[NameOf(e).value], field);
  }

  lemma {:induction false} TotalDrops(c: Cluster, entries: seq<ApplicationIngress>, i: nat, a: Controllers,
                                      b: Controllers)
    requires i < |entries|
    requires forall j :: 0 <= j < |entries| && j != i ==>
               MismatchesOf(c, entries[j], b) == MismatchesOf(c, entries[j], a)
    requires MismatchesOf(c, entries[i], b) < MismatchesOf(c, entries[i], a)
    ensures Total(c, entries, b) < Total(c, entries, a)
  {
    if i == 0 {
      TotalSame(c, entries[1..], a, b);
    } else {
      TotalDrops(c, entries[1..], i - 1, a, b);
    }
  }

  lemma {:induction false} TotalSame(c: Cluster, entries: seq<ApplicationIngress>, a: Controllers, b: Controllers)
    requires forall j :: 0 <= j < |entries| ==> MismatchesOf(c, entries[j], b) == MismatchesOf(c, entries[j], a)
    ensures Total(c, entries, b) == Total(c, entries, a)
  {
    if entries != [] { TotalSame(c, entries[1..], a, b); }
  }

  lemma {:induction false} ReadyPassesSecondCheck(c: Cluster, entries: seq<ApplicationIngress>, w: World)
    requires AllReady(c, entries, w.ics)
    ensures NoNewSecond(entries, InitialSeen(w)) == Continue
  {
    if entries != [] {
      assert ReadyEntry(c, entries[0], w.ics);
      ReadyPassesSecondCheck(c, entries[1..], w);
    }
  }

  lemma AfterLoopKeepsPublished(c: Cluster, s: Strategy, w: World, m: Seen, o: Choices, n: string)
    requires forall x :: Published(m, x) && x in w.ics ==> !w.ics[x].deleting
    requires Published(m, n) && n in w.ics
    ensures var r := AfterLoop(c, s, w, m, o);
            && r.outcome in {Done, Failed, Panicked}
            && n in r.w.ics
            && r.w.ics[n].(annotations := w.ics[n].annotations) == w.ics[n]
            && (w.ics[n].Owned() ==> r.w.ics[n].Owned())
  {
    var noted := Noted(c, s, w, m, o);
    AfterLoopInTwo(c, s, w, m, o);
    NotedChangesNotes(c, s, w, m, o);
    AfterLoopFlows(c, s, w, m, o);
    LastStepSparesPublished(c, noted.w, m, o, n);
  }

  lemma {:induction false} AfterLoopFlows(c: Cluster, s: Strategy, w: World, m: Seen, o: Choices)
    ensures AfterLoop(c, s, w, m, o).outcome in {Done, Failed, Panicked}
  {
    AnnotateFlows(w, m, o.annotate);
    var notes := Annotate(w, m, o.annotate);
    DeleteFlows(AliasScope(c, notes.w, s.listening, o.cloud).w, m, o.delete);
  }

  lemma {:induction false} AnnotateFlows(w: World, m: Seen, order: seq<string>)
    ensures Annotate(w, m, order).flow in {Continue, Stop(Failed)}
    decreases order
  {
    if order != [] {
      AnnotateFlows(w, m, order[1..]);
      if order[0] in w.ics {
        AnnotateFlows(AfterStore(w.Next(), order[0], Annotated(w.ics[order[0]])), m, order[1..]);
      }
    }
  }

  lemma {:induction false} DeleteFlows(w: World, m: Seen, order: seq<string>)
    ensures DeleteUnpublished(w, m, order).flow in {Continue, Stop(Failed)}
    decreases order
  {
    if order != [] {
      DeleteFlows(w, m, order[1..]);
      DeleteFlows(AfterDelete(w.Next(), order[0]), m, order[1..]);
    }
  }

  /** No object's spec is written: those that remain have the spec they had. */
  ghost predicate SpecsStay(a: Controllers, b: Controllers) {
    forall n :: n in b ==> n in a && b[n].spec == a[n].spec
  }

  lemma AfterLoopWritesNoSpec(c: Cluster, s: Strategy, w: World, m: Seen, o: Choices)
    requires forall x :: Published(m, x) && x in w.ics ==> !w.ics[x].deleting
    ensures SpecsStay(w.ics, AfterLoop(c, s, w, m, o).w.ics)
  {
    hide Noted, AfterLoop, Disown, DeleteUnpublished;
    var noted := Noted(c, s, w, m, o);
    AfterLoopInTwo(c, s, w, m, o);
    NotedChangesNotes(c, s, w, m, o);
    assert SpecsStay(w.ics, noted.w.ics);
    DisownTouchesDefault(noted.w);
    DeleteUnpublishedDeletes(noted.w, m, o.delete);
    assert SpecsStay(noted.w.ics, LastStep(c, noted.w, m, o).w.ics) by {
      forall n | n in LastStep(c, noted.w, m, o).w.ics
        ensures n in noted.w.ics && LastStep(c, noted.w, m, o).w.ics[n].spec == noted.w.ics[n].spec
      {
        assert n != DEFAULT ==> SameAt(noted.w.ics, Disown(noted.w).w.ics, n);
      }
    }
  }

  /** The premises: no other writer, distinct names, and every entry's object present and ready. */
  ghost predicate Quiet(c: Cluster, s: Strategy, w: World) {
    Distinct(s.entries) && AllReady(c, s.entries, w.ics)
  }

  ghost predicate AllSettled(c: Cluster, entries: seq<ApplicationIngress>, ics: Controllers)
    requires AllReady(c, entries, ics)
  {
    forall i :: 0 <= i < |entries| ==>
      ReadyEntry(c, entries[i], ics) && Settled(c, entries[i], ics[NameOf(entries[i]).value])
  }

  /** What matters of a quiet state: its mismatches, and whether every entry is settled. */
  datatype Mark = Mark(total: nat, settled: bool, ics: Controllers)

  ghost function MarkOf(c: Cluster, s: Strategy, w: World): Mark
    requires Quiet(c, s, w)
  {
    Mark(Total(c, s.entries, w.ics), AllSettled(c, s.entries, w.ics), w.ics)
  }

  /** The pass reads all it needs and its loop runs to the end. */
  predicate GetsThrough(c: Cluster, s: Strategy, w: World) {
    && !w.Fails() && !ReadsFail(c, w)
    && NoNewSecond(s.entries, InitialSeen(w)) == Continue
    && Loop(c, s, w).flow == Continue
  }

  /** What matters of a pass: whether its calls all succeed, whether it gets through, its outcome. */
  datatype Note = Note(readable: bool, clean: bool, through: bool, outcome: Outcome)

  function NoteOf(c: Cluster, s: Strategy, w: World, o: Choices): Note {
    Note(c.Readable(), w.faults == [], GetsThrough(c, s, w), Reconcile(c, Some(s), w, o).outcome)
  }

  /**
   * One pass over a quiet cluster, whatever calls fail: it patches one field and requeues, or fails
   * or panics and changes nothing, or, once every entry is settled, writes no spec and never requeues.
   */
  ghost predicate QuietStep(a: Mark, note: Note, b: Mark) {
    && (note.through ==> a.settled)
    && (note.outcome == Done ==> note.through)
    && (note.clean && note.outcome == Failed ==> note.through)
    && (note.readable && note.outcome == Panicked ==> note.through)
    && (if a.settled then note.outcome != Requeue && SpecsStay(a.ics, b.ics) && b.settled
        else if note.outcome == Requeue then b.total < a.total
        else note.outcome in {Failed, Panicked} && b == a)
  }

  lemma BaseKeepsSuffixes(c: Cluster, s: Strategy, w: World)
    requires AllReady(c, s.entries, w.ics)
    ensures forall j :: 0 <= j < |s.entries| ==> SuffixOk(BaseSeen(c, w), s.entries[j])
  {
    forall j | 0 <= j < |s.entries| ensures SuffixOk(BaseSeen(c, w), s.entries[j]) {
      assert ReadyEntry(c, s.entries[j], w.ics);
    }
  }

  lemma PatchedStaysQuiet(c: Cluster, s: Strategy, w: World, i: nat, field: PatchField, w': World)
    requires Quiet(c, s, w) && i < |s.entries|
    requires NameOf(s.entries[i]).Some? && NameOf(s.entries[i]).value in w.ics
    requires ValidatePatchable(c.gates, w.ics[NameOf(s.entries[i]).value].spec, Desired(c, s.entries[i]))
             == Differs(field)
    requires w'.ics == Patched(c, s.entries[i], field, w.ics)
    ensures Quiet(c, s, w') && Total(c, s.entries, w'.ics) < Total(c, s.entries, w.ics)
  {
    var e := s.entries[i];
    assert ReadyEntry(c, e, w.ics);
    PatchKeepsReady(c, e, field, w.ics);
    forall j | 0 <= j < |s.entries| && j != i
      ensures ReadyEntry(c, s.entries[j], w'.ics)
      ensures MismatchesOf(c, s.entries[j], w'.ics) == MismatchesOf(c, s.entries[j], w.ics)
    {
      assert ReadyEntry(c, s.entries[j], w.ics) && NameOf(s.entries[j]) != NameOf(e);
    }
    TotalDrops(c, s.entries, i, w.ics, w'.ics);
  }

  lemma QuietPass(c: Cluster, s: Strategy, w: World, o: Choices)
    requires Quiet(c, s, w)
    ensures Quiet(c, s, Reconcile(c, Some(s), w, o).w)
    ensures QuietStep(MarkOf(c, s, w), NoteOf(c, s, w, o), MarkOf(c, s, Reconcile(c, Some(s), w, o).w))
  {
    hide VisitAll, AfterLoop, Desired, ValidatePatchable, Patched, Total, Settled, ReadyEntry;
    ReadyPassesSecondCheck(c, s.entries, w);
    BaseKeepsSuffixes(c, s, w);
    if !w.Fails() && !ReadsFail(c, w) {
      var loop := Loop(c, s, w);
      var i, field := LoopReady(c, BaseSeen(c, w), s.entries, AfterReads(w), InitialSeen(w));
      if loop.flow == Continue {
        SettledPass(c, s, w, o);
      } else if loop.flow == Stop(Requeue) {
        EntryIsReady(c, s, w, i);
        PatchedStaysQuiet(c, s, w, i, field, loop.w);
      }
    }
  }

  lemma EntryIsReady(c: Cluster, s: Strategy, w: World, i: nat)
    requires Quiet(c, s, w) && i < |s.entries|
    ensures NameOf(s.entries[i]).Some? && NameOf(s.entries[i]).value in w.ics
  {
    assert ReadyEntry(c, s.entries[i], w.ics);
  }

  lemma SettledPass(c: Cluster, s: Strategy, w: World, o: Choices)
    requires Quiet(c, s, w) && GetsThrough(c, s, w)
    ensures var r := Reconcile(c, Some(s), w, o);
            && Quiet(c, s, r.w)
            && AllSettled(c, s.entries, w.ics) && AllSettled(c, s.entries, r.w.ics)
            && r.outcome != Requeue && SpecsStay(w.ics, r.w.ics)
  {
    var loop, r := Loop(c, s, w), Reconcile(c, Some(s), w, o);
    LoopFacts(c, s, w);
    AfterLoopWritesNoSpec(c, s, loop.w, loop.seen, o);
    AfterLoopFlows(c, s, loop.w, loop.seen, o);
    forall i | 0 <= i < |s.entries|
      ensures ReadyEntry(c, s.entries[i], w.ics) && Settled(c, s.entries[i], w.ics[NameOf(s.entries[i]).value])
      ensures ReadyEntry(c, s.entries[i], r.w.ics) && Settled(c, s.entries[i], r.w.ics[NameOf(s.entries[i]).value])
    {
      var name := NameOf(s.entries[i]).value;
      assert ReadyEntry(c, s.entries[i], w.ics) && Refers(s.entries, name);
      AfterLoopKeepsPublished(c, s, loop.w, loop.seen, o, name);
      NotesDoNotMatter(c, s.entries[i], w.ics[name], r.w.ics[name]);
    }
  }

  /** The checks read neither annotations nor finalizers. */
  lemma NotesDoNotMatter(c: Cluster, e: ApplicationIngress, a: IngressController, b: IngressController)
    requires b.spec == a.spec && b.status == a.status && b.deleting == a.deleting
    ensures Settled(c, e, a) <==> Settled(c, e, b)
    ensures Ready(c, e, a) <==> Ready(c, e, b)
  {
  }

  /** The state before pass `j` of a run; each pass has its own failures and range orders. */
  function StateAt(c: Cluster, s: Strategy, w: World, ps: seq<PassInput>, j: nat): World
    requires j <= |ps|
  {
    RunPasses(c, s, w, ps[..j])
  }

  lemma NextState(c: Cluster, s: Strategy, w: World, ps: seq<PassInput>, j: nat)
    requires j < |ps|
    ensures StateAt(c, s, w, ps, j + 1) == RunPass(c, s, StateAt(c, s, w, ps, j), ps[j]).w
  {
    assert ps[..j + 1][..j] == ps[..j];
  }

  function NoteAt(c: Cluster, s: Strategy, w: World, ps: seq<PassInput>, j: nat): Note
    requires j < |ps|
  {
    NoteOf(c, s, StateAt(c, s, w, ps, j).(faults := ps[j].faults), ps[j].choices)
  }

  function Count(notes: seq<Note>, outcome: Outcome): nat {
    if notes == [] then 0
    else Count(notes[..|notes| - 1], outcome) + (if notes[|notes| - 1].outcome == outcome then 1 else 0)
  }

  lemma MarksIgnoreFaults(c: Cluster, s: Strategy, w: World, faults: seq<bool>)
    requires Quiet(c, s, w)
    ensures Quiet(c, s, w.(faults := faults)) && MarkOf(c, s, w.(faults := faults)) == MarkOf(c, s, w)
    ensures MarkOf(c, s, w).ics == w.ics && MarkOf(c, s, w).total == Total(c, s.entries, w.ics)
  {
  }

  lemma {:induction false} QuietStates(c: Cluster, s: Strategy, w: World, ps: seq<PassInput>, j: nat)
    requires Quiet(c, s, w) && j <= |ps|
    ensures Quiet(c, s, StateAt(c, s, w, ps, j))
    ensures j < |ps| ==>
              && Quiet(c, s, StateAt(c, s, w, ps, j + 1))
              && QuietStep(MarkOf(c, s, StateAt(c, s, w, ps, j)), NoteAt(c, s, w, ps, j),
                           MarkOf(c, s, StateAt(c, s, w, ps, j + 1)))
  {
    hide Reconcile, NoteOf, QuietStep, MarkOf, Quiet;
    if j > 0 { QuietStates(c, s, w, ps, j - 1); }
    if j < |ps| {
      NextState(c, s, w, ps, j);
      MarksIgnoreFaults(c, s, StateAt(c, s, w, ps, j), ps[j].faults);
      QuietPass(c, s, StateAt(c, s, w, ps, j).(faults := ps[j].faults), ps[j].choices);
    }
  }

  lemma FirstState(c: Cluster, s: Strategy, w: World, ps: seq<PassInput>)
    ensures StateAt(c, s, w, ps, 0) == w
  {
  }

  lemma {:induction false} Trace(c: Cluster, s: Strategy, w: World, ps: seq<PassInput>, n: nat)
    returns (marks: seq<Mark>, notes: seq<Note>)
    requires Quiet(c, s, w) && n <= |ps|
    ensures |notes| == n && |marks| == n + 1 && marks[0].total == Total(c, s.entries, w.ics)
    ensures forall j :: 0 <= j <= n ==> marks[j].ics == StateAt(c, s, w, ps, j).ics
    ensures forall j :: 0 <= j < n ==> notes[j] == NoteAt(c, s, w, ps, j)
    ensures forall j :: 0 <= j < n ==> QuietStep(marks[j], notes[j], marks[j + 1])
    ensures Quiet(c, s, StateAt(c, s, w, ps, n)) && marks[n] == MarkOf(c, s, StateAt(c, s, w, ps, n))
  {
    hide *;
    QuietStates(c, s, w, ps, n);
    MarksIgnoreFaults(c, s, StateAt(c, s, w, ps, n), []);
    if n == 0 {
      FirstState(c, s, w, ps);
      return [MarkOf(c, s, StateAt(c, s, w, ps, 0))], [];
    }
    QuietStates(c, s, w, ps, n - 1);
    marks, notes := Trace(c, s, w, ps, n - 1);
    marks, notes := marks + [MarkOf(c, s, StateAt(c, s, w, ps, n))], notes + [NoteAt(c, s, w, ps, n - 1)];
  }

  /** Each requeue is paid for by the total, which never rises before the entries are settled. */
  lemma {:induction false} RequeuesArePaid(marks: seq<Mark>, notes: seq<Note>)
    requires |marks| == |notes| + 1
    requires forall j :: 0 <= j < |notes| ==> QuietStep(marks[j], notes[j], marks[j + 1])
    ensures Count(notes, Requeue) + (if marks[|notes|].settled then 0 else marks[|notes|].total) <= marks[0].total
  {
    if notes != [] {
      var n := |notes| - 1;
      RequeuesArePaid(marks[..n + 1], notes[..n]);
      assert QuietStep(marks[n], notes[n], marks[n + 1]);
    }
  }

  lemma SettledForGood(marks: seq<Mark>, notes: seq<Note>, k: nat)
    requires |marks| == |notes| + 1 && k < |marks| && marks[k].settled
    requires forall j :: 0 <= j < |notes| ==> QuietStep(marks[j], notes[j], marks[j + 1])
    ensures forall j :: k <= j < |notes| ==> notes[j].outcome != Requeue
    ensures forall j :: k <= j < |marks| ==> SpecsStay(marks[k].ics, marks[j].ics)
  {
    var i := k;
    while i < |notes|
      invariant k <= i <= |notes| && marks[i].settled
      invariant forall j :: k <= j < i ==> notes[j].outcome != Requeue
      invariant forall j :: k <= j <= i ==> SpecsStay(marks[k].ics, marks[j].ics)
    {
      assert QuietStep(marks[i], notes[i], marks[i + 1]);
      i := i + 1;
    }
  }

  /**
   * Convergence, whatever calls fail in whatever pass: over a quiet cluster the requeues number at
   * most the initial mismatches and so at most four per entry. From the first pass that gets through
   * the loop none requeues and none writes a spec. A pass that ends neither way has written no spec and
   * either failed, with a failing call, or panicked on an infrastructure object it cannot read.
   */
  lemma RequeuesAreBounded(c: Cluster, s: Strategy, w: World, ps: seq<PassInput>)
    returns (notes: seq<Note>)
    requires Quiet(c, s, w)
    ensures |notes| == |ps| && forall j :: 0 <= j < |ps| ==> notes[j] == NoteAt(c, s, w, ps, j)
    ensures Count(notes, Requeue) <= Total(c, s.entries, w.ics) <= 4 * |s.entries|
    ensures forall k, j :: 0 <= k <= j < |ps| && notes[k].through ==> notes[j].outcome != Requeue
    ensures forall k, j :: 0 <= k < |ps| && k <= j <= |ps| && notes[k].through ==>
              SpecsStay(StateAt(c, s, w, ps, k).ics, StateAt(c, s, w, ps, j).ics)
    ensures forall j :: 0 <= j < |ps| && notes[j].outcome != Requeue ==>
              || notes[j].through
              || ((if notes[j].outcome == Failed then ps[j].faults != []
                   else notes[j].outcome == Panicked && !c.Readable())
                  && SpecsStay(StateAt(c, s, w, ps, j).ics, StateAt(c, s, w, ps, j + 1).ics))
  {
    hide *;
    TotalAtMostFour(c, s.entries, w.ics);
    var marks;
    marks, notes := Trace(c, s, w, ps, |ps|);
    RequeuesArePaid(marks, notes);
    forall k | 0 <= k < |ps| && notes[k].through
      ensures forall j :: k <= j < |ps| ==> notes[j].outcome != Requeue
      ensures forall j :: k <= j <= |ps| ==> SpecsStay(StateAt(c, s, w, ps, k).ics, StateAt(c, s, w, ps, j).ics)
    {
      ThroughMeansSettled(marks[k], notes[k], marks[k + 1]);
      SettledForGood(marks, notes, k);
      forall j | k <= j <= |ps| ensures SpecsStay(StateAt(c, s, w, ps, k).ics, StateAt(c, s, w, ps, j).ics) {
        assert SpecsStay(marks[k].ics, marks[j].ics);
      }
    }
    forall j | 0 <= j < |ps| && notes[j].outcome != Requeue && !notes[j].through
      ensures if notes[j].outcome == Failed then ps[j].faults != []
              else notes[j].outcome == Panicked && !c.Readable()
      ensures SpecsStay(StateAt(c, s, w, ps, j).ics, StateAt(c, s, w, ps, j + 1).ics)
    {
      CleanNote(c, s, w, ps, j);
      FailedChangesNoSpec(marks[j], notes[j], marks[j + 1]);
    }
  }

  lemma CleanNote(c: Cluster, s: Strategy, w: World, ps: seq<PassInput>, j: nat)
    requires j < |ps|
    ensures NoteAt(c, s, w, ps, j).clean <==> ps[j].faults == []
    ensures NoteAt(c, s, w, ps, j).readable <==> c.Readable()
  {
    hide Reconcile, GetsThrough, StateAt;
  }

  lemma ThroughMeansSettled(a: Mark, note: Note, b: Mark)
    requires QuietStep(a, note, b) && note.through
    ensures a.settled
  {
  }

  lemma FailedChangesNoSpec(a: Mark, note: Note, b: Mark)
    requires QuietStep(a, note, b) && note.outcome != Requeue && !note.through
    ensures if note.outcome == Failed then !note.clean else note.outcome == Panicked && !note.readable
    ensures SpecsStay(a.ics, b.ics)
  {
  }

  /**
   * A created object is a fixed point: whatever status, finalizers and annotations it acquires, and
   * whatever calls fail, no visit of its entry ever writes; a visit whose calls succeed passes on.
   */
  lemma CreatedIsNeverRewritten(c: Cluster, base: string, e: ApplicationIngress, w: World, m: Seen)
    requires NameOf(e).Some? && NameOf(e).value in w.ics
    requires var ic := w.ics[NameOf(e).value]; !ic.deleting && ic.spec == NewController(Desired(c, e)).spec
    ensures var r := Visit(c, base, e, w, m);
            && r.w.ics == w.ics
            && (r.flow in {Continue, Stop(Failed)} || (r.flow == Stop(Panicked) && c.platform.None?))
            && (w.faults == [] && c.platform.Some? && SuffixOk(base, e) ==> r.flow == Continue)
  {
    GeneratedPassesAllChecks(c, e, w.ics[NameOf(e).value]);
  }
}
