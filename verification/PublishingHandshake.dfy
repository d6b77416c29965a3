/**
 * Replacing `default` when its immutable fields change. Two controllers share the work: this one
 * holds the object with its own finalizer while the cluster ingress operator cleans up, and
 * recreates it once that operator has dropped the other finalizer.
 */
module PublishingHandshake {
  import opened Basics
  import ClusterVersion
  import FinalizerLists
  import opened IngressControllers
  import opened KubeApi
  import opened Publishing
  import opened PublishingFrame
  import opened PublishingConvergence
  import opened PublishingInterleaving

  /** Live: to be replaced. Draining: deleting, the cluster finalizer is still there. Drained: it is gone. */
  datatype Phase = Live | Draining | Drained | Gone | Fresh

  /**
   * Why a live object is to be replaced: the static fields differ, or on AWS the load balancer type
   * does. The second way is covered only when the finalizer is there already.
   */
  predicate Outdated(c: Cluster, d: ApplicationIngress, ic: IngressController) {
    if c.IsAws() && ValidateAwsType(ic, TypeOn(c, d)) == Fail then CLOUD_FINALIZER in ic.finalizers
    else
      && (c.IsAws() ==> ValidateAwsType(ic, TypeOn(c, d)) == Pass)
      && !ValidateStaticSpec(c.gates, ic, Desired(c, d)) && !ValidateStaticStatus(c.gates, ic, Desired(c, d))
  }

  ghost predicate InPhase(c: Cluster, d: ApplicationIngress, ics: Controllers, p: Phase) {
    if p == Gone then DEFAULT !in ics
    else
      && DEFAULT in ics
      && var ic := ics[DEFAULT];
         match p
         case Live => !ic.deleting && OurFinalizers(ic.finalizers) && Outdated(c, d, ic)
         case Draining =>
           && ic.deleting && OurFinalizers(ic.finalizers)
           && CLOUD_FINALIZER in ic.finalizers && CLUSTER_FINALIZER in ic.finalizers
         case Drained => ic.deleting && ic.finalizers == [CLOUD_FINALIZER]
         case Fresh => !ic.deleting && ic.spec == Desired(c, d)
  }

  /** What one pass may do to the phase; only a failing call can leave the object gone. */
  predicate Allowed(p: Phase, q: Phase, clean: bool) {
    || p == q
    || (p == Live && q in {Draining, Drained})
    || (p == Drained && (q == Fresh || (q == Gone && !clean)))
    || (p == Gone && q == Fresh)
  }

  /** Where marking a live object that carries the cloud finalizer leads. */
  function Marked(f: seq<string>): Phase {
    if CLUSTER_FINALIZER in f then Draining else Drained
  }

  lemma MarkedPhase(c: Cluster, d: ApplicationIngress, w: World) returns (q: Phase)
    requires DEFAULT in w.ics && OurFinalizers(w.ics[DEFAULT].finalizers)
        && CLOUD_FINALIZER in w.ics[DEFAULT].finalizers
    requires InPhase(c, d, w.ics, Live)
    ensures InPhase(c, d, AfterDelete(w, DEFAULT).ics, q)
    ensures q == if WriteAck(w, DEFAULT) == Acked then Marked(w.ics[DEFAULT].finalizers) else Live
  {
    if WriteAck(w, DEFAULT) != Acked {
      q := Live;
    } else if CLUSTER_FINALIZER in w.ics[DEFAULT].finalizers {
      q := Draining;
    } else {
      OnlyCloudLeft(w.ics[DEFAULT].finalizers);
      q := Drained;
    }
  }

  /** The checks on a live object that is to be replaced mark it, by either path. */
  lemma ReplaceFromLive(c: Cluster, d: ApplicationIngress, w: World) returns (q: Phase)
    requires InPhase(c, d, w.ics, Live)
    ensures var r := EnsureExisting(c, w, DEFAULT, w.ics[DEFAULT], d);
            && r.flow != Continue && InPhase(c, d, r.w.ics, q) && Allowed(Live, q, true)
            && (w.faults == [] ==> q == Marked(w.ics[DEFAULT].finalizers) && r.flow == Stop(Requeue))
  {
    hide ValidateStaticSpec, ValidateStaticStatus, ValidateAwsType, Desired, TypeOn;
    var ic := w.ics[DEFAULT];
    if CLOUD_FINALIZER in ic.finalizers {
      q := MarkedPhase(c, d, w);
    } else {
      var ic' := ic.(finalizers := ic.finalizers + [CLOUD_FINALIZER]);
      CloudAdded(ic.finalizers);
      ValidatorsIgnoreFinalizers(c, d, ic, ic');
      if WriteAck(w, DEFAULT) == Acked {
        q := MarkedPhase(c, d, AfterStore(w, DEFAULT, ic'));
      } else {
        q := Live;
      }
    }
  }

  lemma ValidatorsIgnoreFinalizers(c: Cluster, d: ApplicationIngress, a: IngressController, b: IngressController)
    requires b == a.(finalizers := b.finalizers)
    ensures ValidateStaticSpec(c.gates, a, Desired(c, d)) == ValidateStaticSpec(c.gates, b, Desired(c, d))
    ensures ValidateStaticStatus(c.gates, a, Desired(c, d)) == ValidateStaticStatus(c.gates, b, Desired(c, d))
    ensures ValidateAwsType(a, TypeOn(c, d)) == ValidateAwsType(b, TypeOn(c, d))
  {
  }

  lemma RecreateFromDrained(c: Cluster, d: ApplicationIngress, w: World) returns (q: Phase)
    requires InPhase(c, d, w.ics, Drained)
    ensures var r := Recreate(w, DEFAULT, w.ics[DEFAULT], Desired(c, d));
            && r.flow != Continue
            && InPhase(c, d, r.w.ics, q) && Allowed(Drained, q, w.faults == [])
            && (w.faults == [] ==>
                  r.flow == Stop(Requeue) && r.w.ics == w.ics[DEFAULT := NewController(Desired(c, d))])
  {
    var ic := w.ics[DEFAULT];
    FinalizerLists.RemoveOnDistinct(ic.finalizers, CLOUD_FINALIZER);
    assert Without([CLOUD_FINALIZER], CLOUD_FINALIZER) == [];
    var w' := AfterStore(w, DEFAULT, ic.(finalizers := []));
    if WriteAck(w, DEFAULT) != Acked {
      q := Drained;
    } else {
      assert w'.ics == w.ics - {DEFAULT};
      q := if WriteAck(w', DEFAULT) == Rejected || AfterDelete(w', DEFAULT).Fails() then Gone else Fresh;
    }
  }

  /** Where a clean pass that reaches the entry takes the object. */
  function Advanced(p: Phase, f: seq<string>): Phase {
    match p
    case Live => Marked(f)
    case Draining => Draining
    case _ => Fresh
  }

  function FinalizersAt(ics: Controllers): seq<string> {
    if DEFAULT in ics then ics[DEFAULT].finalizers else []
  }

  /** One visit of the entry, from the second call on. */
  lemma ExistingPhase(c: Cluster, d: ApplicationIngress, w: World, p: Phase) returns (q: Phase)
    requires NameOf(d) == Some(DEFAULT) && InPhase(c, d, w.ics, p) && p != Gone
    ensures var r := EnsureExisting(c, w, DEFAULT, w.ics[DEFAULT], d);
            && InPhase(c, d, r.w.ics, q) && Allowed(p, q, w.faults == [])
            && (p == Draining ==> r.w.ics == w.ics)
            && (r.flow == Continue <==> p == Fresh)
            && (w.faults == [] ==> q == Advanced(p, FinalizersAt(w.ics)) && r.flow in {Continue, Stop(Requeue)})
            && (w.faults == [] && p == Drained ==> r.w.ics == w.ics[DEFAULT := NewController(Desired(c, d))])
  {
    hide ValidateStaticSpec, ValidateStaticStatus, ValidateAwsType, Desired, TypeOn;
    hide FinalizerLists.Remove, ValidatePatchable, EnsureStatic, EnsurePatchable, EnsureAwsType;
    hide Outdated, OurFinalizers, DeleteAndCreate;
    match p
    case Live => q := ReplaceFromLive(c, d, w);
    case Draining => q := Draining;
    case Drained => q := RecreateFromDrained(c, d, w);
    case Fresh =>
      q := Fresh;
      FreshContinues(c, d, w);
  }

  lemma FreshContinues(c: Cluster, d: ApplicationIngress, w: World)
    requires NameOf(d) == Some(DEFAULT) && InPhase(c, d, w.ics, Fresh)
    ensures EnsureExisting(c, w, DEFAULT, w.ics[DEFAULT], d) == Step(w, Continue)
  {
    GeneratedPassesAllChecks(c, d, w.ics[DEFAULT]);
  }

  lemma CreatedPhase(c: Cluster, d: ApplicationIngress, w: World) returns (q: Phase)
    requires InPhase(c, d, w.ics, Gone)
    ensures var w' := AfterCreate(w, DEFAULT, NewController(Desired(c, d)));
            && InPhase(c, d, w'.ics, q) && q in {Gone, Fresh}
            && (w.faults == [] ==> q == Fresh && w'.ics == w.ics[DEFAULT := NewController(Desired(c, d))])
  {
    q := if CreateAck(w, DEFAULT) == Acked then Fresh else Gone;
  }

  lemma PhaseExists(c: Cluster, d: ApplicationIngress, ics: Controllers, p: Phase)
    requires InPhase(c, d, ics, p)
    ensures DEFAULT in ics <==> p != Gone
  {
  }

  lemma VisitDefault(c: Cluster, d: ApplicationIngress, base: string, w: World, m: Seen, p: Phase) returns (q: Phase)
    requires NameOf(d) == Some(DEFAULT) && InPhase(c, d, w.ics, p)
    ensures var r := Visit(c, base, d, w, m);
            && InPhase(c, d, r.w.ics, q) && Allowed(p, q, w.faults == [])
            && (p == Draining ==> r.w.ics == w.ics)
            && (r.flow == Continue ==> p == Fresh)
            && (w.faults == [] && SuffixOk(base, d) && c.platform.Some? ==>
                  && q == Advanced(p, FinalizersAt(w.ics)) && (p != Fresh ==> r.flow == Stop(Requeue))
                  && (p in {Drained, Gone} ==> r.w.ics == w.ics[DEFAULT := NewController(Desired(c, d))]))
  {
    hide EnsureExisting, Desired, NameOf, HasSuffix, InPhase, AfterCreate, NewController, FinalizersAt;
    var w2 := w.Next().Next();
    q := p;
    PhaseExists(c, d, w.ics, p);
    if SuffixOk(base, d) && !w.Fails() && !w.Next().Fails() && c.platform.Some? {
      if p != Gone {
        q := ExistingPhase(c, d, w2, p);
      } else {
        q := CreatedPhase(c, d, w2);
      }
    }
  }

  lemma {:induction false} LoopPhase(c: Cluster, d: ApplicationIngress, base: string,
                                     entries: seq<ApplicationIngress>, w: World, m: Seen, p: Phase)
    returns (q: Phase)
    requires NameOf(d) == Some(DEFAULT) && InPhase(c, d, w.ics, p)
    requires forall i :: 0 <= i < |entries| && NameOf(entries[i]) == Some(DEFAULT) ==> entries[i] == d
    ensures var r := VisitAll(c, base, entries, w, m);
            && InPhase(c, d, r.w.ics, q) && Allowed(p, q, w.faults == [])
            && (p == Draining ==> SameAt(w.ics, r.w.ics, DEFAULT))
            && (r.flow == Continue && d in entries ==> p == Fresh)
  {
    q := p;
    if entries != [] {
      var e := entries[0];
      var first := Visit(c, base, e, w, m);
      if NameOf(e) == Some(DEFAULT) {
        q := VisitDefault(c, d, base, w, m, p);
      } else {
        VisitTouchesItsName(c, base, e, w, m);
        assert SameAt(w.ics, first.w.ics, DEFAULT);
      }
      VisitContinues(c, base, e, w, m);
      if first.flow == Continue {
        FaultFreeVisit(c, base, e, w, m);
        q := LoopPhase(c, d, base, entries[1..], first.w, first.seen, q);
      }
    }
  }

  ghost predicate OneDefault(s: Strategy, d: ApplicationIngress) {
    && NameOf(d) == Some(DEFAULT) && d in s.entries
    && forall i :: 0 <= i < |s.entries| && NameOf(s.entries[i]) == Some(DEFAULT) ==> s.entries[i] == d
  }

  /**
   * One pass, whatever calls fail: the phases only move forward, the object is untouched while the
   * cluster finalizer is there, and only a failing call can leave the name without an object.
   */
  lemma PassPhase(c: Cluster, s: Strategy, d: ApplicationIngress, w: World, o: Choices, p: Phase) returns (q: Phase)
    requires OneDefault(s, d) && InPhase(c, d, w.ics, p)
    ensures var r := Reconcile(c, Some(s), w, o);
            && InPhase(c, d, r.w.ics, q) && Allowed(p, q, w.faults == [])
            && (p == Draining ==> SameAt(w.ics, r.w.ics, DEFAULT))
  {
    hide Outdated, OurFinalizers, VisitAll, NoNewSecond, AfterLoop, Desired, Settled, NameOf;
    q := p;
    if !w.Fails() && !ReadsFail(c, w) && NoNewSecond(s.entries, InitialSeen(w)) == Continue {
      var loop := Loop(c, s, w);
      LoopFacts(c, s, w);
      q := LoopPhase(c, d, BaseSeen(c, w), s.entries, AfterReads(w), InitialSeen(w), p);
      if loop.flow == Continue {
        assert Refers(s.entries, DEFAULT);
        AfterLoopKeepsPublished(c, s, loop.w, loop.seen, o, DEFAULT);
        q := Fresh;
      }
    }
  }

  lemma DropPhase(c: Cluster, d: ApplicationIngress, w: World, name: string, p: Phase) returns (q: Phase)
    requires InPhase(c, d, w.ics, p)
    ensures InPhase(c, d, DropClusterFinalizer(w, name).ics, q)
    ensures q == if p == Draining && name == DEFAULT then Drained else p
  {
    q := if p == Draining && name == DEFAULT then Drained else p;
    if name != DEFAULT {
      return;
    }
    if p in {Live, Draining} {
      WithoutKeepsOurs(w.ics[DEFAULT].finalizers, CLUSTER_FINALIZER);
    }
    if p == Draining {
      OnlyCloudLeft(Without(w.ics[DEFAULT].finalizers, CLUSTER_FINALIZER));
    }
    if p == Drained {
      CloudStays();
    }
  }

  /**
   * The handshake, for every interleaving: the object stays in its phases throughout, and as long as
   * the calls of the reconciles succeed an object named `default` exists after every step, whatever
   * other objects the other controller works on.
   */
  lemma {:induction false} HandshakeHolds(c: Cluster, s: Strategy, d: ApplicationIngress, w: World,
                                          actions: seq<Action>, p: Phase)
    returns (q: Phase)
    requires OneDefault(s, d) && InPhase(c, d, w.ics, p)
    ensures InPhase(c, d, RunActions(c, s, w, actions).ics, q)
    ensures p != Gone && CallsSucceed(actions) ==> q != Gone && DEFAULT in RunActions(c, s, w, actions).ics
    ensures p == Fresh ==> q == Fresh
    decreases actions
  {
    q := p;
    if actions != [] {
      var a := actions[0];
      match a {
        case Drop(name) => q := DropPhase(c, d, w, name, p);
        case OnePass(input) => q := PassPhase(c, s, d, w.(faults := input.faults), input.choices, p);
      }
      assert a in actions && forall x :: x in actions[1..] ==> x in actions;
      q := HandshakeHolds(c, s, d, Act(c, s, a, w), actions[1..], q);
    }
  }

  /**
   * A pass without failing calls that reaches the entry makes progress: a live object is marked, one
   * whose cluster finalizer is gone is replaced by exactly the desired object, a missing one is
   * created, and nothing else changes.
   */
  lemma CleanPassAdvances(c: Cluster, s: Strategy, w: World, o: Choices, i: nat, p: Phase) returns (q: Phase)
    requires i < |s.entries| && NameOf(s.entries[i]) == Some(DEFAULT) && SuffixOk(c.BaseDomain(), s.entries[i])
    requires c.Readable()
    requires w.faults == [] && InPhase(c, s.entries[i], w.ics, p) && p != Fresh
    requires NoNewSecond(s.entries, InitialSeen(w)) == Continue
    requires VisitAll(c, c.BaseDomain(), s.entries[..i], w, InitialSeen(w)).flow == Continue
    ensures var r := Reconcile(c, Some(s), w, o);
            && r.outcome == Requeue
            && InPhase(c, s.entries[i], r.w.ics, q) && q == Advanced(p, FinalizersAt(w.ics))
            && (p in {Drained, Gone} ==> r.w.ics == w.ics[DEFAULT := NewController(Desired(c, s.entries[i]))])
            && SameOutside(w.ics, r.w.ics, {DEFAULT})
  {
    hide Visit, InPhase, Desired, NewController, FinalizersAt;
    var m := InitialSeen(w);
    var before := VisitAll(c, c.BaseDomain(), s.entries[..i], w, m);
    LoopContinues(c, c.BaseDomain(), s.entries[..i], w, m);
    FaultFreeLoop(c, c.BaseDomain(), s.entries[..i], w, m);
    LoopStopsAt(c, c.BaseDomain(), s.entries, i, w, m);
    q := VisitDefault(c, s.entries[i], c.BaseDomain(), before.w, before.seen, p);
    VisitTouchesItsName(c, c.BaseDomain(), s.entries[i], before.w, before.seen);
    assert AfterReads(w) == w && BaseSeen(c, w) == c.BaseDomain();
  }

  // --- The replacement completes ---

  /** Clean passes reach the entry `i`, the one for `default`: the entries before it are settled. */
  ghost predicate Reached(c: Cluster, s: Strategy, i: nat, ics: Controllers) {
    && c.Readable() && i < |s.entries| && s.entries[i].isDefault && HasSuffix(s.entries[i].dnsName, c.BaseDomain())
    && OneDefault(s, s.entries[i])
    && NoNewSecond(s.entries, InitialSeen(World(ics, []))) == Continue
    && forall j :: 0 <= j < i ==> SettledEntry(c, s.entries[j], ics)
  }

  predicate SettledEntry(c: Cluster, e: ApplicationIngress, ics: Controllers) {
    var name := NameOf(e);
    !e.isDefault && name.Some? && name.value != DEFAULT && name.value in ics && Settled(c, e, ics[name.value])
  }

  lemma SettledContinues(c: Cluster, base: string, e: ApplicationIngress, w: World, m: Seen)
    requires c.platform.Some? && w.faults == [] && SettledEntry(c, e, w.ics)
    ensures Visit(c, base, e, w, m).flow == Continue && Visit(c, base, e, w, m).w == w
  {
    hide ValidatePatchable, ValidateStaticSpec, ValidateStaticStatus, ValidateAwsType, ValidatePatchableStatus;
    hide Desired, TypeOn;
    hide NameOf, AfterStore, AfterDelete, AfterCreate, CopyField, FinalizerLists.Remove;
  }

  lemma {:induction false} SettledLoop(c: Cluster, base: string, entries: seq<ApplicationIngress>, w: World, m: Seen)
    requires c.platform.Some? && w.faults == []
    requires forall j :: 0 <= j < |entries| ==> SettledEntry(c, entries[j], w.ics)
    ensures VisitAll(c, base, entries, w, m).flow == Continue
  {
    hide Visit, SettledEntry;
    if entries != [] {
      SettledContinues(c, base, entries[0], w, m);
      SettledLoop(c, base, entries[1..], w, Visit(c, base, entries[0], w, m).seen);
    }
  }

  lemma {:induction false} SecondCheckSame(entries: seq<ApplicationIngress>, a: Seen, b: Seen)
    requires forall i :: 0 <= i < |entries| && NameOf(entries[i]) == Some(DEFAULT) ==> entries[i].isDefault
    requires forall n :: n != DEFAULT ==> (n in a <==> n in b)
    ensures NoNewSecond(entries, a) == NoNewSecond(entries, b)
  {
    if entries != [] {
      assert NameOf(entries[0]) == Some(DEFAULT) ==> entries[0].isDefault;
      SecondCheckSame(entries[1..], a, b);
    }
  }

  lemma StaysReached(c: Cluster, s: Strategy, i: nat, a: Controllers, b: Controllers)
    requires Reached(c, s, i, a) && SameOutside(a, b, {DEFAULT})
    ensures Reached(c, s, i, b)
  {
    hide Settled, HasSuffix, NameOf, NoNewSecond;
    forall n | n != DEFAULT ensures n in InitialSeen(World(a, [])) <==> n in InitialSeen(World(b, [])) {
      assert SameAt(a, b, n);
    }
    SecondCheckSame(s.entries, InitialSeen(World(a, [])), InitialSeen(World(b, [])));
    forall j | 0 <= j < i ensures SettledEntry(c, s.entries[j], b) {
      assert SettledEntry(c, s.entries[j], a) && SameAt(a, b, NameOf(s.entries[j]).value);
    }
  }

  function Rank(p: Phase): (n: nat)
    ensures n <= 3
  {
    match p
    case Live => 0
    case Draining => 1
    case Fresh => 3
    case _ => 2
  }

  /**
   * The replacement completes: from any phase, in every interleaving whose calls succeed, once a pass,
   * a later drop of the cluster finalizer and a later pass have happened, `default` is the desired
   * object.
   */
  lemma ReplacementCompletes(c: Cluster, s: Strategy, i: nat, w: World, actions: seq<Action>, p: Phase)
    requires Reached(c, s, i, w.ics) && InPhase(c, s.entries[i], w.ics, p)
    requires CallsSucceed(actions) && DropsOnly(actions, DEFAULT) && PassDropPass(actions)
    ensures InPhase(c, s.entries[i], RunActions(c, s, w, actions).ics, Fresh)
  {
    hide InPhase;
    var q := RunProgresses(c, s, i, w, actions, p);
    var x, y, z :| 0 <= x < y < z < |actions| && actions[x].OnePass? && actions[y].Drop? && actions[z].OnePass?;
    PassDropPassEnds(Rank(p), actions, x, y, z);
    assert q == Fresh;
  }

  lemma {:induction false} RunProgresses(c: Cluster, s: Strategy, i: nat, w: World, actions: seq<Action>, p: Phase)
    returns (q: Phase)
    requires Reached(c, s, i, w.ics) && InPhase(c, s.entries[i], w.ics, p)
    requires CallsSucceed(actions) && DropsOnly(actions, DEFAULT)
    ensures InPhase(c, s.entries[i], RunActions(c, s, w, actions).ics, q)
    ensures Rank(q) >= Progress(Rank(p), actions)
    decreases actions
  {
    hide Reconcile, InPhase, Desired, NoNewSecond, VisitAll, DropClusterFinalizer, InitialSeen, SettledEntry;
    var d := s.entries[i];
    q := p;
    if p == Fresh {
      q := HandshakeHolds(c, s, d, w, actions, p);
      ProgressIsMonotone(3, 3, actions);
    } else if actions != [] {
      var a := actions[0];
      var next := Act(c, s, a, w);
      assert a in actions && forall x :: x in actions[1..] ==> x in actions;
      if a.Drop? {
        q := DropPhase(c, d, w, DEFAULT, p);
        DropTouchesItsName(w, DEFAULT);
      } else {
        var start := w.(faults := []);
        assert World(w.ics, []) == start;
        SettledLoop(c, c.BaseDomain(), s.entries[..i], start, InitialSeen(start));
        q := CleanPassAdvances(c, s, start, a.input.choices, i, p);
      }
      StaysReached(c, s, i, w.ics, next.ics);
      ProgressIsMonotone(RankAfter(Rank(p), a), Rank(q), actions[1..]);
      q := RunProgresses(c, s, i, next, actions[1..], q);
    }
  }

  // --- The load balancer type ---

  /** The object is live, with the two finalizers at most, and has the wrong load balancer type. */
  ghost predicate WrongType(c: Cluster, d: ApplicationIngress, ics: Controllers) {
    && DEFAULT in ics && !ics[DEFAULT].deleting && OurFinalizers(ics[DEFAULT].finalizers)
    && c.IsAws() && ValidateAwsType(ics[DEFAULT], TypeOn(c, d)) == Fail
  }

  /** Without the cloud finalizer, one clean pass and one drop lose the object. */
  lemma LostWithoutFinalizer(c: Cluster, s: Strategy, i: nat, w: World, o: Choices)
    requires Reached(c, s, i, w.ics) && WrongType(c, s.entries[i], w.ics)
    requires CLOUD_FINALIZER !in w.ics[DEFAULT].finalizers
    ensures DEFAULT !in RunActions(c, s, w, [OnePass(PassInput([], o)), Drop(DEFAULT)]).ics
  {
    hide NoNewSecond, Settled, ValidateAwsType, EnsureExisting;
    var d, start := s.entries[i], w.(faults := []);
    var m := InitialSeen(start);
    assert start == World(w.ics, []);
    SettledLoop(c, c.BaseDomain(), s.entries[..i], start, m);
    var before := VisitAll(c, c.BaseDomain(), s.entries[..i], start, m);
    LoopContinues(c, c.BaseDomain(), s.entries[..i], start, m);
    FaultFreeLoop(c, c.BaseDomain(), s.entries[..i], start, m);
    LoopStopsAt(c, c.BaseDomain(), s.entries, i, start, m);
    TypeVisit(c, d, before.w, before.seen);
    assert AfterReads(start) == start && BaseSeen(c, start) == c.BaseDomain();
    var w1 := Act(c, s, OnePass(PassInput([], o)), w);
    assert w1.ics == Visit(c, c.BaseDomain(), d, before.w, before.seen).w.ics;
    PassDrop(c, s, w, PassInput([], o), DEFAULT);
  }

  lemma TypeVisit(c: Cluster, d: ApplicationIngress, w: World, m: Seen)
    requires w.faults == [] && NameOf(d) == Some(DEFAULT) && SuffixOk(c.BaseDomain(), d) && WrongType(c, d, w.ics)
    ensures var r := Visit(c, c.BaseDomain(), d, w, m);
            && r.flow == Stop(Requeue)
            && (DEFAULT in DropClusterFinalizer(r.w, DEFAULT).ics <==> CLOUD_FINALIZER in w.ics[DEFAULT].finalizers)
  {
    hide NameOf, HasSuffix, ValidateAwsType, Desired, TypeOn;
    var f := w.ics[DEFAULT].finalizers;
    assert EnsureExisting(c, w, DEFAULT, w.ics[DEFAULT], d) == EnsureAwsType(w, DEFAULT, w.ics[DEFAULT], TypeOn(c, d));
    if CLOUD_FINALIZER !in f && Without(f, CLUSTER_FINALIZER) != [] {
      assert Without(f, CLUSTER_FINALIZER)[0] in Without(f, CLUSTER_FINALIZER);
    }
  }

  /**
   * The load-balancer-type path deletes without adding the finalizer first, so there the handshake
   * holds only by luck: `default` exists after every interleaving whose calls succeed exactly when
   * the cloud finalizer is on the object already.
   */
  lemma TypeChangeNeedsTheFinalizer(c: Cluster, s: Strategy, i: nat, w: World)
    requires Reached(c, s, i, w.ics) && WrongType(c, s.entries[i], w.ics)
    ensures (forall actions :: CallsSucceed(actions) ==> DEFAULT in RunActions(c, s, w, actions).ics)
            <==> CLOUD_FINALIZER in w.ics[DEFAULT].finalizers
  {
    if CLOUD_FINALIZER in w.ics[DEFAULT].finalizers {
      forall actions | CallsSucceed(actions) ensures DEFAULT in RunActions(c, s, w, actions).ics {
        var _ := HandshakeHolds(c, s, s.entries[i], w, actions, Live);
      }
    } else {
      var o := Choices([], [], CloudSide(true, Switched));
      LostWithoutFinalizer(c, s, i, w, o);
      assert CallsSucceed([OnePass(PassInput([], o)), Drop(DEFAULT)]);
    }
  }

  /** Such an object: `default` as created with a Classic load balancer, when its entry changes to NLB. */
  lemma ClassicToNlbLosesDefault(base: string, gates: ClusterVersion.Gates, o: Choices)
    ensures var c := Cluster(Some("api." + base), Some("AWS"), gates);
            var d := ApplicationIngress("external", true, "apps." + base, "", LabelSelector(map[], []), "NLB");
            var ic := NewController(Desired(c, d.(lbType := "Classic"))).(finalizers := [CLUSTER_FINALIZER]);
            var w := World(map[DEFAULT := ic], []);
            DEFAULT !in RunActions(c, Strategy([d], "external"), w, [OnePass(PassInput([], o)), Drop(DEFAULT)]).ics
  {
    var c := Cluster(Some("api." + base), Some("AWS"), gates);
    var d := ApplicationIngress("external", true, "apps." + base, "", LabelSelector(map[], []), "NLB");
    var ic := NewController(Desired(c, d.(lbType := "Classic"))).(finalizers := [CLUSTER_FINALIZER]);
    var s, w := Strategy([d], "external"), World(map[DEFAULT := ic], []);
    OnlyEntryReached(c, base, d, w.ics);
    ClassicIsWrong(c, d, ic);
    LostWithoutFinalizer(c, s, 0, w, o);
  }

  lemma OnlyEntryReached(c: Cluster, base: string, d: ApplicationIngress, ics: Controllers)
    requires c.apiHost == Some("api." + base) && c.platform.Some? && d.isDefault && d.dnsName == "apps." + base
    ensures Reached(c, Strategy([d], "external"), 0, ics)
  {
    hide InitialSeen;
    assert ("api." + base)[4..] == base && d.dnsName[4] == '.' && d.dnsName[5..] == base;
    assert '.' in d.dnsName && NameOf(d) == Some(DEFAULT) && d in [d];
    var m := InitialSeen(World(ics, []));
    assert NoNewSecond([d], m) == NoNewSecond([d][1..], m) == Continue;
  }

  lemma ClassicIsWrong(c: Cluster, d: ApplicationIngress, ic: IngressController)
    requires c.platform == Some("AWS") && d.lbType == "NLB"
    requires ic == NewController(Desired(c, d.(lbType := "Classic"))).(finalizers := [CLUSTER_FINALIZER])
    ensures WrongType(c, d, map[DEFAULT := ic])
  {
  }
}
