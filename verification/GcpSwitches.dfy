/** Exactly when a switch of the default API on GCP succeeds and when it panics. */
module GcpSwitches {
  import opened Basics
  import opened GcpStaticIp

  // --- The objects by their names ---

  predicate HasRule(w: World, cluster: string) {
    var name := cluster + "-api";
    name in w.rules && w.rules[name].scheme == "EXTERNAL" && w.rules[name].portRange == "6443-6443"
  }

  /** The address of the internal rule, which needs a backend service. */
  function InternalAddress(w: World, cluster: string): string {
    var name := cluster + "-api-internal";
    if name in w.rules && w.rules[name].scheme == "INTERNAL" && w.rules[name].backendService != ""
    then w.rules[name].ip else ""
  }

  predicate Reserved(w: World, cluster: string) {
    cluster + "-cluster-public-ip" in w.addresses
  }

  /** The reserved address, or the one that would be granted. */
  function PublicAddress(w: World, cluster: string, grant: Grant): string {
    if Reserved(w, cluster) then w.addresses[cluster + "-cluster-public-ip"] else grant.ip
  }

  lemma NamesMean(w: World, cluster: string)
    ensures HasExternal(w, cluster) <==> HasRule(w, cluster)
    ensures InternalIp(w, cluster) == InternalAddress(w, cluster)
    ensures IpName(cluster) in w.addresses <==> Reserved(w, cluster)
  {
  }

  // --- The record ---

  /** There is a public zone with one record set of the API's name, and it has an address. */
  predicate OneRecord(w: World) {
    w.publicZone && |w.api| == 1 && w.api[0] != []
  }

  predicate PointsAt(api: seq<seq<string>>, ip: string) {
    api != [] && api[0] != [] && api[0][0] == ip
  }

  /** Reading the zone and the record takes two calls, changing it a third. */
  function UpdateCalls(w: World, ip: string): nat {
    if OneRecord(w) && w.api[0][0] == ip then 2 else 3
  }

  predicate CanSet(w: World, ip: string) {
    OneRecord(w) && (w.api[0][0] == ip || ip != "" || w.takesEmpty)
  }

  lemma ThreeCalls(faults: seq<bool>)
    ensures AllSucceed(faults, 3)
            <==> !CallFails(faults) && !CallFails(LaterCalls(faults)) && !CallFails(LaterCalls(LaterCalls(faults)))
    ensures AfterCalls(faults, 3) == LaterCalls(LaterCalls(LaterCalls(faults)))
  {
    TwoCalls(faults, 1);
    OneCall(LaterCalls(LaterCalls(faults)));
  }

  lemma UpdateIff(w: World, ip: string)
    ensures var u := UpdateRecord(w, ip);
            && (u.outcome == Ok <==> CanSet(w, ip) && AllSucceed(w.faults, UpdateCalls(w, ip)))
            && (u.outcome == Ok ==>
                  && PointsAt(w.api, u.oldIp)
                  && u.w == w.(api := if u.oldIp == ip then w.api else [[ip]],
                               faults := AfterCalls(w.faults, UpdateCalls(w, ip))))
            && (u.outcome == Panicked <==> RecordPanics(w, w.faults))
  {
    OneCall(w.faults);
    TwoCalls(w.faults, 0);
    ThreeCalls(w.faults);
  }

  /** The zone is read and is not there, or a record set without addresses is read. */
  predicate RecordPanics(w: World, faults: seq<bool>) {
    && AllSucceed(faults, 1)
    && (!w.publicZone || (AllSucceed(faults, 2) && |w.api| == 1 && w.api[0] == []))
  }

  // --- To private ---

  /** Three lists, and for a rule its deletion and, if it is active, that of the machine set. */
  function RemoveCalls(w: World, cluster: string, cpmsActive: bool): nat {
    3 + (if HasRule(w, cluster) then (if cpmsActive then 2 else 1) else 0)
  }

  lemma RemoveIff(w: World, cluster: string, cpmsActive: bool)
    ensures var r, calls := RemoveExternal(w, cluster, cpmsActive), RemoveCalls(w, cluster, cpmsActive);
            && r.outcome in {Ok, Failed}
            && (r.outcome == Ok <==> AllSucceed(w.faults, calls))
            && (r.outcome == Ok ==>
                  r.w == w.(rules := if HasRule(w, cluster) then w.rules - {cluster + "-api"} else w.rules,
                            faults := AfterCalls(w.faults, calls)))
  {
    NamesMean(w, cluster);
    ThreeCalls(w.faults);
    var third := LaterCalls(LaterCalls(LaterCalls(w.faults)));
    CallsInTwo(w.faults, 3, 1);
    CallsInTwo(w.faults, 3, 2);
    OneCall(third);
    TwoCalls(third, 0);
  }

  /**
   * A switch to private succeeds exactly if the record can be set to the internal rule's address and all
   * calls succeed: those that remove the external rule, two for a record that is internal already, and
   * otherwise two more for the change and for the release of the reserved address, which has to be
   * there.
   */
  lemma PrivateOkIff(w: World, cluster: string, cpmsActive: bool)
    ensures var ip, calls := InternalAddress(w, cluster), RemoveCalls(w, cluster, cpmsActive);
            SetPrivate(w, cluster, cpmsActive).outcome == Ok
            <==> && CanSet(w, ip)
                 && if w.api[0][0] == ip then AllSucceed(w.faults, calls + 2)
                    else AllSucceed(w.faults, calls + 4) && Reserved(w, cluster)
    ensures SetPrivate(w, cluster, cpmsActive).outcome == Panicked
            <==> && AllSucceed(w.faults, RemoveCalls(w, cluster, cpmsActive))
                 && RecordPanics(w, AfterCalls(w.faults, RemoveCalls(w, cluster, cpmsActive)))
  {
    hide RemoveExternal, UpdateRecord, AllSucceed, AfterCalls, InternalIp, HasExternal, HasRule;
    var calls, ip := RemoveCalls(w, cluster, cpmsActive), InternalAddress(w, cluster);
    NamesMean(w, cluster);
    RemoveIff(w, cluster, cpmsActive);
    var removed := RemoveExternal(w, cluster, cpmsActive);
    UpdateIff(removed.w, ip);
    var updated := UpdateRecord(removed.w, ip);
    CallsInTwo(w.faults, calls, 2);
    CallsInTwo(w.faults, calls, 4);
    CallsInTwo(AfterCalls(w.faults, calls), 3, 1);
    if removed.outcome == Ok { OneCall(updated.w.faults); }
  }

  // --- To public ---

  /** One call finds a reserved address; otherwise it is inserted, awaited and read. */
  function ReserveCalls(w: World, cluster: string): nat {
    if Reserved(w, cluster) then 1 else 4
  }

  lemma FourCalls(faults: seq<bool>)
    ensures AllSucceed(faults, 4) <==> AllSucceed(faults, 3) && !CallFails(AfterCalls(faults, 3))
    ensures AfterCalls(faults, 4) == LaterCalls(AfterCalls(faults, 3))
  {
    CallsInTwo(faults, 3, 1);
    OneCall(AfterCalls(faults, 3));
  }

  lemma ReserveIff(w: World, cluster: string, grant: Grant)
    ensures var r := CreateExternalIp(w, IpName(cluster), grant);
            && (r.outcome == Ok <==>
                  AllSucceed(w.faults, ReserveCalls(w, cluster)) && (Reserved(w, cluster) || grant.inTime))
            && (r.outcome == Ok ==>
                  && r.ip == PublicAddress(w, cluster, grant)
                  && r.w == w.(addresses := w.addresses[cluster + "-cluster-public-ip" := r.ip],
                               faults := AfterCalls(w.faults, ReserveCalls(w, cluster))))
            && (r.outcome == Panicked <==>
                  !Reserved(w, cluster) && AllSucceed(w.faults, 2) && CallFails(AfterCalls(w.faults, 2)))
  {
    OneCall(w.faults);
    TwoCalls(w.faults, 0);
    ThreeCalls(w.faults);
    FourCalls(w.faults);
    if Reserved(w, cluster) {
      assert w.addresses[IpName(cluster) := w.addresses[IpName(cluster)]] == w.addresses;
    }
  }

  /** The name of the rule is free and its target pool is there. */
  predicate RuleFree(w: World, cluster: string) {
    cluster + "-api" in w.targetPools && cluster + "-api" !in w.rules
  }

  lemma RuleIff(w: World, cluster: string, ip: string)
    ensures var r := CreateRule(w, ExtName(cluster), ip);
            && r.outcome in {Ok, Failed}
            && (r.outcome == Ok <==> RuleFree(w, cluster) && AllSucceed(w.faults, 2))
            && (r.outcome == Ok ==>
                  r.w == w.(rules := w.rules[cluster + "-api" := Rule("EXTERNAL", "6443-6443", ip, "")],
                            faults := AfterCalls(w.faults, 2)))
  {
    TwoCalls(w.faults, 0);
  }

  /** The reservation works, and so does creating the rule. */
  predicate RuleMade(w: World, cluster: string, grant: Grant, calls: nat) {
    && AllSucceed(w.faults, calls)
    && (Reserved(w, cluster) || grant.inTime) && RuleFree(w, cluster)
  }

  /** The world with the address reserved and the rule made, after `calls` calls. */
  function WithRule(w: World, cluster: string, ip: string, calls: nat): World {
    w.(addresses := w.addresses[cluster + "-cluster-public-ip" := ip],
       rules := w.rules[cluster + "-api" := Rule("EXTERNAL", "6443-6443", ip, "")],
       faults := AfterCalls(w.faults, calls))
  }

  lemma ReserveAndRule(w: World, cluster: string, grant: Grant)
    requires !CallFails(w.faults)
    ensures var reserved := CreateExternalIp(w.Next(), IpName(cluster), grant);
            var rule := CreateRule(reserved.w, ExtName(cluster), reserved.ip);
            var calls, ip := 1 + ReserveCalls(w, cluster) + 2, PublicAddress(w, cluster, grant);
            && (reserved.outcome == Panicked <==> WaitFails(w, cluster))
            && rule.outcome in {Ok, Failed}
            && (reserved.outcome == Ok && rule.outcome == Ok <==> RuleMade(w, cluster, grant, calls))
            && (RuleMade(w, cluster, grant, calls) ==> rule.w == WithRule(w, cluster, ip, calls) && reserved.ip == ip)
  {
    hide CreateExternalIp, CreateRule, AllSucceed, AfterCalls, Reserved, RuleFree;
    var reserve, later := ReserveCalls(w, cluster), w.Next();
    SameObjects(w, later, cluster, grant);
    OneCall(w.faults);
    CallsInTwo(w.faults, 1, 2);
    CallsInTwo(w.faults, 1, reserve);
    CallsInTwo(w.faults, 1 + reserve, 2);
    ReserveIff(later, cluster, grant);
    var reserved := CreateExternalIp(later, IpName(cluster), grant);
    RuleIff(reserved.w, cluster, reserved.ip);
    if reserved.outcome == Ok { SameRule(w, reserved.w, cluster); }
  }

  /** An address has to be made, and the call that waits for it fails. */
  predicate WaitFails(w: World, cluster: string) {
    !Reserved(w, cluster) && AllSucceed(w.faults, 3) && CallFails(AfterCalls(w.faults, 3))
  }

  /**
   * A switch to public succeeds exactly if it lists an external rule; or if its name is free, its target
   * pool is there, the address is reserved or granted in time, the record can be set to it, and all calls
   * succeed. It panics exactly if the wait for a new address fails, or the record is not as the update
   * expects it.
   */
  lemma PublicOkIff(w: World, cluster: string, grant: Grant)
    ensures var r, ip := SetPublic(w, cluster, grant), PublicAddress(w, cluster, grant);
            var calls := 1 + ReserveCalls(w, cluster) + 2;
            && (r.outcome == Ok <==>
                  && !CallFails(w.faults)
                  && (|| HasRule(w, cluster)
                      || (&& RuleMade(w, cluster, grant, calls)
                          && CanSet(w, ip) && AllSucceed(w.faults, calls + UpdateCalls(w, ip)))))
            && (r.outcome == Panicked <==>
                  && !CallFails(w.faults) && !HasRule(w, cluster)
                  && (|| WaitFails(w, cluster)
                      || (RuleMade(w, cluster, grant, calls) && RecordPanics(w, AfterCalls(w.faults, calls)))))
            && (r.outcome == Ok && !HasRule(w, cluster) ==>
                  && PointsAt(r.w.api, ip)
                  && r.w == WithRule(w, cluster, ip, calls + UpdateCalls(w, ip)).(api := r.w.api))
  {
    hide CreateExternalIp, CreateRule, UpdateRecord, AllSucceed, AfterCalls, HasExternal, HasRule, Reserved, RuleFree;
    hide WaitFails, RecordPanics, WithRule, CanSet, UpdateCalls;
    var calls, ip := 1 + ReserveCalls(w, cluster) + 2, PublicAddress(w, cluster, grant);
    NamesMean(w, cluster);
    if !CallFails(w.faults) && !HasRule(w, cluster) {
      ReserveAndRule(w, cluster, grant);
      UpdateAfterRule(w, cluster, ip, calls);
    }
  }

  lemma UpdateAfterRule(w: World, cluster: string, ip: string, calls: nat)
    ensures var u := UpdateRecord(WithRule(w, cluster, ip, calls), ip);
            && (AllSucceed(w.faults, calls) ==>
                  (u.outcome == Ok <==> CanSet(w, ip) && AllSucceed(w.faults, calls + UpdateCalls(w, ip))))
            && (AllSucceed(w.faults, calls + UpdateCalls(w, ip)) ==> AllSucceed(w.faults, calls))
            && (u.outcome == Panicked <==> RecordPanics(w, AfterCalls(w.faults, calls)))
            && (u.outcome == Ok ==>
                  && PointsAt(u.w.api, ip)
                  && u.w == WithRule(w, cluster, ip, calls + UpdateCalls(w, ip)).(api := u.w.api))
  {
    hide UpdateRecord, AllSucceed, AfterCalls;
    UpdateIff(WithRule(w, cluster, ip, calls), ip);
    CallsInTwo(w.faults, calls, UpdateCalls(w, ip));
  }

  lemma SameObjects(w: World, w': World, cluster: string, grant: Grant)
    requires w' == w.(faults := w'.faults)
    ensures Reserved(w', cluster) == Reserved(w, cluster) && RuleFree(w', cluster) == RuleFree(w, cluster)
    ensures PublicAddress(w', cluster, grant) == PublicAddress(w, cluster, grant)
  {
  }

  lemma SameRule(w: World, w': World, cluster: string)
    requires w'.rules == w.rules && w'.targetPools == w.targetPools
    ensures RuleFree(w', cluster) == RuleFree(w, cluster)
  {
  }

  // --- Without failing calls ---

  /**
   * From a safe state without failing calls: a switch to private succeeds and leaves the record internal,
   * if the record is internal or the address is reserved, as a safe state has it.
   */
  lemma PrivateSucceeds(w: World, cluster: string, cpmsActive: bool, intIp: string)
    requires Safe(w, cluster, intIp) && w.publicZone && w.faults == []
    ensures var r := SetPrivate(w, cluster, cpmsActive);
            r.outcome == Ok && r.w.api == [[intIp]]
  {
    hide SetPrivate;
    NamesMean(w, cluster);
    NoneFails(RemoveCalls(w, cluster, cpmsActive) + 2);
    NoneFails(RemoveCalls(w, cluster, cpmsActive) + 4);
    PrivateOkIff(w, cluster, cpmsActive);
    PrivateOkMeans(w, cluster, cpmsActive, intIp);
  }

  /**
   * From a safe state without failing calls: a switch to public succeeds if the name of the rule is free,
   * its pool is there and a new address comes in time, and leaves the record at the reserved address.
   */
  lemma PublicSucceeds(w: World, cluster: string, grant: Grant, intIp: string)
    requires Safe(w, cluster, intIp) && w.publicZone && w.faults == []
    requires RuleFree(w, cluster) && (Reserved(w, cluster) || grant.inTime)
    requires PublicAddress(w, cluster, grant) != "" || w.takesEmpty
    ensures var r := SetPublic(w, cluster, grant);
            && r.outcome == Ok && r.w.api == [[PublicAddress(w, cluster, grant)]]
            && Reserved(r.w, cluster) && HasRule(r.w, cluster)
            && r.w.addresses[cluster + "-cluster-public-ip"] == PublicAddress(w, cluster, grant)
  {
    hide SetPublic;
    var ip := PublicAddress(w, cluster, grant);
    NoneFails(1 + ReserveCalls(w, cluster) + 2);
    NoneFails(1 + ReserveCalls(w, cluster) + 2 + UpdateCalls(w, ip));
    NamesMean(w, cluster);
    PublicOkIff(w, cluster, grant);
    PublicIsSafe(w, cluster, grant, intIp);
    var w' := SetPublic(w, cluster, grant).w;
    assert w'.api == [w'.api[0]] && w'.api[0] == [w'.api[0][0]];
  }
}
