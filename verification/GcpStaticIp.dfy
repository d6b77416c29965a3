/**
 * Switching the default API between private and public on GCP: an external forwarding rule, the
 * static address it uses and the api A record change in a fixed order, and any call may fail.
 */
module GcpStaticIp {
  import opened Basics

  datatype Rule = Rule(scheme: string, portRange: string, ip: string, backendService: string)

  const EXTERNAL := "EXTERNAL"
  const INTERNAL := "INTERNAL"
  const API_PORT := "6443-6443"

  /** Names derived from the cluster's; rule and target pool share one. */
  function ExtName(cluster: string): string { cluster + "-api" }
  function IntName(cluster: string): string { cluster + "-api-internal" }
  function IpName(cluster: string): string { cluster + "-cluster-public-ip" }

  /**
   * `api` holds the data of every record set with the API's name in the public zone, if there is one;
   * `takesEmpty`: whether the DNS service accepts an A record with the empty address.
   */
  datatype World = World(
    rules: map<string, Rule>,
    addresses: map<string, string>,
    targetPools: set<string>,
    publicZone: bool,
    api: seq<seq<string>>,
    takesEmpty: bool,
    faults: seq<bool>)
  {
    predicate Fails() { CallFails(faults) }

    function Next(): World { this.(faults := LaterCalls(faults)) }
  }

  datatype Outcome = Ok | Failed | Panicked
  datatype Result = Result(w: World, outcome: Outcome)

  predicate HasExternal(w: World, cluster: string) {
    && ExtName(cluster) in w.rules
    && w.rules[ExtName(cluster)].scheme == EXTERNAL && w.rules[ExtName(cluster)].portRange == API_PORT
  }

  /** The address of the internal API rule; empty when no such rule is found. */
  function InternalIp(w: World, cluster: string): string {
    if IntName(cluster) in w.rules && w.rules[IntName(cluster)].scheme == INTERNAL
        && w.rules[IntName(cluster)].backendService != ""
    then w.rules[IntName(cluster)].ip else ""
  }

  datatype Updated = Updated(w: World, outcome: Outcome, oldIp: string)

  /** `updateAPIARecord`: it insists on exactly one record set of that name. */
  function UpdateRecord(w: World, ip: string): Updated {
    var w1 := w.Next();
    if w.Fails() then Updated(w1, Failed, "")
    else if !w1.publicZone then Updated(w1, Panicked, "")
    else if w1.Fails() || |w1.api| != 1 then Updated(w1.Next(), Failed, "")
    else if w1.api[0] == [] then Updated(w1.Next(), Panicked, "")
    else
      var current, w2 := w1.api[0][0], w1.Next();
      if current == ip then Updated(w2, Ok, current)
      else if w2.Fails() || (ip == "" && !w.takesEmpty) then Updated(w2.Next(), Failed, "")
      else Updated(w2.Next().(api := [[ip]]), Ok, current)
  }

  /** Deletes the external rule, if any, and runs the removal closure for it. */
  function RemoveExternal(w: World, cluster: string, cpmsActive: bool): Result {
    var w1, w2, w3 := w.Next(), w.Next().Next(), w.Next().Next().Next();
    if w.Fails() then Result(w1, Failed)
    else if w1.Fails() then Result(w2, Failed)
    else if w2.Fails() then Result(w3, Failed)
    else if !HasExternal(w, cluster) then Result(w3, Ok)
    else DeleteExternal(w3, cluster, cpmsActive)
  }

  /** The delete call, then the closure; an active control plane machine set costs it one more call. */
  function DeleteExternal(w: World, cluster: string, cpmsActive: bool): Result {
    if w.Fails() then Result(w.Next(), Failed)
    else
      var deleted := w.Next().(rules := w.rules - {ExtName(cluster)});
      if cpmsActive then Result(deleted.Next(), if deleted.Fails() then Failed else Ok) else Result(deleted, Ok)
  }

  /** `setDefaultAPIPrivate`: rule, then record, then address. */
  function SetPrivate(w: World, cluster: string, cpmsActive: bool): Result {
    var removed := RemoveExternal(w, cluster, cpmsActive);
    if removed.outcome != Ok then removed
    else
      var ip := InternalIp(w, cluster);
      var updated := UpdateRecord(removed.w, ip);
      if updated.outcome != Ok || updated.oldIp == ip then Result(updated.w, updated.outcome)
      else if updated.w.Fails() || IpName(cluster) !in updated.w.addresses then Result(updated.w.Next(), Failed)
      else Result(updated.w.Next().(addresses := updated.w.addresses - {IpName(cluster)}), Ok)
  }

  /** The address the provider would hand out, and whether the reservation completes in time. */
  datatype Grant = Grant(ip: string, inTime: bool)

  datatype Reserved = Reserved(w: World, outcome: Outcome, ip: string)

  /** `createExternalIP`; the error of the wait is looked at only after its response was read. */
  function CreateExternalIp(w: World, name: string, grant: Grant): Reserved {
    var w1 := w.Next();
    if w.Fails() then Reserved(w1, Failed, "")
    else if name in w1.addresses then Reserved(w1, Ok, w1.addresses[name])
    else if w1.Fails() then Reserved(w1.Next(), Failed, "")
    else
      var w2 := w1.Next().(addresses := w1.addresses[name := grant.ip]);
      if w2.Fails() then Reserved(w2.Next(), Panicked, "")
      else if !grant.inTime then Reserved(w2.Next(), Failed, "")
      else if w2.Next().Fails() then Reserved(w2.Next().Next(), Failed, "")
      else Reserved(w2.Next().Next(), Ok, grant.ip)
  }

  /** `createNetworkLoadBalancer`. */
  function CreateRule(w: World, name: string, ip: string): Result {
    var w1 := w.Next();
    if w.Fails() || name !in w.targetPools then Result(w1, Failed)
    else if w1.Fails() || name in w1.rules then Result(w1.Next(), Failed)
    else Result(w1.Next().(rules := w1.rules[name := Rule(EXTERNAL, API_PORT, ip, "")]), Ok)
  }

  /** `setDefaultAPIPublic`: address, then rule, then record; an existing rule ends it at once. */
  function SetPublic(w: World, cluster: string, grant: Grant): Result {
    if w.Fails() then Result(w.Next(), Failed)
    else if HasExternal(w, cluster) then Result(w.Next(), Ok)
    else
      var reserved := CreateExternalIp(w.Next(), IpName(cluster), grant);
      if reserved.outcome != Ok then Result(reserved.w, reserved.outcome)
      else
        var rule := CreateRule(reserved.w, ExtName(cluster), reserved.ip);
        if rule.outcome != Ok then rule
        else
          var updated := UpdateRecord(rule.w, reserved.ip);
          Result(updated.w, updated.outcome)
  }

  class Client {
    const cluster: string
    var rules: map<string, Rule>
    var addresses: map<string, string>
    var targetPools: set<string>
    var publicZone: bool
    var api: seq<seq<string>>
    const takesEmpty: bool
    var faults: seq<bool>

    function View(): World
      reads this
    {
      World(rules, addresses, targetPools, publicZone, api, takesEmpty, faults)
    }

    constructor (cluster: string, w: World)
      ensures View() == w && this.cluster == cluster
    {
      this.cluster := cluster;
      rules, addresses, targetPools := w.rules, w.addresses, w.targetPools;
      publicZone, api, takesEmpty, faults := w.publicZone, w.api, w.takesEmpty, w.faults;
    }

    method Call() returns (ok: bool)
      modifies this
      ensures ok == !old(View()).Fails() && View() == old(View()).Next()
    {
      ok := !CallFails(faults);
      faults := LaterCalls(faults);
    }

    method UpdateApiARecord(ip: string) returns (outcome: Outcome, oldIp: string)
      modifies this
      ensures Updated(View(), outcome, oldIp) == UpdateRecord(old(View()), ip)
    {
      oldIp := "";
      var ok := Call();
      if !ok {
        return Failed, oldIp;
      }
      if !publicZone {
        return Panicked, oldIp;
      }
      ok := Call();
      if !ok || |api| != 1 {
        return Failed, oldIp;
      }
      if api[0] == [] {
        return Panicked, oldIp;
      }
      var current := api[0][0];
      if current != ip {
        ok := Call();
        if !ok || (ip == "" && !takesEmpty) {
          return Failed, oldIp;
        }
        api := [[ip]];
      }
      return Ok, current;
    }

    method DeleteForwardingRule(cpmsActive: bool) returns (outcome: Outcome)
      modifies this
      ensures Result(View(), outcome) == DeleteExternal(old(View()), cluster, cpmsActive)
    {
      var ok := Call();
      if !ok {
        return Failed;
      }
      rules := rules - {ExtName(cluster)};
      if cpmsActive {
        ok := Call();
      }
      return if ok then Ok else Failed;
    }

    /** Walks the listed rules in any order; deleting stops it at the first failure. */
    method RemoveLoadBalancerFromMasterNodes(cpmsActive: bool) returns (outcome: Outcome, intIp: string)
      modifies this
      ensures Result(View(), outcome) == RemoveExternal(old(View()), cluster, cpmsActive)
      ensures outcome == Ok ==> intIp == InternalIp(old(View()), cluster)
    {
      intIp := "";
      var ok := Call();
      if !ok {
        return Failed, intIp;
      }
      var listed := rules;
      ok := Call();
      if !ok {
        return Failed, intIp;
      }
      ok := Call();
      if !ok {
        return Failed, intIp;
      }
      ghost var before := View();
      var order := RangeOrder(listed.Keys);
      for i := 0 to |order|
        invariant intIp == if IntName(cluster) in order[..i] then InternalIp(old(View()), cluster) else ""
        invariant if ExtName(cluster) in order[..i] && HasExternal(before, cluster)
                  then Result(View(), Ok) == DeleteExternal(before, cluster, cpmsActive)
                  else View() == before
      {
        hide DeleteExternal;
        var name, rule := order[i], listed[order[i]];
        assert name in order && name !in order[..i];
        if rule.scheme == EXTERNAL && rule.portRange == API_PORT && name == ExtName(cluster) {
          outcome := DeleteForwardingRule(cpmsActive);
          if outcome != Ok {
            return outcome, intIp;
          }
        }
        if rule.scheme == INTERNAL && rule.backendService != "" && name == IntName(cluster) {
          intIp := rule.ip;
        }
      }
      return Ok, intIp;
    }

    method SetDefaultApiPrivate(cpmsActive: bool) returns (outcome: Outcome)
      modifies this
      ensures Result(View(), outcome) == SetPrivate(old(View()), cluster, cpmsActive)
    {
      var intIp, oldIp;
      outcome, intIp := RemoveLoadBalancerFromMasterNodes(cpmsActive);
      if outcome != Ok {
        return;
      }
      outcome, oldIp := UpdateApiARecord(intIp);
      if outcome != Ok || oldIp == intIp {
        return;
      }
      var ok := Call();
      if !ok || IpName(cluster) !in addresses {
        return Failed;
      }
      addresses := addresses - {IpName(cluster)};
    }

    method CreateExternalIpAddress(name: string, grant: Grant) returns (outcome: Outcome, ip: string)
      modifies this
      ensures Reserved(View(), outcome, ip) == CreateExternalIp(old(View()), name, grant)
    {
      ip := "";
      var ok := Call();
      if !ok {
        return Failed, ip;
      }
      if name in addresses {
        return Ok, addresses[name];
      }
      ok := Call();
      if !ok {
        return Failed, ip;
      }
      addresses := addresses[name := grant.ip];
      ok := Call();
      if !ok {
        return Panicked, ip;
      }
      if !grant.inTime {
        return Failed, ip;
      }
      ok := Call();
      if !ok {
        return Failed, ip;
      }
      return Ok, addresses[name];
    }

    method CreateNetworkLoadBalancer(name: string, ip: string) returns (outcome: Outcome)
      modifies this
      ensures Result(View(), outcome) == CreateRule(old(View()), name, ip)
    {
      var ok := Call();
      if !ok || name !in targetPools {
        return Failed;
      }
      ok := Call();
      if !ok || name in rules {
        return Failed;
      }
      rules := rules[name := Rule(EXTERNAL, API_PORT, ip, "")];
      return Ok;
    }

    method SetDefaultApiPublic(grant: Grant) returns (outcome: Outcome)
      modifies this
      ensures Result(View(), outcome) == SetPublic(old(View()), cluster, grant)
    {
      var ok := Call();
      if !ok {
        return Failed;
      }
      if HasExternal(View(), cluster) {
        return Ok;
      }
      var ip;
      outcome, ip := CreateExternalIpAddress(IpName(cluster), grant);
      if outcome != Ok {
        return;
      }
      outcome := CreateNetworkLoadBalancer(ExtName(cluster), ip);
      if outcome != Ok {
        return;
      }
      outcome, ip := UpdateApiARecord(ip);
    }
  }

  // --- Safety over all runs ---

  predicate IsStatic(w: World, cluster: string, ip: string) {
    IpName(cluster) in w.addresses && w.addresses[IpName(cluster)] == ip
  }

  predicate RecordIsStatic(w: World, cluster: string) {
    |w.api| == 1 && |w.api[0]| == 1 && IsStatic(w, cluster, w.api[0][0])
  }

  predicate RuleIsStatic(w: World, cluster: string) {
    HasExternal(w, cluster) ==> IsStatic(w, cluster, w.rules[ExtName(cluster)].ip)
  }

  /**
   * An internal rule with an address, and one api record, pointing at that address or at the static
   * address while it is reserved; an external API rule uses the reserved address.
   */
  predicate Safe(w: World, cluster: string, intIp: string) {
    && InternalIp(w, cluster) == intIp && intIp != ""
    && |w.api| == 1 && |w.api[0]| == 1
    && (w.api[0][0] == intIp || RecordIsStatic(w, cluster))
    && RuleIsStatic(w, cluster)
  }

  lemma NamesDiffer(cluster: string)
    ensures ExtName(cluster) != IntName(cluster)
  {
    assert |ExtName(cluster)| < |IntName(cluster)|;
  }

  lemma NextCall(w: World)
    ensures w.Next() == w.(faults := w.Next().faults)
  {
  }

  /** The calls a step makes change nothing but the failures to come. */
  lemma NextCalls(w: World)
    ensures var w1 := w.Next(); var w2 := w1.Next(); var w3 := w2.Next(); var w4 := w3.Next();
            && w1 == w.(faults := w1.faults) && w2 == w.(faults := w2.faults)
            && w3 == w.(faults := w3.faults) && w4 == w.(faults := w4.faults)
  {
    hide World.Next;
    NextCall(w);
    NextCall(w.Next());
    NextCall(w.Next().Next());
    NextCall(w.Next().Next().Next());
  }

  lemma UpdateEffect(w: World, ip: string)
    ensures var u := UpdateRecord(w, ip);
            && u.w == w.(api := u.w.api, faults := u.w.faults)
            && (u.outcome != Ok ==> u.w.api == w.api)
            && (u.outcome == Ok ==> && |w.api| == 1 && w.api[0] != [] && u.oldIp == w.api[0][0]
                                    && u.w.api == if u.oldIp == ip then w.api else [[ip]])
  {
    hide World.Next;
    NextCalls(w);
  }

  lemma RemoveEffect(w: World, cluster: string, cpmsActive: bool)
    ensures var r := RemoveExternal(w, cluster, cpmsActive);
            && r.w == w.(rules := r.w.rules, faults := r.w.faults)
            && (r.w.rules == w.rules || (HasExternal(w, cluster) && r.w.rules == w.rules - {ExtName(cluster)}))
            && (r.outcome == Ok ==> !HasExternal(r.w, cluster))
  {
    hide World.Next;
    NextCalls(w);
    NextCall(w.Next().Next().Next().Next().(rules := w.rules - {ExtName(cluster)}));
  }

  lemma CreateIpEffect(w: World, name: string, grant: Grant)
    ensures var r := CreateExternalIp(w, name, grant);
            && r.w == w.(addresses := r.w.addresses, faults := r.w.faults)
            && (r.w.addresses == w.addresses
                || (name !in w.addresses && r.w.addresses == w.addresses[name := grant.ip]))
            && (r.outcome == Ok ==> name in r.w.addresses && r.ip == r.w.addresses[name])
  {
    hide World.Next;
    NextCalls(w);
    NextCalls(w.Next().Next().(addresses := w.addresses[name := grant.ip]));
  }

  lemma CreateRuleEffect(w: World, name: string, ip: string)
    ensures var r := CreateRule(w, name, ip);
            && r.w == w.(rules := r.w.rules, faults := r.w.faults)
            && r.w.rules == (if r.outcome == Ok then w.rules[name := Rule(EXTERNAL, API_PORT, ip, "")] else w.rules)
            && (r.outcome == Ok ==> name !in w.rules)
  {
    hide World.Next;
    NextCalls(w);
  }

  lemma PrivateIsSafe(w: World, cluster: string, cpmsActive: bool, intIp: string)
    requires Safe(w, cluster, intIp)
    ensures Safe(SetPrivate(w, cluster, cpmsActive).w, cluster, intIp)
  {
    hide RemoveExternal, UpdateRecord;
    NamesDiffer(cluster);
    var removed := RemoveExternal(w, cluster, cpmsActive);
    RemoveEffect(w, cluster, cpmsActive);
    assert Safe(removed.w, cluster, intIp);
    UpdateEffect(removed.w, intIp);
  }

  lemma PublicIsSafe(w: World, cluster: string, grant: Grant, intIp: string)
    requires Safe(w, cluster, intIp)
    ensures Safe(SetPublic(w, cluster, grant).w, cluster, intIp)
  {
    hide CreateExternalIp, CreateRule, UpdateRecord;
    NamesDiffer(cluster);
    if !w.Fails() && !HasExternal(w, cluster) {
      var reserved := CreateExternalIp(w.Next(), IpName(cluster), grant);
      CreateIpEffect(w.Next(), IpName(cluster), grant);
      assert Safe(reserved.w, cluster, intIp);
      if reserved.outcome == Ok {
        var rule := CreateRule(reserved.w, ExtName(cluster), reserved.ip);
        CreateRuleEffect(reserved.w, ExtName(cluster), reserved.ip);
        assert Safe(rule.w, cluster, intIp);
        UpdateEffect(rule.w, reserved.ip);
      }
    }
  }

  /** One switch, with the failures of its calls. */
  datatype Switch = ToPrivate(cpmsActive: bool, faults: seq<bool>) | ToPublic(grant: Grant, faults: seq<bool>)

  function Step(w: World, cluster: string, s: Switch): Result {
    match s
    case ToPrivate(cpmsActive, faults) => SetPrivate(w.(faults := faults), cluster, cpmsActive)
    case ToPublic(grant, faults) => SetPublic(w.(faults := faults), cluster, grant)
  }

  function Run(w: World, cluster: string, switches: seq<Switch>): World
    decreases switches
  {
    if switches == [] then w else Run(Step(w, cluster, switches[0]).w, cluster, switches[1..])
  }

  /** Safety holds after every run of switches, whichever calls fail and whatever addresses are granted. */
  lemma {:induction false} RunIsSafe(w: World, cluster: string, switches: seq<Switch>, intIp: string)
    requires Safe(w, cluster, intIp)
    ensures Safe(Run(w, cluster, switches), cluster, intIp)
    decreases switches
  {
    if switches != [] {
      var s := switches[0];
      match s {
        case ToPrivate(cpmsActive, faults) => PrivateIsSafe(w.(faults := faults), cluster, cpmsActive, intIp);
        case ToPublic(grant, faults) => PublicIsSafe(w.(faults := faults), cluster, grant, intIp);
      }
      RunIsSafe(Step(w, cluster, s).w, cluster, switches[1..], intIp);
    }
  }

  // --- What a nil return means ---

  /**
   * A switch to private that returned nil: the record is internal and the external rule is gone. The
   * static address is released with it, except exactly when the record was internal already.
   */
  lemma PrivateOkMeans(w: World, cluster: string, cpmsActive: bool, intIp: string)
    requires Safe(w, cluster, intIp) && SetPrivate(w, cluster, cpmsActive).outcome == Ok
    ensures var w' := SetPrivate(w, cluster, cpmsActive).w;
            && w'.api == [[intIp]] && !HasExternal(w', cluster)
            && (IpName(cluster) in w'.addresses <==> IpName(cluster) in w.addresses && w.api[0][0] == intIp)
  {
    hide RemoveExternal, UpdateRecord;
    NamesDiffer(cluster);
    RemoveEffect(w, cluster, cpmsActive);
    UpdateEffect(RemoveExternal(w, cluster, cpmsActive).w, intIp);
    assert w.api == [w.api[0]] && w.api[0] == [w.api[0][0]];
  }

  /** Where a failed switch to public left the record internal, going back to private keeps the address. */
  lemma AddressIsKept(cluster: string, ip: string, intIp: string, takesEmpty: bool)
    requires intIp != ""
    ensures var inside := Rule(INTERNAL, "", intIp, "backend");
            var rules := map[ExtName(cluster) := Rule(EXTERNAL, API_PORT, ip, ""), IntName(cluster) := inside];
            var w := World(rules, map[IpName(cluster) := ip], {}, true, [[intIp]], takesEmpty, []);
            && Safe(w, cluster, intIp)
            && SetPrivate(w, cluster, false) == Result(w.(rules := map[IntName(cluster) := inside]), Ok)
  {
    var inside := Rule(INTERNAL, "", intIp, "backend");
    var rules := map[ExtName(cluster) := Rule(EXTERNAL, API_PORT, ip, ""), IntName(cluster) := inside];
    NamesDiffer(cluster);
    assert rules - {ExtName(cluster)} == map[IntName(cluster) := inside];
  }

  /**
   * A switch to private takes "" for the address of an internal rule it does not find. So, on an API
   * with one address, one that returned nil blanked the record exactly when there is no such rule,
   * and unless the record was blank before it has released the static address too.
   */
  lemma PrivateBlanksIff(w: World, cluster: string, cpmsActive: bool)
    requires |w.api| == 1 && |w.api[0]| == 1 && SetPrivate(w, cluster, cpmsActive).outcome == Ok
    ensures var w' := SetPrivate(w, cluster, cpmsActive).w;
            && (w'.api == [[""]] <==> InternalIp(w, cluster) == "")
            && (w'.api == [[""]] && w.api != [[""]] ==> IpName(cluster) !in w'.addresses && !HasExternal(w', cluster))
  {
    hide RemoveExternal, UpdateRecord;
    RemoveEffect(w, cluster, cpmsActive);
    UpdateEffect(RemoveExternal(w, cluster, cpmsActive).w, InternalIp(w, cluster));
    assert w.api == [w.api[0]] && w.api[0] == [w.api[0][0]];
  }

  /** A public API whose internal rule is missing. */
  function NoInternalRule(cluster: string, ip: string, takesEmpty: bool): World {
    var rules := map[ExtName(cluster) := Rule(EXTERNAL, API_PORT, ip, "")];
    World(rules, map[IpName(cluster) := ip], {}, true, [[ip]], takesEmpty, [])
  }

  /**
   * What a switch to private then does without any failing call: if the DNS service takes the empty
   * address, the record is blanked and the address released; if it refuses it, the switch fails when the
   * external rule is gone already, and record and address stay.
   */
  lemma BlankRecord(cluster: string, ip: string)
    requires ip != ""
    ensures var w := NoInternalRule(cluster, ip, true);
            SetPrivate(w, cluster, false) == Result(w.(rules := map[], addresses := map[], api := [[""]]), Ok)
    ensures var w := NoInternalRule(cluster, ip, false);
            SetPrivate(w, cluster, false) == Result(w.(rules := map[]), Failed)
  {
    var w := NoInternalRule(cluster, ip, true);
    NamesDiffer(cluster);
    assert w.rules - {ExtName(cluster)} == map[] && w.addresses - {IpName(cluster)} == map[];
  }

  /**
   * A DNS service that refuses the empty address: without an internal rule no switch to private
   * succeeds, unless the record is blank already, and none changes the record or the address.
   */
  lemma RefusedBlank(w: World, cluster: string, cpmsActive: bool)
    requires !w.takesEmpty && InternalIp(w, cluster) == ""
    ensures var r := SetPrivate(w, cluster, cpmsActive);
            && r.w.api == w.api && r.w.addresses == w.addresses
            && (r.outcome == Ok ==> |w.api| == 1 && w.api[0] != [] && w.api[0][0] == "")
  {
    hide RemoveExternal;
    RemoveEffect(w, cluster, cpmsActive);
    EmptyIsRefused(RemoveExternal(w, cluster, cpmsActive).w);
  }

  lemma EmptyIsRefused(w: World)
    requires !w.takesEmpty
    ensures var u := UpdateRecord(w, "");
            && u.w.api == w.api && u.w.addresses == w.addresses
            && (u.outcome == Ok ==> |w.api| == 1 && w.api[0] != [] && w.api[0][0] == "" && u.oldIp == "")
  {
  }

  /**
   * A switch to public that returned nil: the external rule serves the reserved address. The record
   * points there too exactly when the rule was not there before or the record already did.
   */
  lemma PublicOkMeans(w: World, cluster: string, grant: Grant, intIp: string)
    requires Safe(w, cluster, intIp) && SetPublic(w, cluster, grant).outcome == Ok
    ensures var w' := SetPublic(w, cluster, grant).w;
            && HasExternal(w', cluster) && RuleIsStatic(w', cluster)
            && (RecordIsStatic(w', cluster) <==> !HasExternal(w, cluster) || RecordIsStatic(w, cluster))
  {
    hide CreateExternalIp, CreateRule, UpdateRecord;
    if !HasExternal(w, cluster) {
      var reserved := CreateExternalIp(w.Next(), IpName(cluster), grant);
      CreateIpEffect(w.Next(), IpName(cluster), grant);
      CreateRuleEffect(reserved.w, ExtName(cluster), reserved.ip);
      UpdateEffect(CreateRule(reserved.w, ExtName(cluster), reserved.ip).w, reserved.ip);
    }
  }

  /**
   * The exception is reachable: when the record update fails after the rule was created, every later
   * switch to public returns nil, or fails to list, and leaves the record internal.
   */
  lemma {:induction false} FailedUpdateIsNeverRepaired(w: World, cluster: string, grant: Grant, intIp: string,
                                                       later: seq<Switch>)
    requires Safe(w, cluster, intIp) && w.api[0][0] == intIp && intIp != grant.ip && grant.inTime
    requires !HasExternal(w, cluster) && ExtName(cluster) !in w.rules
    requires ExtName(cluster) in w.targetPools && IpName(cluster) !in w.addresses
    requires forall s :: s in later ==> s.ToPublic?
    ensures var failed := Step(w, cluster, ToPublic(grant, [false, false, false, false, false, false, false, true]));
            && failed.outcome == Failed
            && HasExternal(failed.w, cluster) && failed.w.api == w.api
            && Run(failed.w, cluster, later).api == w.api
  {
    var faults := [false, false, false, false, false, false, false, true];
    var w0 := w.(faults := faults);
    FaultsRunOut(w0);
    hide Run;
    var failed := Step(w, cluster, ToPublic(grant, faults));
    PublicStops(failed.w, cluster, later);
  }

  lemma FaultsRunOut(w: World)
    requires w.faults == [false, false, false, false, false, false, false, true]
    ensures !w.Fails() && w.Next().faults == [false, false, false, false, false, false, true]
    ensures w.Next().Next().faults == [false, false, false, false, false, true]
    ensures w.Next().Next().Next().faults == [false, false, false, false, true]
    ensures w.Next().Next().Next().Next().faults == [false, false, false, true]
    ensures w.Next().Next().Next().Next().Next().faults == [false, false, true]
    ensures w.Next().Next().Next().Next().Next().Next().faults == [false, true]
    ensures w.Next().Next().Next().Next().Next().Next().Next().faults == [true]
  {
  }

  lemma {:induction false} PublicStops(w: World, cluster: string, later: seq<Switch>)
    requires HasExternal(w, cluster) && forall s :: s in later ==> s.ToPublic?
    ensures Run(w, cluster, later) == w.(faults := Run(w, cluster, later).faults)
    decreases later
  {
    if later != [] {
      assert later[0] in later && forall s :: s in later[1..] ==> s in later;
      PublicStops(Step(w, cluster, later[0]).w, cluster, later[1..]);
    }
  }
}
