/** The admin API's record in Google Cloud DNS: one change per configured zone, and its removal. */
module GcpDns {
  import opened Basics

  datatype Key = Key(name: string, rtype: string)
  datatype Value = Value(ttl: int, data: seq<string>)
  datatype RecordSet = RecordSet(key: Key, value: Value)
  type Records = map<Key, Value>

  predicate Has(records: Records, r: RecordSet) {
    r.key in records && records[r.key] == r.value
  }

  /** The keys of every type at a name. */
  function KeysAt(records: Records, name: string): set<Key> {
    set k | k in records && k.name == name
  }

  /**
   * `zones` are the configured zone ids, as the cluster spells them; `ruleIps` the addresses of the
   * forwarding rules; `rejected` counts submitted changes the service found invalid.
   */
  datatype World = World(
    publicZone: Option<string>,
    privateZone: Option<string>,
    contents: map<string, Records>,
    ruleIps: set<string>,
    submitted: nat,
    rejected: nat,
    faults: seq<bool>)
  {
    predicate Fails() { CallFails(faults) }

    function Next(): World { this.(faults := LaterCalls(faults)) }
  }

  function LastSegment(s: string): (r: string)
    ensures '/' !in r && HasSuffix(s, r)
    ensures '/' in s ==> HasSuffix(s, "/" + r)
  {
    if s == "" then ""
    else
      var rest := LastSegment(s[1..]);
      if '/' in s[1..] then
        assert HasSuffix(s[1..], "/" + rest);
        rest
      else if s[0] == '/' then
        assert s == "/" + s[1..] && s[1..][..|s[1..]|] == s[1..];
        s[1..]
      else s
  }

  /** `projects/p/managedZones/z` means `z`. */
  function SanitizeZoneId(id: string): string {
    if HasPrefix(id, "projects/") then LastSegment(id) else id
  }

  /** The public zone, then the private one, as far as configured. */
  function ZoneIds(w: World): seq<string> {
    (if w.publicZone.Some? then [SanitizeZoneId(w.publicZone.value)] else []) +
    (if w.privateZone.Some? then [SanitizeZoneId(w.privateZone.value)] else [])
  }

  datatype Change = Change(additions: seq<RecordSet>, deletions: seq<RecordSet>)
  datatype ChangeReply = Accepted | NotFound | Refused

  function Deleted(records: Records, deletions: seq<RecordSet>): Records {
    map k | k in records && (forall d :: d in deletions ==> d.key != k) :: records[k]
  }

  /** A change is atomic: what it deletes must be there exactly, and what it adds must then be free. */
  ghost predicate Valid(records: Records, c: Change) {
    && (forall d :: d in c.deletions ==> Has(records, d))
    && (forall a :: a in c.additions ==> a.key !in Deleted(records, c.deletions))
    && (forall i, j :: 0 <= i < j < |c.additions| ==> c.additions[i].key != c.additions[j].key)
  }

  datatype Answer = Ok | LoadBalancerNotReady | RuleNotFound | OtherError
  datatype Attempted = Attempted(w: World, answer: Answer)

  /** The records of a zone once `r` is in place; a record already right leaves the zone alone. */
  function Placed(records: Records, r: RecordSet): Records {
    if Has(records, r) then records else (records - KeysAt(records, r.key.name))[r.key := r.value]
  }

  function EnsureInZone(w: World, id: string, r: RecordSet): Attempted {
    if w.Fails() || id !in w.contents then Attempted(w.Next(), OtherError)
    else if Has(w.contents[id], r) then Attempted(w.Next(), Ok)
    else
      var w1 := w.Next();
      var counted := w1.Next().(submitted := w.submitted + 1);
      if w1.Fails() then Attempted(counted, OtherError)
      else Attempted(counted.(contents := w.contents[id := Placed(w.contents[id], r)]), Ok)
  }

  function EnsureInZones(w: World, ids: seq<string>, r: RecordSet): Attempted
    decreases ids
  {
    if ids == [] then Attempted(w, Ok)
    else
      var first := EnsureInZone(w, ids[0], r);
      if first.answer != Ok then first else EnsureInZones(first.w, ids[1..], r)
  }

  function RemoveInZone(w: World, id: string, name: string): Attempted {
    if w.Fails() || id !in w.contents then Attempted(w.Next(), OtherError)
    else if KeysAt(w.contents[id], name) == {} then Attempted(w.Next(), Ok)
    else
      var w1 := w.Next();
      var counted := w1.Next().(submitted := w.submitted + 1);
      if w1.Fails() then Attempted(counted, OtherError)
      else Attempted(counted.(contents := w.contents[id := w.contents[id] - KeysAt(w.contents[id], name)]), Ok)
  }

  function RemoveInZones(w: World, ids: seq<string>, name: string): Attempted
    decreases ids
  {
    if ids == [] then Attempted(w, Ok)
    else
      var first := RemoveInZone(w, ids[0], name);
      if first.answer != Ok then first else RemoveInZones(first.w, ids[1..], name)
  }

  function Fqdn(dnsName: string, baseDomain: string): string { dnsName + "." + baseDomain + "." }

  function WantedRecord(ips: seq<string>, dnsName: string, baseDomain: string): RecordSet {
    RecordSet(Key(Fqdn(dnsName, baseDomain), "A"), Value(30, ips))
  }

  /** `ensureDNSForService`; `ips` are the addresses in the Service's load balancer status. */
  function EnsureDns(w: World, ips: seq<string>, dnsName: string, baseDomain: string): Attempted {
    if ips == [] then Attempted(w, LoadBalancerNotReady)
    else if w.Fails() || ips[0] !in w.ruleIps then Attempted(w.Next(), RuleNotFound)
    else if w.Next().Fails() then Attempted(w.Next().Next(), OtherError)
    else EnsureInZones(w.Next().Next(), ZoneIds(w), WantedRecord(ips, dnsName, baseDomain))
  }

  /** `removeDNSForService`. */
  function RemoveDns(w: World, dnsName: string, baseDomain: string): Attempted {
    if w.Fails() then Attempted(w.Next(), OtherError)
    else RemoveInZones(w.Next(), ZoneIds(w), Fqdn(dnsName, baseDomain))
  }

  class Client {
    var publicZone: Option<string>
    var privateZone: Option<string>
    var contents: map<string, Records>
    var ruleIps: set<string>
    var submitted: nat
    var rejected: nat
    var faults: seq<bool>

    function View(): World
      reads this
    {
      World(publicZone, privateZone, contents, ruleIps, submitted, rejected, faults)
    }

    constructor (w: World)
      ensures View() == w
    {
      publicZone, privateZone, contents, ruleIps := w.publicZone, w.privateZone, w.contents, w.ruleIps;
      submitted, rejected, faults := w.submitted, w.rejected, w.faults;
    }

    method Call() returns (ok: bool)
      modifies this`faults
      ensures ok == !old(View()).Fails() && View() == old(View()).Next()
    {
      ok := !CallFails(faults);
      faults := LaterCalls(faults);
    }

    /** The record sets of every type at the name, in any order. */
    method ListRecords(id: string, name: string) returns (ok: bool, rrsets: seq<RecordSet>)
      modifies this`faults
      ensures View() == old(View()).Next()
      ensures ok == (!old(View()).Fails() && id in contents)
      ensures ok ==> forall r :: r in rrsets <==> Has(contents[id], r) && r.key.name == name
    {
      rrsets := [];
      ok := Call();
      ok := ok && id in contents;
      if ok {
        var rest := KeysAt(contents[id], name);
        while rest != {}
          invariant rest <= KeysAt(contents[id], name)
          invariant forall r :: r in rrsets <==> Has(contents[id], r) && r.key.name == name && r.key !in rest
          decreases |rest|
        {
          var k :| k in rest;
          rrsets, rest := rrsets + [RecordSet(k, contents[id][k])], rest - {k};
        }
      }
    }

    /** `Changes.Create`; a deletion that is not there is answered with 404. */
    method CreateChange(id: string, c: Change) returns (reply: ChangeReply)
      requires |c.additions| <= 1
      modifies this`faults, this`contents, this`submitted, this`rejected
      ensures publicZone == old(publicZone) && privateZone == old(privateZone) && ruleIps == old(ruleIps)
      ensures faults == old(View()).Next().faults && submitted == old(submitted) + 1
      ensures old(View()).Fails() ==> reply == Refused && contents == old(contents) && rejected == old(rejected)
      ensures !old(View()).Fails() && id in old(contents) && Valid(old(contents)[id], c) ==>
                && reply == Accepted && rejected == old(rejected)
                && contents == old(contents)[id := if c.additions == [] then Deleted(old(contents)[id], c.deletions)
                                                   else Deleted(old(contents)[id], c.deletions)
                                                        [c.additions[0].key := c.additions[0].value]]
      ensures !old(View()).Fails() && !(id in old(contents) && Valid(old(contents)[id], c)) ==>
                reply != Accepted && contents == old(contents) && rejected == old(rejected) + 1
    {
      var ok := Call();
      submitted := submitted + 1;
      if !ok {
        return Refused;
      }
      if id !in contents || exists i :: 0 <= i < |c.deletions| && !Has(contents[id], c.deletions[i]) {
        rejected := rejected + 1;
        return NotFound;
      }
      assert forall d :: d in c.deletions ==> Has(contents[id], d);
      var left := Deleted(contents[id], c.deletions);
      if c.additions != [] {
        assert c.additions[0] in c.additions;
        if c.additions[0].key in left {
          rejected := rejected + 1;
          return Refused;
        }
        left := left[c.additions[0].key := c.additions[0].value];
      }
      contents := contents[id := left];
      return Accepted;
    }

    method EnsureZone(id: string, r: RecordSet) returns (answer: Answer)
      modifies this`faults, this`contents, this`submitted, this`rejected
      ensures Attempted(View(), answer) == EnsureInZone(old(View()), id, r)
    {
      var change := Change([r], []);
      var ok, rrsets := ListRecords(id, r.key.name);
      if !ok {
        return OtherError;
      }
      for i := 0 to |rrsets|
        invariant View() == old(View()).Next()
        invariant change.additions == if r in rrsets[..i] then [] else [r]
        invariant forall d :: d in change.deletions <==> d in rrsets[..i] && d != r
      {
        assert forall x :: x in rrsets[..i + 1] <==> x in rrsets[..i] || x == rrsets[i];
        if rrsets[i] == r {
          change := change.(additions := []);
        } else {
          change := change.(deletions := change.deletions + [rrsets[i]]);
        }
      }
      assert rrsets[..|rrsets|] == rrsets;
      if |change.additions| > 0 {
        assert r !in rrsets && !Has(contents[id], r);
        DeletingTheName(contents[id], r.key.name, change.deletions);
        var reply := CreateChange(id, change);
        if reply != Accepted {
          return OtherError;
        }
      } else {
        assert Has(contents[id], r);
      }
      return Ok;
    }

    lemma DeletingTheName(records: Records, name: string, deletions: seq<RecordSet>)
      requires forall d :: d in deletions <==> Has(records, d) && d.key.name == name
      ensures Deleted(records, deletions) == records - KeysAt(records, name)
    {
      forall k | k in records && k.name == name ensures exists d :: d in deletions && d.key == k {
        assert RecordSet(k, records[k]) in deletions;
      }
    }

    method RemoveZone(id: string, name: string) returns (answer: Answer)
      modifies this`faults, this`contents, this`submitted, this`rejected
      ensures Attempted(View(), answer) == RemoveInZone(old(View()), id, name)
    {
      var ok, rrsets := ListRecords(id, name);
      if !ok {
        return OtherError;
      }
      if |rrsets| > 0 {
        assert rrsets[0] in rrsets && rrsets[0].key in KeysAt(contents[id], name);
        DeletingTheName(contents[id], name, rrsets);
        var reply := CreateChange(id, Change([], rrsets));
        if reply != Accepted && reply != NotFound {
          return OtherError;
        }
      } else {
        assert forall k :: k in KeysAt(contents[id], name) ==> RecordSet(k, contents[id][k]) in rrsets;
      }
      return Ok;
    }

    method EnsureDnsForService(ips: seq<string>, dnsName: string, baseDomain: string) returns (answer: Answer)
      modifies this`faults, this`contents, this`submitted, this`rejected
      ensures Attempted(View(), answer) == EnsureDns(old(View()), ips, dnsName, baseDomain)
    {
      if |ips| == 0 {
        return LoadBalancerNotReady;
      }
      var ok := Call();
      if !ok || ips[0] !in ruleIps {
        return RuleNotFound;
      }
      ok := Call();
      if !ok {
        return OtherError;
      }
      var r := WantedRecord(ips, dnsName, baseDomain);
      var ids := ZoneIds(View());
      for i := 0 to |ids|
        invariant EnsureInZones(View(), ids[i..], r) == EnsureDns(old(View()), ips, dnsName, baseDomain)
      {
        assert ids[i..][1..] == ids[i + 1..];
        answer := EnsureZone(ids[i], r);
        if answer != Ok {
          return;
        }
      }
      return Ok;
    }

    method RemoveDnsForService(dnsName: string, baseDomain: string) returns (answer: Answer)
      modifies this`faults, this`contents, this`submitted, this`rejected
      ensures Attempted(View(), answer) == RemoveDns(old(View()), dnsName, baseDomain)
    {
      var ok := Call();
      if !ok {
        return OtherError;
      }
      var ids := ZoneIds(View());
      for i := 0 to |ids|
        invariant RemoveInZones(View(), ids[i..], Fqdn(dnsName, baseDomain))
                  == RemoveDns(old(View()), dnsName, baseDomain)
      {
        assert ids[i..][1..] == ids[i + 1..];
        answer := RemoveZone(ids[i], Fqdn(dnsName, baseDomain));
        if answer != Ok {
          return;
        }
      }
      return Ok;
    }
  }

  // --- What a successful call has done ---

  lemma {:induction false} EnsureZonesEffect(w: World, ids: seq<string>, r: RecordSet)
    ensures var a := EnsureInZones(w, ids, r);
            && a.w == w.(contents := a.w.contents, submitted := a.w.submitted, faults := a.w.faults)
            && (a.answer == Ok ==>
                  && (forall id :: id in ids ==> id in w.contents)
                  && a.w.contents.Keys == w.contents.Keys
                  && forall id :: id in w.contents ==>
                       a.w.contents[id] == if id in ids then Placed(w.contents[id], r) else w.contents[id])
    decreases ids
  {
    if ids != [] {
      var first := EnsureInZone(w, ids[0], r);
      EnsureZonesEffect(first.w, ids[1..], r);
      assert forall id :: id in ids <==> id == ids[0] || id in ids[1..];
      assert forall records :: Placed(Placed(records, r), r) == Placed(records, r);
    }
  }

  lemma RemoveZoneEffect(w: World, id: string, name: string)
    ensures var a := RemoveInZone(w, id, name);
            && a.w == w.(contents := a.w.contents, submitted := a.w.submitted, faults := a.w.faults)
            && (a.answer == Ok ==>
                  id in w.contents && a.w.contents == w.contents[id := w.contents[id] - KeysAt(w.contents[id], name)])
  {
    if id in w.contents && KeysAt(w.contents[id], name) == {} {
      assert w.contents == w.contents[id := w.contents[id]] && w.contents[id] - {} == w.contents[id];
    }
  }

  lemma {:induction false} RemoveZonesEffect(w: World, ids: seq<string>, name: string)
    ensures var a := RemoveInZones(w, ids, name);
            && a.w == w.(contents := a.w.contents, submitted := a.w.submitted, faults := a.w.faults)
            && (a.answer == Ok ==>
                  && (forall id :: id in ids ==> id in w.contents)
                  && a.w.contents.Keys == w.contents.Keys
                  && forall id :: id in w.contents ==>
                       a.w.contents[id] == if id in ids then w.contents[id] - KeysAt(w.contents[id], name)
                                           else w.contents[id])
    decreases ids
  {
    if ids != [] {
      hide RemoveInZone;
      var first := RemoveInZone(w, ids[0], name);
      RemoveZoneEffect(w, ids[0], name);
      RemoveZonesEffect(first.w, ids[1..], name);
      assert forall id :: id in ids <==> id == ids[0] || id in ids[1..];
      forall id | id in w.contents
        ensures KeysAt(w.contents[id] - KeysAt(w.contents[id], name), name) == {}
      {
      }
    }
  }

  lemma {:induction false} EnsureZonesSettled(w: World, ids: seq<string>, r: RecordSet)
    requires forall id :: id in ids ==> id in w.contents && Has(w.contents[id], r)
    ensures var a := EnsureInZones(w, ids, r); a.w.contents == w.contents && a.w.submitted == w.submitted
    decreases ids
  {
    if ids != [] {
      assert ids[0] in ids;
      EnsureZonesSettled(EnsureInZone(w, ids[0], r).w, ids[1..], r);
    }
  }

  /**
   * On success the A record at the name holds exactly the wanted addresses in every configured zone,
   * other names and other zones are untouched, and no submitted change was invalid, whatever failed.
   */
  lemma EnsurePlacesRecord(w: World, ips: seq<string>, dnsName: string, baseDomain: string)
    ensures var a, r := EnsureDns(w, ips, dnsName, baseDomain), WantedRecord(ips, dnsName, baseDomain);
            && a.w.rejected == w.rejected
            && (a.answer == Ok ==>
                  && a.w.contents.Keys == w.contents.Keys
                  && (forall id :: id in ZoneIds(w) ==> id in w.contents && Has(a.w.contents[id], r))
                  && (forall id, k: Key :: id in w.contents && (k.name != r.key.name || id !in ZoneIds(w)) ==>
                        (k in a.w.contents[id] <==> k in w.contents[id]) &&
                        (k in w.contents[id] ==> a.w.contents[id][k] == w.contents[id][k])))
  {
    EnsureZonesEffect(w.Next().Next(), ZoneIds(w), WantedRecord(ips, dnsName, baseDomain));
  }

  /** A second ensure with the same arguments submits nothing. */
  lemma SecondEnsureSubmitsNothing(w: World, ips: seq<string>, dnsName: string, baseDomain: string, faults: seq<bool>)
    requires EnsureDns(w, ips, dnsName, baseDomain).answer == Ok
    ensures var w1 := EnsureDns(w, ips, dnsName, baseDomain).w;
            var again := EnsureDns(w1.(faults := faults), ips, dnsName, baseDomain).w;
            again.submitted == w1.submitted && again.contents == w1.contents
  {
    hide EnsureInZones, EnsureInZone;
    EnsurePlacesRecord(w, ips, dnsName, baseDomain);
    EnsureZonesEffect(w.Next().Next(), ZoneIds(w), WantedRecord(ips, dnsName, baseDomain));
    var w1 := EnsureDns(w, ips, dnsName, baseDomain).w.(faults := faults);
    EnsureZonesSettled(w1.Next().Next(), ZoneIds(w), WantedRecord(ips, dnsName, baseDomain));
  }

  lemma EnsureDnsEffect(w: World, ips: seq<string>, dnsName: string, baseDomain: string)
    requires EnsureDns(w, ips, dnsName, baseDomain).answer == Ok
    ensures var w1 := EnsureDns(w, ips, dnsName, baseDomain).w;
            && w1.rejected == w.rejected && w1.contents.Keys == w.contents.Keys && ZoneIds(w1) == ZoneIds(w)
            && forall id :: id in w.contents ==>
                 w1.contents[id] == (if id !in ZoneIds(w) then w.contents[id]
                                     else Placed(w.contents[id], WantedRecord(ips, dnsName, baseDomain)))
  {
    EnsureZonesEffect(w.Next().Next(), ZoneIds(w), WantedRecord(ips, dnsName, baseDomain));
  }

  lemma RemoveDnsEffect(w: World, dnsName: string, baseDomain: string)
    requires RemoveDns(w, dnsName, baseDomain).answer == Ok
    ensures var w1, name := RemoveDns(w, dnsName, baseDomain).w, Fqdn(dnsName, baseDomain);
            && w1.rejected == w.rejected && w1.contents.Keys == w.contents.Keys
            && forall id :: id in w.contents ==>
                 w1.contents[id] == if id in ZoneIds(w) then w.contents[id] - KeysAt(w.contents[id], name)
                                    else w.contents[id]
  {
    RemoveZonesEffect(w.Next(), ZoneIds(w), Fqdn(dnsName, baseDomain));
  }

  lemma PlacedThenRemoved(records: Records, r: RecordSet)
    ensures Placed(records, r) - KeysAt(Placed(records, r), r.key.name) == records - KeysAt(records, r.key.name)
  {
  }

  /**
   * A removal after a successful ensure, whatever failed in between, takes away everything at the
   * name in the configured zones and nothing else.
   */
  lemma EnsureThenRemove(w: World, ips: seq<string>, dnsName: string, baseDomain: string, later: World, id: string)
    requires EnsureDns(w, ips, dnsName, baseDomain).answer == Ok
    requires later == EnsureDns(w, ips, dnsName, baseDomain).w.(faults := later.faults)
    requires RemoveDns(later, dnsName, baseDomain).answer == Ok
    ensures var last := RemoveDns(later, dnsName, baseDomain).w;
            && last.rejected == w.rejected && last.contents.Keys == w.contents.Keys
            && (id in w.contents ==>
                  last.contents[id] == if id in ZoneIds(w)
                                       then w.contents[id] - KeysAt(w.contents[id], Fqdn(dnsName, baseDomain))
                                       else w.contents[id])
  {
    EnsureDnsEffect(w, ips, dnsName, baseDomain);
    RemoveDnsEffect(later, dnsName, baseDomain);
    if id in w.contents {
      PlacedThenRemoved(w.contents[id], WantedRecord(ips, dnsName, baseDomain));
    }
  }

  // --- When it succeeds, and what then holds, by the text of names and zones ---

  /** A zone given by its path is called by what follows the last slash; any other by itself. */
  ghost predicate ZoneCalled(zone: string, id: string) {
    if |zone| >= 9 && zone[..9] == "projects/" then '/' !in id && exists p :: zone == p + "/" + id else id == zone
  }

  lemma ZoneCalledMeans(zone: string, id: string)
    ensures SanitizeZoneId(zone) == id <==> ZoneCalled(zone, id)
  {
    if HasPrefix(zone, "projects/") {
      assert zone[8] == '/';
      var last := LastSegment(zone);
      assert zone == zone[..|zone| - |last| - 1] + "/" + last;
      forall p | '/' !in id && zone == p + "/" + id ensures id == last {
        AfterLastSlash(zone, p, id, zone[..|zone| - |last| - 1], last);
      }
    }
  }

  lemma AfterLastSlash(zone: string, p: string, id: string, q: string, last: string)
    requires zone == p + "/" + id && '/' !in id && zone == q + "/" + last && '/' !in last
    ensures id == last
  {
    forall k | |p| < k < |zone| ensures zone[k] != '/' { assert zone[k] == id[k - |p| - 1] && zone[k] in id; }
    forall k | |q| < k < |zone| ensures zone[k] != '/' { assert zone[k] == last[k - |q| - 1] && zone[k] in last; }
    assert zone[|p|] == '/' && zone[|q|] == '/';
    assert |p| == |q| && id == zone[|p| + 1..] && last == zone[|q| + 1..];
  }

  /** The cluster is configured with this zone, as the public or the private one. */
  ghost predicate Configured(w: World, id: string) {
    || (w.publicZone.Some? && ZoneCalled(w.publicZone.value, id))
    || (w.privateZone.Some? && ZoneCalled(w.privateZone.value, id))
  }

  lemma ConfiguredMeans(w: World, id: string)
    ensures id in ZoneIds(w) <==> Configured(w, id)
  {
    if w.publicZone.Some? { ZoneCalledMeans(w.publicZone.value, id); }
    if w.privateZone.Some? { ZoneCalledMeans(w.privateZone.value, id); }
  }

  /** Each zone is listed, and changed unless its record is right already. */
  function EnsureCalls(contents: map<string, Records>, ids: seq<string>, r: RecordSet): nat
    decreases ids
  {
    if ids == [] || ids[0] !in contents then 0
    else if Has(contents[ids[0]], r) then 1 + EnsureCalls(contents, ids[1..], r)
    else 2 + EnsureCalls(contents[ids[0] := Placed(contents[ids[0]], r)], ids[1..], r)
  }

  lemma EnsureZoneCalls(w: World, id: string, r: RecordSet)
    ensures var a := EnsureInZone(w, id, r);
            if id !in w.contents || CallFails(w.faults) then a.answer != Ok
            else if Has(w.contents[id], r) then a == Attempted(w.Next(), Ok)
            else
              && (a.answer == Ok <==> !CallFails(LaterCalls(w.faults)))
              && (a.answer == Ok ==>
                    && a.w.faults == LaterCalls(LaterCalls(w.faults))
                    && a.w.contents == w.contents[id := Placed(w.contents[id], r)])
  {
  }

  lemma {:induction false} EnsureZonesIff(w: World, ids: seq<string>, r: RecordSet)
    ensures EnsureInZones(w, ids, r).answer == Ok
            <==> && (forall id :: id in ids ==> id in w.contents)
                 && AllSucceed(w.faults, EnsureCalls(w.contents, ids, r))
    decreases ids
  {
    if ids != [] {
      hide EnsureInZone, Has, Placed;
      var first, rest := EnsureInZone(w, ids[0], r), ids[1..];
      assert forall id :: id in ids <==> id == ids[0] || id in rest;
      EnsureZoneCalls(w, ids[0], r);
      if ids[0] in w.contents {
        OneCall(w.faults);
        CallsInTwo(w.faults, 1, EnsureCalls(w.contents, rest, r));
        TwoCalls(w.faults, EnsureCalls(first.w.contents, rest, r));
        EnsureZonesIff(first.w, rest, r);
      }
    }
  }

  function RemoveCalls(contents: map<string, Records>, ids: seq<string>, name: string): nat
    decreases ids
  {
    if ids == [] || ids[0] !in contents then 0
    else if KeysAt(contents[ids[0]], name) == {} then 1 + RemoveCalls(contents, ids[1..], name)
    else 2 + RemoveCalls(contents[ids[0] := contents[ids[0]] - KeysAt(contents[ids[0]], name)], ids[1..], name)
  }

  lemma RemoveZoneCalls(w: World, id: string, name: string)
    ensures var a := RemoveInZone(w, id, name);
            if id !in w.contents || CallFails(w.faults) then a.answer != Ok
            else if KeysAt(w.contents[id], name) == {} then a == Attempted(w.Next(), Ok)
            else
              && (a.answer == Ok <==> !CallFails(LaterCalls(w.faults)))
              && (a.answer == Ok ==>
                    && a.w.faults == LaterCalls(LaterCalls(w.faults))
                    && a.w.contents == w.contents[id := w.contents[id] - KeysAt(w.contents[id], name)])
  {
  }

  lemma {:induction false} RemoveZonesIff(w: World, ids: seq<string>, name: string)
    ensures RemoveInZones(w, ids, name).answer == Ok
            <==> && (forall id :: id in ids ==> id in w.contents)
                 && AllSucceed(w.faults, RemoveCalls(w.contents, ids, name))
    decreases ids
  {
    if ids != [] {
      hide RemoveInZone, KeysAt;
      var first, rest := RemoveInZone(w, ids[0], name), ids[1..];
      assert forall id :: id in ids <==> id == ids[0] || id in rest;
      RemoveZoneCalls(w, ids[0], name);
      if ids[0] in w.contents {
        OneCall(w.faults);
        CallsInTwo(w.faults, 1, RemoveCalls(w.contents, rest, name));
        TwoCalls(w.faults, RemoveCalls(first.w.contents, rest, name));
        RemoveZonesIff(first.w, rest, name);
      }
    }
  }

  /** The record of an admin API: thirty seconds, and the addresses. */
  function RecordOf(ips: seq<string>, dnsName: string, baseDomain: string): RecordSet {
    RecordSet(Key(dnsName + "." + baseDomain + ".", "A"), Value(30, ips))
  }

  /**
   * Each answer of an ensure, exactly: no address, then not ready; no forwarding rule listed for the first
   * address, then rule not found; success if the two first calls and those of the zones succeed and
   * every configured zone is there.
   */
  lemma EnsureAnswers(w: World, ips: seq<string>, dnsName: string, baseDomain: string)
    ensures var answer := EnsureDns(w, ips, dnsName, baseDomain).answer;
            && (answer == LoadBalancerNotReady <==> ips == [])
            && (answer == RuleNotFound <==> ips != [] && (CallFails(w.faults) || ips[0] !in w.ruleIps))
            && (answer == Ok <==>
                  && ips != [] && ips[0] in w.ruleIps
                  && (forall id :: Configured(w, id) ==> id in w.contents)
                  && AllSucceed(w.faults, 2 + EnsureCalls(w.contents, ZoneIds(w), RecordOf(ips, dnsName, baseDomain))))
  {
    hide ZoneIds, Configured;
    var r := RecordOf(ips, dnsName, baseDomain);
    forall id ensures id in ZoneIds(w) <==> Configured(w, id) { ConfiguredMeans(w, id); }
    TwoCalls(w.faults, EnsureCalls(w.contents, ZoneIds(w), r));
    EnsureZonesIff(w.Next().Next(), ZoneIds(w), r);
    ZonesAnswer(w.Next().Next(), ZoneIds(w), r);
  }

  lemma {:induction false} ZonesAnswer(w: World, ids: seq<string>, r: RecordSet)
    ensures EnsureInZones(w, ids, r).answer in {Ok, OtherError}
    decreases ids
  {
    if ids != [] { ZonesAnswer(EnsureInZone(w, ids[0], r).w, ids[1..], r); }
  }

  lemma RemoveAnswers(w: World, dnsName: string, baseDomain: string)
    ensures RemoveDns(w, dnsName, baseDomain).answer == Ok
            <==> && (forall id :: Configured(w, id) ==> id in w.contents)
                 && AllSucceed(w.faults, 1 + RemoveCalls(w.contents, ZoneIds(w), dnsName + "." + baseDomain + "."))
  {
    hide ZoneIds, Configured;
    var name := dnsName + "." + baseDomain + ".";
    forall id ensures id in ZoneIds(w) <==> Configured(w, id) { ConfiguredMeans(w, id); }
    OneCall(w.faults);
    CallsInTwo(w.faults, 1, RemoveCalls(w.contents, ZoneIds(w), name));
    RemoveZonesIff(w.Next(), ZoneIds(w), name);
  }

  /** Without failing calls and with the configured zones there: an ensure succeeds iff the first address has a rule. */
  lemma EnsureSucceeds(w: World, ips: seq<string>, dnsName: string, baseDomain: string)
    requires w.faults == [] && forall id :: Configured(w, id) ==> id in w.contents
    ensures EnsureDns(w, ips, dnsName, baseDomain).answer == Ok <==> ips != [] && ips[0] in w.ruleIps
    ensures RemoveDns(w, dnsName, baseDomain).answer == Ok
  {
    var r := RecordOf(ips, dnsName, baseDomain);
    NoneFails(2 + EnsureCalls(w.contents, ZoneIds(w), r));
    NoneFails(1 + RemoveCalls(w.contents, ZoneIds(w), r.key.name));
    EnsureAnswers(w, ips, dnsName, baseDomain);
    RemoveAnswers(w, dnsName, baseDomain);
  }

  /** A successful ensure leaves exactly the addresses at the name in every configured zone, a removal nothing. */
  lemma OkMeans(w: World, ips: seq<string>, dnsName: string, baseDomain: string, id: string)
    requires Configured(w, id)
    ensures EnsureDns(w, ips, dnsName, baseDomain).answer == Ok ==>
              var after := EnsureDns(w, ips, dnsName, baseDomain).w.contents;
              id in after && Has(after[id], RecordOf(ips, dnsName, baseDomain))
    ensures RemoveDns(w, dnsName, baseDomain).answer == Ok ==>
              var after := RemoveDns(w, dnsName, baseDomain).w.contents;
              id in after && forall k: Key :: k in after[id] ==> k.name != dnsName + "." + baseDomain + "."
  {
    hide EnsureDns, RemoveDns, ZoneIds, Configured;
    ConfiguredMeans(w, id);
    if EnsureDns(w, ips, dnsName, baseDomain).answer == Ok { EnsurePlacesRecord(w, ips, dnsName, baseDomain); }
    if RemoveDns(w, dnsName, baseDomain).answer == Ok {
      RemoveDnsEffect(w, dnsName, baseDomain);
      RemoveAnswers(w, dnsName, baseDomain);
    }
  }
}
