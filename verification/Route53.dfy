/**
 * The admin API's A record in the cluster zone and in the parent zone, written and removed through
 * Route 53 with bounded retries.
 */
module Route53 {
  import opened Basics

  /** A name with and without the final dot is the same absolute name (section 3.1 of RFC 1034). */
  function Absolute(name: string): (r: string)
    ensures HasSuffix(r, ".")
  {
    if HasSuffix(name, ".") then name else name + "."
  }

  datatype Key = Key(name: string, rtype: string)
  datatype Target = Alias(dnsName: string, zoneId: string, evaluateHealth: bool) | Values(data: seq<string>)
  datatype RecordSet = RecordSet(key: Key, target: Target)

  /** The A record an attempt is about, as its caller spells the names. */
  datatype Wanted = Wanted(recordName: string, dnsName: string, zoneId: string, evaluateHealth: bool) {
    function Record(): RecordSet {
      RecordSet(Key(Absolute(recordName), "A"), Alias(Absolute(dnsName), zoneId, evaluateHealth))
    }
  }

  datatype HostedZone = HostedZone(name: string, id: string)
  type Records = map<Key, Target>

  /** Zones in listing order, their records with absolute names, and the changes submitted so far. */
  datatype World = World(zones: seq<HostedZone>, contents: map<string, Records>, submitted: nat, faults: seq<bool>) {
    predicate Fails() { CallFails(faults) }

    function Next(): World { this.(faults := LaterCalls(faults)) }
  }

  /** `getPublicHostedZoneID`: the first zone of exactly that name. */
  function ZoneId(zones: seq<HostedZone>, name: string): Option<string> {
    if zones == [] then None
    else if zones[0].name == name then Some(zones[0].id)
    else ZoneId(zones[1..], name)
  }

  datatype Op = Upsert | Remove
  datatype Attempted = Attempted(w: World, ok: bool)

  predicate Has(records: Records, r: RecordSet) {
    r.key in records && records[r.key] == r.target
  }

  /** Submitting a change; deleting a record that is not there is an invalid batch without effect. */
  function Submit(w: World, op: Op, id: string, r: RecordSet): World {
    var counted := w.Next().(submitted := w.submitted + 1);
    if w.Fails() || id !in w.contents then counted
    else if op == Upsert then counted.(contents := w.contents[id := w.contents[id][r.key := r.target]])
    else if Has(w.contents[id], r) then counted.(contents := w.contents[id := w.contents[id] - {r.key}])
    else counted
  }

  predicate Accepted(w: World, id: string) { !w.Fails() && id in w.contents }

  /** `upsertARecord`. */
  function UpsertA(w: World, zone: string, wanted: Wanted): Attempted {
    var id, w1 := ZoneId(w.zones, zone), w.Next();
    if w.Fails() || id.None? then Attempted(w1, false)
    else if !Accepted(w1, id.value) then Attempted(w1.Next(), false)
    else if Has(w1.contents[id.value], wanted.Record()) then Attempted(w1.Next(), true)
    else Attempted(Submit(w1.Next(), Upsert, id.value, wanted.Record()), Accepted(w1.Next(), id.value))
  }

  /** `deleteARecord`, which takes an invalid batch for a record already gone. */
  function DeleteA(w: World, zone: string, wanted: Wanted): Attempted {
    var id := ZoneId(w.zones, zone);
    if w.Fails() || id.None? then Attempted(w.Next(), false)
    else Attempted(Submit(w.Next(), Remove, id.value, wanted.Record()), Accepted(w.Next(), id.value))
  }

  function Attempt(w: World, op: Op, zone: string, wanted: Wanted): Attempted {
    if op == Upsert then UpsertA(w, zone, wanted) else DeleteA(w, zone, wanted)
  }

  const MAX_API_RETRIES := 10

  datatype Tried = Tried(w: World, ok: bool, tries: nat, slept: nat)

  type Call = World -> Attempted

  function CallOf(op: Op, zone: string, wanted: Wanted): Call {
    w => Attempt(w, op, zone, wanted)
  }

  /** The retry loop from attempt `i`: sleep `i` seconds after failure `i`, give up after the tenth. */
  function Retry(call: Call, w: World, i: nat): Tried
    requires 1 <= i <= MAX_API_RETRIES
    decreases MAX_API_RETRIES - i
  {
    var a := call(w);
    if a.ok || i == MAX_API_RETRIES then Tried(a.w, a.ok, 1, 0)
    else
      var rest := Retry(call, a.w, i + 1);
      Tried(rest.w, rest.ok, rest.tries + 1, rest.slept + i)
  }

  /** What follows the first dot; the whole name when it has none. */
  function Parent(domain: string): string {
    match IndexOf(domain, '.')
    case None => domain
    case Some(k) => domain[k + 1..]
  }

  /** First the cluster zone, then, only after success there, the parent zone. */
  function InBothZones(w: World, op: Op, domain: string, wanted: Wanted): Attempted {
    var first := Retry(CallOf(op, domain + ".", wanted), w, 1);
    if !first.ok then Attempted(first.w, false)
    else
      var second := Retry(CallOf(op, Parent(domain) + ".", wanted), first.w, 1);
      Attempted(second.w, second.ok)
  }

  class Client {
    var zones: seq<HostedZone>
    var contents: map<string, Records>
    var submitted: nat
    var slept: nat
    var faults: seq<bool>

    function View(): World
      reads this
    {
      World(zones, contents, submitted, faults)
    }

    constructor (w: World)
      ensures View() == w && slept == 0
    {
      zones, contents, submitted, faults, slept := w.zones, w.contents, w.submitted, w.faults, 0;
    }

    method Call() returns (ok: bool)
      modifies this`faults
      ensures ok == !old(View()).Fails() && View() == old(View()).Next()
    {
      ok := !CallFails(faults);
      faults := LaterCalls(faults);
    }

    method GetPublicHostedZoneId(name: string) returns (id: Option<string>)
      modifies this`faults
      ensures View() == old(View()).Next()
      ensures id == if old(View()).Fails() then None else ZoneId(zones, name)
    {
      var ok := Call();
      if !ok {
        return None;
      }
      for i := 0 to |zones|
        invariant ZoneId(zones, name) == ZoneId(zones[i..], name)
      {
        assert zones[i..][1..] == zones[i + 1..];
        if zones[i].name == name {
          return Some(zones[i].id);
        }
      }
      return None;
    }

    /** Any cutting of the zone's records into pages. */
    method ListPages(id: string) returns (ok: bool, pages: seq<seq<RecordSet>>)
      modifies this`faults
      ensures View() == old(View()).Next()
      ensures ok == Accepted(old(View()), id)
      ensures ok ==> forall r :: Has(contents[id], r) <==> exists p :: 0 <= p < |pages| && r in pages[p]
    {
      pages := [];
      ok := Call();
      ok := ok && id in contents;
      if ok {
        var rest := contents[id].Keys;
        while rest != {}
          invariant rest <= contents[id].Keys
          invariant forall p :: 0 <= p < |pages| ==> |pages[p]| == 1 && Has(contents[id], pages[p][0])
          invariant forall key :: key in contents[id] && key !in rest ==>
              exists p :: 0 <= p < |pages| && pages[p] == [RecordSet(key, contents[id][key])]
          decreases |rest|
        {
          var key :| key in rest;
          var page := [RecordSet(key, contents[id][key])];
          assert (pages + [page])[|pages|] == page;
          assert forall p :: 0 <= p < |pages| ==> (pages + [page])[p] == pages[p];
          pages, rest := pages + [page], rest - {key};
        }
        forall r ensures Has(contents[id], r) <==> exists p :: 0 <= p < |pages| && r in pages[p] {
          if Has(contents[id], r) {
            var p :| 0 <= p < |pages| && pages[p] == [RecordSet(r.key, contents[id][r.key])];
            assert r in pages[p];
          }
        }
      }
    }

    /** Compares dotted names only, after dotting the wanted record's own. */
    method RecordExists(wanted: Wanted, id: string) returns (ok: bool, found: bool, dotted: RecordSet)
      modifies this`faults
      ensures View() == old(View()).Next()
      ensures ok == Accepted(old(View()), id) && dotted == wanted.Record()
      ensures ok ==> (found <==> Has(contents[id], dotted))
    {
      dotted := RecordSet(Key(wanted.recordName, "A"), Alias(wanted.dnsName, wanted.zoneId, wanted.evaluateHealth));
      if !HasSuffix(dotted.key.name, ".") { dotted := dotted.(key := dotted.key.(name := dotted.key.name + ".")); }
      if !HasSuffix(dotted.target.dnsName, ".") {
        dotted := dotted.(target := dotted.target.(dnsName := dotted.target.dnsName + "."));
      }
      found := false;
      var pages;
      ok, pages := ListPages(id);
      if ok {
        var p := 0;
        while p < |pages| && !found
          invariant 0 <= p <= |pages| && View() == old(View()).Next()
          invariant found ==> exists q :: 0 <= q < |pages| && dotted in pages[q]
          invariant !found ==> forall q :: 0 <= q < p ==> dotted !in pages[q]
        {
          found := InPage(pages[p], dotted);
          p := p + 1;
        }
      }
    }

    method InPage(page: seq<RecordSet>, r: RecordSet) returns (found: bool)
      ensures found <==> r in page
    {
      for k := 0 to |page|
        invariant r !in page[..k]
      {
        if page[k] == r {
          return true;
        }
      }
      return false;
    }

    method ChangeRecord(op: Op, id: string, r: RecordSet) returns (ok: bool)
      modifies this`faults, this`contents, this`submitted
      ensures ok == Accepted(old(View()), id) && View() == Submit(old(View()), op, id, r)
    {
      ok := Call();
      submitted := submitted + 1;
      ok := ok && id in contents;
      if ok {
        if op == Upsert {
          contents := contents[id := contents[id][r.key := r.target]];
        } else if Has(contents[id], r) {
          contents := contents[id := contents[id] - {r.key}];
        }
      }
    }

    method UpsertARecord(zone: string, wanted: Wanted) returns (ok: bool)
      modifies this`faults, this`contents, this`submitted
      ensures Attempted(View(), ok) == UpsertA(old(View()), zone, wanted)
    {
      var id := GetPublicHostedZoneId(zone);
      if id.None? {
        return false;
      }
      var found, dotted;
      ok, found, dotted := RecordExists(wanted, id.value);
      if !ok || found {
        return ok;
      }
      ok := ChangeRecord(Upsert, id.value, dotted);
    }

    method DeleteARecord(zone: string, wanted: Wanted) returns (ok: bool)
      modifies this`faults, this`contents, this`submitted
      ensures Attempted(View(), ok) == DeleteA(old(View()), zone, wanted)
    {
      var id := GetPublicHostedZoneId(zone);
      if id.None? {
        return false;
      }
      ok := ChangeRecord(Remove, id.value, wanted.Record());
    }

    method TryOnce(op: Op, zone: string, wanted: Wanted) returns (ok: bool)
      modifies this`faults, this`contents, this`submitted
      ensures Attempted(View(), ok) == CallOf(op, zone, wanted)(old(View()))
    {
      if op == Upsert {
        ok := UpsertARecord(zone, wanted);
      } else {
        ok := DeleteARecord(zone, wanted);
      }
    }

    /** One of the four retry loops. */
    method RetryInZone(op: Op, zone: string, wanted: Wanted) returns (ok: bool)
      modifies this
      ensures var r := Retry(CallOf(op, zone, wanted), old(View()), 1);
              View() == r.w && ok == r.ok && slept == old(slept) + r.slept
    {
      hide Attempt, CallOf, ZoneId;
      var i := 1;
      ok := false;
      while !ok
        invariant 1 <= i <= MAX_API_RETRIES
        invariant var r := Retry(CallOf(op, zone, wanted), old(View()), 1);
                  if ok then View() == r.w && r.ok && slept == old(slept) + r.slept
                  else
                    var rest := Retry(CallOf(op, zone, wanted), View(), i);
                    r.w == rest.w && r.ok == rest.ok && old(slept) + r.slept == slept + rest.slept
        decreases MAX_API_RETRIES - i, !ok
      {
        ok := TryOnce(op, zone, wanted);
        if !ok {
          if i == MAX_API_RETRIES {
            return;
          }
          slept := slept + i;
          i := i + 1;
        }
      }
    }

    method EnsureDnsRecord(domain: string, wanted: Wanted) returns (ok: bool)
      modifies this
      ensures Attempted(View(), ok) == InBothZones(old(View()), Upsert, domain, wanted)
    {
      ok := RetryInZone(Upsert, domain + ".", wanted);
      if ok {
        ok := RetryInZone(Upsert, Parent(domain) + ".", wanted);
      }
    }

    method EnsureDnsRecordsRemoved(domain: string, wanted: Wanted) returns (ok: bool)
      modifies this
      ensures Attempted(View(), ok) == InBothZones(old(View()), Remove, domain, wanted)
    {
      ok := RetryInZone(Remove, domain + ".", wanted);
      if ok {
        ok := RetryInZone(Remove, Parent(domain) + ".", wanted);
      }
    }
  }

  // --- Retries ---

  /** The world after `k` calls in a row. */
  function AfterTries(call: Call, w: World, k: nat): World
    decreases k
  {
    if k == 0 then w else AfterTries(call, call(w).w, k - 1)
  }

  /** Call number `k`, from zero, succeeds. */
  predicate Succeeds(call: Call, w: World, k: nat) {
    call(AfterTries(call, w, k)).ok
  }

  /** 0 + 1 + ... + (n - 1). */
  function Triangle(n: nat): nat {
    if n == 0 then 0 else Triangle(n - 1) + n - 1
  }

  /** The loop makes its calls in a row and stops at the first success or after the tenth try. */
  lemma {:induction false} RetryStops(call: Call, w: World, i: nat)
    requires 1 <= i <= MAX_API_RETRIES
    ensures var r := Retry(call, w, i);
            && 1 <= r.tries <= MAX_API_RETRIES + 1 - i
            && r.w == AfterTries(call, w, r.tries)
            && (if r.ok then Succeeds(call, w, r.tries - 1) else r.tries == MAX_API_RETRIES + 1 - i)
            && (forall k :: 0 <= k < (if r.ok then r.tries - 1 else r.tries) ==> !Succeeds(call, w, k))
    decreases MAX_API_RETRIES - i
  {
    var a, r := call(w), Retry(call, w, i);
    assert AfterTries(call, w, 1) == AfterTries(call, a.w, 0) == a.w;
    if !a.ok && i < MAX_API_RETRIES {
      RetryStops(call, a.w, i + 1);
      forall k | 0 <= k < (if r.ok then r.tries - 1 else r.tries) ensures !Succeeds(call, w, k) {
        assert k > 0 ==> Succeeds(call, w, k) == Succeeds(call, a.w, k - 1);
      }
    }
  }

  /** After failure number `j` it sleeps `j` seconds. */
  lemma {:induction false} RetrySleeps(call: Call, w: World, i: nat)
    requires 1 <= i <= MAX_API_RETRIES
    ensures var r := Retry(call, w, i);
            1 <= r.tries && r.slept + Triangle(i) == Triangle(i + r.tries - 1)
    decreases MAX_API_RETRIES - i
  {
    var a := call(w);
    if !a.ok && i < MAX_API_RETRIES { RetrySleeps(call, a.w, i + 1); }
  }

  /** Ten attempts and 45 seconds at most; success exactly when one of ten attempts in a row succeeds. */
  lemma RetryIsBounded(call: Call, w: World)
    ensures var r := Retry(call, w, 1);
            && r.tries <= 10 && r.slept == Triangle(r.tries) <= 45
            && (r.ok <==> exists k :: 0 <= k < 10 && Succeeds(call, w, k))
  {
    hide Retry, AfterTries;
    RetryStops(call, w, 1);
    RetrySleeps(call, w, 1);
    assert Triangle(1) == 0;
    TriangleGrows(Retry(call, w, 1).tries, 10);
    assert Triangle(4) == 6 && Triangle(7) == 21 && Triangle(10) == 45;
  }

  lemma {:induction false} TriangleGrows(m: nat, n: nat)
    requires m <= n
    ensures Triangle(m) <= Triangle(n)
  {
    if m < n { TriangleGrows(m, n - 1); }
  }

  // --- What a successful call has done ---

  /** A failed attempt changes no record; a successful one has its effect in exactly one zone. */
  lemma AttemptEffect(w: World, op: Op, zone: string, wanted: Wanted)
    ensures var a, id, r := Attempt(w, op, zone, wanted), ZoneId(w.zones, zone), wanted.Record();
            && a.w.zones == w.zones
            && (!a.ok ==> a.w.contents == w.contents)
            && (a.ok ==> && id.Some? && id.value in w.contents
                         && a.w.contents == w.contents[id.value := Apply(op, r, w.contents[id.value])])
  {
    hide ZoneId, Absolute;
    var id := ZoneId(w.zones, zone);
    if id.Some? && id.value in w.contents {
      assert w.contents == w.contents[id.value := w.contents[id.value]];
      if Has(w.contents[id.value], wanted.Record()) {
        assert w.contents[id.value] == w.contents[id.value][wanted.Record().key := wanted.Record().target];
      }
    }
  }

  /** The records of a zone after an upsert or a removal. */
  function Apply(op: Op, r: RecordSet, records: Records): Records {
    if op == Upsert then records[r.key := r.target] else if Has(records, r) then records - {r.key} else records
  }

  lemma {:induction false} RetryEffect(w: World, op: Op, zone: string, wanted: Wanted, i: nat)
    requires 1 <= i <= MAX_API_RETRIES
    ensures var a, id := Retry(CallOf(op, zone, wanted), w, i), ZoneId(w.zones, zone);
            && a.w.zones == w.zones
            && if !a.ok then a.w.contents == w.contents
               else && id.Some? && id.value in w.contents
                    && a.w.contents == w.contents[id.value := Apply(op, wanted.Record(), w.contents[id.value])]
    decreases MAX_API_RETRIES - i
  {
    hide Attempt, ZoneId, Apply;
    AttemptEffect(w, op, zone, wanted);
    var a := CallOf(op, zone, wanted)(w);
    assert a == Attempt(w, op, zone, wanted);
    if !a.ok && i < MAX_API_RETRIES { RetryEffect(a.w, op, zone, wanted, i + 1); }
  }

  /**
   * Success in both zones; and when the first zone's attempts are exhausted no zone's records have
   * changed, the second zone's included.
   */
  lemma BothZonesEffect(w: World, op: Op, domain: string, wanted: Wanted)
    ensures var a := InBothZones(w, op, domain, wanted);
            var own, parent := ZoneId(w.zones, domain + "."), ZoneId(w.zones, Parent(domain) + ".");
            && a.w.zones == w.zones
            && (!Retry(CallOf(op, domain + ".", wanted), w, 1).ok ==> !a.ok && a.w.contents == w.contents)
            && (a.ok ==>
                  && own.Some? && own.value in w.contents && parent.Some? && parent.value in w.contents
                  && a.w.contents.Keys == w.contents.Keys
                  && forall id :: id in w.contents ==>
                       a.w.contents[id] == if id == own.value || id == parent.value
                                           then Apply(op, wanted.Record(), w.contents[id]) else w.contents[id])
  {
    hide Retry, CallOf, ZoneId, Parent, Apply;
    var first := Retry(CallOf(op, domain + ".", wanted), w, 1);
    RetryEffect(w, op, domain + ".", wanted, 1);
    RetryEffect(first.w, op, Parent(domain) + ".", wanted, 1);
    ApplyTwice(op, wanted.Record(), w.contents);
  }

  lemma ApplyTwice(op: Op, r: RecordSet, contents: map<string, Records>)
    ensures forall id :: id in contents ==> Apply(op, r, Apply(op, r, contents[id])) == Apply(op, r, contents[id])
  {
  }

  /**
   * An invalid batch passes for a missing record: a removal that returned nil, whatever failed and was
   * retried, leaves an A record at the name in one of the two zones exactly if the record there had
   * another target, and leaves that one as it was.
   */
  lemma NilRemovalLeaves(w: World, domain: string, wanted: Wanted, id: string)
    requires InBothZones(w, Remove, domain, wanted).ok
    requires ZoneId(w.zones, domain + ".") == Some(id) || ZoneId(w.zones, Parent(domain) + ".") == Some(id)
    ensures var key, target := wanted.Record().key, wanted.Record().target;
            var after := InBothZones(w, Remove, domain, wanted).w.contents;
            && id in w.contents && id in after
            && (key in after[id] <==> key in w.contents[id] && w.contents[id][key] != target)
            && (key in after[id] ==> after[id] == w.contents[id])
  {
    hide InBothZones, ZoneId, Parent;
    BothZonesEffect(w, Remove, domain, wanted);
  }

  /** The same record, with or without final dots. */
  predicate SameRecord(a: Wanted, b: Wanted) {
    a.Record() == b.Record()
  }

  /**
   * Round trip: an ensure that returned nil and then a removal that returned nil, whatever failed and
   * was retried in between, leave both zones as they were without the A record of that name, and
   * every other zone untouched.
   */
  lemma EnsureThenRemove(w: World, domain: string, wanted: Wanted, later: World, wanted': Wanted)
    requires InBothZones(w, Upsert, domain, wanted).ok
    requires later.zones == w.zones && later.contents == InBothZones(w, Upsert, domain, wanted).w.contents
    requires SameRecord(wanted, wanted') && InBothZones(later, Remove, domain, wanted').ok
    ensures var contents := InBothZones(later, Remove, domain, wanted').w.contents;
            var own, parent := ZoneId(w.zones, domain + "."), ZoneId(w.zones, Parent(domain) + ".");
            && own.Some? && parent.Some? && contents.Keys == w.contents.Keys
            && forall id :: id in w.contents ==>
                 contents[id] == if id == own.value || id == parent.value
                                 then w.contents[id] - {Key(Absolute(wanted.recordName), "A")} else w.contents[id]
  {
    hide InBothZones, ZoneId, Parent;
    BothZonesEffect(w, Upsert, domain, wanted);
    BothZonesEffect(later, Remove, domain, wanted');
    var r := wanted.Record();
    forall id | id in w.contents
      ensures Apply(Remove, r, Apply(Upsert, r, w.contents[id])) == w.contents[id] - {r.key}
    {
    }
  }

  // --- Idempotence ---

  lemma FoundRecordStays(w: World, zone: string, wanted: Wanted)
    requires var id := ZoneId(w.zones, zone);
             id.Some? && id.value in w.contents && Has(w.contents[id.value], wanted.Record())
    ensures var a := UpsertA(w, zone, wanted); a.w == w.(faults := a.w.faults)
  {
    hide ZoneId, Absolute;
  }

  lemma {:induction false} RetryFindsRecord(w: World, zone: string, wanted: Wanted, i: nat)
    requires 1 <= i <= MAX_API_RETRIES
    requires var id := ZoneId(w.zones, zone);
             id.Some? && id.value in w.contents && Has(w.contents[id.value], wanted.Record())
    ensures var r := Retry(CallOf(Upsert, zone, wanted), w, i);
            r.w.zones == w.zones && r.w.contents == w.contents && r.w.submitted == w.submitted
    decreases MAX_API_RETRIES - i
  {
    hide ZoneId, Absolute, UpsertA, Has;
    var a := CallOf(Upsert, zone, wanted)(w);
    assert a == UpsertA(w, zone, wanted);
    FoundRecordStays(w, zone, wanted);
    if !a.ok && i < MAX_API_RETRIES { RetryFindsRecord(a.w, zone, wanted, i + 1); }
  }

  /** A second ensure in a row submits no change, whatever calls fail. */
  lemma SecondEnsureSubmitsNothing(w: World, domain: string, wanted: Wanted, later: World, wanted': Wanted)
    requires InBothZones(w, Upsert, domain, wanted).ok
    requires later.zones == w.zones && later.contents == InBothZones(w, Upsert, domain, wanted).w.contents
    requires SameRecord(wanted, wanted')
    ensures var again := InBothZones(later, Upsert, domain, wanted').w;
            again.submitted == later.submitted && again.contents == later.contents
  {
    BothZonesEffect(w, Upsert, domain, wanted);
    RetryFindsRecord(later, domain + ".", wanted', 1);
    RetryFindsRecord(Retry(CallOf(Upsert, domain + ".", wanted'), later, 1).w, Parent(domain) + ".", wanted', 1);
  }

  // --- The zones and the record by their text ---

  /** The first zone of exactly that name has this id. */
  ghost predicate ZoneIs(zones: seq<HostedZone>, name: string, id: string) {
    exists k :: 0 <= k < |zones| && zones[k] == HostedZone(name, id) && forall j :: 0 <= j < k ==> zones[j].name != name
  }

  lemma {:induction false} ZoneIdMeans(zones: seq<HostedZone>, name: string, id: string)
    ensures ZoneId(zones, name) == Some(id) <==> ZoneIs(zones, name, id)
  {
    if zones != [] && zones[0].name != name {
      var rest := zones[1..];
      ZoneIdMeans(rest, name, id);
      if ZoneIs(rest, name, id) {
        var k :| 0 <= k < |rest| && rest[k] == HostedZone(name, id) && forall j :: 0 <= j < k ==> rest[j].name != name;
        assert forall j :: 0 <= j < k + 1 ==> zones[j].name != name;
        assert zones[k + 1] == HostedZone(name, id);
      }
      if ZoneIs(zones, name, id) {
        var k :| 0 <= k < |zones| && zones[k] == HostedZone(name, id)
                 && forall j :: 0 <= j < k ==> zones[j].name != name;
        assert rest[k - 1] == zones[k] && forall j :: 0 <= j < k - 1 ==> rest[j] == zones[j + 1];
      }
    } else if zones != [] {
      assert ZoneIs(zones, name, zones[0].id);
    }
  }

  /** A domain of a first label and a rest. */
  predicate SplitAt(domain: string, head: string, rest: string) {
    '.' !in head && domain == head + "." + rest
  }

  lemma ParentMeans(domain: string, head: string, rest: string)
    requires SplitAt(domain, head, rest)
    ensures Parent(domain) == rest
  {
    var k := IndexOf(domain, '.').value;
    assert domain[|head|] == '.';
    forall i | 0 <= i < |head| ensures domain[i] != '.' { assert domain[i] == head[i] && head[i] in head; }
    forall i | 0 <= i < k ensures domain[i] != '.' { assert domain[..k][i] in domain[..k]; }
    assert k == |head| && domain[k + 1..] == rest;
  }

  /** The A record an attempt is about: dotted name, dotted alias. */
  function RecordKey(wanted: Wanted): Key {
    var name := wanted.recordName;
    Key(if name != "" && name[|name| - 1] == '.' then name else name + ".", "A")
  }

  function RecordTarget(wanted: Wanted): Target {
    var name := wanted.dnsName;
    Alias(if name != "" && name[|name| - 1] == '.' then name else name + ".", wanted.zoneId, wanted.evaluateHealth)
  }

  lemma RecordMeans(wanted: Wanted)
    ensures wanted.Record() == RecordSet(RecordKey(wanted), RecordTarget(wanted))
  {
    EndsInDot(wanted.recordName);
    EndsInDot(wanted.dnsName);
  }

  lemma EndsInDot(s: string)
    ensures HasSuffix(s, ".") <==> s != "" && s[|s| - 1] == '.'
  {
  }

  predicate HoldsRecord(records: Records, wanted: Wanted) {
    RecordKey(wanted) in records && records[RecordKey(wanted)] == RecordTarget(wanted)
  }

  /** The zone is found and its records can be read and written. */
  ghost predicate Usable(w: World, zone: string, id: string) {
    ZoneIs(w.zones, zone, id) && id in w.contents
  }

  /**
   * One attempt succeeds exactly if the zone is found and its calls succeed: the zones are listed; to
   * ensure, the records are listed and, unless the record is there, changed; to remove, they are changed.
   */
  lemma AttemptIff(w: World, op: Op, zone: string, wanted: Wanted)
    ensures Attempt(w, op, zone, wanted).ok
            <==> exists id :: Usable(w, zone, id)
                   && AllSucceed(w.faults, if op == Upsert && !HoldsRecord(w.contents[id], wanted) then 3 else 2)
  {
    hide ZoneId, ZoneIs, RecordKey, RecordTarget, Attempt, AllSucceed;
    AttemptCalls(w, op, zone, wanted);
    forall id ensures ZoneId(w.zones, zone) == Some(id) <==> ZoneIs(w.zones, zone, id) {
      ZoneIdMeans(w.zones, zone, id);
    }
    var id := ZoneId(w.zones, zone);
    if id.Some? { assert ZoneIs(w.zones, zone, id.value); }
  }

  lemma AttemptCalls(w: World, op: Op, zone: string, wanted: Wanted)
    ensures var id := ZoneId(w.zones, zone);
            Attempt(w, op, zone, wanted).ok
            <==> && id.Some? && id.value in w.contents
                 && AllSucceed(w.faults, if op == Upsert && !HoldsRecord(w.contents[id.value], wanted) then 3 else 2)
  {
    hide ZoneId, RecordKey, RecordTarget, Submit;
    RecordMeans(wanted);
    TwoCalls(w.faults, 0);
    TwoCalls(w.faults, 1);
    OneCall(LaterCalls(LaterCalls(w.faults)));
  }

  /**
   * What a nil return means for a domain of a first label and a rest: the zones of that name and of the
   * rest were found; after an ensure both hold exactly the wanted alias at the name, after a removal
   * neither holds it; no other record of them and no other zone has changed.
   */
  lemma BothZonesMean(w: World, op: Op, head: string, rest: string, wanted: Wanted, own: string, parent: string)
    requires '.' !in head && InBothZones(w, op, head + "." + rest, wanted).ok
    requires ZoneIs(w.zones, head + "." + rest + ".", own) && ZoneIs(w.zones, rest + ".", parent)
    ensures var after := InBothZones(w, op, head + "." + rest, wanted).w.contents;
            && own in w.contents && parent in w.contents && after.Keys == w.contents.Keys
            && (forall id :: id in {own, parent} ==> (HoldsRecord(after[id], wanted) <==> op == Upsert))
            && forall id, k: Key :: id in w.contents && (id !in {own, parent} || k != RecordKey(wanted)) ==>
                 (k in after[id] <==> k in w.contents[id]) && (k in after[id] ==> after[id][k] == w.contents[id][k])
  {
    hide InBothZones, ZoneId, Parent, RecordKey, RecordTarget, ZoneIs;
    var domain := head + "." + rest;
    ParentMeans(domain, head, rest);
    RecordMeans(wanted);
    ZoneIdMeans(w.zones, domain + ".", own);
    ZoneIdMeans(w.zones, rest + ".", parent);
    BothZonesEffect(w, op, domain, wanted);
  }

  /** Without failing calls both zones are worked on exactly if both are found. */
  lemma SucceedsIffFound(w: World, op: Op, head: string, rest: string, wanted: Wanted)
    requires '.' !in head && w.faults == []
    ensures InBothZones(w, op, head + "." + rest, wanted).ok
            <==> && (exists id :: Usable(w, head + "." + rest + ".", id))
                 && (exists id :: Usable(w, rest + ".", id))
  {
    hide ZoneId, Parent, Attempt;
    var domain := head + "." + rest;
    ParentMeans(domain, head, rest);
    FirstAttempt(w, op, domain + ".", wanted);
    FirstAttempt(w, op, rest + ".", wanted);
    var first := Retry(CallOf(op, domain + ".", wanted), w, 1);
    if first.ok {
      RetryEffect(w, op, domain + ".", wanted, 1);
      FirstAttempt(first.w, op, rest + ".", wanted);
      assert forall id :: Usable(first.w, rest + ".", id) <==> Usable(w, rest + ".", id);
    }
  }

  lemma {:induction false} FirstAttempt(w: World, op: Op, zone: string, wanted: Wanted)
    requires w.faults == []
    ensures var r := Retry(CallOf(op, zone, wanted), w, 1);
            && (r.ok <==> exists id :: Usable(w, zone, id))
            && (r.ok ==> r.w.faults == [] && r.w.zones == w.zones)
  {
    if exists id :: Usable(w, zone, id) {
      CleanAttempt(w, op, zone, wanted);
    } else {
      NeverFound(w, op, zone, wanted, 1);
    }
  }

  lemma CleanAttempt(w: World, op: Op, zone: string, wanted: Wanted)
    requires w.faults == []
    ensures var a := Attempt(w, op, zone, wanted);
            && (a.ok <==> exists id :: Usable(w, zone, id))
            && a.w.faults == [] && a.w.zones == w.zones && a.w.contents.Keys == w.contents.Keys
  {
    NoneFails(2);
    NoneFails(3);
    AttemptIff(w, op, zone, wanted);
    hide ZoneId, Absolute, Usable;
  }

  lemma {:induction false} NeverFound(w: World, op: Op, zone: string, wanted: Wanted, i: nat)
    requires 1 <= i <= MAX_API_RETRIES && w.faults == [] && !exists id :: Usable(w, zone, id)
    ensures !Retry(CallOf(op, zone, wanted), w, i).ok
    decreases MAX_API_RETRIES - i
  {
    hide Attempt;
    CleanAttempt(w, op, zone, wanted);
    var a := CallOf(op, zone, wanted)(w);
    assert a == Attempt(w, op, zone, wanted);
    assert forall id :: Usable(a.w, zone, id) <==> Usable(w, zone, id);
    if i < MAX_API_RETRIES { NeverFound(a.w, op, zone, wanted, i + 1); }
  }
}
