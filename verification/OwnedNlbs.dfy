/**
 * The AWS load balancers of a cluster: finding them by tag in batches, and removing the external API
 * one from the account and from the master machines.
 */
module OwnedNlbs {
  import opened Basics

  datatype Lb = Lb(arn: string, name: string, dnsName: string, zoneId: string, scheme: string, vpcId: string)
  datatype Tag = Tag(key: string, value: string)
  datatype TagDescription = TagDescription(arn: string, tags: seq<Tag>)

  type Tags = map<string, seq<Tag>>
  type Lbs = map<string, Lb>

  const BATCH := 20
  const SERVICE_NAME := "kubernetes.io/service-name"
  const INTERNET_FACING := "internet-facing"
  const INTERNAL := "internal"

  function ClusterKey(cluster: string): string { "kubernetes.io/cluster/" + cluster }

  function TagsOf(tags: Tags, arn: string): seq<Tag> {
    if arn in tags then tags[arn] else []
  }

  predicate Owned(tags: Tags, cluster: string, arn: string) {
    Tag(ClusterKey(cluster), "owned") in TagsOf(tags, arn)
  }

  /** `getAllTagsFromLoadBalancer`: a repeated key keeps its last value. */
  function TagMap(tags: seq<Tag>): map<string, string> {
    if tags == [] then map[] else TagMap(tags[..|tags| - 1])[tags[|tags| - 1].key := tags[|tags| - 1].value]
  }

  /** `canDeleteNlb`. */
  predicate CanDelete(tags: seq<Tag>, cluster: string) {
    var m := TagMap(tags);
    ClusterKey(cluster) in m && SERVICE_NAME !in m && "Name" in m && HasSuffix(m["Name"], "-ext")
  }

  /** What the removal is meant to delete. */
  predicate Doomed(tags: Tags, cluster: string, lb: Lb) {
    Owned(tags, cluster, lb.arn) && lb.scheme == INTERNET_FACING && CanDelete(TagsOf(tags, lb.arn), cluster)
  }

  lemma {:induction false} TagMapMeans(tags: seq<Tag>, key: string)
    ensures key in TagMap(tags) <==> exists i :: 0 <= i < |tags| && tags[i].key == key
    ensures forall i :: 0 <= i < |tags| && tags[i].key == key && (forall j :: i < j < |tags| ==> tags[j].key != key) ==>
              key in TagMap(tags) && TagMap(tags)[key] == tags[i].value
    ensures key in TagMap(tags) ==>
              exists i :: 0 <= i < |tags| && tags[i] == Tag(key, TagMap(tags)[key])
                          && forall j :: i < j < |tags| ==> tags[j].key != key
  {
    if tags != [] {
      var init, last := tags[..|tags| - 1], tags[|tags| - 1];
      TagMapMeans(init, key);
      assert TagMap(tags) == TagMap(init)[last.key := last.value];
      if last.key == key {
        assert tags[|tags| - 1] == Tag(key, TagMap(tags)[key]);
      } else if key in TagMap(tags) {
        var i :| 0 <= i < |init| && init[i] == Tag(key, TagMap(init)[key])
                 && forall j :: i < j < |init| ==> init[j].key != key;
        assert tags[i] == init[i] && forall j :: i < j < |tags| ==> tags[j].key != key;
      }
    }
  }

  /**
   * Which load balancers are doomed, tag by tag: internet-facing; tagged as owned by the cluster; not
   * tagged with a service name; and the last Name tag ends in `-ext`.
   */
  lemma DoomedMeans(tags: Tags, cluster: string, lb: Lb)
    ensures Doomed(tags, cluster, lb) <==>
              && lb.arn in tags && lb.scheme == "internet-facing"
              && Tag("kubernetes.io/cluster/" + cluster, "owned") in tags[lb.arn]
              && (forall t :: t in tags[lb.arn] ==> t.key != "kubernetes.io/service-name")
              && LastNameIsExternal(tags[lb.arn])
    ensures InternalApi(tags, cluster, lb) <==>
              && lb.arn in tags && lb.scheme == "internal"
              && Tag("kubernetes.io/cluster/" + cluster, "owned") in tags[lb.arn]
              && Tag("Name", cluster + "-int") in tags[lb.arn]
  {
    hide CanDelete, LastNameIsExternal;
    if Owned(tags, cluster, lb.arn) { CanDeleteMeans(tags[lb.arn], cluster); }
  }

  lemma CanDeleteMeans(list: seq<Tag>, cluster: string)
    requires Tag("kubernetes.io/cluster/" + cluster, "owned") in list
    ensures CanDelete(list, cluster)
            <==> (forall t :: t in list ==> t.key != "kubernetes.io/service-name") && LastNameIsExternal(list)
  {
    hide TagMap, LastNameIsExternal, HasSuffix;
    KeyMeans(list, "kubernetes.io/cluster/" + cluster);
    KeyMeans(list, "kubernetes.io/service-name");
    NameMeans(list);
  }

  lemma KeyMeans(tags: seq<Tag>, key: string)
    ensures key in TagMap(tags) <==> exists t :: t in tags && t.key == key
  {
    hide TagMap;
    TagMapMeans(tags, key);
    if i :| 0 <= i < |tags| && tags[i].key == key { assert tags[i] in tags; }
  }

  lemma NameMeans(tags: seq<Tag>)
    ensures "Name" in TagMap(tags) && HasSuffix(TagMap(tags)["Name"], "-ext") <==> LastNameIsExternal(tags)
  {
    hide TagMap;
    TagMapMeans(tags, "Name");
    if "Name" in TagMap(tags) && HasSuffix(TagMap(tags)["Name"], "-ext") {
      var i :| 0 <= i < |tags| && tags[i] == Tag("Name", TagMap(tags)["Name"])
               && forall j :: i < j < |tags| ==> tags[j].key != "Name";
      assert EndsInExt(tags[i].value) && LastOf(tags, i, "Name");
    }
  }

  predicate LastOf(tags: seq<Tag>, i: nat, key: string)
    requires i < |tags|
  {
    tags[i].key == key && forall j :: i < j < |tags| ==> tags[j].key != key
  }

  predicate EndsInExt(s: string) {
    |s| >= 4 && s[|s| - 4..] == "-ext"
  }

  predicate LastNameIsExternal(tags: seq<Tag>) {
    exists i :: 0 <= i < |tags| && EndsInExt(tags[i].value) && LastOf(tags, i, "Name")
  }

  function Flatten<T>(batches: seq<seq<T>>): seq<T> {
    if batches == [] then [] else Flatten(batches[..|batches| - 1]) + batches[|batches| - 1]
  }

  lemma FlattenOneMore<T>(batches: seq<seq<T>>, batch: seq<T>)
    ensures Flatten(batches + [batch]) == Flatten(batches) + batch
  {
    assert (batches + [batch])[..|batches|] == batches;
  }

  predicate Batched(batches: seq<seq<string>>) {
    forall i :: 0 <= i < |batches| ==> 1 <= |batches[i]| <= BATCH
  }

  /** The load balancer list of a machine; None when its provider spec has none. */
  type LbList = Option<seq<string>>

  function Names(list: LbList): seq<string> {
    if list.None? then [] else list.value
  }

  /**
   * The closure submits a patch when the filtered list differs from the old one. A missing list always
   * differs, because the filtered one is never nil.
   */
  predicate Patches(snapshot: LbList, name: string) {
    snapshot.None? || name in snapshot.value
  }

  /**
   * One machine after one call of the removal closure. The new list is computed from the snapshot
   * taken before the loop, and the patch replaces the machine's whole list with it.
   */
  function AfterClosure(current: LbList, snapshot: LbList, name: string): LbList {
    if Patches(snapshot, name) then Some(Without(Names(snapshot), name)) else current
  }

  function AfterClosures(snapshot: LbList, names: seq<string>): LbList {
    if names == [] then snapshot
    else AfterClosure(AfterClosures(snapshot, names[..|names| - 1]), snapshot, names[|names| - 1])
  }

  /** Every machine is as the closures for `names` leave it. */
  ghost predicate ClosedAfter(machines: map<string, LbList>, snapshot: map<string, LbList>, names: seq<string>) {
    && machines.Keys == snapshot.Keys
    && forall x :: x in snapshot ==> machines[x] == AfterClosures(snapshot[x], names)
  }

  /** The same, except that the closure for the last name may have stopped at any machine. */
  ghost predicate PartlyClosed(machines: map<string, LbList>, snapshot: map<string, LbList>, names: seq<string>) {
    && machines.Keys == snapshot.Keys
    && forall x :: x in snapshot ==>
         || machines[x] == AfterClosures(snapshot[x], names)
         || (names != [] && machines[x] == AfterClosures(snapshot[x], names[..|names| - 1]))
  }

  /** One call of the closure took the machines from `before` to `after`; unfinished, it missed some. */
  ghost predicate ClosureRan(before: map<string, LbList>, after: map<string, LbList>, snapshot: map<string, LbList>,
                             name: string, finished: bool) {
    && after.Keys == before.Keys
    && forall x :: x in after && x in snapshot ==>
         after[x] == AfterClosure(before[x], snapshot[x], name) || (!finished && after[x] == before[x])
  }

  lemma NextClosure(before: map<string, LbList>, after: map<string, LbList>, snapshot: map<string, LbList>,
                    names: seq<string>, name: string, finished: bool)
    requires ClosedAfter(before, snapshot, names) && ClosureRan(before, after, snapshot, name, finished)
    ensures PartlyClosed(after, snapshot, names + [name]) && after.Keys == snapshot.Keys
    ensures finished ==> ClosedAfter(after, snapshot, names + [name])
  {
    hide AfterClosure;
    assert (names + [name])[..|names|] == names;
  }

  /** The load balancer made for internal API traffic. */
  predicate InternalApi(tags: Tags, cluster: string, lb: Lb) {
    lb.scheme == INTERNAL && Owned(tags, cluster, lb.arn) && Tag("Name", cluster + "-int") in TagsOf(tags, lb.arn)
  }

  /** `names` are the names of the load balancers that were there and are not now. */
  ghost predicate NamesOfGone(names: seq<string>, was: Lbs, now: Lbs) {
    forall n :: n in names <==> exists a :: a in was && a !in now && was[a].name == n
  }

  lemma DoomedAreOwned(tags: Tags, cluster: string, lbs: Lbs)
    ensures forall a :: a in lbs && Doomed(tags, cluster, lbs[a]) ==> Owned(tags, cluster, lbs[a].arn)
  {
  }

  lemma InternalIsNotDoomed(tags: Tags, cluster: string, lbs: Lbs)
    ensures forall a :: a in lbs && InternalApi(tags, cluster, lbs[a]) ==> !Doomed(tags, cluster, lbs[a])
  {
  }

  lemma ClosedIsPartly(machines: map<string, LbList>, snapshot: map<string, LbList>, names: seq<string>)
    ensures ClosedAfter(machines, snapshot, names) ==> PartlyClosed(machines, snapshot, names)
  {
  }

  lemma NothingGone(lbs: Lbs, machines: map<string, LbList>)
    ensures NamesOfGone([], lbs, lbs) && ClosedAfter(machines, machines, [])
  {
  }

  /** Of the load balancers `was`, exactly the doomed ones among `seen` are gone. */
  ghost predicate DoomedAreGone(was: Lbs, now: Lbs, tags: Tags, cluster: string, seen: seq<Lb>) {
    && now.Keys <= was.Keys
    && forall a :: a in was ==>
         if a in now then now[a] == was[a] && (was[a] in seen ==> !Doomed(tags, cluster, was[a]))
         else was[a] in seen && Doomed(tags, cluster, was[a])
  }

  lemma OneMoreSeen(was: Lbs, now: Lbs, tags: Tags, cluster: string, seen: seq<Lb>, lb: Lb)
    requires DoomedAreGone(was, now, tags, cluster, seen)
    requires (forall a :: a in was ==> was[a].arn == a) && lb.arn in was && was[lb.arn] == lb
    ensures DoomedAreGone(was, if Doomed(tags, cluster, lb) then now - {lb.arn} else now, tags, cluster, seen + [lb])
  {
    hide Doomed;
  }

  lemma StillThere(was: Lbs, now: Lbs, tags: Tags, cluster: string, seen: seq<Lb>, lb: Lb)
    requires DoomedAreGone(was, now, tags, cluster, seen) && lb !in seen && lb.arn in was && was[lb.arn] == lb
    ensures lb.arn in now && now[lb.arn] == lb
  {
  }

  lemma NothingSeen(lbs: Lbs, tags: Tags, cluster: string)
    ensures DoomedAreGone(lbs, lbs, tags, cluster, [])
  {
  }

  lemma GoneMeans(was: Lbs, now: Lbs, tags: Tags, cluster: string, seen: seq<Lb>)
    requires DoomedAreGone(was, now, tags, cluster, seen)
    ensures forall a :: a in now ==> a in was && now[a] == was[a]
    ensures forall a :: a in was && a !in now ==> Doomed(tags, cluster, was[a])
    ensures forall a :: a in was && was[a] in seen && Doomed(tags, cluster, was[a]) ==> a !in now
  {
  }

  /** No two load balancers are doomed. */
  ghost predicate OneDoomed(tags: Tags, cluster: string, lbs: Lbs) {
    forall a, b :: a in lbs && b in lbs && Doomed(tags, cluster, lbs[a]) && Doomed(tags, cluster, lbs[b]) ==> a == b
  }

  /** A machine set that is not put back is there until the first removal, of `first`, and no second one works. */
  ghost predicate SetTracks(active: bool, restored: bool, machineSet: Option<bool>, removed: seq<string>, first: string,
                            was: Lbs, now: Lbs) {
    active ==>
      && (restored ==> machineSet.Some?)
      && (!restored ==>
            && (machineSet.Some? <==> removed == [])
            && now == (if removed == [] then was else was - {first})
            && (removed != [] ==> first in was))
  }

  lemma SetUntouched(active: bool, restored: bool, machineSet: Option<bool>, lbs: Lbs)
    requires active ==> machineSet.Some?
    ensures SetTracks(active, restored, machineSet, [], "", lbs, lbs)
  {
  }

  /** The next removal: it works and the set is deleted, or there is a second doomed one. */
  lemma SetNext(active: bool, restored: bool, machineSet: Option<bool>, removed: seq<string>, first: string, was: Lbs,
                now: Lbs, tags: Tags, cluster: string, seen: seq<Lb>, lb: Lb)
    requires SetTracks(active, restored, machineSet, removed, first, was, now)
    requires DoomedAreGone(was, now, tags, cluster, seen)
    requires lb.arn in now && now[lb.arn] == lb && Doomed(tags, cluster, lb)
    ensures var first' := if removed == [] then lb.arn else first;
            var set' := if restored then Some(false) else None;
            !active || machineSet.Some? ==>
              SetTracks(active, restored, if active then set' else machineSet, removed + [lb.name], first', was,
                        now - {lb.arn})
    ensures active && machineSet.None? ==> !restored && !OneDoomed(tags, cluster, was)
  {
    hide Doomed;
    if active && machineSet.None? && !restored {
      assert first in was && first !in now && Doomed(tags, cluster, was[first]) && first != lb.arn;
      assert was[lb.arn] == lb;
    }
  }

  /** If all doomed ones are gone and the set was not put back, there was at most one. */
  lemma AllGoneMeans(active: bool, restored: bool, machineSet: Option<bool>, removed: seq<string>, first: string,
                     was: Lbs, now: Lbs, tags: Tags, cluster: string, seen: seq<Lb>)
    requires SetTracks(active, restored, machineSet, removed, first, was, now)
    requires forall a :: a in was && was[a] in seen && Doomed(tags, cluster, was[a]) ==> a !in now
    requires forall a :: a in was && Doomed(tags, cluster, was[a]) ==> was[a] in seen
    ensures active && !restored ==> OneDoomed(tags, cluster, was)
  {
    hide Doomed;
  }

  lemma OneMoreGone(names: seq<string>, was: Lbs, now: Lbs, arn: string)
    requires NamesOfGone(names, was, now) && arn in was && arn in now
    ensures NamesOfGone(names + [was[arn].name], was, now - {arn})
  {
    forall n ensures n in names + [was[arn].name] <==> exists a :: a in was && a !in now - {arn} && was[a].name == n {
    }
  }

  /**
   * Because every call starts again from the snapshot, the machine is rid of all removed load
   * balancers exactly when at most one of them was on its list; a second brings the first back.
   */
  lemma {:induction false} MachineIsCleanIff(snapshot: LbList, names: seq<string>)
    ensures (forall x :: x in names ==> x !in Names(AfterClosures(snapshot, names)))
            <==> (forall x, y :: x in names && y in names && x in Names(snapshot) && y in Names(snapshot) ==> x == y)
  {
    var list := Names(snapshot);
    LastOneWins(snapshot, names);
    if exists x :: x in names && x in list {
      var last :| last in names && last in list && Names(AfterClosures(snapshot, names)) == Without(list, last);
      assert forall x :: x in names && x in list && x != last ==> x in Names(AfterClosures(snapshot, names));
    }
  }

  lemma {:induction false} LastOneWins(snapshot: LbList, names: seq<string>)
    ensures var list, after := Names(snapshot), Names(AfterClosures(snapshot, names));
            if exists x :: x in names && x in list
            then exists last :: last in names && last in list && after == Without(list, last)
            else after == list
  {
    if names != [] {
      var init, final := names[..|names| - 1], names[|names| - 1];
      assert forall x :: x in names <==> x in init || x == final;
      LastOneWins(snapshot, init);
    }
  }

  /** Two removals from a machine that was behind both: the second brings the first one back. */
  lemma SecondRemovalUndoesTheFirst()
    ensures AfterClosures(Some(["a", "b"]), ["a"]) == Some(["b"])
    ensures AfterClosures(Some(["a", "b"]), ["a", "b"]) == Some(["a"])
  {
    var list := Some(["a", "b"]);
    assert Without(["b"], "a") == ["b"] && Without(["b"], "b") == [];
    assert Without(["a", "b"], "a") == ["b"] && Without(["a", "b"], "b") == ["a"];
    assert AfterClosure(list, list, "a") == Some(["b"]);
    assert AfterClosures(list, ["a"]) == AfterClosure(AfterClosures(list, []), list, "a");
    assert ["a", "b"][..1] == ["a"];
  }

  class Account {
    var live: Lbs
    var tags: Tags
    var machines: map<string, LbList>
    /** The ARNs of every DescribeTags request, in order. */
    var asked: seq<seq<string>>
    var faults: seq<bool>
    /** How many calls have failed. */
    var failed: nat

    /**
     * Whether the control plane machine set is active, None if there is none; and whether its own
     * operator has put a deleted one back, inactive, before the next call.
     */
    var machineSet: Option<bool>
    const restored: bool

    function AfterSetDeleted(): Option<bool> {
      if restored then Some(false) else None
    }

    /** No later call fails. */
    ghost predicate Calm()
      reads this`faults
    {
      true !in faults
    }

    ghost predicate Valid()
      reads this
    {
      forall a :: a in live ==> live[a].arn == a
    }

    constructor (live: Lbs, tags: Tags, machines: map<string, LbList>, machineSet: Option<bool>, restored: bool,
                 faults: seq<bool>)
      requires forall a :: a in live ==> live[a].arn == a
      ensures Valid() && this.live == live && this.tags == tags && this.machines == machines && asked == []
      ensures this.machineSet == machineSet && this.restored == restored && this.faults == faults && failed == 0
    {
      this.machineSet, this.restored := machineSet, restored;
      this.live, this.tags, this.machines, this.faults, asked, failed := live, tags, machines, faults, [], 0;
    }

    method Call() returns (ok: bool)
      modifies this`faults, this`failed
      ensures old(Calm()) ==> ok && Calm()
      ensures failed == old(failed) + if ok then 0 else 1
    {
      ok := !CallFails(faults);
      if !ok { failed := failed + 1; }
      faults := LaterCalls(faults);
    }

    /** Any paging of the account's load balancers. */
    method AnyPaging() returns (pages: seq<seq<Lb>>)
      requires Valid()
      ensures forall lb :: lb in Flatten(pages) <==> lb.arn in live && live[lb.arn] == lb
    {
      pages := [];
      var rest := live.Keys;
      while rest != {}
        invariant rest <= live.Keys
        invariant forall lb :: lb in Flatten(pages) <==> lb.arn in live && lb.arn !in rest && live[lb.arn] == lb
        decreases |rest|
      {
        hide Flatten;
        var arn :| arn in rest;
        FlattenOneMore(pages, [live[arn]]);
        pages, rest := pages + [[live[arn]]], rest - {arn};
      }
    }

    method DescribeLoadBalancersPages() returns (ok: bool, pages: seq<seq<Lb>>)
      requires Valid()
      modifies this`faults, this`failed
      ensures old(Calm()) ==> ok && Calm()
      ensures failed == old(failed) + if ok then 0 else 1
      ensures ok ==> forall lb :: lb in Flatten(pages) <==> lb.arn in live && live[lb.arn] == lb
    {
      pages := AnyPaging();
      ok := Call();
    }

    method DescribeTags(arns: seq<string>) returns (ok: bool, descriptions: seq<TagDescription>)
      modifies this`faults, this`failed, this`asked
      ensures old(Calm()) ==> ok && Calm()
      ensures failed == old(failed) + if ok then 0 else 1
      ensures asked == old(asked) + [arns]
      ensures ok ==> forall d :: d in descriptions <==> d.arn in arns && d.tags == TagsOf(tags, d.arn)
    {
      asked := asked + [arns];
      descriptions := [];
      for i := 0 to |arns|
        invariant forall d :: d in descriptions <==> d.arn in arns[..i] && d.tags == TagsOf(tags, d.arn)
      {
        descriptions := descriptions + [TagDescription(arns[i], TagsOf(tags, arns[i]))];
      }
      ok := Call();
    }

    /** Drops from the map every described load balancer that lacks the owned tag. */
    method KeepOwned(found: Lbs, cluster: string, descriptions: seq<TagDescription>) returns (kept: Lbs)
      ensures kept.Keys <= found.Keys && forall a :: a in kept ==> kept[a] == found[a]
      ensures forall a :: a in found ==>
                (a in kept <==> forall d :: d in descriptions && d.arn == a ==>
                    Tag(ClusterKey(cluster), "owned") in d.tags)
    {
      kept := found;
      for i := 0 to |descriptions|
        invariant kept.Keys <= found.Keys && forall a :: a in kept ==> kept[a] == found[a]
        invariant forall a :: a in found ==>
                    (a in kept <==> forall d :: d in descriptions[..i] && d.arn == a ==>
                        Tag(ClusterKey(cluster), "owned") in d.tags)
      {
        var d := descriptions[i];
        assert forall x :: x in descriptions[..i + 1] <==> x in descriptions[..i] || x == d;
        if Tag(ClusterKey(cluster), "owned") !in d.tags {
          kept := kept - {d.arn};
        }
      }
    }

    /** The page callback: every ARN into a slice, every load balancer into a map by ARN. */
    method Collect(pages: seq<seq<Lb>>) returns (arns: seq<string>, found: Lbs)
      ensures forall a :: a in arns <==> a in found
      ensures forall lb :: lb in Flatten(pages) ==> lb.arn in found
      ensures forall a :: a in found ==> found[a].arn == a && found[a] in Flatten(pages)
    {
      arns, found := [], map[];
      for p := 0 to |pages|
        invariant forall a :: a in arns <==> a in found
        invariant forall lb :: lb in Flatten(pages[..p]) ==> lb.arn in found
        invariant forall a :: a in found ==> found[a].arn == a && found[a] in Flatten(pages[..p])
      {
        assert pages[..p + 1] == pages[..p] + [pages[p]];
        FlattenOneMore(pages[..p], pages[p]);
        for k := 0 to |pages[p]|
          invariant forall a :: a in arns <==> a in found
          invariant forall lb :: lb in Flatten(pages[..p]) + pages[p][..k] ==> lb.arn in found
          invariant forall a :: a in found ==> found[a].arn == a && found[a] in Flatten(pages[..p]) + pages[p][..k]
        {
          var lb := pages[p][k];
          assert forall x :: x in pages[p][..k + 1] <==> x in pages[p][..k] || x == lb;
          arns := arns + [lb.arn];
          found := found[lb.arn := lb];
        }
        assert pages[p][..|pages[p]|] == pages[p];
      }
      assert pages[..|pages|] == pages;
    }

    /** Asks for the tags of up to twenty load balancers at a time and keeps the owned ones. */
    method KeepOwnedInBatches(cluster: string, arns: seq<string>, all: Lbs)
      returns (ok: bool, kept: Lbs, ghost batches: seq<seq<string>>)
      requires forall a :: a in arns <==> a in all
      modifies this`faults, this`failed, this`asked
      ensures old(Calm()) ==> ok && Calm()
      ensures failed == old(failed) + if ok then 0 else 1
      ensures asked == old(asked) + batches && Batched(batches)
      ensures kept.Keys <= all.Keys && forall a :: a in kept ==> kept[a] == all[a]
      ensures ok ==> Flatten(batches) == arns && forall a :: a in all ==> (a in kept <==> Owned(tags, cluster, a))
    {
      ok, kept, batches := true, all, [];
      assert asked == old(asked) + batches;
      var i := 0;
      while i < |arns|
        invariant ok && failed == old(failed) && (old(Calm()) ==> Calm())
        invariant 0 <= i && Batched(batches) && asked == old(asked) + batches
        invariant Flatten(batches) == arns[..if i < |arns| then i else |arns|]
        invariant kept.Keys <= all.Keys && forall a :: a in kept ==> kept[a] == all[a]
        invariant forall a :: a in all ==> (a in kept <==> a !in Flatten(batches) || Owned(tags, cluster, a))
      {
        hide Owned, TagsOf, Flatten;
        var end := if i + BATCH > |arns| then |arns| else i + BATCH;
        var batch, descriptions := arns[i..end], [];
        FlattenOneMore(batches, batch);
        assert arns[..i] + batch == arns[..end];
        ok, descriptions := DescribeTags(batch);
        batches := batches + [batch];
        if !ok {
          return;
        }
        ghost var before := kept;
        kept := KeepOwned(kept, cluster, descriptions);
        forall a | a in before ensures a in kept <==> a !in batch || Owned(tags, cluster, a) {
          if a in batch { assert TagDescription(a, TagsOf(tags, a)) in descriptions; }
        }
        i := i + BATCH;
      }
      assert arns[..|arns|] == arns;
    }

    /** `listOwnedNLBs`: exactly the owned load balancers, each once, whatever the paging. */
    method ListOwnedNlbs(cluster: string)
      returns (ok: bool, nlbs: seq<Lb>, ghost arns: seq<string>, ghost batches: seq<seq<string>>)
      requires Valid()
      modifies this`faults, this`failed, this`asked
      ensures old(Calm()) ==> ok && Calm()
      ensures failed == old(failed) + if ok then 0 else 1
      ensures ok ==> forall lb :: lb in nlbs <==> lb.arn in live && live[lb.arn] == lb && Owned(tags, cluster, lb.arn)
      ensures ok ==> forall i, j :: 0 <= i < j < |nlbs| ==> nlbs[i] != nlbs[j]
      ensures !ok ==> nlbs == []
      ensures asked == old(asked) + batches && Batched(batches)
      ensures ok ==> Flatten(batches) == arns && forall a :: a in arns <==> a in live
    {
      nlbs, arns, batches := [], [], [];
      assert asked == old(asked) + batches;
      ok := Call();
      if !ok {
        return;
      }
      var pages: seq<seq<Lb>>;
      ok, pages := DescribeLoadBalancersPages();
      if !ok {
        return;
      }
      var resourceArns, found := Collect(pages);
      forall a ensures a in found <==> a in live && found[a] == live[a] {
        if a in live { assert live[a] in Flatten(pages); }
      }
      arns := resourceArns;
      ok, found, batches := KeepOwnedInBatches(cluster, resourceArns, found);
      if ok {
        nlbs := Values(found);
      }
    }

    /** The values of the map in any order. */
    method Values(found: Lbs) returns (lbs: seq<Lb>)
      requires forall a :: a in found ==> found[a].arn == a
      ensures forall lb :: lb in lbs <==> lb.arn in found && found[lb.arn] == lb
      ensures forall i, j :: 0 <= i < j < |lbs| ==> lbs[i] != lbs[j]
    {
      lbs := [];
      var rest := found.Keys;
      while rest != {}
        invariant rest <= found.Keys
        invariant forall lb :: lb in lbs <==> lb.arn in found && lb.arn !in rest && found[lb.arn] == lb
        invariant forall i, j :: 0 <= i < j < |lbs| ==> lbs[i] != lbs[j]
        decreases |rest|
      {
        var arn :| arn in rest;
        lbs, rest := lbs + [found[arn]], rest - {arn};
      }
    }

    /** `canDeleteNlb`, with its own request for the load balancer's tags. */
    method CanDeleteNlb(lb: Lb, cluster: string) returns (ok: bool, can: bool)
      modifies this`faults, this`failed, this`asked
      ensures old(Calm()) ==> ok && Calm()
      ensures failed == old(failed) + if ok then 0 else 1
      ensures ok ==> (can <==> CanDelete(TagsOf(tags, lb.arn), cluster))
    {
      var descriptions;
      can := false;
      ok, descriptions := DescribeTags([lb.arn]);
      if ok {
        var m: map<string, string> := map[];
        assert TagDescription(lb.arn, TagsOf(tags, lb.arn)) in descriptions;
        for i := 0 to |descriptions|
          invariant failed == old(failed) && (old(Calm()) ==> Calm())
          invariant m == if i == 0 then map[] else TagMap(TagsOf(tags, lb.arn))
        {
          assert descriptions[i] in descriptions;
          m := CopyTags(m, descriptions[i].tags);
          CopyTwice(map[], descriptions[i].tags);
        }
        can := ClusterKey(cluster) in m && SERVICE_NAME !in m && "Name" in m && HasSuffix(m["Name"], "-ext");
      }
    }

    method CopyTags(m0: map<string, string>, tags: seq<Tag>) returns (m: map<string, string>)
      ensures m == m0 + TagMap(tags)
    {
      m := m0;
      for i := 0 to |tags|
        invariant m == m0 + TagMap(tags[..i])
      {
        assert tags[..i + 1][..i] == tags[..i];
        m := m[tags[i].key := tags[i].value];
      }
      assert tags[..|tags|] == tags;
    }

    lemma CopyTwice(m: map<string, string>, tags: seq<Tag>)
      ensures map[] + TagMap(tags) == TagMap(tags) && TagMap(tags) + TagMap(tags) == TagMap(tags)
    {
    }

    method DeleteLoadBalancer(arn: string) returns (ok: bool)
      modifies this`faults, this`failed, this`live
      ensures old(Calm()) ==> ok && Calm()
      ensures failed == old(failed) + if ok then 0 else 1
      ensures live == if ok then old(live) - {arn} else old(live)
    {
      ok := Call();
      if ok { live := live - {arn}; }
    }

    /** `removeAWSLBFromMasterMachines` on the snapshot of the machine list. */
    method RemoveFromMachines(snapshot: map<string, LbList>, name: string) returns (ok: bool)
      requires machines.Keys == snapshot.Keys
      modifies this`faults, this`failed, this`machines
      ensures old(Calm()) ==> ok && Calm()
      ensures failed == old(failed) + if ok then 0 else 1
      ensures ClosureRan(old(machines), machines, snapshot, name, ok)
    {
      hide Without;
      var order := RangeOrder(snapshot.Keys);
      ok := true;
      for i := 0 to |order|
        invariant ok && failed == old(failed) && (old(Calm()) ==> Calm())
        invariant machines.Keys == snapshot.Keys
        invariant forall x :: x in snapshot ==>
                    machines[x] == if x in order[..i] then AfterClosure(old(machines)[x], snapshot[x], name)
                                   else old(machines)[x]
      {
        var x := order[i];
        assert x in order && x !in order[..i];
        if Patches(snapshot[x], name) {
          ok := Call();
          if !ok {
            return;
          }
          machines := machines[x := Some(Without(Names(snapshot[x]), name))];
        }
      }
    }

    /** Deleting the control plane machine set fails if it is gone already. */
    method DeleteMachineSet() returns (ok: bool)
      modifies this`faults, this`failed, this`machineSet
      ensures old(Calm()) ==> (ok <==> old(machineSet).Some?) && Calm()
      ensures ok ==> old(machineSet).Some?
      ensures failed == old(failed) + if ok then 0 else 1
      ensures machineSet == if ok then AfterSetDeleted() else old(machineSet)
    {
      ok := Call();
      if ok && machineSet.None? {
        ok, failed := false, failed + 1;
      }
      if ok { machineSet := AfterSetDeleted(); }
    }

    /** The removal closure: a machine set that was active before the loop is deleted first, each time. */
    method RemovalClosure(cpmsActive: bool, snapshot: map<string, LbList>, name: string) returns (ok: bool)
      requires machines.Keys == snapshot.Keys
      modifies this`faults, this`failed, this`machines, this`machineSet
      ensures old(Calm()) ==> (ok <==> !cpmsActive || old(machineSet).Some?) && Calm()
      ensures ok && cpmsActive ==> old(machineSet).Some?
      ensures ok ==> machineSet == if cpmsActive then AfterSetDeleted() else old(machineSet)
      ensures failed == old(failed) + if ok then 0 else 1
      ensures ClosureRan(old(machines), machines, snapshot, name, ok)
    {
      ok := true;
      if cpmsActive {
        ok := DeleteMachineSet();
      }
      if ok {
        ok := RemoveFromMachines(snapshot, name);
      }
    }

    /** `getInteralAPINLB`: without a failing call, None means that there is none. */
    method GetInternalApiNlb(cluster: string) returns (nlb: Option<Lb>)
      requires Valid()
      modifies this`faults, this`failed, this`asked
      ensures old(Calm()) ==> failed == old(failed) && Calm()
      ensures old(failed) <= failed <= old(failed) + 1
      ensures nlb.Some? ==> && nlb.value.arn in live && live[nlb.value.arn] == nlb.value
                            && InternalApi(tags, cluster, nlb.value)
      ensures nlb.Some? <==> failed == old(failed) && exists a :: a in live && InternalApi(tags, cluster, live[a])
    {
      hide Owned, TagsOf, Flatten, Batched;
      var named := Call();
      if !named {
        return None;
      }
      var ok, nlbs, _, _ := ListOwnedNlbs(cluster);
      for i := 0 to |nlbs|
        invariant failed == old(failed) + if ok then 0 else 1
        invariant old(Calm()) ==> ok && Calm()
        invariant forall lb :: lb in nlbs[..i] ==> !InternalApi(tags, cluster, lb)
      {
        var lb := nlbs[i];
        assert ok && lb in nlbs;
        assert forall x :: x in nlbs[..i + 1] <==> x in nlbs[..i] || x == lb;
        if lb.scheme == INTERNAL {
          var described, descriptions := DescribeTags([lb.arn]);
          if !described {
            return None;
          }
          for k := 0 to |descriptions|
            invariant forall d :: d in descriptions[..k] ==> Tag("Name", cluster + "-int") !in d.tags
          {
            assert descriptions[k] in descriptions;
            if Tag("Name", cluster + "-int") in descriptions[k].tags {
              return Some(lb);
            }
          }
          assert TagDescription(lb.arn, TagsOf(tags, lb.arn)) in descriptions[..|descriptions|];
        }
      }
      assert nlbs[..|nlbs|] == nlbs;
      return None;
    }

    /** What is read before the loop: the owned load balancers, the machines, the machine set. */
    method Prepare(cluster: string) returns (ok: bool, nlbs: seq<Lb>, cpmsActive: bool)
      requires Valid()
      modifies this`faults, this`failed, this`asked
      ensures old(Calm()) ==> ok && Calm()
      ensures failed == old(failed) + if ok then 0 else 1
      ensures ok ==> forall lb :: lb in nlbs <==> lb.arn in live && live[lb.arn] == lb && Owned(tags, cluster, lb.arn)
      ensures ok ==> forall i, j :: 0 <= i < j < |nlbs| ==> nlbs[i] != nlbs[j]
      ensures cpmsActive == (machineSet == Some(true))
    {
      nlbs, cpmsActive := [], machineSet == Some(true);
      ok := Call();
      if ok {
        var listed, owned, _, _ := ListOwnedNlbs(cluster);
        ok, nlbs := listed, owned;
        if ok {
          ok := Call();
          if ok {
            ok := Call();
          }
        }
      }
    }

    /** One turn of the loop over the owned load balancers. */
    method RemoveIfDoomed(lb: Lb, cluster: string, cpmsActive: bool, snapshot: map<string, LbList>)
      returns (ok: bool, deleted: bool)
      requires Valid() && lb.arn in live && live[lb.arn] == lb && Owned(tags, cluster, lb.arn)
      requires machines.Keys == snapshot.Keys
      modifies this`faults, this`failed, this`asked, this`live, this`machines, this`machineSet
      ensures old(Calm()) ==> (ok <==> !deleted || !cpmsActive || old(machineSet).Some?) && Calm()
      ensures ok && deleted && cpmsActive ==> old(machineSet).Some?
      ensures ok ==> machineSet == if deleted && cpmsActive then AfterSetDeleted() else old(machineSet)
      ensures failed == old(failed) + if ok then 0 else 1
      ensures deleted ==> Doomed(tags, cluster, lb)
      ensures ok && Doomed(tags, cluster, lb) ==> deleted
      ensures live == if deleted then old(live) - {lb.arn} else old(live)
      ensures if deleted then ClosureRan(old(machines), machines, snapshot, lb.name, ok) else machines == old(machines)
    {
      hide CanDelete, Owned, AfterClosure, ClosureRan;
      ok, deleted := true, false;
      if lb.scheme == INTERNET_FACING {
        var can;
        ok, can := CanDeleteNlb(lb, cluster);
        if ok && can {
          ok := DeleteLoadBalancer(lb.arn);
          if ok {
            deleted := true;
            ok := RemovalClosure(cpmsActive, snapshot, lb.name);
          }
        }
      }
    }

    /**
     * `removeLoadBalancerFromMasterNodes`. If no call fails it deletes exactly the doomed load
     * balancers, and finds the internal one iff there is one; an error leaves some doomed ones. No
     * other load balancer goes. `removed` names what is gone, in order; the machines are as the
     * closures for it leave them, where the last closure may be unfinished after an error. An active
     * machine set is deleted once for each load balancer, so unless it is put back in between, no
     * failing call is needed for the second one to fail.
     */
    method RemoveLoadBalancerFromMasterNodes(cluster: string) returns (nlb: Option<Lb>, ghost removed: seq<string>)
      requires Valid()
      modifies this
      ensures Valid() && tags == old(tags)
      ensures old(Calm()) ==>
                && Calm()
                && (failed == old(failed) <==>
                      old(machineSet) != Some(true) || restored || OneDoomed(tags, cluster, old(live)))
      ensures forall a :: a in live ==> a in old(live) && live[a] == old(live)[a]
      ensures forall a :: a in old(live) && a !in live ==> Doomed(tags, cluster, old(live)[a])
      ensures failed == old(failed) ==> forall a :: a in old(live) && Doomed(tags, cluster, old(live)[a]) ==> a !in live
      ensures nlb.Some? <==> && failed == old(failed)
                             && exists a :: a in old(live) && InternalApi(tags, cluster, old(live)[a])
      ensures nlb.Some? ==> && nlb.value.arn in live && live[nlb.value.arn] == nlb.value
                            && InternalApi(tags, cluster, nlb.value)
      ensures NamesOfGone(removed, old(live), live)
      ensures PartlyClosed(machines, old(machines), removed)
      ensures failed == old(failed) ==> ClosedAfter(machines, old(machines), removed)
    {
      hide Doomed, CanDelete, Owned, AfterClosure, AfterClosures, NamesOfGone, InternalApi, Calm, OneDoomed;
      hide ClosedAfter, PartlyClosed, ClosureRan, Flatten, Batched, SetTracks, DoomedAreGone;
      nlb, removed := None, [];
      NothingGone(live, machines);
      DoomedAreOwned(tags, cluster, live);
      var snapshot := machines;
      var ok, nlbs, cpmsActive := Prepare(cluster);
      if !ok {
        ClosedIsPartly(machines, snapshot, removed);
        NothingSeen(live, tags, cluster);
        return;
      }
      ghost var first := "";
      NothingSeen(live, tags, cluster);
      SetUntouched(cpmsActive, restored, machineSet, live);
      for i := 0 to |nlbs|
        invariant Valid() && failed == old(failed) && (old(Calm()) ==> Calm())
        invariant tags == old(tags) && snapshot == old(machines)
        invariant DoomedAreGone(old(live), live, tags, cluster, nlbs[..i])
        invariant SetTracks(cpmsActive, restored, machineSet, removed, first, old(live), live)
        invariant ClosedAfter(machines, snapshot, removed) && machines.Keys == snapshot.Keys
        invariant NamesOfGone(removed, old(live), live)
      {
        ghost var before := live;
        ghost var lists, setBefore := machines, machineSet;
        var lb := nlbs[i];
        assert lb in nlbs && lb !in nlbs[..i];
        assert nlbs[..i + 1] == nlbs[..i] + [lb];
        StillThere(old(live), live, tags, cluster, nlbs[..i], lb);
        OneMoreSeen(old(live), live, tags, cluster, nlbs[..i], lb);
        GoneMeans(old(live), live, tags, cluster, nlbs[..i]);
        var deleted;
        ok, deleted := RemoveIfDoomed(lb, cluster, cpmsActive, snapshot);
        if deleted {
          OneMoreGone(removed, old(live), before, lb.arn);
          NextClosure(lists, machines, snapshot, removed, lb.name, ok);
          SetNext(cpmsActive, restored, setBefore, removed, first, old(live), before, tags, cluster, nlbs[..i], lb);
          if removed == [] { first := lb.arn; }
          removed := removed + [lb.name];
        }
        if !ok {
          ClosedIsPartly(machines, snapshot, removed);
          GoneMeans(old(live), live, tags, cluster, if deleted then nlbs[..i + 1] else nlbs[..i]);
          return;
        }
      }
      assert nlbs[..|nlbs|] == nlbs;
      ClosedIsPartly(machines, snapshot, removed);
      GoneMeans(old(live), live, tags, cluster, nlbs);
      AllGoneMeans(cpmsActive, restored, machineSet, removed, first, old(live), live, tags, cluster, nlbs);
      InternalIsNotDoomed(tags, cluster, old(live));
      nlb := GetInternalApiNlb(cluster);
    }
  }
}
