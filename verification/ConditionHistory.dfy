/** The condition history of an APIScheme, pkg/controllerutils/conditions.go. */
module ConditionHistory {
  import opened Basics

  datatype ConditionType = Error | Ready
  datatype ConditionStatus = True | False | Unknown

  /** A stored condition; `time` is both its transition time and its probe time. */
  datatype Condition = Condition(
    ctype: ConditionType,
    status: ConditionStatus,
    reason: string,
    message: string,
    time: int)

  /** oldReason, oldMessage, newReason, newMessage. */
  type UpdateCheck = (string, string, string, string) -> bool

  function ReasonOrMessageChanged(): UpdateCheck {
    (oldReason, oldMessage, newReason, newMessage) => oldReason != newReason || oldMessage != newMessage
  }

  function Last(conditions: seq<Condition>): Option<Condition> {
    if conditions == [] then None else Some(conditions[|conditions| - 1])
  }

  /** The first condition of the type. */
  function Find(conditions: seq<Condition>, ctype: ConditionType): (r: Option<Condition>)
    ensures r.None? <==> forall i :: 0 <= i < |conditions| ==> conditions[i].ctype != ctype
    ensures r.Some? ==> exists i :: 0 <= i < |conditions| && conditions[i] == r.value && r.value.ctype == ctype
                                    && forall j :: 0 <= j < i ==> conditions[j].ctype != ctype
  {
    if conditions == [] then None
    else if conditions[0].ctype == ctype then Some(conditions[0])
    else
      var r := Find(conditions[1..], ctype);
      assert forall i :: 1 <= i < |conditions| ==> conditions[i] == conditions[1..][i - 1];
      r
  }

  predicate ShouldUpdate(existing: Condition, report: Condition, check: UpdateCheck) {
    existing.status != report.status || check(existing.reason, existing.message, report.reason, report.message)
  }

  /** `SetAPISchemeCondition`; the report carries the moment of the call. */
  function Set(conditions: seq<Condition>, report: Condition, check: UpdateCheck): seq<Condition> {
    var last := Last(conditions);
    if last.None? && report.status == False then conditions
    else if last.None? || ShouldUpdate(last.value, report, check) then conditions + [report]
    else conditions
  }

  function History(conditions: seq<Condition>, reports: seq<Condition>): seq<Condition>
    decreases reports
  {
    if reports == [] then conditions
    else History(Set(conditions, reports[0], ReasonOrMessageChanged()), reports[1..])
  }

  /** What makes two reports the same: status, reason and message, not type or time. */
  function Key(c: Condition): (ConditionStatus, string, string) {
    (c.status, c.reason, c.message)
  }

  function DropLeadingFalse(reports: seq<Condition>): seq<Condition> {
    if reports != [] && reports[0].status == False then DropLeadingFalse(reports[1..]) else reports
  }

  /** Keep each report whose key differs from the report just before it. */
  function Collapse(previous: Option<Condition>, reports: seq<Condition>): seq<Condition>
    decreases reports
  {
    if reports == [] then []
    else
      (if previous.None? || Key(previous.value) != Key(reports[0]) then [reports[0]] else [])
      + Collapse(Some(reports[0]), reports[1..])
  }

  lemma {:induction false} CollapseSeesKeysOnly(a: Option<Condition>, b: Option<Condition>, reports: seq<Condition>)
    requires a.Some? <==> b.Some?
    requires a.Some? ==> Key(a.value) == Key(b.value)
    ensures Collapse(a, reports) == Collapse(b, reports)
  {
  }

  lemma SetKeepsNews(conditions: seq<Condition>, report: Condition)
    requires conditions != []
    ensures var next := Set(conditions, report, ReasonOrMessageChanged());
            && next == conditions + (if Key(Last(conditions).value) != Key(report) then [report] else [])
            && Last(next).Some? && Key(Last(next).value) == Key(report)
  {
  }

  lemma {:induction false} HistoryExtends(conditions: seq<Condition>, reports: seq<Condition>)
    requires conditions != []
    ensures History(conditions, reports) == conditions + Collapse(Last(conditions), reports)
    decreases reports
  {
    if reports == [] {
      assert conditions + [] == conditions;
    } else {
      var next := Set(conditions, reports[0], ReasonOrMessageChanged());
      SetKeepsNews(conditions, reports[0]);
      HistoryExtends(next, reports[1..]);
      CollapseSeesKeysOnly(Last(next), Some(reports[0]), reports[1..]);
      var news := if Key(Last(conditions).value) != Key(reports[0]) then [reports[0]] else [];
      Associate(conditions, news, Collapse(Some(reports[0]), reports[1..]));
    }
  }

  lemma Associate(a: seq<Condition>, b: seq<Condition>, c: seq<Condition>)
    ensures (a + b) + c == a + (b + c)
  {
  }

  /**
   * For every sequence of reports: the history that compares each report with the last stored
   * condition is the reports themselves, leading False ones dropped and repeats of the report just
   * before collapsed.
   */
  lemma {:induction false} HistoryIsStutterFree(reports: seq<Condition>)
    ensures History([], reports) == Collapse(None, DropLeadingFalse(reports))
  {
    if reports != [] {
      if reports[0].status == False {
        HistoryIsStutterFree(reports[1..]);
      } else {
        assert Set([], reports[0], ReasonOrMessageChanged()) == [reports[0]];
        HistoryExtends([reports[0]], reports[1..]);
      }
    }
  }

  lemma {:induction false} HistoryInTwo(conditions: seq<Condition>, a: seq<Condition>, b: seq<Condition>)
    ensures History(conditions, a + b) == History(History(conditions, a), b)
    decreases a
  {
    if a == [] {
      assert a + b == b;
    } else {
      assert (a + b)[1..] == a[1..] + b;
      HistoryInTwo(Set(conditions, a[0], ReasonOrMessageChanged()), a[1..], b);
    }
  }

  /** The history only ever grows: an earlier history is a prefix of every later one. */
  lemma HistoryGrows(conditions: seq<Condition>, a: seq<Condition>, b: seq<Condition>)
    ensures History(conditions, a) <= History(conditions, a + b)
  {
    HistoryInTwo(conditions, a, b);
    GrowsFrom(History(conditions, a), b);
  }

  lemma {:induction false} GrowsFrom(conditions: seq<Condition>, reports: seq<Condition>)
    ensures conditions <= History(conditions, reports)
    decreases reports
  {
    if reports != [] { GrowsFrom(Set(conditions, reports[0], ReasonOrMessageChanged()), reports[1..]); }
  }

  /** Stored neighbours differ, and the first stored condition is not False. */
  lemma {:induction false} NeighboursDiffer(conditions: seq<Condition>, reports: seq<Condition>)
    requires forall i :: 0 < i < |conditions| ==> Key(conditions[i - 1]) != Key(conditions[i])
    requires conditions != [] ==> conditions[0].status != False
    ensures var h := History(conditions, reports);
            && (forall i :: 0 < i < |h| ==> Key(h[i - 1]) != Key(h[i]))
            && (h != [] ==> h[0].status != False)
    decreases reports
  {
    if reports != [] { NeighboursDiffer(Set(conditions, reports[0], ReasonOrMessageChanged()), reports[1..]); }
  }
}
