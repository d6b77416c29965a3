/** The version gate of pkg/utils/clusterversion.go, on the text of CLUSTER_VERSION. */
module ClusterVersion {
  import opened Basics

  predicate IsDigit(c: char) { '0' <= c <= '9' }

  predicate IsNumber(s: string) {
    s != "" && forall i :: 0 <= i < |s| ==> IsDigit(s[i])
  }

  function Digit(c: char): nat
    requires IsDigit(c)
  {
    c as int - '0' as int
  }

  function Value(s: string): nat
    requires forall i :: 0 <= i < |s| ==> IsDigit(s[i])
  {
    if s == "" then 0 else 10 * Value(s[..|s| - 1]) + Digit(s[|s| - 1])
  }

  const INT64_LIMIT: nat := 0x8000_0000_0000_0000

  /** The end of the run of digits that starts at `i`. */
  function DigitsEnd(s: string, i: nat): (j: nat)
    requires i <= |s|
    ensures i <= j <= |s|
    ensures forall k :: i <= k < j ==> IsDigit(s[k])
    ensures j < |s| ==> !IsDigit(s[j])
    decreases |s| - i
  {
    if i < |s| && IsDigit(s[i]) then DigitsEnd(s, i + 1) else i
  }

  /**
   * The leftmost-first match of `([0-9]+).([0-9]+)([0-9]?)`. The unescaped dot takes any character
   * but a newline, so a run of three digits matches by itself.
   */
  function FindShort(s: string, i: nat): string
    requires i <= |s|
    decreases |s| - i
  {
    if i == |s| then ""
    else if !IsDigit(s[i]) then FindShort(s, i + 1)
    else
      var j := DigitsEnd(s, i);
      if j + 1 < |s| && s[j] != '\n' && IsDigit(s[j + 1]) then s[i..DigitsEnd(s, j + 1)]
      else if j - i >= 3 then s[i..j]
      else FindShort(s, j)
  }

  /** Two segments; the third is zero in every version this code builds. */
  datatype Version = Version(major: nat, minor: nat, pre: bool)

  predicate StartsPrerelease(c: char) {
    'a' <= c <= 'z' || 'A' <= c <= 'Z' || c == '-' || c == '~'
  }

  /** `NewVersion` on a number, or on two numbers around one separator; segments are 64-bit. */
  function NewVersion(s: string): Option<Version> {
    var j := DigitsEnd(s, 0);
    if j == 0 || Value(s[..j]) >= INT64_LIMIT then None
    else if j == |s| then Some(Version(Value(s[..j]), 0, false))
    else if !IsNumber(s[j + 1..]) then None
    else if s[j] == '.' then
      if Value(s[j + 1..]) >= INT64_LIMIT then None
      else Some(Version(Value(s[..j]), Value(s[j + 1..]), false))
    else if StartsPrerelease(s[j]) then Some(Version(Value(s[..j]), 0, true))
    else if s[j] == '+' then Some(Version(Value(s[..j]), 0, false))
    else None
  }

  predicate LessThan(a: Version, b: Version) {
    || a.major < b.major
    || (a.major == b.major && a.minor < b.minor)
    || (a.major == b.major && a.minor == b.minor && a.pre && !b.pre)
  }

  /** True when CLUSTER_VERSION is at least `input`; any parse failure reads as false. */
  predicate IsVersionHigherThan(env: Option<string>, input: string) {
    && env.Some?
    && var cluster := NewVersion(FindShort(env.value, 0));
       var wanted := NewVersion(input);
       cluster.Some? && wanted.Some? && !LessThan(cluster.value, wanted.value)
  }

  lemma DigitsEndAt(s: string, i: nat, n: nat)
    requires i <= n <= |s|
    requires forall k :: i <= k < n ==> IsDigit(s[k])
    requires n == |s| || !IsDigit(s[n])
    ensures DigitsEnd(s, i) == n
  {
  }

  lemma NewVersionOfDotted(a: string, b: string)
    requires IsNumber(a) && IsNumber(b)
    ensures NewVersion(a + "." + b) ==
            if Value(a) < INT64_LIMIT && Value(b) < INT64_LIMIT
            then Some(Version(Value(a), Value(b), false)) else None
  {
    var s := a + "." + b;
    DigitsEndAt(s, 0, |a|);
    assert s[..|a|] == a && s[|a| + 1..] == b;
  }

  lemma ShortOfDotted(a: string, b: string, tail: string)
    requires IsNumber(a) && IsNumber(b)
    requires tail == "" || !IsDigit(tail[0])
    ensures FindShort(a + "." + b + tail, 0) == a + "." + b
  {
    var s := a + "." + b + tail;
    DigitsEndAt(s, 0, |a|);
    DigitsEndAt(s, |a| + 1, |a| + 1 + |b|);
    assert IsDigit(s[0]) && s[|a|] == '.' && s[|a| + 1] == b[0];
    assert s[0..|a| + 1 + |b|] == a + "." + b;
  }

  /**
   * For a cluster version `a.b` followed by nothing or by a non-digit, the gate compares the two
   * pairs of numbers, not their text, as long as both segments fit 64 bits.
   */
  lemma GateIsNumeric(a: string, b: string, tail: string, x: string, y: string)
    requires IsNumber(a) && IsNumber(b) && IsNumber(x) && IsNumber(y)
    requires tail == "" || !IsDigit(tail[0])
    requires Value(x) < INT64_LIMIT && Value(y) < INT64_LIMIT
    ensures IsVersionHigherThan(Some(a + "." + b + tail), x + "." + y)
            <==> && Value(a) < INT64_LIMIT && Value(b) < INT64_LIMIT
                 && (Value(a) > Value(x) || (Value(a) == Value(x) && Value(b) >= Value(y)))
  {
    hide FindShort, NewVersion, Value;
    ShortOfDotted(a, b, tail);
    NewVersionOfDotted(a, b);
    NewVersionOfDotted(x, y);
  }

  /** Whatever CLUSTER_VERSION holds, passing a gate passes every gate below it. */
  lemma GateIsMonotone(env: Option<string>, a: string, b: string, x: string, y: string)
    requires IsNumber(a) && IsNumber(b) && IsNumber(x) && IsNumber(y)
    requires Value(a) > Value(x) || (Value(a) == Value(x) && Value(b) >= Value(y))
    requires Value(y) < INT64_LIMIT
    requires IsVersionHigherThan(env, a + "." + b)
    ensures IsVersionHigherThan(env, x + "." + y)
  {
    NewVersionOfDotted(a, b);
    NewVersionOfDotted(x, y);
  }

  /** The three gates the PublishingStrategy controller tests. */
  datatype GateBits = GateBits(v410: bool, v411: bool, v413: bool)

  type Gates = g: GateBits | (g.v413 ==> g.v411) && (g.v411 ==> g.v410)
    witness GateBits(false, false, false)

  lemma TwoDigits(s: string)
    requires |s| == 2 && IsNumber(s)
    ensures Value(s) == 10 * Digit(s[0]) + Digit(s[1])
  {
    assert s[..1][..0] == "";
    assert Value(s[..1]) == 10 * Value(s[..1][..0]) + Digit(s[0]);
  }

  /** 4.13 implies 4.11 implies 4.10, for every CLUSTER_VERSION. */
  lemma GatesNest(env: Option<string>)
    ensures IsVersionHigherThan(env, "4.13") ==> IsVersionHigherThan(env, "4.11")
    ensures IsVersionHigherThan(env, "4.11") ==> IsVersionHigherThan(env, "4.10")
  {
    TwoDigits("13");
    TwoDigits("11");
    TwoDigits("10");
    assert "4.13" == "4" + "." + "13" && "4.11" == "4" + "." + "11" && "4.10" == "4" + "." + "10";
    if IsVersionHigherThan(env, "4.13") { GateIsMonotone(env, "4", "13", "4", "11"); }
    if IsVersionHigherThan(env, "4.11") { GateIsMonotone(env, "4", "11", "4", "10"); }
  }

  function GatesOf(env: Option<string>): Gates {
    GatesNest(env);
    GateBits(IsVersionHigherThan(env, "4.10"), IsVersionHigherThan(env, "4.11"), IsVersionHigherThan(env, "4.13"))
  }

  predicate AtLeast(major: nat, minor: nat, x: nat, y: nat) {
    major > x || (major == x && minor >= y)
  }

  /**
   * Which version sets which gate: for `a.b` and a tail that does not continue the number, 4.10, 4.11 and
   * 4.13 and anything above them as numbers; without CLUSTER_VERSION none.
   */
  lemma GatesMean(a: string, b: string, tail: string)
    requires IsNumber(a) && IsNumber(b) && (tail == "" || !IsDigit(tail[0]))
    requires Value(a) < 0x8000_0000_0000_0000 && Value(b) < 0x8000_0000_0000_0000
    ensures var gates := GatesOf(Some(a + "." + b + tail));
            && (gates.v410 <==> AtLeast(Value(a), Value(b), 4, 10))
            && (gates.v411 <==> AtLeast(Value(a), Value(b), 4, 11))
            && (gates.v413 <==> AtLeast(Value(a), Value(b), 4, 13))
    ensures GatesOf(None) == GateBits(false, false, false)
  {
    hide IsVersionHigherThan, Value, IsNumber;
    GateNumbers();
    GateTexts();
    GateIsNumeric(a, b, tail, "4", "10");
    GateIsNumeric(a, b, tail, "4", "11");
    GateIsNumeric(a, b, tail, "4", "13");
    NoVersion();
  }

  lemma GateNumbers()
    ensures IsNumber("4") && IsNumber("10") && IsNumber("11") && IsNumber("13")
    ensures Value("4") == 4 && Value("10") == 10 && Value("11") == 11 && Value("13") == 13
  {
    TwoDigits("10");
    TwoDigits("11");
    TwoDigits("13");
    assert "4"[..0] == "";
  }

  lemma GateTexts()
    ensures "4.10" == "4" + "." + "10" && "4.11" == "4" + "." + "11" && "4.13" == "4" + "." + "13"
  {
  }

  lemma NoVersion()
    ensures forall gate :: !IsVersionHigherThan(None, gate)
  {
  }
}
