/**
  The version order that gates downgrades and selects a container's socket
  (go-service/internal/docker/docker.go).

  A version is an optional "v" followed by integers joined by dots.  Two versions
  are compared as sequences of integers padded with zeros without end; a version
  with a part that is not an integer is not ordered at all.
 */
module Versions {
  import opened Prelude

  const MAX_INT64 := 0x7fff_ffff_ffff_ffff
  const MIN_INT64 := -0x8000_0000_0000_0000

  /** The newest version whose container still listens on the old socket. */
  const LEGACY_SOCKET_MAX_VERSION := "26.1.14"

  // ------------------------------------------------------------------ parsing

  function Split(s: string): (parts: seq<string>)
    ensures |parts| >= 1
  {
    if s == [] then [""]
    else
      var rest := Split(s[1..]);
      if s[0] == '.' then [""] + rest else [[s[0]] + rest[0]] + rest[1..]
  }

  predicate IsDigit(c: char) {
    '0' <= c <= '9'
  }

  predicate AllDigits(s: string) {
    forall i :: 0 <= i < |s| ==> IsDigit(s[i])
  }

  function Value(digits: string): nat
    requires AllDigits(digits)
  {
    if digits == [] then 0
    else Value(digits[..|digits| - 1]) * 10 + (digits[|digits| - 1] as int - '0' as int)
  }

  /** strconv.Atoi on a 64-bit host: an optional sign, at least one digit, no overflow. */
  function Atoi(part: string): Option<int> {
    var signed := part != [] && (part[0] == '-' || part[0] == '+');
    var digits := if signed then part[1..] else part;
    if digits == [] || !AllDigits(digits) then None
    else
      var magnitude: int := Value(digits);
      var n: int := if signed && part[0] == '-' then -magnitude else magnitude;
      if MIN_INT64 <= n <= MAX_INT64 then Some(n) else None
  }

  function TrimPrefix(version: string): string {
    if version != [] && version[0] == 'v' then version[1..] else version
  }

  function ParseParts(parts: seq<string>): (r: Option<seq<int>>)
    ensures r.Some? <==> forall i :: 0 <= i < |parts| ==> Atoi(parts[i]).Some?
    ensures r.Some? ==> |r.value| == |parts|
    ensures r.Some? ==> forall i :: 0 <= i < |parts| ==> Some(r.value[i]) == Atoi(parts[i])
  {
    if parts == [] then Some([])
    else
      var head, tail := Atoi(parts[0]), ParseParts(parts[1..]);
      if head.Some? && tail.Some? then Some([head.value] + tail.value)
      else
        assert head.None? || exists i :: 0 <= i < |parts[1..]| && Atoi(parts[1..][i]).None?;
        assert forall i :: 0 <= i < |parts[1..]| ==> parts[1..][i] == parts[i + 1];
        None
  }

  function Parse(version: string): Option<seq<int>> {
    ParseParts(Split(TrimPrefix(version)))
  }

  // ----------------------------------------------------- the order on sequences

  function At(x: seq<int>, i: nat): int {
    if i < |x| then x[i] else 0
  }

  /** x comes before y in the lexicographic order of the zero-padded sequences. */
  ghost predicate Before(x: seq<int>, y: seq<int>) {
    exists k: nat :: FirstDifference(x, y, k) && At(x, k) < At(y, k)
  }

  ghost predicate FirstDifference(x: seq<int>, y: seq<int>, k: nat) {
    At(x, k) != At(y, k) && forall j: nat :: j < k ==> At(x, j) == At(y, j)
  }

  ghost predicate SamePadded(x: seq<int>, y: seq<int>) {
    forall k: nat :: At(x, k) == At(y, k)
  }

  /** What the comparison loop decides once the first i parts were found equal. */
  function CompareFrom(x: seq<int>, y: seq<int>, i: nat): (sign: int)
    ensures -1 <= sign <= 1
    decreases |x| + |y| - i
  {
    if i >= |x| && i >= |y| then 0
    else if At(x, i) < At(y, i) then -1
    else if At(x, i) > At(y, i) then 1
    else CompareFrom(x, y, i + 1)
  }

  /** The loop of CompareVersions decides the lexicographic order on zero-padded sequences. */
  lemma {:induction false} CompareFromIsLexicographic(x: seq<int>, y: seq<int>, i: nat)
    requires forall j: nat :: j < i ==> At(x, j) == At(y, j)
    ensures CompareFrom(x, y, i) == -1 <==> Before(x, y)
    ensures CompareFrom(x, y, i) == 1 <==> Before(y, x)
    ensures CompareFrom(x, y, i) == 0 <==> SamePadded(x, y)
    decreases |x| + |y| - i
  {
    if i >= |x| && i >= |y| {
    } else if At(x, i) == At(y, i) {
      CompareFromIsLexicographic(x, y, i + 1);
    } else {
      assert FirstDifference(x, y, i) && FirstDifference(y, x, i);
    }
  }

  lemma BeforeIsTransitive(x: seq<int>, y: seq<int>, z: seq<int>)
    requires Before(x, y) || SamePadded(x, y)
    requires Before(y, z) || SamePadded(y, z)
    ensures Before(x, z) || SamePadded(x, z)
    ensures Before(x, y) || Before(y, z) ==> Before(x, z)
  {
    if SamePadded(x, y) && Before(y, z) {
      var k: nat :| FirstDifference(y, z, k) && At(y, k) < At(z, k);
      assert FirstDifference(x, z, k);
    } else if Before(x, y) && SamePadded(y, z) {
      var k: nat :| FirstDifference(x, y, k) && At(x, k) < At(y, k);
      assert FirstDifference(x, z, k);
    } else if Before(x, y) {
      var k: nat :| FirstDifference(x, y, k) && At(x, k) < At(y, k);
      var l: nat :| FirstDifference(y, z, l) && At(y, l) < At(z, l);
      var first: nat := if k < l then k else l;
      assert FirstDifference(x, z, first);
    }
  }

  // --------------------------------------------------------- the order on versions

  /** The sign of the comparison and whether both versions can be ordered. */
  function Compare(a: string, b: string): (int, bool) {
    var x, y := Parse(a), Parse(b);
    if x.None? || y.None? then (0, false) else (CompareFrom(x.value, y.value, 0), true)
  }

  predicate Ordered(version: string) {
    Parse(version).Some?
  }

  /** a may replace b without a confirmed downgrade, or is b itself. */
  predicate NotOlder(a: string, b: string) {
    a == b || (Compare(a, b).1 && Compare(a, b).0 >= 0)
  }

  lemma CompareFromIsTransitive(x: seq<int>, y: seq<int>, z: seq<int>)
    requires CompareFrom(x, y, 0) >= 0 && CompareFrom(y, z, 0) >= 0
    ensures CompareFrom(x, z, 0) >= 0
    ensures CompareFrom(y, z, 0) > 0 ==> CompareFrom(x, z, 0) > 0
  {
    CompareFromIsLexicographic(x, y, 0);
    CompareFromIsLexicographic(y, z, 0);
    CompareFromIsLexicographic(x, z, 0);
    assert SamePadded(x, y) <==> SamePadded(y, x);
    assert SamePadded(y, z) <==> SamePadded(z, y);
    assert SamePadded(x, z) <==> SamePadded(z, x);
    BeforeIsTransitive(z, y, x);
    BeforesExclude(x, z);
  }

  lemma CompareFromIsAntisymmetric(x: seq<int>, y: seq<int>)
    ensures CompareFrom(y, x, 0) == -CompareFrom(x, y, 0)
    ensures CompareFrom(x, x, 0) == 0
  {
    CompareFromIsLexicographic(x, y, 0);
    CompareFromIsLexicographic(y, x, 0);
    CompareFromIsLexicographic(x, x, 0);
    assert SamePadded(x, x);
    assert SamePadded(x, y) <==> SamePadded(y, x);
  }

  /** On ordered versions the comparison is a total preorder, whatever their lengths. */
  lemma CompareIsTotalPreorder(a: string, b: string, c: string)
    requires Ordered(a) && Ordered(b) && Ordered(c)
    ensures Compare(a, a) == (0, true)
    ensures Compare(b, a).0 == -Compare(a, b).0
    ensures Compare(a, b).0 >= 0 && Compare(b, c).0 >= 0 ==> Compare(a, c).0 >= 0
    ensures Compare(a, b).0 >= 0 && Compare(b, c).0 > 0 ==> Compare(a, c).0 > 0
  {
    var x, y, z := Parse(a).value, Parse(b).value, Parse(c).value;
    CompareFromIsAntisymmetric(x, y);
    if CompareFrom(x, y, 0) >= 0 && CompareFrom(y, z, 0) >= 0 {
      CompareFromIsTransitive(x, y, z);
    }
  }

  lemma BeforesExclude(x: seq<int>, y: seq<int>)
    ensures !(Before(x, y) && Before(y, x))
    ensures !(Before(x, y) && SamePadded(x, y))
  {
    CompareFromIsLexicographic(x, y, 0);
  }

  /** The answer of CompareVersions, in terms of the two sequences alone. */
  lemma CompareIsLexicographic(a: string, b: string)
    ensures Compare(a, b).1 <==> Ordered(a) && Ordered(b)
    ensures Compare(a, b).1 ==>
              && (Compare(a, b).0 == -1 <==> Before(Parse(a).value, Parse(b).value))
              && (Compare(a, b).0 == 1 <==> Before(Parse(b).value, Parse(a).value))
              && (Compare(a, b).0 == 0 <==> SamePadded(Parse(a).value, Parse(b).value))
  {
    if Ordered(a) && Ordered(b) {
      CompareFromIsLexicographic(Parse(a).value, Parse(b).value, 0);
    }
  }

  /** Padding with zero parts changes nothing: 26.1 and 26.1.0 are the same version. */
  lemma PaddingIsNeutral(x: seq<int>, zeros: nat)
    ensures CompareFrom(x, x + seq(zeros, _ => 0), 0) == 0
  {
    CompareFromIsLexicographic(x, x + seq(zeros, _ => 0), 0);
  }

  lemma NotOlderIsTransitive(a: string, b: string, c: string)
    requires NotOlder(a, b) && NotOlder(b, c)
    ensures NotOlder(a, c)
  {
    if a != b && b != c {
      CompareIsTotalPreorder(a, b, c);
    }
  }

  // -------------------------------------------------------------- the source's loops

  /** The parsing closure of CompareVersions: fills a slice and stops at the first bad part. */
  method ParseVersion(version: string) returns (result: seq<int>, ok: bool)
    ensures ok <==> Parse(version).Some?
    ensures ok ==> result == Parse(version).value
    ensures !ok ==> result == []
  {
    var parts := Split(TrimPrefix(version));
    var filled := new int[|parts|];
    for i := 0 to |parts|
      invariant forall j :: 0 <= j < i ==> Some(filled[j]) == Atoi(parts[j])
    {
      var n := Atoi(parts[i]);
      if n.None? {
        return [], false;
      }
      filled[i] := n.value;
    }
    result, ok := filled[..], true;
    assert result == ParseParts(parts).value;
  }

  method CompareVersions(a: string, b: string) returns (sign: int, ordered: bool)
    ensures (sign, ordered) == Compare(a, b)
  {
    var x, xOk := ParseVersion(a);
    var y, yOk := ParseVersion(b);
    if !xOk || !yOk {
      return 0, false;
    }
    sign := CompareSequences(x, y);
    ordered := true;
  }

  method CompareSequences(x: seq<int>, y: seq<int>) returns (sign: int)
    ensures sign == CompareFrom(x, y, 0)
  {
    var longest := if |x| >= |y| then |x| else |y|;
    for i := 0 to longest
      invariant CompareFrom(x, y, 0) == CompareFrom(x, y, i)
    {
      var left, right := 0, 0;
      if i < |x| {
        left := x[i];
      }
      if i < |y| {
        right := y[i];
      }
      if left < right {
        return -1;
      }
      if left > right {
        return 1;
      }
    }
    return 0;
  }

  // ------------------------------------------------------------------ socket layout

  /** The directory and the name of the socket inside a container of this version. */
  function SocketLayout(version: string): (string, string) {
    var (sign, ordered) := Compare(version, LEGACY_SOCKET_MAX_VERSION);
    if ordered && sign <= 0 then ("/run/nginx", "nginx.sock") else ("/run/moddengine", "http.sock")
  }

  /** An upgrade never moves a container back to the old socket. */
  lemma UpgradesKeepTheNewSocket(newer: string, older: string)
    requires NotOlder(newer, older)
    requires SocketLayout(older).1 == "http.sock"
    ensures SocketLayout(newer).1 == "http.sock"
  {
    if newer != older {
      if Ordered(LEGACY_SOCKET_MAX_VERSION) {
        CompareIsTotalPreorder(newer, older, LEGACY_SOCKET_MAX_VERSION);
      }
    }
  }
}
