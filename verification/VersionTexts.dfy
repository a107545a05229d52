/**
  Reading versions: what is written with dots, signs and a leading v is parsed back
  (go-service/internal/docker/docker.go).
 */
module VersionTexts {
  import opened Prelude
  import opened Versions
  import opened MatomoIds

  // ---------------------------------------------------------------------- the parts

  function Joined(parts: seq<string>): string
    requires parts != []
  {
    if |parts| == 1 then parts[0] else parts[0] + "." + Joined(parts[1..])
  }

  predicate Plain(part: string) {
    forall i :: 0 <= i < |part| ==> part[i] != '.'
  }

  /** Splitting at the dots loses nothing, and no part has a dot. */
  lemma {:induction false} SplitJoins(s: string)
    ensures Joined(Split(s)) == s
    ensures forall i :: 0 <= i < |Split(s)| ==> Plain(Split(s)[i])
  {
    if s != [] {
      SplitJoins(s[1..]);
      var rest := Split(s[1..]);
      assert s == [s[0]] + s[1..];
      if s[0] == '.' {
        assert ([""] + rest)[1..] == rest;
      } else {
        assert ([[s[0]] + rest[0]] + rest[1..])[1..] == rest[1..];
        assert forall i :: 1 <= i < |rest| ==> Split(s)[i] == rest[i];
      }
    }
  }

  lemma {:induction false} JoinSplits(parts: seq<string>)
    requires parts != [] && forall i :: 0 <= i < |parts| ==> Plain(parts[i])
    ensures Split(Joined(parts)) == parts
  {
    if |parts| == 1 {
      PlainSplits(parts[0], "", []);
      assert parts[0] + "" == parts[0];
    } else {
      JoinSplits(parts[1..]);
      PlainSplits(parts[0], "." + Joined(parts[1..]), parts[1..]);
      assert parts[0] + "." + Joined(parts[1..]) == parts[0] + ("." + Joined(parts[1..]));
      assert parts == [parts[0]] + parts[1..];
    }
  }

  /** A part without a dot goes in front of what follows. */
  lemma {:induction false} PlainSplits(part: string, tail: string, rest: seq<string>)
    requires Plain(part)
    requires (tail == "" && rest == []) || (tail != "" && tail[0] == '.' && rest == Split(tail[1..]))
    ensures Split(part + tail) == [part] + rest
  {
    if part == [] {
      assert part + tail == tail;
    } else {
      PlainSplits(part[1..], tail, rest);
      assert (part + tail)[1..] == part[1..] + tail;
      assert ([part[1..]] + rest)[1..] == rest;
      assert [part[0]] + part[1..] == part;
    }
  }

  // ---------------------------------------------------------------------- one number

  /** Every 64-bit integer is read back, with its sign or without. */
  lemma AtoiRoundTrip(n: nat)
    ensures Atoi(Decimal(n)) == Atoi("+" + Decimal(n)) == if n <= 9223372036854775807 then Some(n) else None
    ensures Atoi("-" + Decimal(n)) == if n <= 9223372036854775808 then Some(0 - n) else None
  {
    DecimalRoundTrip(n);
    var s := Decimal(n);
    assert IsDigit(s[0]);
    assert ("+" + s)[1..] == s && ("-" + s)[1..] == s;
  }

  /** And nothing but digits with at most one sign in front is a number. */
  lemma AtoiReadsDigits(part: string)
    ensures Atoi(part).Some? ==>
              var digits := if part != [] && (part[0] == '-' || part[0] == '+') then part[1..] else part;
              digits != [] && AllDigits(digits)
    ensures Atoi("").None? && Atoi("-").None? && Atoi("+").None?
  {
  }

  // -------------------------------------------------------------------- whole versions

  function Texts(x: seq<nat>): (texts: seq<string>)
    ensures |texts| == |x| && forall i :: 0 <= i < |x| ==> texts[i] == Decimal(x[i])
  {
    seq(|x|, i requires 0 <= i < |x| => Decimal(x[i]))
  }

  /** A version written as numbers joined by dots, with or without a leading v, is read as these numbers. */
  lemma VersionsReadBack(x: seq<nat>)
    requires x != [] && forall i :: 0 <= i < |x| ==> x[i] <= 9223372036854775807
    ensures Versions.Parse(Joined(Texts(x))) == Some(x) && Versions.Parse("v" + Joined(Texts(x))) == Some(x)
  {
    var texts := Texts(x);
    forall i | 0 <= i < |x| ensures Plain(texts[i]) && Atoi(texts[i]) == Some(x[i]) {
      AtoiRoundTrip(x[i]);
      assert forall j :: 0 <= j < |texts[i]| ==> IsDigit(texts[i][j]);
    }
    JoinSplits(texts);
    var s := Joined(texts);
    assert texts[0] != [] && s[0] == texts[0][0] && IsDigit(s[0]);
    assert ("v" + s)[1..] == s;
    var parsed := ParseParts(texts);
    assert parsed.Some? && parsed.value == x;
  }
}
