/**
  The two independent validators of Matomo site IDs: the PHP parser
  (whmcs-plugin/modules/servers/moddhosting/lib/matomo.php) and the text test of the
  SQL import (whmcs-plugin/sql/matomo-import.sql).
 */
module MatomoIds {
  import opened Prelude
  import opened Versions

  const MAX_ID := 4294967295
  const MAX_ID_TEXT := "4294967295"

  // ------------------------------------------------------------------ the PHP parser

  datatype PhpValue = Null | Text(text: string) | Number(number: int) | Other

  datatype Parsed = Absent | Invalid | Id(id: nat)

  function Decimal(n: nat): (s: string)
    ensures s != [] && AllDigits(s)
  {
    var digit := [('0' as int + n % 10) as char];
    if n < 10 then digit else Decimal(n / 10) + digit
  }

  function Shown(number: int): string {
    if number < 0 then "-" + Decimal(-number) else Decimal(number)
  }

  /** A positive decimal number without leading zeros. */
  predicate Canonical(s: string) {
    s != [] && '1' <= s[0] <= '9' && AllDigits(s)
  }

  function ParseText(s: string): Parsed {
    if !Canonical(s) || |s| > 10 || Value(s) > MAX_ID then Invalid else Id(Value(s))
  }

  /** moddhosting_parse_matomo_id; Invalid is its exception. */
  function Parse(v: PhpValue): Parsed {
    match v
    case Null => Absent
    case Text(s) => if s == "" then Absent else ParseText(s)
    case Number(n) => ParseText(Shown(n))
    case Other => Invalid
  }

  function Power10(k: nat): nat {
    if k == 0 then 1 else 10 * Power10(k - 1)
  }

  lemma {:induction false} DecimalRoundTrip(n: nat)
    ensures Value(Decimal(n)) == n
    ensures n > 0 ==> Canonical(Decimal(n))
  {
    var s := Decimal(n);
    if n < 10 {
      assert s[..0] == [];
    } else {
      DecimalRoundTrip(n / 10);
      assert s[..|s| - 1] == Decimal(n / 10);
      assert s[0] == Decimal(n / 10)[0];
    }
  }

  /** Canonical texts are the numbers written out, and nothing else. */
  lemma {:induction false} CanonicalRoundTrip(s: string)
    requires Canonical(s)
    ensures Value(s) > 0 && Decimal(Value(s)) == s
  {
    var last := |s| - 1;
    if last > 0 {
      CanonicalRoundTrip(s[..last]);
      assert s == s[..last] + [s[last]];
    } else {
      assert s[..0] == [];
    }
  }

  lemma {:induction false} DecimalLength(n: nat, k: nat)
    requires k > 0
    ensures |Decimal(n)| <= k <==> n < Power10(k)
  {
    if n >= 10 {
      if k == 1 {
        assert Power10(1) == 10 * Power10(0);
      } else {
        DecimalLength(n / 10, k - 1);
      }
    } else {
      PowersGrow(k);
    }
  }

  lemma {:induction false} PowersGrow(k: nat)
    requires k > 0
    ensures Power10(k) >= 10
  {
    if k > 1 {
      PowersGrow(k - 1);
    }
  }

  /** An integer is accepted exactly when it is a positive uint32, and as itself. */
  lemma IntegersParseAsThemselves(n: int)
    ensures Parse(Number(n)) == if 1 <= n <= 4294967295 then Id(n) else Invalid
  {
    if n > 0 {
      DecimalRoundTrip(n);
      DecimalLength(n, 10);
      Power10Is();
    }
  }

  lemma Power10Is()
    ensures Power10(10) == 10000000000
  {
    assert Power10(2) == 100;
    assert Power10(4) == 100 * Power10(2);
    assert Power10(6) == 100 * Power10(4);
    assert Power10(8) == 100 * Power10(6);
    assert Power10(10) == 100 * Power10(8);
  }

  /** What is stored is read back: every ID survives being written as text. */
  lemma TextRoundTrip(n: nat)
    requires 1 <= n <= MAX_ID
    ensures Parse(Text(Decimal(n))) == Id(n)
  {
    IntegersParseAsThemselves(n);
  }

  /** Exactly the positive uint32 numbers, written without sign, spaces and leading zeros, are accepted as text. */
  lemma TextsParseIff(s: string)
    ensures Parse(Text(s)).Absent? <==> s == ""
    ensures forall n: nat :: Parse(Text(s)) == Id(n) <==> 1 <= n <= 4294967295 && s == Decimal(n)
  {
    if Canonical(s) {
      CanonicalRoundTrip(s);
    }
    forall n: nat | 1 <= n <= MAX_ID ensures Parse(Text(Decimal(n))) == Id(n) {
      TextRoundTrip(n);
    }
  }

  // -------------------------------------------------------------------- the SQL test

  /** TRIM: spaces at both ends go. */
  function TrimLeft(s: string): string {
    if s != [] && s[0] == ' ' then TrimLeft(s[1..]) else s
  }

  function Trim(s: string): string {
    TrimRight(TrimLeft(s))
  }

  function TrimRight(s: string): string {
    if s != [] && s[|s| - 1] == ' ' then TrimRight(s[..|s| - 1]) else s
  }

  /** Only spaces go, and no space is left at either end. */
  lemma TrimMeans(s: string)
    ensures Trim(s) == [] || (Trim(s)[0] != ' ' && Trim(s)[|Trim(s)| - 1] != ' ')
    ensures exists left: nat, right: nat :: s == Spaces(left) + Trim(s) + Spaces(right)
  {
    var left := TrimsLeft(s);
    var right := TrimsRight(TrimLeft(s));
    assert s == Spaces(left) + (Trim(s) + Spaces(right));
    assert s == Spaces(left) + Trim(s) + Spaces(right);
  }

  function Spaces(n: nat): (s: string)
    ensures |s| == n && forall c :: c in s ==> c == ' '
  {
    seq(n, _ => ' ')
  }

  lemma {:induction false} TrimsLeft(s: string) returns (left: nat)
    ensures s == Spaces(left) + TrimLeft(s) && (TrimLeft(s) == [] || TrimLeft(s)[0] != ' ')
  {
    left := 0;
    if s != [] && s[0] == ' ' {
      var rest := TrimsLeft(s[1..]);
      left := rest + 1;
      assert Spaces(left) == [' '] + Spaces(rest);
      assert s == [s[0]] + s[1..];
    }
  }

  lemma {:induction false} TrimsRight(s: string) returns (right: nat)
    ensures s == TrimRight(s) + Spaces(right)
    ensures TrimRight(s) == [] || (TrimRight(s)[0] == s[0] && TrimRight(s)[|TrimRight(s)| - 1] != ' ')
  {
    right := 0;
    if s != [] && s[|s| - 1] == ' ' {
      var rest := TrimsRight(s[..|s| - 1]);
      right := rest + 1;
      assert Spaces(right) == Spaces(rest) + [' '];
      assert s == s[..|s| - 1] + [s[|s| - 1]];
    }
  }

  predicate ShortCanonical(s: string) {
    Canonical(s) && |s| <= 10
  }

  /** REGEXP '^[1-9][0-9]{0,9}$', whose end also matches before a final line break. */
  predicate MatchesPattern(s: string) {
    ShortCanonical(s) || (s != [] && s[|s| - 1] == '\n' && ShortCanonical(s[..|s| - 1]))
  }

  /** Text comparison, character by character. */
  predicate TextAtMost(a: string, b: string) {
    if a == [] then true
    else if b == [] then false
    else a[0] < b[0] || (a[0] == b[0] && TextAtMost(a[1..], b[1..]))
  }

  /** The CASE expression of the import: the ID, or NULL.  Its NOT REGEXP '[^0-9]' asks for digits only. */
  function Checked(s: string): Option<nat> {
    var t := Trim(s);
    if MatchesPattern(t) && AllDigits(t) && (|t| < 10 || TextAtMost(t, MAX_ID_TEXT))
    then Some(Value(t)) else None
  }

  // ------------------------------------------------------------------ they are the same

  /** Comparing texts of one length compares their prefixes first and then their last characters. */
  lemma {:induction false} TextAtMostLast(a: string, b: string)
    requires |a| == |b| > 0
    ensures
      var n := |a| - 1;
      TextAtMost(a, b) <==> (a[..n] != b[..n] && TextAtMost(a[..n], b[..n])) || (a[..n] == b[..n] && a[n] <= b[n])
  {
    var n := |a| - 1;
    if n == 0 {
      assert a[..0] == b[..0] == [];
    } else {
      TextAtMostLast(a[1..], b[1..]);
      assert a[1..][..n - 1] == a[..n][1..] && b[1..][..n - 1] == b[..n][1..];
      assert a[..n] == [a[0]] + a[..n][1..] && b[..n] == [b[0]] + b[..n][1..];
    }
  }

  lemma {:induction false} ValueIsInjective(a: string, b: string)
    requires |a| == |b| && AllDigits(a) && AllDigits(b) && Value(a) == Value(b)
    ensures a == b
  {
    if a != [] {
      var n := |a| - 1;
      ValueIsInjective(a[..n], b[..n]);
      assert a == a[..n] + [a[n]] && b == b[..n] + [b[n]];
    }
  }

  /** For digits of one length the order of the texts is the order of the numbers. */
  lemma {:induction false} TextOrderIsNumericOrder(a: string, b: string)
    requires |a| == |b| && AllDigits(a) && AllDigits(b)
    ensures TextAtMost(a, b) <==> Value(a) <= Value(b)
  {
    if a != [] {
      var n := |a| - 1;
      TextAtMostLast(a, b);
      TextOrderIsNumericOrder(a[..n], b[..n]);
      if Value(a[..n]) == Value(b[..n]) {
        ValueIsInjective(a[..n], b[..n]);
      }
    }
  }

  lemma {:induction false} ShortValuesAreSmall(s: string)
    requires AllDigits(s)
    ensures Value(s) < Power10(|s|)
  {
    if s != [] {
      ShortValuesAreSmall(s[..|s| - 1]);
    }
  }

  lemma {:induction false} PowersIncrease(j: nat, k: nat)
    requires j <= k
    ensures Power10(j) <= Power10(k)
  {
    if j < k {
      PowersIncrease(j, k - 1);
    }
  }

  lemma MaxIdPrefix()
    ensures AllDigits("42949") && Value("42949") == 42949
  {
    DigitsEnd("", '4');
    DigitsEnd("4", '2');
    DigitsEnd("42", '9');
    DigitsEnd("429", '4');
    DigitsEnd("4294", '9');
    assert "" + "4" == "4" && "4" + "2" == "42" && "42" + "9" == "429"
           && "429" + "4" == "4294" && "4294" + "9" == "42949";
  }

  lemma MaxIdText()
    ensures AllDigits(MAX_ID_TEXT) && |MAX_ID_TEXT| == 10 && Value(MAX_ID_TEXT) == MAX_ID
  {
    MaxIdPrefix();
    DigitsEnd("42949", '6');
    DigitsEnd("429496", '7');
    DigitsEnd("4294967", '2');
    DigitsEnd("42949672", '9');
    DigitsEnd("429496729", '5');
    assert "42949" + "6" == "429496" && "429496" + "7" == "4294967" && "4294967" + "2" == "42949672"
           && "42949672" + "9" == "429496729" && "429496729" + "5" == MAX_ID_TEXT;
  }

  lemma DigitsEnd(s: string, c: char)
    requires AllDigits(s) && IsDigit(c)
    ensures AllDigits(s + [c]) && Value(s + [c]) == Value(s) * 10 + (c as int - '0' as int)
  {
    assert (s + [c])[..|s|] == s;
  }

  /** The SQL test accepts exactly the positive uint32 numbers, with spaces around them. */
  lemma CheckedIff(s: string)
    ensures forall n: nat :: Checked(s) == Some(n) <==> 1 <= n <= MAX_ID && Trim(s) == Decimal(n)
  {
    TheValidatorsAgree(s);
    TextsParseIff(Trim(s));
    forall n: nat ensures Checked(s) == Some(n) <==> 1 <= n <= MAX_ID && Trim(s) == Decimal(n) {
      assert Parse(Text(Trim(s))) == Id(n) <==> 1 <= n <= MAX_ID && Trim(s) == Decimal(n);
    }
  }

  /** It accepts exactly the texts whose trimmed form the PHP parser accepts, as the same ID. */
  lemma TheValidatorsAgree(s: string)
    ensures Checked(s).Some? <==> ParseText(Trim(s)).Id?
    ensures Checked(s).Some? ==> ParseText(Trim(s)) == Id(Checked(s).value)
  {
    var t := Trim(s);
    if Canonical(t) && |t| <= 10 {
      if |t| < 10 {
        ShortValuesAreSmall(t);
        PowersIncrease(|t|, 9);
        Power10Is();
        assert Power10(10) == 10 * Power10(9);
      } else {
        MaxIdText();
        TextOrderIsNumericOrder(t, MAX_ID_TEXT);
      }
    }
  }
}
