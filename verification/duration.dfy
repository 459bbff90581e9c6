/**
 The duration shown on each search result card:
 `Math.floor(duration / 60)`, a colon, then `String(duration % 60).padStart(2, "0")`.
 Durations are modelled as natural numbers of seconds, so `Math.floor(d / 60)` and
 `d % 60` coincide with Dafny's `/` and `%`.

 The partner of the formatter is a reader for the `m:ss` text, `ParseDuration`;
 `FormatParseRoundTrip` proves that reading the formatted text gives back the
 number of seconds it was made from.
 */
module Duration {
  import opened KeyedStore

  predicate IsDigit(c: char)
  {
    '0' <= c <= '9'
  }

  predicate AllDigits(s: string)
  {
    forall i :: 0 <= i < |s| ==> IsDigit(s[i])
  }

  function DigitChar(d: nat): (c: char)
    requires d < 10
  {
    (('0' as int) + d) as char
  }

  /** The value of a digit character; other characters never reach it, as every
      caller first checks `AllDigits`. */
  function DigitValue(c: char): nat
  {
    if IsDigit(c) then (c as int) - ('0' as int) else 0
  }

  /** `String(n)` for a natural number: its decimal digits, most significant first,
      with no leading zero (except for the number zero itself). */
  function Decimal(n: nat): (r: string)
    ensures 1 <= |r|
    ensures AllDigits(r)
    ensures |r| == 1 <==> n < 10
    ensures 1 < |r| ==> r[0] != '0'
    decreases n
  {
    if n < 10 then [DigitChar(n)] else Decimal(n / 10) + [DigitChar(n % 10)]
  }

  /** The value of a string of decimal digits; leading zeros contribute nothing. */
  function ParseDecimal(s: string): nat
    decreases |s|
  {
    if |s| == 0 then 0 else ParseDecimal(s[..|s| - 1]) * 10 + DigitValue(s[|s| - 1])
  }

  /** `s.padStart(width, [fill])`: prefixes `s` with copies of `fill` until it is
      `width` long; a string already that long is returned as it is. */
  function PadStart(s: string, width: nat, fill: char): (r: string)
    ensures |r| == if |s| < width then width else |s|
    ensures r[|r| - |s|..] == s
    ensures forall i :: 0 <= i < |r| - |s| ==> r[i] == fill
  {
    if width <= |s| then s
    else
      var pad := seq(width - |s|, _ => fill);
      assert (pad + s)[|pad|..] == s;
      pad + s
  }

  /** The seconds field: `String(secs).padStart(2, "0")`. */
  function SecondsField(secs: nat): string
  {
    PadStart(Decimal(secs), 2, '0')
  }

  /** The `m:ss` text of a duration given in seconds. */
  function FormatDuration(d: nat): string
  {
    Decimal(d / 60) + ":" + SecondsField(d % 60)
  }

  /** Reads an `m:ss` text back into seconds: a non-empty run of digits for the
      minutes, a colon, and exactly two digits below 60 for the seconds. Anything
      else is rejected. */
  function ParseDuration(s: string): Option<nat>
  {
    if |s| < 4 || s[|s| - 3] != ':' then None
    else
      var minutes := s[..|s| - 3];
      var seconds := s[|s| - 2..];
      if AllDigits(minutes) && AllDigits(seconds) && ParseDecimal(seconds) < 60
      then Some(ParseDecimal(minutes) * 60 + ParseDecimal(seconds))
      else None
  }

  /** Reading the decimal text of `n` gives back `n`. */
  lemma {:induction false} DecimalRoundTrip(n: nat)
    ensures ParseDecimal(Decimal(n)) == n
    decreases n
  {
    if n >= 10 {
      var r := Decimal(n);
      assert r[..|r| - 1] == Decimal(n / 10);
      DecimalRoundTrip(n / 10);
    }
  }

  /** A leading zero does not change the value of a digit string. */
  lemma {:induction false} LeadingZeroIgnored(s: string)
    ensures ParseDecimal("0" + s) == ParseDecimal(s)
    decreases |s|
  {
    if |s| > 0 {
      var z := "0" + s;
      assert z[..|z| - 1] == "0" + s[..|s| - 1];
      LeadingZeroIgnored(s[..|s| - 1]);
    }
  }

  /** The seconds field is always exactly two digits and reads back as `secs`
      for every `secs` below 60 (the only values `d % 60` takes). */
  lemma SecondsFieldTwoDigits(secs: nat)
    requires secs < 60
    ensures |SecondsField(secs)| == 2
    ensures AllDigits(SecondsField(secs))
    ensures ParseDecimal(SecondsField(secs)) == secs
  {
    var dec := Decimal(secs);
    DecimalRoundTrip(secs);
    if secs < 10 {
      assert SecondsField(secs) == "0" + dec;
      LeadingZeroIgnored(dec);
    } else {
      assert |dec| == 2 by {
        assert dec == Decimal(secs / 10) + [DigitChar(secs % 10)];
      }
      assert SecondsField(secs) == dec;
    }
  }

  /** A digit string holds no colon. */
  lemma DigitsHaveNoColon(m: string)
    requires AllDigits(m)
    ensures ':' !in m
  {
    forall i | 0 <= i < |m| ensures m[i] != ':' {
      assert IsDigit(m[i]);
    }
  }

  /** Where the parts of `m + ":" + ss` sit when the seconds part is two long. */
  lemma SplitAtColon(m: string, ss: string)
    requires |ss| == 2
    ensures var r := m + [':'] + ss;
      |r| == |m| + 3 && r[|r| - 3] == ':' && r[..|r| - 3] == m && r[|r| - 2..] == ss
  {
    var r := m + [':'] + ss;
    assert r[..|r| - 3] == m;
    assert r[|r| - 2..] == ss;
  }

  /** Any digits, a colon and two digits below 60 read as minutes and seconds. */
  lemma ParseDurationOf(m: string, ss: string)
    requires 0 < |m| && AllDigits(m)
    requires |ss| == 2 && AllDigits(ss) && ParseDecimal(ss) < 60
    ensures ParseDuration(m + [':'] + ss) == Some(ParseDecimal(m) * 60 + ParseDecimal(ss))
  {
    SplitAtColon(m, ss);
  }

  /** The shape of `m + ":" + ss` for decimal minutes and a two-digit field. */
  lemma ShapeOf(m: string, ss: string)
    requires 0 < |m| && AllDigits(m)
    requires |ss| == 2 && AllDigits(ss)
    ensures var r := m + [':'] + ss;
      && 4 <= |r|
      && r[|r| - 3] == ':'
      && ':' !in r[..|r| - 3]
      && AllDigits(r[..|r| - 3]) && ParseDecimal(r[..|r| - 3]) == ParseDecimal(m)
      && AllDigits(r[|r| - 2..]) && ParseDecimal(r[|r| - 2..]) == ParseDecimal(ss)
  {
    SplitAtColon(m, ss);
    DigitsHaveNoColon(m);
  }

  /** The shape of every formatted duration: the minutes in decimal, one colon,
      and a two-digit seconds field holding `d % 60`. */
  lemma FormatDurationShape(d: nat)
    ensures var r := FormatDuration(d);
      && 4 <= |r|
      && r[|r| - 3] == ':'
      && ':' !in r[..|r| - 3]
      && AllDigits(r[..|r| - 3]) && ParseDecimal(r[..|r| - 3]) == d / 60
      && AllDigits(r[|r| - 2..]) && ParseDecimal(r[|r| - 2..]) == d % 60
  {
    var m := Decimal(d / 60);
    var ss := SecondsField(d % 60);
    SecondsFieldTwoDigits(d % 60);
    DecimalRoundTrip(d / 60);
    ShapeOf(m, ss);
    assert FormatDuration(d) == m + [':'] + ss;
  }

  /** Round trip: reading the formatted text gives back the duration. */
  lemma FormatParseRoundTrip(d: nat)
    ensures ParseDuration(FormatDuration(d)) == Some(d)
  {
    var m := Decimal(d / 60);
    var ss := SecondsField(d % 60);
    SecondsFieldTwoDigits(d % 60);
    DecimalRoundTrip(d / 60);
    assert FormatDuration(d) == m + [':'] + ss;
    ParseDurationOf(m, ss);
  }

  /** Distinct durations are always shown differently. */
  lemma FormatDurationInjective(d1: nat, d2: nat)
    requires FormatDuration(d1) == FormatDuration(d2)
    ensures d1 == d2
  {
    FormatParseRoundTrip(d1);
    FormatParseRoundTrip(d2);
  }

  /** The example from the search scenario: 125 seconds is shown as `2:05`. */
  lemma FormatDurationExample()
    ensures FormatDuration(125) == "2:05"
  {
    assert 125 / 60 == 2 && 125 % 60 == 5;
    assert DigitChar(2) == '2' && DigitChar(5) == '5';
    assert Decimal(2) == ['2'];
    assert Decimal(5) == ['5'];
    assert PadStart(['5'], 2, '0') == PadStart(['0', '5'], 2, '0') == ['0', '5'];
  }
}
