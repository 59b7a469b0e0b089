/** The front end's duration formatting: whole seconds into hours and minutes. */
module Format {

  /** The whole, non-negative number of seconds: `Math.max(0, Math.floor(seconds))`. */
  function WholeSeconds(seconds: real): (s: nat)
    ensures seconds < 0.0 ==> s == 0
    ensures seconds >= 0.0 ==> s as real <= seconds < s as real + 1.0
  {
    if seconds.Floor > 0 then seconds.Floor else 0
  }

  /** Hours and leftover minutes of a duration, the seconds below a minute dropped. */
  function DurationParts(seconds: real): (p: (nat, nat))
    ensures p.1 < 60
    ensures p.0 * 3600 + p.1 * 60 <= WholeSeconds(seconds) < p.0 * 3600 + p.1 * 60 + 60
    ensures seconds < 60.0 ==> p == (0, 0)
  {
    var s := WholeSeconds(seconds);
    (s / 3600, (s % 3600) / 60)
  }

  function DigitChar(d: nat): (c: char)
    requires d < 10
    ensures c as int == '0' as int + d
  {
    "0123456789"[d]
  }

  predicate IsDigit(c: char) {
    '0' <= c <= '9'
  }

  /** The decimal numeral of `n`, as a JavaScript template literal prints an integer. */
  function Decimal(n: nat): (r: string)
    ensures r != [] && forall i :: 0 <= i < |r| ==> IsDigit(r[i])
    ensures r[0] == '0' <==> n == 0
  {
    if n < 10 then [DigitChar(n)] else Decimal(n / 10) + [DigitChar(n % 10)]
  }

  /** The value of a string of decimal digits. */
  function DecimalValue(s: string): nat
    requires forall i :: 0 <= i < |s| ==> IsDigit(s[i])
  {
    if s == [] then 0
    else
      var c := s[|s| - 1];
      assert IsDigit(c);
      DecimalValue(s[..|s| - 1]) * 10 + (c as int - '0' as int)
  }

  /** Reading the numeral back gives the number. */
  lemma {:induction false} DecimalRoundTrip(n: nat)
    ensures DecimalValue(Decimal(n)) == n
  {
    if n >= 10 {
      DecimalRoundTrip(n / 10);
      var d := Decimal(n);
      assert d[..|d| - 1] == Decimal(n / 10);
    }
  }

  /** `"{h}h {m}min"` when there is at least an hour, else `"{m}min"`. */
  function Render(h: nat, m: nat): (r: string)
    ensures 'h' in r <==> h > 0
  {
    if h > 0 then Decimal(h) + "h " + Decimal(m) + "min" else Decimal(m) + "min"
  }

  /** `formatDuration`. */
  function FormatDuration(seconds: real): (r: string)
    ensures |r| >= 4 && r[|r| - 3..] == "min"
    ensures 'h' in r <==> WholeSeconds(seconds) >= 3600
  {
    var (h, m) := DurationParts(seconds);
    Render(h, m)
  }

  /** No time, or negative time, reads as zero minutes. */
  lemma NonPositiveIsZeroMinutes(seconds: real)
    requires seconds <= 0.0
    ensures FormatDuration(seconds) == "0min"
  {
  }

  /** The number of decimal digits `s` starts with. */
  function LeadingDigits(s: string): (k: nat)
    ensures k <= |s|
  {
    if s != [] && IsDigit(s[0]) then 1 + LeadingDigits(s[1..]) else 0
  }

  lemma {:induction false} LeadingDigitsOf(p: string, t: string)
    requires forall i :: 0 <= i < |p| ==> IsDigit(p[i])
    requires t != [] && !IsDigit(t[0])
    ensures LeadingDigits(p + t) == |p|
  {
    if p != [] {
      assert (p + t)[1..] == p[1..] + t;
      LeadingDigitsOf(p[1..], t);
    }
  }

  /** Two numerals each followed by a non-digit agree when the strings do. */
  lemma SameNumeral(p1: string, t1: string, p2: string, t2: string)
    requires forall i :: 0 <= i < |p1| ==> IsDigit(p1[i])
    requires forall i :: 0 <= i < |p2| ==> IsDigit(p2[i])
    requires t1 != [] && t2 != [] && !IsDigit(t1[0]) && !IsDigit(t2[0])
    requires p1 + t1 == p2 + t2
    ensures p1 == p2 && t1 == t2
  {
    LeadingDigitsOf(p1, t1);
    LeadingDigitsOf(p2, t2);
    assert p1 == (p1 + t1)[..|p1|] && p2 == (p2 + t2)[..|p2|];
    assert t1 == (p1 + t1)[|p1|..] && t2 == (p2 + t2)[|p2|..];
  }

  /** The character right after the leading numeral is `h` exactly when hours are shown. */
  lemma ShowsHours(h: nat, m: nat)
    ensures var s := Render(h, m);
      LeadingDigits(s) < |s| && (s[LeadingDigits(s)] == 'h' <==> h > 0)
  {
    if h > 0 {
      LeadingDigitsOf(Decimal(h), "h " + Decimal(m) + "min");
      assert Render(h, m) == Decimal(h) + ("h " + Decimal(m) + "min");
    } else {
      LeadingDigitsOf(Decimal(m), "min");
    }
  }

  lemma MinutesInjective(m1: nat, m2: nat)
    requires Decimal(m1) + "min" == Decimal(m2) + "min"
    ensures m1 == m2
  {
    SameNumeral(Decimal(m1), "min", Decimal(m2), "min");
    DecimalRoundTrip(m1);
    DecimalRoundTrip(m2);
  }

  lemma PrefixCancel(p: string, a: string, b: string)
    requires p + a == p + b
    ensures a == b
  {
    assert a == (p + a)[|p|..];
  }

  lemma Regroup(d: string, sep: string, e: string, tail: string)
    ensures d + sep + e + tail == d + (sep + (e + tail))
  {
  }

  lemma HoursInjective(h1: nat, m1: nat, h2: nat, m2: nat)
    requires Decimal(h1) + "h " + Decimal(m1) + "min" == Decimal(h2) + "h " + Decimal(m2) + "min"
    ensures h1 == h2 && m1 == m2
  {
    var e1, e2 := Decimal(m1) + "min", Decimal(m2) + "min";
    Regroup(Decimal(h1), "h ", Decimal(m1), "min");
    Regroup(Decimal(h2), "h ", Decimal(m2), "min");
    SameNumeral(Decimal(h1), "h " + e1, Decimal(h2), "h " + e2);
    PrefixCancel("h ", e1, e2);
    MinutesInjective(m1, m2);
    DecimalRoundTrip(h1);
    DecimalRoundTrip(h2);
  }

  /** Different hour/minute pairs never render alike. */
  lemma RenderInjective(h1: nat, m1: nat, h2: nat, m2: nat)
    requires Render(h1, m1) == Render(h2, m2)
    ensures h1 == h2 && m1 == m2
  {
    ShowsHours(h1, m1);
    ShowsHours(h2, m2);
    if h1 > 0 {
      HoursInjective(h1, m1, h2, m2);
    } else {
      MinutesInjective(m1, m2);
    }
  }

  /** The text determines the whole minutes of the duration. */
  lemma DurationTextDeterminesParts(a: real, b: real)
    requires FormatDuration(a) == FormatDuration(b)
    ensures DurationParts(a) == DurationParts(b)
  {
    var (h1, m1) := DurationParts(a);
    var (h2, m2) := DurationParts(b);
    RenderInjective(h1, m1, h2, m2);
  }
}
