/**
 * The `formatTime` helper shared by the timer and history screens: a
 * number of seconds shown as minutes and seconds, each zero-padded to at
 * least two digits and separated by a colon. A small parser for that
 * shape states what the produced text means.
 */
module TimeFormat {
  import opened Optional

  predicate IsDigit(c: char) {
    '0' <= c <= '9'
  }

  predicate AllDigits(s: string) {
    forall k :: 0 <= k < |s| ==> IsDigit(s[k])
  }

  function DigitChar(d: nat): (c: char)
    requires d < 10
    ensures IsDigit(c) && c as int - '0' as int == d
  {
    ('0' as int + d) as char
  }

  /** The number a string of digits denotes; leading zeros count for nothing. */
  function DigitsValue(s: string): nat
    requires AllDigits(s)
  {
    if s == [] then 0 else DigitsValue(s[..|s| - 1]) * 10 + (s[|s| - 1] as int - '0' as int)
  }

  /** `String(n)` for a non-negative integer: the decimal digits of `n`,
      with no leading zero. */
  function Decimal(n: nat): (r: string)
    ensures 1 <= |r| && AllDigits(r) && DigitsValue(r) == n
    ensures n >= 10 ==> r[0] != '0'
    ensures |r| == 1 <==> n < 10
    ensures |r| == 2 <==> 10 <= n < 100
  {
    if n < 10 then [DigitChar(n)]
    else
      var p := Decimal(n / 10);
      var r := p + [DigitChar(n % 10)];
      assert r[..|p|] == p;
      r
  }

  /** `s.padStart(2, "0")` */
  function PadStart2(s: string): (r: string)
    ensures |r| == if |s| < 2 then 2 else |s|
    ensures r[|r| - |s|..] == s
    ensures forall k :: 0 <= k < |r| - |s| ==> r[k] == '0'
  {
    if |s| == 0 then "00" else if |s| == 1 then "0" + s else s
  }

  /** `formatTime(totalSeconds)`: `Math.floor(t / 60)` and `t % 60`, both
      padded to two digits, joined by ':'. The text always ends in ':' and
      two digits, and it is exactly "MM:SS" (five characters) while the
      minutes stay below 100. */
  function FormatTime(totalSeconds: nat): (r: string)
    ensures 5 <= |r| && r[|r| - 3] == ':'
    ensures AllDigits(r[..|r| - 3]) && AllDigits(r[|r| - 2..])
    ensures totalSeconds < 6000 <==> |r| == 5
    ensures |r| > 5 ==> r[0] != '0'
  {
    PadValue(totalSeconds / 60);
    PadValue(totalSeconds % 60);
    Join(PadStart2(Decimal(totalSeconds / 60)), PadStart2(Decimal(totalSeconds % 60)))
  }

  /** The two padded fields joined by ':', seen from the end. */
  function Join(a: string, b: string): (r: string)
    requires AllDigits(a) && AllDigits(b) && 2 <= |a| && |b| == 2
    ensures |r| == |a| + 3 && r[|r| - 3] == ':' && r[..|r| - 3] == a && r[|r| - 2..] == b
  {
    var r := a + ":" + b;
    assert r[..|a|] == a;
    assert r[|a| + 1..] == b;
    r
  }

  /** Reads back text of the shape FormatTime produces: at least one digit,
      a colon, exactly two digits. */
  function ParseTime(t: string): (r: Option<(nat, nat)>)
    ensures r.Some? ==> r.value.1 < 100
  {
    if |t| >= 4 && t[|t| - 3] == ':' && AllDigits(t[..|t| - 3]) && AllDigits(t[|t| - 2..]) then
      DigitsValueBound(t[|t| - 2..]);
      Some((DigitsValue(t[..|t| - 3]), DigitsValue(t[|t| - 2..])))
    else
      None
  }

  lemma {:induction false} DigitsValueBound(s: string)
    requires AllDigits(s) && |s| == 2
    ensures DigitsValue(s) < 100
  {
    assert s[..1][..0] == [];
    assert DigitsValue(s[..1]) == s[0] as int - '0' as int;
  }

  /** A leading '0' does not change the value of a digit string. */
  lemma {:induction false} LeadingZeroValue(s: string)
    requires AllDigits(s)
    ensures AllDigits("0" + s) && DigitsValue("0" + s) == DigitsValue(s)
  {
    if s != [] {
      var p := s[..|s| - 1];
      assert ("0" + s)[..|s|] == "0" + p;
      LeadingZeroValue(p);
    }
  }

  /** Padding does not change the number the digits denote. */
  lemma PadValue(n: nat)
    ensures AllDigits(PadStart2(Decimal(n)))
    ensures |PadStart2(Decimal(n))| == 2 <==> n < 100
    ensures DigitsValue(PadStart2(Decimal(n))) == DigitsValue(Decimal(n)) == n
  {
    var d := Decimal(n);
    if |d| == 1 {
      LeadingZeroValue(d);
    }
  }

  /** The seconds field is always exactly two digits: for s < 60 the padded
      text has length 2. */
  lemma SecondsTwoDigits(s: nat)
    requires s < 60
    ensures |PadStart2(Decimal(s))| == 2
  {
  }

  /** Round trip: formatting `m*60 + s` (with 0 <= s < 60) and reading the
      text back yields `m` and `s`. */
  lemma FormatTimeRoundTrip(m: nat, s: nat)
    requires s < 60
    ensures ParseTime(FormatTime(m * 60 + s)) == Some((m, s))
  {
    DivMod60(m, s);
    PadValue(m);
    PadValue(s);
    var a, b := PadStart2(Decimal(m)), PadStart2(Decimal(s));
    assert FormatTime(m * 60 + s) == Join(a, b);
    ParseJoin(a, b);
  }

  lemma ParseJoin(a: string, b: string)
    requires AllDigits(a) && AllDigits(b) && 2 <= |a| && |b| == 2
    ensures ParseTime(Join(a, b)) == Some((DigitsValue(a), DigitsValue(b)))
  {
    var r := Join(a, b);
    assert r[..|r| - 3] == a && r[|r| - 2..] == b;
  }

  lemma DivMod60(m: nat, s: nat)
    requires s < 60
    ensures (m * 60 + s) / 60 == m && (m * 60 + s) % 60 == s
  {
    var t := m * 60 + s;
    assert 60 * (t / 60 - m) == s - t % 60;
  }

  /** The same round trip stated for any number of seconds. */
  lemma ParseFormatTime(t: nat)
    ensures ParseTime(FormatTime(t)) == Some((t / 60, t % 60))
  {
    FormatTimeRoundTrip(t / 60, t % 60);
    assert (t / 60) * 60 + t % 60 == t;
  }

  /** Zero seconds is shown as "00:00". */
  lemma FormatZero()
    ensures FormatTime(0) == "00:00"
  {
    assert Decimal(0) == "0";
  }
}
