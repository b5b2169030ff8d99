/** `format_clock` (desktop_app/main.py): simulation minutes as `HH:MM:SS`. */
module Clock {
  import opened Wrappers

  /** Python's `int(x)` on a real: truncation toward zero. */
  function Truncate(x: real): (n: int)
    ensures 0.0 <= x ==> n == x.Floor
    ensures x < 0.0 ==> n <= 0 && x <= n as real
    ensures (n as real) - 1.0 < x < (n as real) + 1.0
  {
    if 0.0 <= x then x.Floor else -((-x).Floor)
  }

  /** `max(0, int(minutes * 60))`: whole seconds elapsed, never negative. */
  function TotalSeconds(minutes: real): (n: nat)
    ensures minutes <= 0.0 ==> n == 0
    ensures 0.0 <= minutes ==> n == (minutes * 60.0).Floor
  {
    var t := Truncate(minutes * 60.0);
    if t < 0 then 0 else t
  }

  /** Hours, minutes and seconds of a number of seconds. */
  function Fields(total: nat): (r: (nat, nat, nat))
    ensures r.1 < 60 && r.2 < 60
    ensures r.0 * 3600 + r.1 * 60 + r.2 == total
  {
    (total / 3600, (total % 3600) / 60, total % 60)
  }

  function DigitChar(d: nat): char
    requires d < 10
  {
    (48 + d) as char
  }

  /** Decimal digits of `n` without leading zeros (`str(n)`). */
  function Decimal(n: nat): (s: string)
    ensures 1 <= |s|
    ensures n < 10 <==> |s| == 1
    ensures n < 100 ==> |s| <= 2
    ensures forall i :: 0 <= i < |s| ==> '0' <= s[i] <= '9'
    ensures 10 <= n ==> s[0] != '0'
  {
    if n < 10 then [DigitChar(n)] else Decimal(n / 10) + [DigitChar(n % 10)]
  }

  /** `f"{n:02}"`: at least two digits, padded with a leading zero. */
  function Pad2(n: nat): (s: string)
    ensures 2 <= |s|
    ensures n < 100 ==> |s| == 2
    ensures forall i :: 0 <= i < |s| ==> '0' <= s[i] <= '9'
    ensures 2 < |s| ==> s[0] != '0'
  {
    if n < 10 then "0" + Decimal(n) else Decimal(n)
  }

  /** A number of seconds as `HH:MM:SS`, each field zero-padded to two digits. */
  function ClockString(total: nat): (r: string)
    ensures 8 <= |r|
    ensures Fields(total).0 < 100 ==> |r| == 8
    ensures r[|r| - 6] == ':' && r[|r| - 3] == ':'
  {
    var f := Fields(total);
    Pad2(f.0) + ":" + Pad2(f.1) + ":" + Pad2(f.2)
  }

  function FormatClock(minutes: real): (r: string)
    ensures 8 <= |r|
    ensures Fields(TotalSeconds(minutes)).0 < 100 ==> |r| == 8
    ensures r[|r| - 6] == ':' && r[|r| - 3] == ':'
  {
    ClockString(TotalSeconds(minutes))
  }

  // ---------------------------------------------------------------------
  // Reading a clock string back

  function DecimalValue(s: string): (n: nat)
    decreases |s|
  {
    if s == [] then 0
    else
      var d := s[|s| - 1] as int - 48;
      DecimalValue(s[..|s| - 1]) * 10 + (if 0 <= d then d else 0)
  }

  predicate AllDigits(s: string)
  {
    forall i :: 0 <= i < |s| ==> '0' <= s[i] <= '9'
  }

  /**
   * The seconds that an hours, a minutes and a seconds field stand for, if all
   * are digits, the hours have no leading zero beyond two digits, and the
   * minutes and seconds are below 60.
   */
  function ParseFields(h: string, m: string, sec: string): Option<nat>
  {
    if !AllDigits(h) || !AllDigits(m) || !AllDigits(sec) || h == [] then None
    else if 2 < |h| && h[0] == '0' then None
    else if 60 <= DecimalValue(m) || 60 <= DecimalValue(sec) then None
    else Some(DecimalValue(h) * 3600 + DecimalValue(m) * 60 + DecimalValue(sec))
  }

  /** Reads `H...H:MM:SS` back into seconds. */
  function ParseClock(s: string): Option<nat>
  {
    if |s| < 7 || s[|s| - 6] != ':' || s[|s| - 3] != ':' then None
    else ParseFields(s[..|s| - 6], s[|s| - 5..|s| - 3], s[|s| - 2..])
  }

  lemma {:induction false} DecimalRoundTrip(n: nat)
    ensures DecimalValue(Decimal(n)) == n
    decreases n
  {
    if n >= 10 {
      var s := Decimal(n);
      assert s[..|s| - 1] == Decimal(n / 10);
      DecimalRoundTrip(n / 10);
    }
  }

  lemma {:induction false} LeadingZero(s: string)
    ensures DecimalValue("0" + s) == DecimalValue(s)
    decreases |s|
  {
    if s != [] {
      assert ("0" + s)[..|"0" + s| - 1] == "0" + s[..|s| - 1];
      LeadingZero(s[..|s| - 1]);
    }
  }

  lemma Pad2RoundTrip(n: nat)
    ensures DecimalValue(Pad2(n)) == n
  {
    DecimalRoundTrip(n);
    if n < 10 {
      LeadingZero(Decimal(n));
    }
  }

  /** A string joined from a nonempty field and two two-character fields splits back into them. */
  lemma ParseJoined(h: string, m: string, sec: string)
    requires 1 <= |h| && |m| == 2 && |sec| == 2
    ensures ParseClock(h + ":" + m + ":" + sec) == ParseFields(h, m, sec)
  {
    var r := h + ":" + m + ":" + sec;
    assert r[|r| - 6] == ':' && r[|r| - 3] == ':';
    assert r[..|r| - 6] == h;
    assert r[|r| - 5..|r| - 3] == m;
    assert r[|r| - 2..] == sec;
  }

  /** Zero-padded hours, minutes below 60 and seconds below 60 read back as their seconds. */
  lemma PaddedFieldsRoundTrip(h: nat, m: nat, sec: nat)
    requires m < 60 && sec < 60
    ensures ParseFields(Pad2(h), Pad2(m), Pad2(sec)) == Some(h * 3600 + m * 60 + sec)
  {
    Pad2RoundTrip(h);
    Pad2RoundTrip(m);
    Pad2RoundTrip(sec);
  }

  /** Reading a clock string gives back its number of seconds. */
  lemma ClockStringRoundTrip(total: nat)
    ensures ParseClock(ClockString(total)) == Some(total)
  {
    var f := Fields(total);
    ParseJoined(Pad2(f.0), Pad2(f.1), Pad2(f.2));
    PaddedFieldsRoundTrip(f.0, f.1, f.2);
  }

  /** The reader accepts only the canonical form: fields of 60 or more and padded hours are refused. */
  /** A two-character field reads as its tens digit times ten plus its units digit. */
  lemma TwoDigitValue(s: string)
    requires |s| == 2 && AllDigits(s)
    ensures DecimalValue(s) == (s[0] as int - 48) * 10 + (s[1] as int - 48)
  {
    var tens := s[..1];
    assert tens[..0] == [] && tens[0] == s[0];
    assert DecimalValue(tens) == s[0] as int - 48;
  }

  /** The reader refuses a seconds or a minutes field of 60 or more. */
  lemma ParseClockRefusesOverflow()
    ensures ParseClock("00:00:90") == None
    ensures ParseClock("00:75:00") == None
  {
    assert "00:00:90"[6..] == "90";
    TwoDigitValue("90");
    assert "00:75:00"[3..5] == "75" && "00:75:00"[6..] == "00";
    TwoDigitValue("75");
  }

  /** The reader refuses hours padded beyond two digits. */
  lemma ParseClockRefusesPaddedHours()
    ensures ParseClock("0100:00:00") == None
  {
    assert "0100:00:00"[..4] == "0100";
  }

  lemma FormatClockRoundTrip(minutes: real)
    ensures ParseClock(FormatClock(minutes)) == Some(TotalSeconds(minutes))
  {
    ClockStringRoundTrip(TotalSeconds(minutes));
  }

  /** A time before zero shows as midnight. */
  lemma FormatClockNegative(minutes: real)
    requires minutes < 0.0
    ensures FormatClock(minutes) == "00:00:00"
  {
  }

  lemma FormatClockExample()
    ensures FormatClock(90.5) == "01:30:30"
  {
    assert TotalSeconds(90.5) == 5430;
    assert Fields(5430) == (1, 30, 30);
    assert Decimal(3) == "3";
    assert Decimal(30) == "30";
  }
}
