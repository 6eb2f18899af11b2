/** The elapsed-time label of the recording panel
    (src/renderer/components/recording/RecordingControl.tsx): whole seconds
    shown as MM:SS, or HH:MM:SS from one hour on, each field zero-padded to
    two characters. */
module RecordingControl {
  import opened Types
  import opened Text

  /** JavaScript's `%` for a positive divisor: the remainder keeps the sign
      of the dividend. */
  function JsRem(a: int, b: int): (r: int)
    requires b > 0
    ensures a >= 0 ==> 0 <= r < b && r == a % b
    ensures a < 0 ==> -b < r <= 0
  {
    if a >= 0 then a % b else -((-a) % b)
  }

  /** The remainder differs from the dividend by a multiple of the divisor. */
  lemma JsRemCongruent(a: int, b: int)
    requires b > 0
    ensures (a - JsRem(a, b)) % b == 0
  {
    if a >= 0 {
      MultipleRem(a / b, b);
      assert a - a % b == (a / b) * b;
    } else {
      var q := (-a) / b;
      MultipleRem(-q, b);
      assert a + (-a) % b == (-q) * b;
    }
  }

  /** A multiple of `b` leaves no remainder. */
  lemma MultipleRem(k: int, b: int)
    requires b > 0
    ensures (k * b) % b == 0
  {
    var m := k * b;
    var t := k - m / b;
    assert m == b * (m / b) + m % b;
    assert m % b == b * t;
    assert t == 0;
  }

  /** `n.toString().padStart(2, '0')` for an integer `n`. */
  function Two(n: int): (r: string)
    ensures |r| >= 2
  {
    PadStart(IntToString(n), 2)
  }

  /** `formatDuration`. `Math.floor` of a quotient by a positive constant is
      Dafny's `/`, which rounds toward minus infinity for positive divisors. */
  function FormatDuration(seconds: int): (r: string)
    ensures |r| >= 5
  {
    var hours := seconds / 3600;
    var minutes := JsRem(seconds, 3600) / 60;
    var secs := JsRem(seconds, 60);
    if hours > 0 then Two(hours) + ":" + Two(minutes) + ":" + Two(secs)
    else Two(minutes) + ":" + Two(secs)
  }

  /** Reads an "MM:SS" label back as seconds. */
  function ShortValue(r: string): Option<nat>
  {
    if |r| != 5 || r[2] != ':' || !AllDigits(r[..2]) || !AllDigits(r[3..]) then None
    else Some(DigitsValue(r[..2]) * 60 + DigitsValue(r[3..]))
  }

  /** Reads a label back: "MM:SS", or an hour field of any width, a ':' and
      "MM:SS". */
  function ClockValue(r: string): (v: Option<nat>)
  {
    var k := |r|;
    if k == 5 then ShortValue(r)
    else if k >= 8 && r[k - 6] == ':' && AllDigits(r[..k - 6]) && ShortValue(r[k - 5..]).Some? then
      Some(DigitsValue(r[..k - 6]) * 3600 + ShortValue(r[k - 5..]).value)
    else None
  }

  /** For a field below 60 the padded text is two digits with its value. */
  lemma TwoDigits(n: nat)
    requires n < 100
    ensures Two(n) == PadNat(n, 2) && |Two(n)| == 2 && AllDigits(Two(n)) && DigitsValue(Two(n)) == n
  {
    assert Pow10(2) == 100 by {
      assert Pow10(1) == 10;
    }
    PadNatWidth(n, 2);
    PadNatRoundTrip(n, 2);
  }

  /** The minute field is the minutes within the current hour. */
  lemma Fields(s: nat)
    ensures (s % 3600) / 60 == (s / 60) % 60 && s / 60 / 60 == s / 3600
    ensures (s / 3600) * 3600 + ((s / 60) % 60) * 60 + s % 60 == s
  {
    var q, r := s / 3600, s % 3600;
    var a, b := r / 60, r % 60;
    assert s == 3600 * q + r && r == 60 * a + b;
    assert s == 60 * (60 * q + a) + b;
    assert s / 60 == 60 * q + a;
    assert s % 60 == b;
  }

  /** Under an hour the label has the MM:SS shape and below 100 hours the
      HH:MM:SS shape; the fields are the minutes and seconds within the hour
      and the whole hours. */
  lemma FormatDurationShape(s: nat)
    ensures s < 3600 ==> FormatDuration(s) == PadNat(s / 60, 2) + ":" + PadNat(s % 60, 2)
    ensures s >= 3600 ==> FormatDuration(s) == PadNat(s / 3600, 2) + ":" + PadNat(s / 60 % 60, 2) + ":" + PadNat(s % 60, 2)
    ensures s < 360000 ==> |FormatDuration(s)| == if s < 3600 then 5 else 8
  {
    Fields(s);
    TwoDigits(s / 60 % 60);
    TwoDigits(s % 60);
    if s < 3600 {
      assert s / 3600 == 0;
    } else if s < 360000 {
      TwoDigits(s / 3600);
    } else {
      assert Two(s / 3600) == PadNat(s / 3600, 2);
    }
  }

  /** A two-field label reads back as minutes and seconds. */
  lemma ReadShort(r: string, mm: string, ss: string)
    requires |mm| == 2 && |ss| == 2 && AllDigits(mm) && AllDigits(ss)
    requires r == mm + ":" + ss
    ensures ShortValue(r) == Some(DigitsValue(mm) * 60 + DigitsValue(ss))
  {
    assert r[..2] == mm && r[3..] == ss;
  }

  /** Where the fields of a label with an hour field lie. */
  lemma LongFields(hh: string, t: string)
    requires |t| == 5
    ensures var r := hh + ":" + t;
      |r| == |hh| + 6 && r[..|r| - 6] == hh && r[|r| - 6] == ':' && r[|r| - 5..] == t
  {
  }

  /** A label with an hour field reads back as the hours and the "MM:SS" after them. */
  lemma ReadLong(r: string, hh: string, t: string, v: nat)
    requires |hh| >= 2 && AllDigits(hh) && ShortValue(t).Some?
    requires |r| == |hh| + 6 && r[..|r| - 6] == hh && r[|r| - 6] == ':' && r[|r| - 5..] == t
    requires v == DigitsValue(hh) * 3600 + ShortValue(t).value
    ensures ClockValue(r) == Some(v)
  {
  }

  /** Under an hour the label reads back as the duration ... */
  lemma ShortRoundTrip(s: nat)
    requires s < 3600
    ensures ClockValue(FormatDuration(s)) == Some(s)
  {
    FormatDurationShape(s);
    TwoDigits(s / 60);
    TwoDigits(s % 60);
    var mm, ss := PadNat(s / 60, 2), PadNat(s % 60, 2);
    ReadShort(FormatDuration(s), mm, ss);
    assert |FormatDuration(s)| == 5;
  }

  /** A label of three digit fields reads back as hours, minutes and seconds. */
  lemma ReadThree(hh: string, mm: string, ss: string)
    requires |hh| >= 2 && AllDigits(hh)
    requires |mm| == 2 && |ss| == 2 && AllDigits(mm) && AllDigits(ss)
    ensures ClockValue(hh + ":" + mm + ":" + ss).Some?
    ensures ClockValue(hh + ":" + mm + ":" + ss).value == DigitsValue(hh) * 3600 + DigitsValue(mm) * 60 + DigitsValue(ss)
  {
    var t := mm + ":" + ss;
    ReadShort(t, mm, ss);
    var r := hh + ":" + mm + ":" + ss;
    assert r == hh + ":" + t;
    LongFields(hh, t);
    ReadLong(r, hh, t, DigitsValue(hh) * 3600 + DigitsValue(mm) * 60 + DigitsValue(ss));
  }

  /** A label with hour, minute and second fields reads back as their value. */
  lemma LongLabelValue(h: nat, m: nat, c: nat)
    requires m < 60 && c < 60
    ensures var v := ClockValue(PadNat(h, 2) + ":" + PadNat(m, 2) + ":" + PadNat(c, 2));
      v.Some? && v.value == h * 3600 + m * 60 + c
  {
    var hh, mm, ss := PadNat(h, 2), PadNat(m, 2), PadNat(c, 2);
    PadNatRoundTrip(h, 2);
    TwoDigits(m);
    TwoDigits(c);
    ReadThree(hh, mm, ss);
  }

  /** ... and so it does from an hour on. */
  lemma LongRoundTrip(s: nat)
    requires s >= 3600
    ensures ClockValue(FormatDuration(s)) == Some(s)
  {
    FormatDurationShape(s);
    Fields(s);
    LongLabelValue(s / 3600, s / 60 % 60, s % 60);
  }

  /** Reading the label back gives the duration, for every non-negative
      whole number of seconds. */
  lemma DurationRoundTrip(s: nat)
    ensures ClockValue(FormatDuration(s)) == Some(s)
  {
    if s < 3600 {
      ShortRoundTrip(s);
    } else {
      LongRoundTrip(s);
    }
  }

  /** A negative input follows JavaScript's rounding: -5 seconds shows as
      "-1:-5". */
  lemma NegativeDuration()
    ensures FormatDuration(-5) == "-1:-5"
  {
    assert IntToString(-1) == "-1";
    assert IntToString(-5) == "-5";
  }
}
