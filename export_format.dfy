/** Rendering a transcription result for export
    (src/main/services/TranscriptionManager.ts): the SRT and WebVTT clock
    formats, the subtitle generators, and the body and extension chosen for
    each export format. Segment times are whole milliseconds. */
module Export {
  import opened Types
  import opened Text

  // ---------------------------------------------------------------------
  // Clock rendering
  // ---------------------------------------------------------------------

  /** `HH:MM:SS<sep>mmm` for a time of `t` milliseconds; the hour field is
      padded to two digits and grows beyond them for long recordings. */
  function Clock(t: nat, sep: char): string
  {
    var secs := t / 1000;
    PadNat(secs / 3600, 2) + ":" + PadNat((secs % 3600) / 60, 2) + ":" + PadNat(secs % 60, 2)
      + [sep] + PadNat(t % 1000, 3)
  }

  /** `formatTime`: the SRT clock, with a comma before the milliseconds. */
  function FormatTime(t: nat): string { Clock(t, ',') }

  /** `formatTimeVTT`: the WebVTT clock, with a full stop before the milliseconds. */
  function FormatTimeVtt(t: nat): string { Clock(t, '.') }

  /** A string laid out as `H:MM:SS<sep>mmm` with an hour field of at least two digits. */
  predicate ClockShape(s: string, sep: char)
  {
    var n := |s|;
    && n >= 12
    && AllDigits(s[..n - 10]) && s[n - 10] == ':'
    && AllDigits(s[n - 9..n - 7]) && s[n - 7] == ':'
    && AllDigits(s[n - 6..n - 4]) && s[n - 4] == sep
    && AllDigits(s[n - 3..])
    && DigitsValue(s[n - 9..n - 7]) < 60 && DigitsValue(s[n - 6..n - 4]) < 60
  }

  /** Reads a clock back into milliseconds. */
  function DecodeClock(s: string, sep: char): nat
    requires ClockShape(s, sep)
  {
    var n := |s|;
    DigitsValue(s[..n - 10]) * 3600000 + DigitsValue(s[n - 9..n - 7]) * 60000
      + DigitsValue(s[n - 6..n - 4]) * 1000 + DigitsValue(s[n - 3..])
  }

  /** Splitting milliseconds into hours, minutes, seconds and milliseconds loses nothing. */
  lemma ClockArithmetic(t: nat)
    ensures (t / 1000) / 3600 * 3600000 + ((t / 1000) % 3600) / 60 * 60000 + (t / 1000) % 60 * 1000 + t % 1000 == t
  {
    var q := t / 1000;
    var r := q % 3600;
    assert q == q / 3600 * 3600 + r;
    assert r == r / 60 * 60 + r % 60;
    assert r % 60 == q % 60 by {
      assert q == (q / 3600 * 60) * 60 + r;
    }
    assert t == q * 1000 + t % 1000;
  }

  /** Where each field of a clock sits, counted from its end. */
  lemma ClockFields(t: nat, sep: char)
    ensures var secs := t / 1000;
      var s := Clock(t, sep);
      var n := |s|;
      && n >= 12
      && s[..n - 10] == PadNat(secs / 3600, 2) && s[n - 10] == ':'
      && s[n - 9..n - 7] == PadNat((secs % 3600) / 60, 2) && s[n - 7] == ':'
      && s[n - 6..n - 4] == PadNat(secs % 60, 2) && s[n - 4] == sep
      && s[n - 3..] == PadNat(t % 1000, 3)
  {
    var secs := t / 1000;
    var h, m, sc, ms := PadNat(secs / 3600, 2), PadNat((secs % 3600) / 60, 2), PadNat(secs % 60, 2), PadNat(t % 1000, 3);
    assert Pow10(2) == 100 && Pow10(3) == 1000;
    PadNatWidth((secs % 3600) / 60, 2);
    PadNatWidth(secs % 60, 2);
    PadNatWidth(t % 1000, 3);
    var s := Clock(t, sep);
    assert s == h + ":" + m + ":" + sc + [sep] + ms;
    var n := |s|;
    assert n == |h| + 10;
    assert s[..n - 10] == h;
    assert s[n - 9..n - 7] == m;
    assert s[n - 6..n - 4] == sc;
    assert s[n - 3..] == ms;
  }

  /** A clock's fields read back as hours, minutes, seconds and milliseconds. */
  lemma ClockFieldValues(t: nat, sep: char)
    ensures var secs := t / 1000;
      var s := Clock(t, sep);
      var n := |s|;
      && ClockShape(s, sep)
      && DigitsValue(s[..n - 10]) == secs / 3600
      && DigitsValue(s[n - 9..n - 7]) == (secs % 3600) / 60
      && DigitsValue(s[n - 6..n - 4]) == secs % 60
      && DigitsValue(s[n - 3..]) == t % 1000
  {
    var secs := t / 1000;
    ClockFields(t, sep);
    PadNatRoundTrip(secs / 3600, 2);
    PadNatRoundTrip((secs % 3600) / 60, 2);
    PadNatRoundTrip(secs % 60, 2);
    PadNatRoundTrip(t % 1000, 3);
  }

  /** Both clocks have the expected layout, with minutes and seconds below
      60, and read back to the time they render. */
  lemma {:induction false} ClockRoundTrip(t: nat, sep: char)
    ensures ClockShape(Clock(t, sep), sep)
    ensures DecodeClock(Clock(t, sep), sep) == t
  {
    var secs := t / 1000;
    ClockFieldValues(t, sep);
    var s := Clock(t, sep);
    assert DecodeClock(s, sep) == (secs / 3600) * 3600000 + ((secs % 3600) / 60) * 60000 + (secs % 60) * 1000 + t % 1000;
    ClockArithmetic(t);
  }

  /** The SRT and WebVTT clocks for the same time differ only in the separator
      before the milliseconds, and both are decoded to the same time. */
  lemma SrtAndVttClocksAgree(t: nat)
    ensures |FormatTime(t)| == |FormatTimeVtt(t)| >= 12
    ensures var n := |FormatTime(t)|;
      FormatTime(t)[..n - 4] == FormatTimeVtt(t)[..n - 4]
      && FormatTime(t)[n - 4] == ',' && FormatTimeVtt(t)[n - 4] == '.'
      && FormatTime(t)[n - 3..] == FormatTimeVtt(t)[n - 3..]
    ensures ClockShape(FormatTime(t), ',') && ClockShape(FormatTimeVtt(t), '.')
    ensures DecodeClock(FormatTime(t), ',') == DecodeClock(FormatTimeVtt(t), '.') == t
  {
    ClockRoundTrip(t, ',');
    ClockRoundTrip(t, '.');
    var secs := t / 1000;
    var prefix := PadNat(secs / 3600, 2) + ":" + PadNat((secs % 3600) / 60, 2) + ":" + PadNat(secs % 60, 2);
    var ms := PadNat(t % 1000, 3);
    assert FormatTime(t) == prefix + [','] + ms;
    assert FormatTimeVtt(t) == prefix + ['.'] + ms;
    var n := |FormatTime(t)|;
    assert FormatTime(t)[..n - 4] == prefix;
    assert FormatTimeVtt(t)[..n - 4] == prefix;
  }

  // ---------------------------------------------------------------------
  // Subtitle files
  // ---------------------------------------------------------------------

  /** `result.apiResponse?.segments || []`. */
  function SegmentsOf(result: TranscriptionResult): (segs: seq<Segment>)
    ensures result.apiResponse.None? ==> segs == []
  {
    if result.apiResponse.Some? && result.apiResponse.value.segments.Some? then result.apiResponse.value.segments.value
    else []
  }

  /** The SRT cue for the segment at 0-based position `index`: its 1-based
      number, its time range and its text, followed by a blank line. */
  function SrtCue(index: nat, seg: Segment): string
  {
    NatToString(index + 1) + "\n" + FormatTime(seg.start) + " --> " + FormatTime(seg.end) + "\n" + seg.text + "\n\n"
  }

  /** The WebVTT cue: as the SRT cue, without a number and with WebVTT clocks. */
  function VttCue(seg: Segment): string
  {
    FormatTimeVtt(seg.start) + " --> " + FormatTimeVtt(seg.end) + "\n" + seg.text + "\n\n"
  }

  /** The WebVTT cue at any position: unnumbered cues ignore their position. */
  function VttCueAt(index: nat, seg: Segment): string { VttCue(seg) }

  /** The cues of `segs` laid end to end, the first one rendered at position `first`. */
  function Cues(segs: seq<Segment>, first: nat, cue: (nat, Segment) -> string): string
  {
    if segs == [] then "" else Cues(segs[..|segs| - 1], first, cue) + cue(first + |segs| - 1, segs[|segs| - 1])
  }

  /** The whole SRT document for a list of segments. */
  function SrtText(segs: seq<Segment>): string { Cues(segs, 0, SrtCue) }

  /** The whole WebVTT document for a list of segments. */
  function VttText(segs: seq<Segment>): string { VttHeader + VttCues(segs) }

  const VttHeader: string := "WEBVTT\n\n"

  function VttCues(segs: seq<Segment>): string { Cues(segs, 0, VttCueAt) }

  /** Cue lists compose: the cues of `a + b` are those of `a` followed by
      those of `b` rendered at the positions after `a`'s. */
  lemma {:induction false} CuesSplit(a: seq<Segment>, b: seq<Segment>, first: nat, cue: (nat, Segment) -> string)
    ensures Cues(a + b, first, cue) == Cues(a, first, cue) + Cues(b, first + |a|, cue)
    decreases |b|
  {
    if b == [] {
      assert a + b == a;
    } else {
      var b' := b[..|b| - 1];
      assert (a + b)[..|a + b| - 1] == a + b';
      CuesSplit(a, b', first, cue);
    }
  }

  /** Cue `i` of a cue list sits between the cues before it and those after it. */
  lemma CueAt(segs: seq<Segment>, i: nat, first: nat, cue: (nat, Segment) -> string)
    requires i < |segs|
    ensures Cues(segs, first, cue)
      == Cues(segs[..i], first, cue) + cue(first + i, segs[i]) + Cues(segs[i + 1..], first + i + 1, cue)
  {
    var pre, mid, post := segs[..i], [segs[i]], segs[i + 1..];
    assert segs == pre + (mid + post);
    CuesSplit(pre, mid + post, first, cue);
    CuesSplit(mid, post, first + i, cue);
    assert mid[..0] == [];
  }

  /** Cue `i` of an SRT document carries the number i + 1 and the i-th
      segment, between the cues before it and those after it. */
  lemma SrtCueAt(segs: seq<Segment>, i: nat)
    requires i < |segs|
    ensures SrtText(segs) == SrtText(segs[..i]) + SrtCue(i, segs[i]) + Cues(segs[i + 1..], i + 1, SrtCue)
  {
    CueAt(segs, i, 0, SrtCue);
  }

  /** Concatenating segment lists concatenates the WebVTT cue lists. */
  lemma VttAppend(a: seq<Segment>, b: seq<Segment>)
    ensures VttCues(a + b) == VttCues(a) + VttCues(b)
  {
    CuesSplit(a, b, 0, VttCueAt);
    CuesShift(b, |a|, 0, VttCueAt);
  }

  /** A cue function that ignores positions gives the same cues from any start. */
  lemma {:induction false} CuesShift(segs: seq<Segment>, m: nat, n: nat, cue: (nat, Segment) -> string)
    requires forall i, j, seg :: cue(i, seg) == cue(j, seg)
    ensures Cues(segs, m, cue) == Cues(segs, n, cue)
  {
    if segs != [] {
      CuesShift(segs[..|segs| - 1], m, n, cue);
    }
  }

  /** Appending an SRT cue line by line appends the whole cue. */
  lemma AppendSrtCue(before: string, number: string, startTime: string, endTime: string, text: string)
    ensures ((before + number + "\n") + startTime + " --> " + endTime + "\n") + text + "\n\n"
      == before + (number + "\n" + startTime + " --> " + endTime + "\n" + text + "\n\n")
  {
  }

  /** Appending a WebVTT cue line by line appends the whole cue. */
  lemma AppendVttCue(before: string, startTime: string, endTime: string, text: string)
    ensures (before + startTime + " --> " + endTime + "\n") + text + "\n\n"
      == before + (startTime + " --> " + endTime + "\n" + text + "\n\n")
  {
  }

  lemma SrtStep(segs: seq<Segment>, i: nat)
    requires i < |segs|
    ensures SrtText(segs[..i + 1]) == SrtText(segs[..i]) + SrtCue(i, segs[i])
  {
    assert segs[..i + 1][..i] == segs[..i];
  }

  lemma VttStep(segs: seq<Segment>, i: nat)
    requires i < |segs|
    ensures VttText(segs[..i + 1]) == VttText(segs[..i]) + VttCue(segs[i])
  {
    assert segs[..i + 1][..i] == segs[..i];
    assert VttCues(segs[..i + 1]) == VttCues(segs[..i]) + VttCue(segs[i]);
    ConcatAssoc(VttHeader, VttCues(segs[..i]), VttCue(segs[i]));
  }

  lemma ConcatAssoc(a: string, b: string, c: string)
    ensures a + (b + c) == (a + b) + c
  {
  }

  /** A result without segments exports as an empty SRT file and a bare WebVTT header. */
  lemma NoSegments(result: TranscriptionResult)
    requires SegmentsOf(result) == []
    ensures SrtText(SegmentsOf(result)) == ""
    ensures VttText(SegmentsOf(result)) == VttHeader
  {
  }

  lemma SmallPads()
    ensures PadNat(0, 2) == "00" && PadNat(1, 2) == "01" && PadNat(2, 2) == "02" && PadNat(0, 3) == "000"
  {
    assert NatToString(0) == "0" && NatToString(1) == "1" && NatToString(2) == "2";
    assert Zeros(1) == "0";
    assert Zeros(2) == "00";
  }

  /** The clock of a whole number of seconds below a minute. */
  lemma WholeSecondClock(k: nat, sep: char)
    requires k < 60
    ensures Clock(k * 1000, sep) == "00:00:" + PadNat(k, 2) + [sep] + "000"
  {
    var t := k * 1000;
    assert t / 1000 == k && t % 1000 == 0;
    assert k / 3600 == 0 && (k % 3600) / 60 == 0 && k % 60 == k;
    SmallPads();
  }

  /** Two segments export as two SRT cues numbered 1 and 2, and as the WebVTT
      header followed by the same two cues unnumbered. */
  lemma TwoSegmentDocuments(a: Segment, b: Segment)
    ensures SrtText([a, b]) == SrtCue(0, a) + SrtCue(1, b)
    ensures VttText([a, b]) == VttHeader + VttCue(a) + VttCue(b)
  {
    TwoCues(a, b, 0, SrtCue);
    TwoCues(a, b, 0, VttCueAt);
    ConcatAssoc(VttHeader, VttCue(a), VttCue(b));
  }

  lemma TwoCues(a: Segment, b: Segment, first: nat, cue: (nat, Segment) -> string)
    ensures Cues([a, b], first, cue) == cue(first, a) + cue(first + 1, b)
  {
    assert [a, b][..1] == [a];
    assert [a][..0] == [];
    assert Cues([a], first, cue) == "" + cue(first, a);
    assert "" + cue(first, a) == cue(first, a);
  }

  /** `generateSRT`: appends one cue per segment. */
  method GenerateSrt(result: TranscriptionResult) returns (content: string)
    ensures content == SrtText(SegmentsOf(result))
  {
    var segs := SegmentsOf(result);
    content := "";
    for i := 0 to |segs|
      invariant content == SrtText(segs[..i])
    {
      SrtStep(segs, i);
      var startTime := FormatTime(segs[i].start);
      var endTime := FormatTime(segs[i].end);
      AppendSrtCue(content, NatToString(i + 1), startTime, endTime, segs[i].text);
      content := content + NatToString(i + 1) + "\n";
      content := content + startTime + " --> " + endTime + "\n";
      content := content + segs[i].text + "\n\n";
    }
    assert segs[..|segs|] == segs;
  }

  /** `generateVTT`: the header, then one cue per segment. */
  method GenerateVtt(result: TranscriptionResult) returns (content: string)
    ensures content == VttText(SegmentsOf(result))
  {
    var segs := SegmentsOf(result);
    content := "WEBVTT\n\n";
    for i := 0 to |segs|
      invariant content == VttText(segs[..i])
    {
      VttStep(segs, i);
      var startTime := FormatTimeVtt(segs[i].start);
      var endTime := FormatTimeVtt(segs[i].end);
      AppendVttCue(content, startTime, endTime, segs[i].text);
      content := content + startTime + " --> " + endTime + "\n";
      content := content + segs[i].text + "\n\n";
    }
    assert segs[..|segs|] == segs;
  }

  // ---------------------------------------------------------------------
  // Export bodies
  // ---------------------------------------------------------------------

  /** What an export writes: literal text, or the pretty-printed JSON of the result. */
  datatype Body = Plain(text: string) | JsonOf(result: TranscriptionResult)

  /** `apiResponse?.text || ''`. */
  function PlainTextOf(result: TranscriptionResult): string
  {
    if result.apiResponse.Some? && result.apiResponse.value.text.Some? then result.apiResponse.value.text.value else ""
  }

  function Extension(format: ExportFormat): (ext: string)
    ensures ext == "." + Lower(format.Name())
  {
    match format
    case TXT => ".txt"
    case JSON => ".json"
    case SRT => ".srt"
    case VTT => ".vtt"
  }

  /** The body and extension of an export, or the error for a format name
      outside the four supported ones. */
  method Render(result: TranscriptionResult, format: string) returns (r: Result<(Body, string)>)
    ensures ParseExportFormat(format).None? <==> r.Err?
    ensures r.Err? ==> r.error == PlainError("不支持的导出格式: " + format)
    ensures r.Ok? ==> var f := ParseExportFormat(format).value;
      r.value.1 == Extension(f)
      && (f == TXT ==> r.value.0 == Plain(PlainTextOf(result)))
      && (f == JSON ==> r.value.0 == JsonOf(result))
      && (f == SRT ==> r.value.0 == Plain(SrtText(SegmentsOf(result))))
      && (f == VTT ==> r.value.0 == Plain(VttText(SegmentsOf(result))))
  {
    var parsed := ParseExportFormat(format);
    if parsed.None? {
      return Err(PlainError("不支持的导出格式: " + format));
    }
    var f := parsed.value;
    var body: Body;
    match f {
      case TXT => body := Plain(PlainTextOf(result));
      case JSON => body := JsonOf(result);
      case SRT => { var s := GenerateSrt(result); body := Plain(s); }
      case VTT => { var s := GenerateVtt(result); body := Plain(s); }
    }
    r := Ok((body, Extension(f)));
  }

  /** `transcription_<taskId>_<millis><ext>` under the export directory. */
  function ExportPath(exportDir: string, taskId: string, now: nat, format: ExportFormat): (p: string)
    ensures EndsWith(p, Extension(format))
    ensures StartsWith(p, exportDir + "/transcription_" + taskId + "_")
  {
    var p := exportDir + "/transcription_" + taskId + "_" + NatToString(now) + Extension(format);
    assert p[|p| - |Extension(format)|..] == Extension(format);
    assert p[..|exportDir + "/transcription_" + taskId + "_"|] == exportDir + "/transcription_" + taskId + "_";
    p
  }
}
