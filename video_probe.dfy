/**
 * The record `getVideoInfo` of test_video_info.js builds from what
 * `yt-dlp --get-title --get-duration --print duration` printed: the length in seconds on the
 * first line, the title on the second and the formatted duration on the third; the title shown
 * is decorated with the formatted duration and a warning when the video lasts over an hour.
 *
 * The yt-dlp run is an input (`Lookup`: `Failed` or its stdout).
 */
module VideoProbe {
  import opened Wrappers
  import opened JsText
  import opened VideoInfo

  /** One hour: a longer video is flagged. */
  const LongThreshold: int := 3600

  /** Separators of the decorated title. */
  const Open: string := " ("
  const Warned: string := " ⚠️ ("
  const LongTag: string := " - Video largo"
  const Close: string := ")"

  /** `originalTitle` and `durationFormatted`, present only when the lookup succeeded. */
  datatype Details = Details(originalTitle: string, durationFormatted: string)

  /** The resolved record: the title shown, the length in seconds and the long flag. */
  datatype Probe = Probe(title: string, seconds: int, isLong: bool, details: Option<Details>)

  /** The record of a failed lookup. */
  const FailedProbe: Probe := Probe(Unavailable, 0, false, None)

  /** `parseInt(line) || 0`: NaN and zero both give 0. */
  function SecondsOf(line: string): (r: int)
    ensures ParseIntOf(line).None? ==> r == 0
    ensures ParseIntOf(line).Some? ==> r == ParseIntOf(line).value
  {
    match ParseIntOf(line)
    case None => 0
    case Some(v) => v
  }

  /**
   * The title shown: the bare title when there is no formatted duration, otherwise the title
   * followed by the duration in parentheses, with a warning sign and "Video largo" when long.
   */
  function Decorated(title: string, fmt: string, isLong: bool): (r: string)
    ensures |title| <= |r| && r[..|title|] == title
    ensures r[|title|..] == [] <==> fmt == []
    ensures fmt != [] ==> (StartsWith(r[|title|..], Warned) <==> isLong)
    ensures fmt != [] ==> EndsWith(r, Close)
  {
    if fmt == [] then title
    else if isLong then title + (Warned + (fmt + (LongTag + Close)))
    else
      var tail := Open + (fmt + Close);
      assert tail[1] != Warned[1];
      title + tail
  }

  /** The record built from the output lines. */
  function ProbeFromLines(lines: seq<string>): (r: Probe)
    requires |lines| >= 1
    ensures r.seconds == SecondsOf(lines[0])
    ensures r.isLong <==> r.seconds > LongThreshold
    ensures r.details == Some(Details(LineOr(lines, 1, Unavailable), LineOr(lines, 2, "")))
    ensures r.title == Decorated(r.details.value.originalTitle, r.details.value.durationFormatted, r.isLong)
  {
    var seconds := SecondsOf(lines[0]);
    var title := LineOr(lines, 1, Unavailable);
    var fmt := LineOr(lines, 2, "");
    var isLong := seconds > LongThreshold;
    Probe(Decorated(title, fmt, isLong), seconds, isLong, Some(Details(title, fmt)))
  }

  /** `getVideoInfo` of test_video_info.js after the lookup. */
  function ProbeOf(out: Lookup): (r: Probe)
    ensures out.Failed? <==> r.details.None?
    ensures out.Failed? ==> r == FailedProbe
  {
    match out
    case Failed => FailedProbe
    case Printed(s) => ProbeFromLines(Split(Trim(s), '\n'))
  }

  /** A failed probe is the only record without details, and it is never long. */
  lemma FailedIsShort(out: Lookup)
    ensures ProbeOf(out).details.None? ==> !ProbeOf(out).isLong && ProbeOf(out).seconds == 0
  {
  }

  /**
   * Output whose first line is a plain numeral: the record reports that many seconds, is long
   * exactly beyond an hour, and keeps the title and the formatted duration of the next lines.
   */
  lemma {:induction false} NumeralFirstLine(d: string, title: string, fmt: string, rest: seq<string>)
    requires d != [] && AllDigits(d) && title != [] && fmt != []
    ensures var r := ProbeFromLines([d, title, fmt] + rest);
      r.seconds == DigitsValue(d) && (r.isLong <==> DigitsValue(d) > 3600)
      && r.details == Some(Details(title, fmt))
      && r.title[..|title|] == title && (StartsWith(r.title[|title|..], Warned) <==> DigitsValue(d) > 3600)
  {
    var lines := [d, title, fmt] + rest;
    assert lines[0] == d && lines[1] == title && lines[2] == fmt;
    ParseIntNumeral(d);
  }

  /** A first line that is not a number counts as zero seconds: never long, never warned. */
  lemma NonNumericFirstLine(lines: seq<string>)
    requires |lines| >= 1 && ParseIntOf(lines[0]).None?
    ensures ProbeFromLines(lines).seconds == 0 && !ProbeFromLines(lines).isLong
    ensures !StartsWith(ProbeFromLines(lines).title[|ProbeFromLines(lines).details.value.originalTitle|..], Warned)
  {
  }

  /** Output with a single line has the fallback title and no formatted duration. */
  lemma {:induction false} OneLine(d: string)
    ensures ProbeFromLines([d]).title == Unavailable
    ensures ProbeFromLines([d]).details == Some(Details(Unavailable, ""))
  {
  }
}
