/**
 * Duration and seek-time arithmetic: `parseDurationToSeconds` (the clock text yt-dlp prints),
 * `parseTimeToSeconds` and `formatSecondsToTime` (the seek command), the long-video and
 * streaming thresholds, and the target of a relative or absolute seek.
 */
module Durations {
  import opened Wrappers
  import opened JsText

  /** Videos longer than this many seconds are refused (four hours). */
  const LongLimit: real := 14400.0
  /** The one-hour cap of the download-only revision. */
  const BackupLongLimit: real := 3600.0
  /** Videos longer than this many seconds are streamed instead of downloaded. */
  const StreamLimit: real := 900.0

  // ---------------------------------------------------------------------------
  // parseDurationToSeconds

  /**
   * `parseDurationToSeconds`: the empty string and "N/A" give 0, otherwise the text is split
   * on ':', every part is read with `Number` and the values are combined by `ClockSeconds`.
   * `None` is `NaN`.
   */
  function ParseDurationToSeconds(duration: string): Option<JsNumber>
  {
    if duration == "" || duration == "N/A" then Some(Finite(0.0))
    else ClockSeconds(NumbersOf(Split(duration, ':')))
  }

  /** `parts.map(Number)`. */
  function NumbersOf(parts: seq<string>): (r: seq<Option<JsNumber>>)
    ensures |r| == |parts| && forall i :: 0 <= i < |parts| ==> r[i] == NumberOf(parts[i])
  {
    if parts == [] then [] else [NumberOf(parts[0])] + NumbersOf(parts[1..])
  }

  /**
   * Three values are hours, minutes and seconds, two are minutes and seconds, any other
   * count gives 0. The sum follows JavaScript: a `NaN` among the used values makes it `NaN`,
   * an infinity makes it infinite, and infinities of opposite signs make it `NaN`.
   */
  function ClockSeconds(v: seq<Option<JsNumber>>): Option<JsNumber>
  {
    if |v| == 3 then Plus(Plus(Times(v[0], 3600.0), Times(v[1], 60.0)), v[2])
    else if |v| == 2 then Plus(Times(v[0], 60.0), v[1])
    else Some(Finite(0.0))
  }

  /**
   * `duration && parseDurationToSeconds(duration) > limit`: a missing duration and `NaN`
   * never exceed the limit.
   */
  predicate Exceeds(duration: string, limit: real)
  {
    duration != "" && Above(ParseDurationToSeconds(duration), limit)
  }

  lemma ParseViaSplit(d: string, parts: seq<string>)
    requires d != "" && d != "N/A" && Split(d, ':') == parts
    ensures ParseDurationToSeconds(d) == ClockSeconds(NumbersOf(parts))
  {
  }

  /** Integer clock arithmetic carried out on the reals gives the same value. */
  lemma ClockSumAsReal(x: int, y: int, z: int)
    ensures (x as real) * 3600.0 + (y as real) * 60.0 + (z as real) == (x * 3600 + y * 60 + z) as real
    ensures (y as real) * 60.0 + (z as real) == (y * 60 + z) as real
  {
  }

  lemma ClockSecondsOf2(v: seq<Option<JsNumber>>, y: int, z: int, total: int)
    requires |v| == 2 && v[0] == Some(Finite(y as real)) && v[1] == Some(Finite(z as real)) && y * 60 + z == total
    ensures ClockSeconds(v) == Some(Finite(total as real))
  {
    ClockSumAsReal(0, y, z);
  }

  lemma ClockSecondsOf3(v: seq<Option<JsNumber>>, x: int, y: int, z: int, total: int)
    requires |v| == 3 && v[0] == Some(Finite(x as real)) && v[1] == Some(Finite(y as real)) && v[2] == Some(Finite(z as real))
    requires x * 3600 + y * 60 + z == total
    ensures ClockSeconds(v) == Some(Finite(total as real))
  {
    ClockSumAsReal(x, y, z);
  }

  /** Numerals as minutes and seconds combine to m*60 + s under `Number`. */
  lemma SecondsOfNumerals2(fs: seq<string>, total: int)
    requires |fs| == 2 && AllDigits(fs[0]) && AllDigits(fs[1])
    requires DigitsValue(fs[0]) * 60 + DigitsValue(fs[1]) == total
    ensures ClockSeconds(NumbersOf(fs)) == Some(Finite(total as real))
  {
    NumberOfNumeral(fs[0]);
    NumberOfNumeral(fs[1]);
    ClockSecondsOf2(NumbersOf(fs), DigitsValue(fs[0]), DigitsValue(fs[1]), total);
  }

  /** Numerals as hours, minutes and seconds combine to h*3600 + m*60 + s under `Number`. */
  lemma SecondsOfNumerals3(fs: seq<string>, total: int)
    requires |fs| == 3 && AllDigits(fs[0]) && AllDigits(fs[1]) && AllDigits(fs[2])
    requires DigitsValue(fs[0]) * 3600 + DigitsValue(fs[1]) * 60 + DigitsValue(fs[2]) == total
    ensures ClockSeconds(NumbersOf(fs)) == Some(Finite(total as real))
  {
    NumberOfNumeral(fs[0]);
    NumberOfNumeral(fs[1]);
    NumberOfNumeral(fs[2]);
    ClockSecondsOf3(NumbersOf(fs), DigitsValue(fs[0]), DigitsValue(fs[1]), DigitsValue(fs[2]), total);
  }

  /** A digit is never a colon. */
  lemma NumeralsHaveNoColon(fs: seq<string>)
    requires forall k :: 0 <= k < |fs| ==> AllDigits(fs[k])
    ensures forall k :: 0 <= k < |fs| ==> ':' !in fs[k]
  {
    forall k | 0 <= k < |fs|
      ensures ':' !in fs[k]
    {
      forall i | 0 <= i < |fs[k]|
        ensures fs[k][i] != ':'
      {
        assert IsDigit(fs[k][i]);
      }
    }
  }

  /** Numerals joined by colons split back into those numerals. */
  lemma SplitNumerals(fs: seq<string>)
    requires |fs| >= 1 && forall k :: 0 <= k < |fs| ==> AllDigits(fs[k])
    ensures Split(Join(fs, ':'), ':') == fs
  {
    NumeralsHaveNoColon(fs);
    SplitJoin(fs, ':');
  }

  /** Numerals joined by colons are clock text. */
  lemma {:induction false} JoinedNumeralsAreClockText(fs: seq<string>)
    requires |fs| >= 1 && forall k :: 0 <= k < |fs| ==> AllDigits(fs[k])
    ensures IsClockText(Join(fs, ':'))
    decreases |fs|
  {
    if |fs| > 1 {
      JoinedNumeralsAreClockText(fs[1..]);
      var rest := Join(fs[1..], ':');
      var j := Join(fs, ':');
      assert j == fs[0] + [':'] + rest;
      forall i | 0 <= i < |j|
        ensures IsDigit(j[i]) || j[i] == ':'
      {
        if i < |fs[0]| {
          assert j[i] == fs[0][i];
        } else if i > |fs[0]| {
          assert j[i] == rest[i - |fs[0]| - 1];
        }
      }
    }
  }

  /** Two or more fields joined by colons contain a colon. */
  lemma JoinHasColon(fs: seq<string>)
    requires |fs| >= 2
    ensures ':' in Join(fs, ':')
  {
    assert Join(fs, ':')[|fs[0]|] == ':';
  }

  /** Colon-joined numerals reach the clock arithmetic field by field. */
  lemma ParseJoined(fs: seq<string>)
    requires 2 <= |fs| <= 3 && forall k :: 0 <= k < |fs| ==> AllDigits(fs[k])
    ensures ParseDurationToSeconds(Join(fs, ':')) == ClockSeconds(NumbersOf(fs))
  {
    var d := Join(fs, ':');
    SplitNumerals(fs);
    JoinHasColon(fs);
    JoinedNumeralsAreClockText(fs);
    assert d[0] != 'N';
    ParseViaSplit(d, fs);
  }

  /** "H:M:S" made of decimal numerals reads as h*3600 + m*60 + s. */
  lemma ParseHms(fs: seq<string>, total: int)
    requires |fs| == 3 && AllDigits(fs[0]) && AllDigits(fs[1]) && AllDigits(fs[2])
    requires total == DigitsValue(fs[0]) * 3600 + DigitsValue(fs[1]) * 60 + DigitsValue(fs[2])
    ensures ParseDurationToSeconds(Join(fs, ':')) == Some(Finite(total as real))
  {
    ParseJoined(fs);
    SecondsOfNumerals3(fs, total);
  }

  /** "M:S" made of decimal numerals reads as m*60 + s. */
  lemma ParseMs(fs: seq<string>, total: int)
    requires |fs| == 2 && AllDigits(fs[0]) && AllDigits(fs[1])
    requires total == DigitsValue(fs[0]) * 60 + DigitsValue(fs[1])
    ensures ParseDurationToSeconds(Join(fs, ':')) == Some(Finite(total as real))
  {
    ParseJoined(fs);
    SecondsOfNumerals2(fs, total);
  }

  lemma ParseOtherShapes(duration: string)
    requires duration == "" || duration == "N/A" || |Split(duration, ':')| !in {2, 3}
    ensures ParseDurationToSeconds(duration) == Some(Finite(0.0))
  {
  }

  // ---------------------------------------------------------------------------
  // formatSecondsToTime and parseTimeToSeconds

  /** `formatSecondsToTime`: "H:MM:SS" from one hour on, "M:SS" below. */
  function FormatSecondsToTime(seconds: nat): string
  {
    var hours := seconds / 3600;
    var mins := (seconds % 3600) / 60;
    var secs := seconds % 60;
    if hours > 0 then
      NatToString(hours) + ":" + PadStart2(NatToString(mins)) + ":" + PadStart2(NatToString(secs))
    else
      NatToString(mins) + ":" + PadStart2(NatToString(secs))
  }

  /**
   * `parseTimeToSeconds`: the empty string is 0; text `Number` reads as a number goes through
   * `parseInt`; otherwise the text is split on ':' and the parts read with `parseInt` are
   * combined by `ClockInts`.  `None` is `NaN`.
   */
  function ParseTimeToSeconds(timeStr: string): Option<int>
  {
    if timeStr == "" then Some(0)
    else if NumberOf(timeStr).Some? then ParseIntOf(timeStr)
    else ClockInts(IntsOf(Split(timeStr, ':')))
  }

  /** `parseInt` applied to every part. */
  function IntsOf(parts: seq<string>): (r: seq<Option<int>>)
    ensures |r| == |parts| && forall i :: 0 <= i < |parts| ==> r[i] == ParseIntOf(parts[i])
  {
    if parts == [] then [] else [ParseIntOf(parts[0])] + IntsOf(parts[1..])
  }

  /** "M:S" and "H:M:S" combine their values; any other count gives 0. */
  function ClockInts(v: seq<Option<int>>): Option<int>
  {
    if |v| == 2 then
      if v[0].Some? && v[1].Some? then Some(v[0].value * 60 + v[1].value) else None
    else if |v| == 3 then
      if v[0].Some? && v[1].Some? && v[2].Some? then
        Some(v[0].value * 3600 + v[1].value * 60 + v[2].value)
      else None
    else Some(0)
  }

  lemma ParseTimeViaSplit(t: string, parts: seq<string>)
    requires t != "" && NumberOf(t) == None && Split(t, ':') == parts
    ensures ParseTimeToSeconds(t) == ClockInts(IntsOf(parts))
  {
  }

  lemma ClockIntsOf2(v: seq<Option<int>>, y: int, z: int)
    requires |v| == 2 && v[0] == Some(y) && v[1] == Some(z)
    ensures ClockInts(v) == Some(y * 60 + z)
  {
  }

  lemma ClockIntsOf3(v: seq<Option<int>>, x: int, y: int, z: int)
    requires |v| == 3 && v[0] == Some(x) && v[1] == Some(y) && v[2] == Some(z)
    ensures ClockInts(v) == Some(x * 3600 + y * 60 + z)
  {
  }

  /** Numerals as minutes and seconds combine to m*60 + s under `parseInt`. */
  lemma IntsOfNumerals2(fs: seq<string>)
    requires |fs| == 2 && fs[0] != [] && fs[1] != [] && AllDigits(fs[0]) && AllDigits(fs[1])
    ensures ClockInts(IntsOf(fs)) == Some(DigitsValue(fs[0]) * 60 + DigitsValue(fs[1]))
  {
    ParseIntNumeral(fs[0]);
    ParseIntNumeral(fs[1]);
    ClockIntsOf2(IntsOf(fs), DigitsValue(fs[0]), DigitsValue(fs[1]));
  }

  /** Numerals as hours, minutes and seconds combine to h*3600 + m*60 + s under `parseInt`. */
  lemma IntsOfNumerals3(fs: seq<string>)
    requires |fs| == 3 && fs[0] != [] && fs[1] != [] && fs[2] != []
    requires AllDigits(fs[0]) && AllDigits(fs[1]) && AllDigits(fs[2])
    ensures ClockInts(IntsOf(fs)) == Some(DigitsValue(fs[0]) * 3600 + DigitsValue(fs[1]) * 60 + DigitsValue(fs[2]))
  {
    ParseIntNumeral(fs[0]);
    ParseIntNumeral(fs[1]);
    ParseIntNumeral(fs[2]);
    ClockIntsOf3(IntsOf(fs), DigitsValue(fs[0]), DigitsValue(fs[1]), DigitsValue(fs[2]));
  }

  /** The three fields `formatSecondsToTime` prints recombine to the input. */
  lemma ClockFields(n: nat)
    ensures (n / 3600) * 3600 + ((n % 3600) / 60) * 60 + n % 60 == n
    ensures n / 3600 == 0 ==> ((n % 3600) / 60) * 60 + n % 60 == n
  {
    var r := n % 3600;
    assert n == (n / 3600) * 3600 + r;
    assert r == (r / 60) * 60 + r % 60;
    assert r % 60 == n % 60;
  }

  /** The colon-separated fields of a formatted time. */
  function TimeFields(n: nat): seq<string>
  {
    if n >= 3600 then
      [NatToString(n / 3600), PadStart2(NatToString((n % 3600) / 60)), PadStart2(NatToString(n % 60))]
    else
      [NatToString((n % 3600) / 60), PadStart2(NatToString(n % 60))]
  }

  /** Clock fields that are non-empty numerals of `n`'s hours, minutes and seconds. */
  predicate NumeralsOf(fs: seq<string>, n: nat)
  {
    (|fs| == 2 || |fs| == 3)
    && (forall k :: 0 <= k < |fs| ==> fs[k] != [] && AllDigits(fs[k]))
    && (|fs| == 3 ==> DigitsValue(fs[0]) * 3600 + DigitsValue(fs[1]) * 60 + DigitsValue(fs[2]) == n)
    && (|fs| == 2 ==> DigitsValue(fs[0]) * 60 + DigitsValue(fs[1]) == n)
  }

  /** Each field of a formatted time is a non-empty numeral of the quantity it shows. */
  lemma FieldsAreNumerals(n: nat)
    ensures NumeralsOf(TimeFields(n), n)
  {
    PadDigits(NatToString((n % 3600) / 60));
    PadDigits(NatToString(n % 60));
    ClockFields(n);
  }

  /** A formatted time is its fields joined by colons. */
  lemma FormatIsJoin(n: nat)
    ensures FormatSecondsToTime(n) == Join(TimeFields(n), ':')
  {
    var fs := TimeFields(n);
    if n >= 3600 {
      JoinThree(fs[0], fs[1], fs[2]);
    } else {
      JoinTwo(fs[0], fs[1]);
    }
  }

  lemma JoinTwo(a: string, b: string)
    ensures Join([a, b], ':') == a + ":" + b
  {
    assert [a, b][1..] == [b];
  }

  lemma JoinThree(a: string, b: string, c: string)
    ensures Join([a, b, c], ':') == a + ":" + b + ":" + c
  {
    assert [a, b, c][1..] == [b, c];
    JoinTwo(b, c);
  }

  /** Numeral fields of `n` read back as `n` under `parseInt` and under `Number`. */
  lemma ReadNumerals(fs: seq<string>, n: nat)
    requires NumeralsOf(fs, n)
    ensures ClockInts(IntsOf(fs)) == Some(n)
    ensures ClockSeconds(NumbersOf(fs)) == Some(Finite(n as real))
  {
    ReadIntNumerals(fs, n);
    ReadRealNumerals(fs, n);
  }

  lemma ReadIntNumerals(fs: seq<string>, n: nat)
    requires NumeralsOf(fs, n)
    ensures ClockInts(IntsOf(fs)) == Some(n)
  {
    if |fs| == 3 {
      IntsOfNumerals3(fs);
    } else {
      IntsOfNumerals2(fs);
    }
  }

  lemma ReadRealNumerals(fs: seq<string>, n: nat)
    requires NumeralsOf(fs, n)
    ensures ClockSeconds(NumbersOf(fs)) == Some(Finite(n as real))
  {
    if |fs| == 3 {
      ReadReal3(fs, n);
    } else {
      ReadReal2(fs, n);
    }
  }

  lemma ReadReal3(fs: seq<string>, n: nat)
    requires NumeralsOf(fs, n) && |fs| == 3
    ensures ClockSeconds(NumbersOf(fs)) == Some(Finite(n as real))
  {
    SecondsOfNumerals3(fs, n);
  }

  lemma ReadReal2(fs: seq<string>, n: nat)
    requires NumeralsOf(fs, n) && |fs| == 2
    ensures ClockSeconds(NumbersOf(fs)) == Some(Finite(n as real))
  {
    SecondsOfNumerals2(fs, n);
  }

  /** Joined numeral fields are clock text with a colon that splits back into the fields. */
  lemma JoinedFields(fs: seq<string>, n: nat)
    requires NumeralsOf(fs, n)
    ensures var f := Join(fs, ':');
      f != "" && f != "N/A" && IsClockText(f) && ':' in f && Split(f, ':') == fs
  {
    SplitNumerals(fs);
    JoinHasColon(fs);
    JoinedNumeralsAreClockText(fs);
    var f := Join(fs, ':');
    assert f[0] != 'N';
  }

  /** Every formatted time reads back as the seconds it was made from. */
  lemma FormatThenParseTime(n: nat)
    ensures ParseTimeToSeconds(FormatSecondsToTime(n)) == Some(n)
  {
    var fs := TimeFields(n);
    FieldsAreNumerals(n);
    FormatIsJoin(n);
    JoinedFields(fs, n);
    ClockTextIsNaN(Join(fs, ':'));
    ParseTimeViaSplit(Join(fs, ':'), fs);
    ReadNumerals(fs, n);
  }

  /** A formatted time is also clock text that `parseDurationToSeconds` reads back exactly. */
  lemma FormatThenParseDuration(n: nat)
    ensures ParseDurationToSeconds(FormatSecondsToTime(n)) == Some(Finite(n as real))
  {
    var fs := TimeFields(n);
    FieldsAreNumerals(n);
    FormatIsJoin(n);
    JoinedFields(fs, n);
    ParseViaSplit(Join(fs, ':'), fs);
    ReadNumerals(fs, n);
  }

  // ---------------------------------------------------------------------------
  // Seek targets

  /**
   * The seek command's target: "+t" moves forward from `position`, "-t" moves back but not
   * below 0, anything else is an absolute time; a negative result is raised to 0.
   * `None` is `NaN`.
   */
  function SeekTarget(arg: string, position: int): Option<int>
  {
    var raw :=
      if StartsWith(arg, "+") then
        match ParseTimeToSeconds(arg[1..])
        case Some(d) => Some(position + d)
        case None => None
      else if StartsWith(arg, "-") then
        match ParseTimeToSeconds(arg[1..])
        case Some(d) => Some(if position - d > 0 then position - d else 0)
        case None => None
      else ParseTimeToSeconds(arg);
    match raw
    case Some(v) => Some(if v < 0 then 0 else v)
    case None => None
  }

  /** `+t` moves forward, `-t` moves back (stopping at 0), plain `t` jumps to the time. */
  lemma SeekWith(position: nat, t: string, n: nat)
    requires ParseTimeToSeconds(t) == Some(n) && t != [] && t[0] != '+' && t[0] != '-'
    ensures SeekTarget("+" + t, position) == Some(position + n)
    ensures SeekTarget("-" + t, position) == Some(if position > n then position - n else 0)
    ensures SeekTarget(t, position) == Some(n)
  {
    assert ("+" + t)[1..] == t && ("-" + t)[1..] == t;
  }

  /** The three seek forms, written with a formatted time. */
  lemma SeekForms(position: nat, n: nat)
    ensures SeekTarget("+" + FormatSecondsToTime(n), position) == Some(position + n)
    ensures SeekTarget("-" + FormatSecondsToTime(n), position)
         == Some(if position > n then position - n else 0)
    ensures SeekTarget(FormatSecondsToTime(n), position) == Some(n)
  {
    var fs := TimeFields(n);
    FieldsAreNumerals(n);
    FormatIsJoin(n);
    JoinedFields(fs, n);
    FormatThenParseTime(n);
    var f := FormatSecondsToTime(n);
    assert IsDigit(f[0]) || f[0] == ':';
    SeekWith(position, f, n);
  }

  /**
   * `!seek 1e2` and the like: `Number` reads digits with an exponent as a number, so the text
   * goes to `parseInt`, which stops at the `e`: the time is the digits before it.
   */
  lemma SeekTimeWithExponent(d: string, sign: string, k: string)
    requires d != [] && AllDigits(d) && IsExponentSign(sign) && k != [] && AllDigits(k)
    ensures ParseTimeToSeconds(d + "e" + sign + k) == Some(DigitsValue(d))
  {
    ExponentLiteral(d, sign, k);
    assert d + "e" + sign + k == d + ['e'] + (sign + k);
    ParseIntStopsAfterNumeral(d, 'e', sign + k);
  }

  /** `!seek 0x10`: a hexadecimal literal is a number, and `parseInt` reads it in base 16. */
  lemma SeekTimeHex()
    ensures ParseTimeToSeconds("0x10") == Some(16)
  {
    HexIsNumber();
    ParseIntHex();
  }

  /** `!seek Infinity`: a number for `Number` but not for `parseInt`, so the time is `NaN`. */
  lemma SeekTimeInfinity()
    ensures ParseTimeToSeconds(InfinityWord) == None
  {
    InfinityIsNumber();
    assert InfinityWord == [InfinityWord[0]] + InfinityWord[1..];
    ParseIntWithoutDigits(InfinityWord[0], InfinityWord[1..]);
  }

  /** A seek target, when it is a number, is never negative. */
  lemma SeekTargetNonNegative(arg: string, position: int)
    ensures SeekTarget(arg, position).Some? ==> SeekTarget(arg, position).value >= 0
  {
  }
}
