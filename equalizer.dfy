/**
 * The equalizer of the optimized bot: the `audioFilters` record changed by the `!bass`,
 * `!treble`, `!speed` and `!preset` commands, the preset table, and `generateAudioFilter`, which
 * turns the record into the comma-separated ffmpeg filter chain applied to the next download.
 *
 * A missing command argument is the empty string here: `parseInt`, `parseFloat` and the
 * truthiness test treat `undefined` and `""` alike. Speeds are exact decimals (`real`).
 */
module Equalizer {
  import opened Wrappers
  import opened JsText

  /** One entry of `EQUALIZER_PRESETS`. */
  datatype Preset = Preset(bass: int, treble: int, speed: real)

  /** The preset names, in declaration order. */
  const PresetNames: seq<string> :=
    ["rock", "pop", "jazz", "classical", "electronic", "bass_boost", "nightcore", "slowdown", "clear"]

  /** An own property of `EQUALIZER_PRESETS`. */
  function PresetOf(name: string): (r: Option<Preset>)
    ensures r.Some? <==> name in PresetNames
  {
    if name == "rock" then Some(Preset(3, 2, 1.0))
    else if name == "pop" then Some(Preset(1, 3, 1.0))
    else if name == "jazz" then Some(Preset(-1, 1, 1.0))
    else if name == "classical" then Some(Preset(0, 0, 1.0))
    else if name == "electronic" then Some(Preset(5, 4, 1.0))
    else if name == "bass_boost" then Some(Preset(8, -2, 1.0))
    else if name == "nightcore" then Some(Preset(-3, 2, 1.25))
    else if name == "slowdown" then Some(Preset(2, -1, 0.8))
    else if name == "clear" then Some(Preset(0, 0, 1.0))
    else None
  }

  /** The ranges the commands enforce: gains in [-10, 10] dB, speed in [0.5, 2.0]. */
  predicate GainInRange(g: int) { -10 <= g <= 10 }
  predicate SpeedInRange(v: real) { 0.5 <= v <= 2.0 }

  /** Every preset stays within the ranges the manual commands enforce. */
  lemma PresetsInRange(name: string)
    requires name in PresetNames
    ensures var p := PresetOf(name).value; GainInRange(p.bass) && GainInRange(p.treble) && SpeedInRange(p.speed)
  {
  }

  /** The `audioFilters` record; `preset` is `null` after a manual change. */
  datatype Settings = Settings(bass: int, treble: int, speed: real, preset: Option<string>)

  const Initial: Settings := Settings(0, 0, 1.0, None)

  /**
   * The invariant the commands keep: values within range, and a named preset is the one whose
   * values are in force.
   */
  predicate Consistent(s: Settings)
  {
    && GainInRange(s.bass) && GainInRange(s.treble) && SpeedInRange(s.speed)
    && (s.preset.Some? ==> PresetOf(s.preset.value) == Some(Preset(s.bass, s.treble, s.speed)))
  }

  // ---------------------------------------------------------------------------
  // The commands

  /** `!bass n`: accepted when `parseInt` reads an integer within range. */
  predicate BassAccepted(arg: string) { ParseIntOf(arg).Some? && GainInRange(ParseIntOf(arg).value) }

  function BassCommand(s: Settings, arg: string): (r: Settings)
    ensures BassAccepted(arg) ==> r.bass == ParseIntOf(arg).value && r.preset == None
    ensures BassAccepted(arg) ==> r.treble == s.treble && r.speed == s.speed
    ensures !BassAccepted(arg) ==> r == s
  {
    if BassAccepted(arg) then s.(bass := ParseIntOf(arg).value, preset := None) else s
  }

  /** `!treble n`: the same for the treble gain. */
  predicate TrebleAccepted(arg: string) { ParseIntOf(arg).Some? && GainInRange(ParseIntOf(arg).value) }

  function TrebleCommand(s: Settings, arg: string): (r: Settings)
    ensures TrebleAccepted(arg) ==> r.treble == ParseIntOf(arg).value && r.preset == None
    ensures TrebleAccepted(arg) ==> r.bass == s.bass && r.speed == s.speed
    ensures !TrebleAccepted(arg) ==> r == s
  {
    if TrebleAccepted(arg) then s.(treble := ParseIntOf(arg).value, preset := None) else s
  }

  /**
   * `!speed x`: accepted when `parseFloat` reads a finite number within range; `NaN` fails
   * the `isNaN` test and an infinity the range test.
   */
  predicate SpeedAccepted(arg: string)
  {
    FiniteValue(ParseFloatOf(arg)).Some? && SpeedInRange(FiniteValue(ParseFloatOf(arg)).value)
  }

  function SpeedCommand(s: Settings, arg: string): (r: Settings)
    ensures SpeedAccepted(arg) ==> r.speed == FiniteValue(ParseFloatOf(arg)).value && r.preset == None
    ensures SpeedAccepted(arg) ==> r.bass == s.bass && r.treble == s.treble
    ensures !SpeedAccepted(arg) ==> r == s
  {
    if SpeedAccepted(arg) then s.(speed := FiniteValue(ParseFloatOf(arg)).value, preset := None) else s
  }

  /** `!speed 5e-1`: `parseFloat` reads the exponent, so the speed becomes 0.5. */
  lemma SpeedWithExponent(s: Settings)
    ensures SpeedCommand(s, "5e-1") == s.(speed := 0.5, preset := None)
  {
    HalfWithExponent();
  }

  /** `parseFloat("5e-1")` is 0.5. */
  lemma HalfWithExponent()
    ensures ParseFloatOf("5e-1") == Some(Finite(0.5))
  {
    assert "5e-1" == "5" + "e" + "-" + "1";
    assert DigitsValue("5") == 5 && DigitsValue("1") == 1;
    ExponentLiteral("5", "-", "1");
    HalfScaled();
  }

  /** Five divided by ten to the first power. */
  lemma HalfScaled()
    ensures Scale10(5.0, true, 1) == 0.5
  {
    assert Pow10(1) == 10.0;
  }

  /** `!speed Infinity`: a number, but out of range, so nothing changes. */
  lemma SpeedInfinityRefused(s: Settings)
    ensures SpeedCommand(s, InfinityWord) == s
  {
    InfinityIsNumber();
  }

  /** U+212A KELVIN SIGN, whose lower case is the ASCII letter `k`. */
  const KelvinSign: char := '\U{212A}'

  /** `toLowerCase` on one character, for the characters whose lower case is an ASCII letter. */
  function LowerChar(c: char): char
  {
    if 'A' <= c <= 'Z' then (c as int + 32) as char
    else if c == KelvinSign then 'k'
    else c
  }

  /**
   * `toLowerCase` as far as it can decide a preset lookup: the ASCII capitals and the Kelvin
   * sign become ASCII lower-case letters; every other character is kept. The lower case of any
   * other non-ASCII character still holds a non-ASCII character, so a name containing one
   * matches no preset either way.
   */
  function ToLowerCase(s: string): (r: string)
    ensures |r| == |s|
    ensures forall i :: 0 <= i < |s| ==> r[i] == LowerChar(s[i])
  {
    if s == [] then [] else [LowerChar(s[0])] + ToLowerCase(s[1..])
  }

  predicate IsAscii(s: string) { forall i :: 0 <= i < |s| ==> s[i] as int < 128 }

  /** A name is matched in any letter case, the Kelvin sign standing for `k`. */
  lemma KelvinSignMatchesRock(s: Settings)
    ensures PresetCommand(s, "ROC" + [KelvinSign]) == Settings(3, 2, 1.0, Some("rock"))
  {
    var arg := "ROC" + [KelvinSign];
    var name := ToLowerCase(arg);
    assert name[0] == 'r' && name[1] == 'o' && name[2] == 'c' && name[3] == 'k';
    assert name == "rock";
  }

  /** A name holding a non-ASCII character other than the Kelvin sign is no preset. */
  lemma NonAsciiNameRefused(s: Settings, arg: string, i: nat)
    requires i < |arg| && arg[i] as int >= 128 && arg[i] != KelvinSign
    ensures ToLowerCase(arg) !in PresetNames && PresetCommand(s, arg) == s
  {
    assert ToLowerCase(arg)[i] == arg[i];
    PresetNamesAscii();
    NonAsciiNotAmong(ToLowerCase(arg), i, PresetNames);
  }

  /** Text holding a non-ASCII character is none of a list of ASCII names. */
  lemma NonAsciiNotAmong(name: string, i: nat, names: seq<string>)
    requires i < |name| && name[i] as int >= 128
    requires forall k :: 0 <= k < |names| ==> IsAscii(names[k])
    ensures name !in names
  {
    forall k | 0 <= k < |names|
      ensures names[k] != name
    {
      if |names[k]| == |name| {
        assert names[k][i] != name[i];
      }
    }
  }

  /** Every preset name is plain ASCII text. */
  lemma PresetNamesAscii()
    ensures forall k :: 0 <= k < |PresetNames| ==> IsAscii(PresetNames[k])
  {
  }

  /** `!preset name`: an empty name only lists the presets; a known name applies its values. */
  function PresetCommand(s: Settings, arg: string): (r: Settings)
    ensures PresetOf(ToLowerCase(arg)).Some? ==>
              var p := PresetOf(ToLowerCase(arg)).value;
              r == Settings(p.bass, p.treble, p.speed, Some(ToLowerCase(arg)))
    ensures PresetOf(ToLowerCase(arg)).None? ==> r == s
  {
    var name := ToLowerCase(arg);
    if name == "" then s
    else match PresetOf(name)
      case None => s
      case Some(p) => Settings(p.bass, p.treble, p.speed, Some(name))
  }

  /** The initial record and every command keep the settings consistent. */
  lemma InitialConsistent()
    ensures Consistent(Initial)
  {
  }

  lemma CommandsKeepConsistent(s: Settings, arg: string)
    requires Consistent(s)
    ensures Consistent(BassCommand(s, arg)) && Consistent(TrebleCommand(s, arg))
    ensures Consistent(SpeedCommand(s, arg)) && Consistent(PresetCommand(s, arg))
  {
    var name := ToLowerCase(arg);
    if PresetOf(name).Some? {
      PresetsInRange(name);
    }
  }

  /** The presets are written in lower case, so a command in any letter case finds them. */
  lemma PresetAnyCase(arg: string, name: string)
    requires name in PresetNames && ToLowerCase(arg) == name
    ensures PresetCommand(Initial, arg).preset == Some(name)
  {
  }

  // ---------------------------------------------------------------------------
  // generateAudioFilter

  const BassFilter: string := "equalizer=f=60:width_type=h:width=2:g="
  const TrebleFilter: string := "equalizer=f=10000:width_type=h:width=2:g="
  const TempoFilter: string := "atempo="

  /**
   * The filters in force, in the order bass, treble, speed. `showSpeed` is JavaScript's
   * conversion of the speed to text in the template literal.
   */
  function FilterParts(s: Settings, showSpeed: real -> string): (r: seq<string>)
    ensures |r| <= 3
    ensures r == [] <==> s.bass == 0 && s.treble == 0 && s.speed == 1.0
  {
    (if s.bass != 0 then [BassFilter + IntToString(s.bass)] else [])
    + (if s.treble != 0 then [TrebleFilter + IntToString(s.treble)] else [])
    + (if s.speed != 1.0 then [TempoFilter + showSpeed(s.speed)] else [])
  }

  /** `generateAudioFilter()`: the parts joined with commas, or `null` when none is in force. */
  function GenerateAudioFilter(s: Settings, showSpeed: real -> string): (r: Option<string>)
    ensures r.None? <==> s.bass == 0 && s.treble == 0 && s.speed == 1.0
  {
    var parts := FilterParts(s, showSpeed);
    if |parts| > 0 then Some(Join(parts, ',')) else None
  }

  lemma NoCommaInNumber(i: int)
    ensures ',' !in IntToString(i)
  {
    var n := if i < 0 then NatToString(-i) else NatToString(i);
    assert forall k :: 0 <= k < |n| ==> IsDigit(n[k]);
  }

  lemma NoCommaInFixed()
    ensures ',' !in BassFilter && ',' !in TrebleFilter && ',' !in TempoFilter
  {
  }

  /** No filter of the chain contains a comma. */
  lemma PartsHaveNoComma(s: Settings, showSpeed: real -> string)
    requires ',' !in showSpeed(s.speed)
    ensures forall k :: 0 <= k < |FilterParts(s, showSpeed)| ==> ',' !in FilterParts(s, showSpeed)[k]
  {
    NoCommaInNumber(s.bass);
    NoCommaInNumber(s.treble);
    NoCommaInFixed();
  }

  /** The three filters are told apart by their first characters. */
  lemma FiltersDiffer(x: string, y: string, z: string)
    ensures BassFilter + x != TrebleFilter + y
    ensures BassFilter + x != TempoFilter + z && TrebleFilter + y != TempoFilter + z
  {
    assert (BassFilter + x)[12] == '6' && (TrebleFilter + y)[12] == '1';
    assert (BassFilter + x)[0] == 'e' && (TrebleFilter + y)[0] == 'e' && (TempoFilter + z)[0] == 'a';
  }

  /** Each filter is in force exactly when its setting is not neutral. */
  lemma PartsPresent(s: Settings, showSpeed: real -> string)
    ensures BassFilter + IntToString(s.bass) in FilterParts(s, showSpeed) <==> s.bass != 0
    ensures TrebleFilter + IntToString(s.treble) in FilterParts(s, showSpeed) <==> s.treble != 0
    ensures TempoFilter + showSpeed(s.speed) in FilterParts(s, showSpeed) <==> s.speed != 1.0
  {
    FiltersDiffer(IntToString(s.bass), IntToString(s.treble), showSpeed(s.speed));
  }

  /**
   * Splitting the chain at its commas gives back the filters in force, each carrying its
   * setting: ffmpeg sees the bass filter exactly when the bass gain is not 0, the treble filter
   * exactly when the treble gain is not 0, and the tempo filter exactly when the speed is not 1.
   */
  lemma {:induction false} FilterChainReadsBack(s: Settings, showSpeed: real -> string)
    requires ',' !in showSpeed(s.speed)
    requires GenerateAudioFilter(s, showSpeed).Some?
    ensures var chain := Split(GenerateAudioFilter(s, showSpeed).value, ',');
      && chain == FilterParts(s, showSpeed)
      && (BassFilter + IntToString(s.bass) in chain <==> s.bass != 0)
      && (TrebleFilter + IntToString(s.treble) in chain <==> s.treble != 0)
      && (TempoFilter + showSpeed(s.speed) in chain <==> s.speed != 1.0)
  {
    PartsHaveNoComma(s, showSpeed);
    SplitJoin(FilterParts(s, showSpeed), ',');
    PartsPresent(s, showSpeed);
  }

  /** Neutral settings, such as those of `classical` and `clear`, give no filter at all. */
  lemma NeutralPresetsGiveNoFilter(s: Settings, arg: string, showSpeed: real -> string)
    requires ToLowerCase(arg) == "classical" || ToLowerCase(arg) == "clear"
    ensures GenerateAudioFilter(PresetCommand(s, arg), showSpeed).None?
  {
  }

  // ---------------------------------------------------------------------------
  // The preset lookup as written

  /**
   * What `EQUALIZER_PRESETS[name]` yields in JavaScript: the own presets, and also the members
   * every object inherits whose names are already lower case, `constructor` and `__proto__`.
   * They are truthy but have no `bass`, `treble` or `speed`.
   */
  datatype Lookup = Own(preset: Preset) | Inherited

  function PresetLookupAsWritten(name: string): (r: Option<Lookup>)
    ensures name in PresetNames ==> r == Some(Own(PresetOf(name).value))
  {
    if name == "constructor" || name == "__proto__" then Some(Inherited)
    else match PresetOf(name)
      case Some(p) => Some(Own(p))
      case None => None
  }

  /** The record with `undefined` (`None`) allowed for each value, as the source can leave it. */
  datatype RawSettings = RawSettings(bass: Option<int>, treble: Option<int>, speed: Option<real>, preset: Option<string>)

  /** `!preset name` as written: any truthy lookup result is applied. */
  function PresetCommandAsWritten(s: Settings, arg: string): (r: RawSettings)
    ensures PresetOf(ToLowerCase(arg)).Some? ==> r.bass == Some(PresetOf(ToLowerCase(arg)).value.bass)
  {
    var name := ToLowerCase(arg);
    var kept := RawSettings(Some(s.bass), Some(s.treble), Some(s.speed), s.preset);
    if name == "" then kept
    else match PresetLookupAsWritten(name)
      case None => kept
      case Some(Own(p)) => RawSettings(Some(p.bass), Some(p.treble), Some(p.speed), Some(name))
      case Some(Inherited) => RawSettings(None, None, None, Some(name))
  }

  /**
   * `!preset constructor` (in any letter case) passes the guard although `constructor` is no preset, and leaves bass,
   * treble and speed `undefined`; the next filter chain then carries `g=undefined`. The lookup
   * restricted to own presets rejects it and changes nothing.
   */
  lemma InheritedNameAccepted(s: Settings, arg: string)
    requires ToLowerCase(arg) == "constructor"
    ensures ToLowerCase(arg) !in PresetNames
    ensures PresetCommandAsWritten(s, arg) == RawSettings(None, None, None, Some("constructor"))
    ensures PresetCommand(s, arg) == s
  {
  }

  // ---------------------------------------------------------------------------
  // The record as the bot holds it

  /** The module-level `audioFilters` object, changed in place by the commands. */
  class AudioFilters {
    var bass: int
    var treble: int
    var speed: real
    var preset: Option<string>

    function Current(): Settings
      reads this
    {
      Settings(bass, treble, speed, preset)
    }

    constructor()
      ensures Current() == Initial
    {
      bass, treble, speed, preset := 0, 0, 1.0, None;
    }

    /** `!bass`: returns whether the argument was accepted. */
    method SetBass(arg: string) returns (accepted: bool)
      modifies this
      ensures accepted == BassAccepted(arg)
      ensures Current() == BassCommand(old(Current()), arg)
    {
      var level := ParseIntOf(arg);
      if level.None? || level.value < -10 || level.value > 10 {
        return false;
      }
      bass := level.value;
      preset := None;
      accepted := true;
    }

    /** `!treble`. */
    method SetTreble(arg: string) returns (accepted: bool)
      modifies this
      ensures accepted == TrebleAccepted(arg)
      ensures Current() == TrebleCommand(old(Current()), arg)
    {
      var level := ParseIntOf(arg);
      if level.None? || level.value < -10 || level.value > 10 {
        return false;
      }
      treble := level.value;
      preset := None;
      accepted := true;
    }

    /** `!speed`. */
    method SetSpeed(arg: string) returns (accepted: bool)
      modifies this
      ensures accepted == SpeedAccepted(arg)
      ensures Current() == SpeedCommand(old(Current()), arg)
    {
      var level := ParseFloatOf(arg);
      if level.None? || level.value.Infinite? || level.value.value < 0.5 || level.value.value > 2.0 {
        return false;
      }
      speed := level.value.value;
      preset := None;
      accepted := true;
    }

    /** `!preset`, with the lookup restricted to the presets themselves. */
    method ApplyPreset(arg: string) returns (accepted: bool)
      modifies this
      ensures accepted <==> ToLowerCase(arg) in PresetNames
      ensures Current() == PresetCommand(old(Current()), arg)
    {
      var name := ToLowerCase(arg);
      if name == "" {
        return false;
      }
      var p := PresetOf(name);
      if p.None? {
        return false;
      }
      bass, treble, speed, preset := p.value.bass, p.value.treble, p.value.speed, Some(name);
      accepted := true;
    }
  }
}
