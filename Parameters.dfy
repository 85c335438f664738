/**
 * The plug-in's parameters: their identifiers, ranges and defaults, the conversions from
 * the hosts' raw values to the values the signal path needs, and the text labels of the
 * two switches.
 */
module Parameters {
  import opened ToneStack

  const MinDisplayRange: real := 0.0
  const MaxDisplayRange: real := 10.0
  const MinVolumeDb: real := -60.0
  const MaxVolumeDb: real := -20.0

  /** A linear range with a step size, as the rotary parameters declare it. */
  datatype NormalisableRange = NormalisableRange(start: real, end: real, interval: real)

  /** All three rotary sliders share this 0 to 10 range with a step of 0.01. */
  const DisplayRange: NormalisableRange := NormalisableRange(MinDisplayRange, MaxDisplayRange, 0.01)

  // ---------------------------------------------------------------- raw value conversions

  /** The raw 0 to 10 value as a 0 to 1 value. */
  function NormaliseRawValue(raw: real): (r: real)
    ensures r * MaxDisplayRange == raw
    ensures MinDisplayRange <= raw <= MaxDisplayRange ==> 0.0 <= r <= 1.0
  {
    raw / MaxDisplayRange
  }

  /** Normalisation sends the ends of the display range to 0 and 1 and keeps the order of values. */
  lemma NormaliseRawValueOrder(a: real, b: real)
    requires a < b
    ensures NormaliseRawValue(a) < NormaliseRawValue(b)
    ensures NormaliseRawValue(MinDisplayRange) == 0.0 && NormaliseRawValue(MaxDisplayRange) == 1.0
  {
  }

  /** Linear interpolation of value from one range onto another. */
  function Jmap(value: real, sourceMin: real, sourceMax: real, targetMin: real, targetMax: real): (r: real)
    requires sourceMax != sourceMin
    ensures (r - targetMin) * (sourceMax - sourceMin) == (targetMax - targetMin) * (value - sourceMin)
  {
    targetMin + ((targetMax - targetMin) * (value - sourceMin)) / (sourceMax - sourceMin)
  }

  /** The raw 0 to 10 volume value as a -60 dB to -20 dB value. */
  function DbValueFromRawValue(raw: real): (r: real)
    ensures r == MinVolumeDb + 4.0 * raw
    ensures MinDisplayRange <= raw <= MaxDisplayRange ==> MinVolumeDb <= r <= MaxVolumeDb
  {
    Jmap(raw, MinDisplayRange, MaxDisplayRange, MinVolumeDb, MaxVolumeDb)
  }

  /** The volume mapping sends 0 to -60 dB and 10 to -20 dB, and is strictly increasing. */
  lemma DbValueFromRawValueOrder(a: real, b: real)
    requires a < b
    ensures DbValueFromRawValue(a) < DbValueFromRawValue(b)
    ensures DbValueFromRawValue(0.0) == -60.0 && DbValueFromRawValue(10.0) == -20.0
  {
  }

  /** The tone stack mode selected by the raw HP/LP switch value. */
  function ModeFromRaw(raw: real): (m: Mode)
    ensures m == Hp <==> raw > 0.5
    ensures m == Lp <==> raw <= 0.5
  {
    if raw > 0.5 then Hp else Lp
  }

  /** True when the raw Bypass value says audio should be bypassed. */
  function IsBypassActive(raw: real): (active: bool)
    ensures active <==> raw > 0.5
  {
    raw > 0.5
  }

  // ---------------------------------------------------------------- switch labels

  /** s itself when the limit is not positive, otherwise at most its first maximumLength characters. */
  function StringWithMaxLength(s: string, maximumLength: int): (r: string)
    ensures r <= s
    ensures |r| == if maximumLength <= 0 || maximumLength >= |s| then |s| else maximumLength
  {
    if maximumLength > 0 then s[..if maximumLength < |s| then maximumLength else |s|] else s
  }

  /** ASCII upper-case letters folded to lower case; every other character unchanged. */
  function ToLower(c: char): (r: char)
    ensures 'A' <= c <= 'Z' ==> 'a' <= r <= 'z'
    ensures !('A' <= c <= 'Z') ==> r == c
  {
    if 'A' <= c <= 'Z' then (c as int + ('a' as int - 'A' as int)) as char else c
  }

  /** Two strings that are equal once letters are folded to one case. */
  predicate EqualsIgnoreCase(a: string, b: string)
  {
    |a| == |b| && forall i :: 0 <= i < |a| ==> ToLower(a[i]) == ToLower(b[i])
  }

  /** The HP/LP switch's label for a value, cut to at most maximumLength characters when that is positive. */
  function HpLpStringFromBool(isHp: bool, maximumLength: int): string
  {
    StringWithMaxLength(if isHp then "HP" else "LP", maximumLength)
  }

  /** The HP/LP switch's value for a text: true exactly for "hp" in any letter case. */
  function HpLpBoolFromString(text: string): bool
  {
    EqualsIgnoreCase(text, "hp")
  }

  /** The Bypass switch's label: "Off" when bypassed, "On" when not. */
  function BypassStringFromBool(isBypassed: bool, maximumLength: int): string
  {
    StringWithMaxLength(if isBypassed then "Off" else "On", maximumLength)
  }

  /** The Bypass switch's value for a text, as written: true exactly for "on" in any letter case. */
  function BypassBoolFromString(text: string): bool
  {
    EqualsIgnoreCase(text, "on")
  }

  /** The Bypass switch's value for a text, as its labels intend: true exactly for "off" in any letter case. */
  function BypassBoolFromStringCorrected(text: string): bool
  {
    EqualsIgnoreCase(text, "off")
  }

  /** A character that folds to lower-case c is c itself or its upper-case form. */
  lemma ToLowerIs(x: char, c: char)
    requires 'a' <= c <= 'z'
    ensures ToLower(x) == c <==> x == c || x == (c as int - ('a' as int - 'A' as int)) as char
  {
  }

  /** The HP/LP parser accepts exactly the four spellings of "hp". */
  lemma {:induction false} HpLpBoolFromStringAccepts(text: string)
    ensures HpLpBoolFromString(text) <==> text in {"hp", "hP", "Hp", "HP"}
  {
    if |text| == 2 {
      ToLowerIs(text[0], 'h');
      ToLowerIs(text[1], 'p');
      if HpLpBoolFromString(text) {
        assert text == [text[0], text[1]];
      }
    }
  }

  /**
   * A label parses back to its value except when it was cut to one character: "H" no longer
   * reads as hp (and "L" reads as lp only because every other text does too).
   */
  lemma {:induction false} HpLpRoundTrip(isHp: bool, maximumLength: int)
    ensures HpLpBoolFromString(HpLpStringFromBool(isHp, maximumLength)) == (isHp && maximumLength != 1)
  {
    var s := HpLpStringFromBool(isHp, maximumLength);
    HpLpBoolFromStringAccepts(s);
    if !isHp {
      assert s[0] == 'L';
    } else if maximumLength == 1 {
      assert |s| == 1;
    } else {
      assert s == "HP";
    }
  }

  /**
   * As written, the Bypass labels invert on a round trip: parsing the label of a value gives
   * its negation, except for the one-character label "O" of the not-bypassed state.
   */
  lemma {:induction false} BypassRoundTripInverts(isBypassed: bool, maximumLength: int)
    ensures BypassBoolFromString(BypassStringFromBool(isBypassed, maximumLength)) == (!isBypassed && maximumLength != 1)
  {
    var s := BypassStringFromBool(isBypassed, maximumLength);
    if isBypassed {
      if |s| == 2 {
        ToLowerIs(s[1], 'n');
        assert s[1] == 'f';
      }
    } else if maximumLength != 1 {
      assert s == "On";
      assert EqualsIgnoreCase(s, "on");
    }
  }

  /**
   * With the corrected parser every label that is not cut short reads back as its own value;
   * only the cut labels "Of" and "O" of the bypassed state no longer read as bypassed.
   */
  lemma {:induction false} BypassRoundTripCorrected(isBypassed: bool, maximumLength: int)
    ensures BypassBoolFromStringCorrected(BypassStringFromBool(isBypassed, maximumLength))
            == (isBypassed && (maximumLength <= 0 || maximumLength >= 3))
  {
    var s := BypassStringFromBool(isBypassed, maximumLength);
    if isBypassed && (maximumLength <= 0 || maximumLength >= 3) {
      assert s == "Off";
      assert EqualsIgnoreCase(s, "off");
    } else if !isBypassed {
      assert |s| <= 2;
    }
  }

  /** The raw value a two-state switch reports: 1 when it is on, 0 when it is off. */
  function SwitchRawValue(on: bool): (raw: real)
    ensures MinDisplayRange <= raw <= 1.0
  {
    if on then 1.0 else 0.0
  }

  /** Each switch reads back the state its raw value encodes: HP/LP on is hp, Bypass on is active. */
  lemma SwitchReadsRawValue(on: bool)
    ensures ModeFromRaw(SwitchRawValue(on)) == (if on then Hp else Lp)
    ensures IsBypassActive(SwitchRawValue(on)) == on
  {
  }

  /**
   * The mode read from a switch state agrees with the switch's label for that state: hp
   * exactly when the uncut label parses back as hp.
   */
  lemma ModeMatchesLabel(isHp: bool)
    ensures ModeFromRaw(SwitchRawValue(isHp)) == Hp <==> HpLpBoolFromString(HpLpStringFromBool(isHp, 0))
  {
    HpLpRoundTrip(isHp, 0);
  }

  // ---------------------------------------------------------------- layout and presets

  datatype ParameterId = Drive | Tone | Volume | HpLp | Bypass

  /** The identifier string a parameter is registered under. */
  function IdString(p: ParameterId): string
  {
    match p
    case Drive => "Drive"
    case Tone => "Tone"
    case Volume => "Volume"
    case HpLp => "HpLp"
    case Bypass => "Bypass"
  }

  /** No two parameters share an identifier string. */
  lemma IdStringInjective(p: ParameterId, q: ParameterId)
    requires p != q
    ensures IdString(p) != IdString(q)
  {
  }

  /** A parameter as registered with the host: a rotary over a range or a two-state switch. */
  datatype ParameterSpec =
    | Rotary(id: ParameterId, name: string, range: NormalisableRange, defaultValue: real)
    | Switch(id: ParameterId, name: string, defaultOn: bool)

  /** The parameters registered with the host, in registration order. */
  function CreateParameterLayout(): (layout: seq<ParameterSpec>)
    ensures |layout| == 5
    ensures forall i, j :: 0 <= i < j < |layout| ==> layout[i].id != layout[j].id
    ensures forall p: ParameterId :: layout[IdIndex(p)].id == p
    ensures forall i :: 0 <= i < |layout| && layout[i].Rotary? ==>
              layout[i].range == DisplayRange && DisplayRange.start <= layout[i].defaultValue <= DisplayRange.end
    ensures forall i :: 0 <= i < |layout| && layout[i].Switch? ==> !layout[i].defaultOn
  {
    var layout := [
      Rotary(Drive, "Drive", DisplayRange, 1.65),
      Rotary(Tone, "Tone", DisplayRange, 5.0),
      Rotary(Volume, "Volume", DisplayRange, 8.35),
      Switch(HpLp, "HP / LP", false),
      Switch(Bypass, "Bypass", false)
    ];
    layout
  }

  /** Where a parameter sits in the layout. */
  function IdIndex(p: ParameterId): (i: nat)
    ensures i < 5
  {
    match p
    case Drive => 0
    case Tone => 1
    case Volume => 2
    case HpLp => 3
    case Bypass => 4
  }

  /** The defaults are Drive 1.65, Tone 5, Volume 8.35 and both switches off. */
  lemma LayoutDefaults()
    ensures var layout := CreateParameterLayout();
            && layout[0] == Rotary(Drive, "Drive", DisplayRange, 1.65)
            && layout[1] == Rotary(Tone, "Tone", DisplayRange, 5.0)
            && layout[2] == Rotary(Volume, "Volume", DisplayRange, 8.35)
            && layout[3] == Switch(HpLp, "HP / LP", false)
            && layout[4] == Switch(Bypass, "Bypass", false)
  {
  }

  /**
   * At their defaults the switches select the mode a new tone stack starts in, so the first
   * block swaps no filters, and leave bypass off.
   */
  lemma SwitchDefaultsMatchInitialState()
    ensures var layout := CreateParameterLayout();
            && layout[IdIndex(HpLp)].Switch?
            && ModeFromRaw(SwitchRawValue(layout[IdIndex(HpLp)].defaultOn)) == InitialMode
            && layout[IdIndex(Bypass)].Switch?
            && !IsBypassActive(SwitchRawValue(layout[IdIndex(Bypass)].defaultOn))
  {
  }

  /** The parameters whose changes make the preset state dirty. */
  function PresetManagerParameters(): (ids: seq<string>)
    ensures forall p: ParameterId :: IdString(p) in ids <==> p != Bypass
    ensures |ids| == 4
  {
    [IdString(Drive), IdString(Tone), IdString(Volume), IdString(HpLp)]
  }
}
