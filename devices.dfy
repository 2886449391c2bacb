/**
 * The closed set of device kinds (the `Devices` enum of src/devices.rs and
 * client/src/devices.rs, with its four payload structs folded into the
 * variants) and the status text each one renders.
 */
module Devices {
  import opened Wrappers
  import opened Text

  /** Rust's `i32`, the type of every numeric payload. */
  newtype i32 = x: int | -0x8000_0000 <= x < 0x8000_0000

  /**
   * `SmartSocket { voltage }`, `SmartThermometer { temperature }`,
   * `SmartSpeaker { volume }`, `SmartLamp { is_enabled }`. Equality of
   * datatype values is structural, as the derived `PartialEq, Eq` is.
   */
  datatype Device =
    | Socket(voltage: i32)
    | Thermometer(temperature: i32)
    | Speaker(volume: i32)
    | Lamp(isEnabled: bool)

  /**
   * The text the status resolver gives for a device it found, by exhaustive
   * dispatch: a lamp's state word, or the payload's word followed by the
   * payload in decimal.
   */
  function Status(d: Device): (r: string)
    ensures d.Lamp? ==> (r == "enabled" <==> d.isEnabled) && (r == "disabled" <==> !d.isEnabled)
    ensures d.Socket? ==> HasPrefix(r, "voltage ") && ReadI32(r[8..]) == Some(d.voltage)
    ensures d.Speaker? ==> HasPrefix(r, "volume ") && ReadI32(r[7..]) == Some(d.volume)
    ensures d.Thermometer? ==> HasPrefix(r, "temperature ") && ReadI32(r[12..]) == Some(d.temperature)
  {
    match d
    case Lamp(on) => if on then "enabled" else "disabled"
    case Socket(v) => PrefixedDecimal("voltage ", v); "voltage " + Decimal(v as int)
    case Speaker(v) => PrefixedDecimal("volume ", v); "volume " + Decimal(v as int)
    case Thermometer(t) => PrefixedDecimal("temperature ", t); "temperature " + Decimal(t as int)
  }

  predicate HasPrefix(s: string, p: string) {
    |p| <= |s| && s[..|p|] == p
  }

  /** A text is a prefix of itself followed by anything. */
  lemma JoinHasPrefix(p: string, s: string)
    ensures HasPrefix(p + s, p)
  {
    assert (p + s)[..|p|] == p;
  }

  /** An `i32` written in decimal, if `s` is one. */
  function ReadI32(s: string): (r: Option<i32>)
    ensures r.Some? ==> Decimal(r.value as int) == s
  {
    match ParseInt(s)
    case Some(n) =>
      ParseIntSound(s);
      if -0x8000_0000 <= n < 0x8000_0000 then Some(n as i32) else None
    case None => None
  }

  /** The device a status text describes, if it is one. */
  function ParseStatus(s: string): Option<Device> {
    if s == "enabled" then Some(Lamp(true))
    else if s == "disabled" then Some(Lamp(false))
    else if HasPrefix(s, "voltage ") then
      match ReadI32(s[8..]) case Some(v) => Some(Socket(v)) case None => None
    else if HasPrefix(s, "volume ") then
      match ReadI32(s[7..]) case Some(v) => Some(Speaker(v)) case None => None
    else if HasPrefix(s, "temperature ") then
      match ReadI32(s[12..]) case Some(v) => Some(Thermometer(v)) case None => None
    else None
  }

  lemma ReadI32Decimal(v: i32)
    ensures ReadI32(Decimal(v as int)) == Some(v)
  {
    DecimalRoundTrip(v as int);
  }

  lemma PrefixedDecimal(p: string, v: i32)
    ensures HasPrefix(p + Decimal(v as int), p)
    ensures (p + Decimal(v as int))[|p|..] == Decimal(v as int)
    ensures ReadI32((p + Decimal(v as int))[|p|..]) == Some(v)
  {
    assert (p + Decimal(v as int))[..|p|] == p;
    ReadI32Decimal(v);
  }

  /** Texts that differ at some position do not prefix one another. */
  lemma CharRulesOut(s: string, p: string, k: nat)
    requires k < |s| && k < |p| && s[k] != p[k]
    ensures !HasPrefix(s, p) && s != p
  {
  }

  lemma SocketRoundTrip(v: i32)
    ensures ParseStatus(Status(Socket(v))) == Some(Socket(v))
  {
    var s := Status(Socket(v));
    PrefixedDecimal("voltage ", v);
    assert s[0] == 'v';
    CharRulesOut(s, "enabled", 0);
    CharRulesOut(s, "disabled", 0);
  }

  lemma SpeakerRoundTrip(v: i32)
    ensures ParseStatus(Status(Speaker(v))) == Some(Speaker(v))
  {
    var s := Status(Speaker(v));
    PrefixedDecimal("volume ", v);
    assert s[0] == 'v' && s[3] == 'u';
    CharRulesOut(s, "enabled", 0);
    CharRulesOut(s, "disabled", 0);
    CharRulesOut(s, "voltage ", 3);
  }

  lemma ThermometerRoundTrip(t: i32)
    ensures ParseStatus(Status(Thermometer(t))) == Some(Thermometer(t))
  {
    var s := Status(Thermometer(t));
    PrefixedDecimal("temperature ", t);
    assert s[0] == 't';
    CharRulesOut(s, "enabled", 0);
    CharRulesOut(s, "disabled", 0);
    CharRulesOut(s, "voltage ", 0);
    CharRulesOut(s, "volume ", 0);
  }

  /** The status text of a device reads back as that very device. */
  lemma StatusRoundTrip(d: Device)
    ensures ParseStatus(Status(d)) == Some(d)
  {
    match d
    case Lamp(_) =>
    case Socket(v) => SocketRoundTrip(v);
    case Speaker(v) => SpeakerRoundTrip(v);
    case Thermometer(t) => ThermometerRoundTrip(t);
  }

  /** Every text that reads as a device is that device's status text. */
  lemma ParseStatusSound(s: string)
    requires ParseStatus(s).Some?
    ensures Status(ParseStatus(s).value) == s
  {
    if s != "enabled" && s != "disabled" {
      if HasPrefix(s, "voltage ") {
        assert s == "voltage " + s[8..];
      } else if HasPrefix(s, "volume ") {
        assert s == "volume " + s[7..];
      } else {
        assert s == "temperature " + s[12..];
      }
    }
  }

  /** Distinct devices have distinct status texts. */
  lemma StatusInjective(d1: Device, d2: Device)
    ensures Status(d1) == Status(d2) <==> d1 == d2
  {
    StatusRoundTrip(d1);
    StatusRoundTrip(d2);
  }

  /** `voltage 110`, the status the unit tests expect, and one extra vector for each other variant and payload. */
  lemma StatusExamples()
    ensures Status(Socket(110)) == "voltage 110"
    ensures Status(Speaker(3)) == "volume 3"
    ensures Status(Thermometer(-22)) == "temperature -22"
    ensures Status(Lamp(true)) == "enabled" && Status(Lamp(false)) == "disabled"
  {
  }
}
