/**
 * Device identity of the emulated Shelly Pro 3EM: the MAC address as
 * normalised at construction, the device id derived from it, the colon
 * form, the six address bytes and the device-info record of the Gen2 API.
 */
module ShellyDevice {
  import opened Common

  const DefaultModel := "SPEM-003CEBEU"
  const DefaultFirmwareVersion := "1.1.0"
  const DefaultFwId := "20231219-133625/1.1.0-g9eb7ffd"
  const DefaultHardwareVersion := "1.0"

  /** The placeholder id that asks for an id derived from the MAC. */
  const PlaceholderId := "shellypro3em-emulator"
  const IdPrefix := "shellypro3em-"

  // ---------------------------------------------------------------------
  // MAC normalisation

  /** `mac.replace(":", "").replace("-", "").upper()`. */
  function Canonical(raw: string): string {
    Upper(RemoveChar(RemoveChar(raw, ':'), '-'))
  }

  /** The normalised MAC, or ValueError when it is not 12 characters long. */
  function NormalizeMac(raw: string): Result<string, PyError> {
    var mac := Canonical(raw);
    if |mac| != 12 then Err(ValueError) else Ok(mac)
  }

  /** The id kept, or, for an empty or placeholder id, one derived from the last six MAC characters. */
  function DeriveDeviceId(deviceId: string, mac: string): string {
    if deviceId == "" || deviceId == PlaceholderId then IdPrefix + Lower(PySuffix(mac, 6)) else deviceId
  }

  /** `s[-n:]`. */
  function PySuffix(s: string, n: nat): (r: string)
    ensures |r| == if |s| < n then |s| else n
  {
    if |s| <= n then s else s[|s| - n..]
  }

  predicate NoLowerCase(s: string) {
    forall i :: 0 <= i < |s| ==> !('a' <= s[i] <= 'z')
  }

  lemma UpperSpec(s: string)
    ensures NoLowerCase(Upper(s))
    ensures (':' !in s && '-' !in s) ==> ':' !in Upper(s) && '-' !in Upper(s)
  {
    if ':' !in s && '-' !in s {
      forall i | 0 <= i < |s| ensures Upper(s)[i] != ':' && Upper(s)[i] != '-' {
        assert s[i] in s;
      }
    }
  }

  /**
   * A normalised MAC has no ':' or '-', no lower-case letter and length
   * 12; any other canonical length is a ValueError.
   */
  lemma NormalizeMacSpec(raw: string)
    ensures NormalizeMac(raw).Ok? <==> |Canonical(raw)| == 12
    ensures NormalizeMac(raw).Err? ==> NormalizeMac(raw).error == ValueError
    ensures NormalizeMac(raw).Ok? ==>
      var mac := NormalizeMac(raw).value;
      |mac| == 12 && ':' !in mac && '-' !in mac && NoLowerCase(mac)
  {
    UpperSpec(RemoveChar(RemoveChar(raw, ':'), '-'));
  }

  lemma RemoveAbsent(s: string, c: char)
    requires c !in s
    ensures RemoveChar(s, c) == s
  {
    if s != [] {
      assert s[0] != c;
      assert c !in s[1..];
      RemoveAbsent(s[1..], c);
    }
  }

  lemma UpperFixed(s: string)
    requires NoLowerCase(s)
    ensures Upper(s) == s
  {
  }

  /** Normalising an already normalised MAC leaves it unchanged. */
  lemma NormalizeMacIdempotent(raw: string)
    requires NormalizeMac(raw).Ok?
    ensures NormalizeMac(NormalizeMac(raw).value) == NormalizeMac(raw)
  {
    var mac := NormalizeMac(raw).value;
    NormalizeMacSpec(raw);
    RemoveAbsent(mac, ':');
    RemoveAbsent(mac, '-');
    UpperFixed(mac);
  }

  /** The derived id: "shellypro3em-" and the last six MAC characters in lower case; other ids are kept. */
  lemma DeviceIdRule(deviceId: string, mac: string)
    requires |mac| == 12
    ensures deviceId == "" || deviceId == PlaceholderId ==>
      DeriveDeviceId(deviceId, mac) == "shellypro3em-" + Lower(mac[6..]) && |DeriveDeviceId(deviceId, mac)| == 19
    ensures deviceId != "" && deviceId != PlaceholderId ==> DeriveDeviceId(deviceId, mac) == deviceId
  {
  }

  // ---------------------------------------------------------------------
  // Hex decoding and the colon form

  predicate IsHexDigit(c: char) {
    '0' <= c <= '9' || 'A' <= c <= 'F' || 'a' <= c <= 'f'
  }

  function HexValue(c: char): (v: nat)
    requires IsHexDigit(c)
    ensures v < 16
  {
    if '0' <= c <= '9' then c as int - '0' as int
    else if 'A' <= c <= 'F' then c as int - 'A' as int + 10
    else c as int - 'a' as int + 10
  }

  /** The whitespace `bytes.fromhex` skips between byte pairs. */
  predicate IsAsciiSpace(c: char) {
    c == ' ' || c == '\t' || c == '\n' || c == '\r' || c as int == 11 || c as int == 12
  }

  /**
   * `bytes.fromhex(s)`: pairs of hex digits, whitespace skipped between
   * pairs, anything else (or an odd digit out) a ValueError.
   */
  function FromHex(s: string): Result<seq<Byte>, PyError>
    decreases |s|
  {
    if s == [] then Ok([])
    else if IsAsciiSpace(s[0]) then FromHex(s[1..])
    else if |s| >= 2 && IsHexDigit(s[0]) && IsHexDigit(s[1]) then
      match FromHex(s[2..])
      case Ok(rest) => Ok([16 * HexValue(s[0]) + HexValue(s[1])] + rest)
      case Err(e) => Err(e)
    else Err(ValueError)
  }

  predicate AllHex(s: string) {
    forall i :: 0 <= i < |s| ==> IsHexDigit(s[i])
  }

  /** For an even run of hex digits, `fromhex` yields one byte per pair, high nibble first. */
  lemma {:induction false} FromHexPairs(s: string)
    requires AllHex(s) && |s| % 2 == 0
    ensures FromHex(s).Ok? && |FromHex(s).value| == |s| / 2
    ensures forall i :: 0 <= i < |s| / 2 ==> FromHex(s).value[i] == 16 * HexValue(s[2 * i]) + HexValue(s[2 * i + 1])
    decreases |s|
  {
    if s != [] {
      assert !IsAsciiSpace(s[0]);
      FromHexPairs(s[2..]);
      var rest := FromHex(s[2..]).value;
      forall i | 1 <= i < |s| / 2
        ensures FromHex(s).value[i] == 16 * HexValue(s[2 * i]) + HexValue(s[2 * i + 1])
      {
        assert s[2..][2 * (i - 1)] == s[2 * i];
        assert s[2..][2 * (i - 1) + 1] == s[2 * i + 1];
      }
    }
  }

  /** The upper-case hex digit of a nibble. */
  function HexDigit(v: nat): (c: char)
    requires v < 16
    ensures IsHexDigit(c) && HexValue(c) == v
  {
    if v < 10 then ('0' as int + v) as char else ('A' as int + v - 10) as char
  }

  /** `bytes.hex().upper()`: two upper-case digits per byte. */
  function ToHexUpper(bs: seq<Byte>): (s: string)
    ensures |s| == 2 * |bs|
  {
    if bs == [] then [] else [HexDigit(bs[0] / 16), HexDigit(bs[0] % 16)] + ToHexUpper(bs[1..])
  }

  predicate IsUpperHexDigit(c: char) {
    '0' <= c <= '9' || 'A' <= c <= 'F'
  }

  lemma NibblesOfByte(hi: nat, lo: nat)
    requires hi < 16 && lo < 16
    ensures (16 * hi + lo) / 16 == hi && (16 * hi + lo) % 16 == lo
  {
  }

  /** Decoding and re-encoding an upper-case hex string gives it back. */
  lemma {:induction false} HexRoundTrip(s: string)
    requires |s| % 2 == 0 && forall i :: 0 <= i < |s| ==> IsUpperHexDigit(s[i])
    ensures FromHex(s).Ok? && ToHexUpper(FromHex(s).value) == s
    decreases |s|
  {
    if s != [] {
      assert !IsAsciiSpace(s[0]) && IsHexDigit(s[0]) && IsHexDigit(s[1]);
      HexRoundTrip(s[2..]);
      var rest := FromHex(s[2..]).value;
      var b: Byte := 16 * HexValue(s[0]) + HexValue(s[1]);
      NibblesOfByte(HexValue(s[0]), HexValue(s[1]));
      assert HexDigit(HexValue(s[0])) == s[0];
      assert HexDigit(HexValue(s[1])) == s[1];
      assert FromHex(s).value == [b] + rest;
      assert ([b] + rest)[1..] == rest;
      assert ToHexUpper([b] + rest) == [s[0], s[1]] + ToHexUpper(rest);
      assert s == [s[0], s[1]] + s[2..];
    }
  }

  /** `s[i:j]` with Python's clamping at the end. */
  function PySlice(s: string, i: nat, j: nat): string {
    var a := if i <= |s| then i else |s|;
    var b := if j <= |s| then j else |s|;
    if a <= b then s[a..b] else []
  }

  /** The slices `mac[i:i + 2]` for i = start, start + 2, ... below 12. */
  function Pairs(mac: string, start: nat): seq<string>
    decreases 12 - start
  {
    if start >= 12 then [] else [PySlice(mac, start, start + 2)] + Pairs(mac, start + 2)
  }

  /** `sep.join(parts)` with a one-character separator. */
  function Join(sep: char, parts: seq<string>): string {
    if parts == [] then []
    else if |parts| == 1 then parts[0]
    else parts[0] + [sep] + Join(sep, parts[1..])
  }

  function Concat(parts: seq<string>): string {
    if parts == [] then [] else parts[0] + Concat(parts[1..])
  }

  /** `":".join(mac[i:i + 2] for i in range(0, 12, 2))`. */
  function MacFormatted(mac: string): string {
    Join(':', Pairs(mac, 0))
  }

  lemma {:induction false} PairsOfMac(mac: string, start: nat)
    requires |mac| == 12 && start % 2 == 0 && start <= 12
    ensures |Pairs(mac, start)| == (12 - start) / 2
    ensures forall k :: 0 <= k < |Pairs(mac, start)| ==>
      Pairs(mac, start)[k] == mac[start + 2 * k..start + 2 * k + 2]
    ensures Concat(Pairs(mac, start)) == mac[start..]
    decreases 12 - start
  {
    if start < 12 {
      PairsOfMac(mac, start + 2);
      var rest := Pairs(mac, start + 2);
      assert Pairs(mac, start) == [mac[start..start + 2]] + rest;
      forall k | 1 <= k < |Pairs(mac, start)|
        ensures Pairs(mac, start)[k] == mac[start + 2 * k..start + 2 * k + 2]
      {
        assert Pairs(mac, start)[k] == rest[k - 1];
      }
      assert mac[start..] == mac[start..start + 2] + mac[start + 2..];
    }
  }

  lemma {:induction false} JoinOfPairs(parts: seq<string>)
    requires |parts| >= 1 && forall k :: 0 <= k < |parts| ==> |parts[k]| == 2
    ensures |Join(':', parts)| == 3 * |parts| - 1
    ensures forall k :: 0 <= k < |parts| ==>
      Join(':', parts)[3 * k] == parts[k][0] && Join(':', parts)[3 * k + 1] == parts[k][1]
    ensures forall k :: 0 <= k < |parts| - 1 ==> Join(':', parts)[3 * k + 2] == ':'
    decreases |parts|
  {
    if |parts| > 1 {
      var rest := parts[1..];
      JoinOfPairs(rest);
      var j := Join(':', parts);
      assert j == parts[0] + [':'] + Join(':', rest);
      forall k | 1 <= k < |parts|
        ensures j[3 * k] == parts[k][0] && j[3 * k + 1] == parts[k][1]
      {
        assert j[3 * k] == Join(':', rest)[3 * (k - 1)];
        assert j[3 * k + 1] == Join(':', rest)[3 * (k - 1) + 1];
      }
      forall k | 1 <= k < |parts| - 1 ensures j[3 * k + 2] == ':' {
        assert j[3 * k + 2] == Join(':', rest)[3 * (k - 1) + 2];
      }
    }
  }

  lemma {:induction false} RemoveJoined(parts: seq<string>)
    requires forall k :: 0 <= k < |parts| ==> ':' !in parts[k]
    ensures RemoveChar(Join(':', parts), ':') == Concat(parts)
    decreases |parts|
  {
    if |parts| == 1 {
      RemoveAbsent(parts[0], ':');
      assert Concat(parts) == parts[0] + Concat([]);
    } else if |parts| > 1 {
      RemoveJoined(parts[1..]);
      RemoveDistributes(parts[0] + [':'], Join(':', parts[1..]));
      RemoveDistributes(parts[0], [':']);
      RemoveAbsent(parts[0], ':');
      assert RemoveChar([':'], ':') == [];
    }
  }

  /**
   * For a normalised MAC the colon form has 17 characters, a colon after
   * every pair, the digits in order elsewhere, and removing its colons
   * gives the MAC back.
   */
  lemma MacFormattedSpec(mac: string)
    requires |mac| == 12 && ':' !in mac
    ensures var f := MacFormatted(mac);
      |f| == 17 && (forall k :: 0 <= k < 5 ==> f[3 * k + 2] == ':') &&
      (forall k :: 0 <= k < 6 ==> f[3 * k] == mac[2 * k] && f[3 * k + 1] == mac[2 * k + 1])
    ensures RemoveChar(MacFormatted(mac), ':') == mac
  {
    var parts := Pairs(mac, 0);
    PairsOfMac(mac, 0);
    JoinOfPairs(parts);
    forall k | 0 <= k < |parts| ensures ':' !in parts[k] {
      forall x | x in parts[k] ensures x != ':' {
        assert x in mac;
      }
    }
    RemoveJoined(parts);
  }

  lemma RemoveDistributes(a: string, b: string)
    ensures RemoveChar(a + b, ':') == RemoveChar(a, ':') + RemoveChar(b, ':')
  {
    if a == [] {
      assert a + b == b;
    } else {
      assert (a + b)[0] == a[0];
      assert (a + b)[1..] == a[1..] + b;
      RemoveDistributes(a[1..], b);
    }
  }

  // ---------------------------------------------------------------------
  // The device object

  class ShellyDevice {
    var deviceId: string
    const deviceName: string
    var macAddress: string
    const model: string
    const firmwareVersion: string
    const fwId: string
    const hardwareVersion: string
    var startTime: real

    /** The dataclass fields as given, before `__post_init__`. */
    constructor (deviceId: string, deviceName: string, macAddress: string)
      ensures this.deviceId == deviceId && this.deviceName == deviceName && this.macAddress == macAddress
      ensures model == DefaultModel && firmwareVersion == DefaultFirmwareVersion
      ensures fwId == DefaultFwId && hardwareVersion == DefaultHardwareVersion && startTime == 0.0
    {
      this.deviceId := deviceId;
      this.deviceName := deviceName;
      this.macAddress := macAddress;
      model := DefaultModel;
      firmwareVersion := DefaultFirmwareVersion;
      fwId := DefaultFwId;
      hardwareVersion := DefaultHardwareVersion;
      startTime := 0.0;
    }

    /**
     * `__post_init__`: normalise the MAC (ValueError, and nothing assigned,
     * when it is not 12 characters), derive a placeholder id, and record
     * the start time.
     */
    method PostInit(now: real) returns (raised: Option<PyError>)
      modifies this
      ensures raised.Some? <==> NormalizeMac(old(macAddress)).Err?
      ensures raised.Some? ==> raised == Some(ValueError) && unchanged(this)
      ensures raised.None? ==>
        macAddress == NormalizeMac(old(macAddress)).value &&
        deviceId == DeriveDeviceId(old(deviceId), macAddress) && startTime == now
    {
      var mac := Canonical(macAddress);
      if |mac| != 12 {
        return Some(ValueError);
      }
      macAddress := mac;
      if deviceId == "" || deviceId == PlaceholderId {
        deviceId := IdPrefix + Lower(PySuffix(mac, 6));
      }
      startTime := now;
      return None;
    }

    /** `mac_bytes`. */
    function MacBytes(): Result<seq<Byte>, PyError>
      reads this
    {
      FromHex(macAddress)
    }

    /** `mac_formatted`. */
    function Formatted(): string
      reads this
    {
      MacFormatted(macAddress)
    }

    /** `get_device_info`: the Gen2 device-info object. */
    function DeviceInfo(): map<string, Json>
      reads this
    {
      InfoDocument(deviceId, macAddress, model, fwId, firmwareVersion)
    }
  }

  function InfoDocument(deviceId: string, mac: string, model: string, fwId: string, ver: string): map<string, Json> {
    map[
      "id" := JStr(deviceId),
      "mac" := JStr(mac),
      "model" := JStr(model),
      "gen" := JInt(2),
      "fw_id" := JStr(fwId),
      "ver" := JStr(ver),
      "app" := JStr("Pro3EM"),
      "auth_en" := JBool(false),
      "auth_domain" := JNull
    ]
  }

  /** The device-info object echoes id, MAC, model and versions, and fixes generation 2, app Pro3EM and no authentication. */
  lemma InfoDocumentFields(deviceId: string, mac: string, model: string, fwId: string, ver: string)
    ensures var r := InfoDocument(deviceId, mac, model, fwId, ver);
      r.Keys == {"id", "mac", "model", "gen", "fw_id", "ver", "app", "auth_en", "auth_domain"} &&
      r["id"] == JStr(deviceId) && r["mac"] == JStr(mac) && r["model"] == JStr(model) &&
      r["fw_id"] == JStr(fwId) && r["ver"] == JStr(ver) &&
      r["gen"] == JInt(2) && r["app"] == JStr("Pro3EM") &&
      r["auth_en"] == JBool(false) && r["auth_domain"] == JNull
  {
  }

  /** `ShellyDevice(...)`: the constructor followed by `__post_init__`. */
  method Create(deviceId: string, deviceName: string, macAddress: string, now: real)
    returns (r: Result<ShellyDevice, PyError>)
    ensures r.Err? <==> NormalizeMac(macAddress).Err?
    ensures r.Err? ==> r.error == ValueError
    ensures r.Ok? ==>
      fresh(r.value) &&
      r.value.macAddress == NormalizeMac(macAddress).value &&
      r.value.deviceId == DeriveDeviceId(deviceId, r.value.macAddress) &&
      r.value.deviceName == deviceName && r.value.model == DefaultModel
  {
    var d := new ShellyDevice(deviceId, deviceName, macAddress);
    var raised := d.PostInit(now);
    if raised.Some? {
      return Err(raised.value);
    }
    return Ok(d);
  }

  // ---------------------------------------------------------------------
  // The unchecked hex digits

  /**
   * The length check alone accepts a 12-character MAC that is not
   * hexadecimal (here "GG0000000000"); the device is created and its
   * `mac_bytes` then raises.
   */
  lemma NonHexMacAccepted(mac: string)
    requires mac == "GG0000000000"
    ensures NormalizeMac(mac) == Ok(mac)
    ensures FromHex(mac) == Err(ValueError)
  {
    assert forall i :: 0 <= i < |mac| ==> mac[i] == 'G' || mac[i] == '0';
    RemoveAbsent(mac, ':');
    RemoveAbsent(mac, '-');
    UpperFixed(mac);
    assert !IsAsciiSpace(mac[0]) && !IsHexDigit(mac[0]);
  }

  /** A normalised MAC made only of hex digits decodes to six bytes, pair by pair, high nibble first. */
  lemma HexMacDecodes(raw: string)
    requires NormalizeMac(raw).Ok? && AllHex(NormalizeMac(raw).value)
    ensures var mac := NormalizeMac(raw).value;
      FromHex(mac).Ok? && |FromHex(mac).value| == 6 &&
      (forall i :: 0 <= i < 6 ==> FromHex(mac).value[i] == 16 * HexValue(mac[2 * i]) + HexValue(mac[2 * i + 1]))
  {
    NormalizeMacSpec(raw);
    FromHexPairs(NormalizeMac(raw).value);
  }
}
