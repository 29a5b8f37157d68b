/**
 * Configuration of the emulator: the DSMR entity mapping object that the
 * refresh cycle consults (manual mapping, or the mapping found by
 * auto-discovery), and the defaulting rules that turn a parsed YAML
 * document into the application settings.
 */
module Settings {
  import opened Common

  /** The Home Assistant entity ids of one phase ("" when not configured). */
  datatype PhaseConfig = PhaseConfig(voltage: string, current: string, power: string, powerReturned: string)

  const EmptyPhase := PhaseConfig("", "", "", "")

  /** The Home Assistant entity ids of the energy counters ("" when not configured). */
  datatype TotalsConfig = TotalsConfig(
    energyDelivered: string,
    energyReturned: string,
    energyDeliveredTariff1: string,
    energyDeliveredTariff2: string,
    energyReturnedTariff1: string,
    energyReturnedTariff2: string)

  const EmptyTotals := TotalsConfig("", "", "", "", "", "")

  /** An entity mapping of one phase or of a single-phase meter: field name to entity id. */
  type EntityDict = map<string, string>

  /** A three-phase mapping: phase name ("phase_a", ...) to the phase's entity dict. */
  type PhaseDict = map<string, EntityDict>

  /** `d.get(key, "")` on an entity dict. */
  function Lookup(d: EntityDict, key: string): (r: string)
    ensures key in d ==> r == d[key]
    ensures key !in d ==> r == ""
  {
    if key in d then d[key] else ""
  }

  /** Python truthiness of an optional dict: present and non-empty. */
  predicate Present<K, V>(d: Option<map<K, V>>) {
    d.Some? && d.value != map[]
  }

  /**
   * The DSMR entity mapping. The manual part comes from the configuration
   * file; the discovered part is filled in at run time by auto-discovery
   * and takes precedence while `autoDiscover` is set.
   */
  class DsmrConfig {
    var autoDiscover: bool
    var singlePhase: Option<EntityDict>
    var threePhase: Option<PhaseDict>
    var totals: TotalsConfig
    var discoveredThreePhase: Option<PhaseDict>
    var discoveredSinglePhase: Option<EntityDict>
    var discoveredTotals: Option<TotalsConfig>
    var isDiscoveredThreePhase: bool

    /** A mapping as read from the configuration file: nothing discovered yet. */
    constructor (autoDiscover: bool, singlePhase: Option<EntityDict>, threePhase: Option<PhaseDict>, totals: TotalsConfig)
      ensures this.autoDiscover == autoDiscover && this.singlePhase == singlePhase
      ensures this.threePhase == threePhase && this.totals == totals
      ensures discoveredThreePhase == None && discoveredSinglePhase == None
      ensures discoveredTotals == None && !isDiscoveredThreePhase
    {
      this.autoDiscover := autoDiscover;
      this.singlePhase := singlePhase;
      this.threePhase := threePhase;
      this.totals := totals;
      discoveredThreePhase := None;
      discoveredSinglePhase := None;
      discoveredTotals := None;
      isDiscoveredThreePhase := false;
    }

    /** Records what auto-discovery found; the manual mapping is untouched. */
    method SetDiscoveredEntities(single: Option<EntityDict>, three: Option<PhaseDict>, discTotals: TotalsConfig, isThreePhase: bool)
      modifies this
      ensures discoveredSinglePhase == single && discoveredThreePhase == three
      ensures discoveredTotals == Some(discTotals) && isDiscoveredThreePhase == isThreePhase
      ensures autoDiscover == old(autoDiscover) && singlePhase == old(singlePhase)
      ensures threePhase == old(threePhase) && totals == old(totals)
      ensures autoDiscover && Present(three) ==> ActiveThreePhase() == three
      ensures autoDiscover ==> GetTotals() == discTotals
      ensures autoDiscover && three.Some? ==> (IsThreePhase() <==> isThreePhase)
      ensures !autoDiscover || three.None? ==> (IsThreePhase() <==> Present(threePhase))
    {
      discoveredSinglePhase := single;
      discoveredThreePhase := three;
      discoveredTotals := Some(discTotals);
      isDiscoveredThreePhase := isThreePhase;
    }

    /** The three-phase mapping in use: the discovered one when auto-discovery produced a non-empty one. */
    function ActiveThreePhase(): Option<PhaseDict>
      reads this
    {
      if autoDiscover && Present(discoveredThreePhase) then discoveredThreePhase else threePhase
    }

    /** The single-phase mapping in use, chosen like ActiveThreePhase. */
    function ActiveSinglePhase(): Option<EntityDict>
      reads this
    {
      if autoDiscover && Present(discoveredSinglePhase) then discoveredSinglePhase else singlePhase
    }

    /**
     * The entities of one phase: the active mapping's entry for `phase`
     * with "" for each missing field, or all "" when the mapping is empty,
     * absent, or has no such phase.
     */
    function GetPhaseConfig(phase: string): PhaseConfig
      reads this
    {
      var d := ActiveThreePhase();
      if Present(d) && phase in d.value then
        var e := d.value[phase];
        PhaseConfig(Lookup(e, "voltage"), Lookup(e, "current"), Lookup(e, "power"), Lookup(e, "power_returned"))
      else EmptyPhase
    }

    /** The power entity of a single-phase meter, or "" when no single-phase mapping is in use. */
    function GetSinglePhasePower(): string
      reads this
    {
      var s := ActiveSinglePhase();
      if Present(s) then Lookup(s.value, "power") else ""
    }

    /** The energy-counter entities: the discovered ones when auto-discovery set them, else the manual ones. */
    function GetTotals(): TotalsConfig
      reads this
    {
      if autoDiscover && discoveredTotals.Some? then discoveredTotals.value else totals
    }

    /**
     * Whether the meter is read phase by phase: the discovered flag once
     * auto-discovery ran (even with an empty three-phase result), else
     * whether a non-empty manual three-phase mapping exists.
     */
    predicate IsThreePhase()
      reads this
    {
      if autoDiscover && discoveredThreePhase.Some? then isDiscoveredThreePhase
      else Present(threePhase)
    }

    /**
     * Whether any power entity is known: a non-empty discovered mapping
     * (whatever `autoDiscover` says), a manual single-phase power entity,
     * or a manual phase with a power entity.
     */
    predicate HasAnyEntity()
      reads this
    {
      Present(discoveredSinglePhase) || Present(discoveredThreePhase)
      || (Present(singlePhase) && Lookup(singlePhase.value, "power") != "")
      || (threePhase.Some? && exists p :: p in threePhase.value && Lookup(threePhase.value[p], "power") != "")
    }

    /** The early-return scan over the manual phases that decides HasAnyEntity. */
    method CheckAnyEntity() returns (found: bool)
      ensures found == HasAnyEntity()
    {
      if Present(discoveredSinglePhase) || Present(discoveredThreePhase) {
        return true;
      }
      if Present(singlePhase) && Lookup(singlePhase.value, "power") != "" {
        return true;
      }
      if threePhase.Some? {
        var phases := threePhase.value;
        var remaining := phases.Keys;
        while remaining != {}
          invariant remaining <= phases.Keys
          invariant forall p :: p in phases && p !in remaining ==> Lookup(phases[p], "power") == ""
          decreases remaining
        {
          var p :| p in remaining;
          if Lookup(phases[p], "power") != "" {
            return true;
          }
          remaining := remaining - {p};
        }
      }
      return false;
    }
  }

  /** IsThreePhase: discovery's verdict wins exactly when auto-discovery is on and it reported a three-phase value. */
  lemma IsThreePhaseRule(c: DsmrConfig)
    ensures c.autoDiscover && c.discoveredThreePhase.Some? ==> (c.IsThreePhase() <==> c.isDiscoveredThreePhase)
    ensures !(c.autoDiscover && c.discoveredThreePhase.Some?) ==>
      (c.IsThreePhase() <==> c.threePhase.Some? && |c.threePhase.value| > 0)
  {
    if c.threePhase.Some? && c.threePhase.value != map[] {
      var k :| k in c.threePhase.value;
      assert k in c.threePhase.value.Keys;
    }
  }

  /**
   * Unless discovery has reported a three-phase result under
   * auto-discovery, the meter is read phase by phase exactly when the
   * mapping GetPhaseConfig consults is non-empty.
   */
  lemma IsThreePhaseMatchesMapping(c: DsmrConfig)
    ensures !(c.autoDiscover && c.discoveredThreePhase.Some?) ==> (c.IsThreePhase() <==> Present(c.ActiveThreePhase()))
    ensures c.autoDiscover && Present(c.discoveredThreePhase) ==> c.ActiveThreePhase() == c.discoveredThreePhase
  {
    IsThreePhaseRule(c);
  }

  /**
   * Which mapping the readers use. With auto-discovery off only the manual
   * mapping counts. With it on, a discovered mapping overrides the manual
   * one only when it is non-empty, while discovered totals always do.
   * Every entity of a phase comes from the same phase entry.
   */
  lemma MappingPrecedence(c: DsmrConfig, phase: string)
    ensures !c.autoDiscover ==>
      c.ActiveThreePhase() == c.threePhase && c.ActiveSinglePhase() == c.singlePhase && c.GetTotals() == c.totals
    ensures c.autoDiscover && c.discoveredTotals.Some? ==> c.GetTotals() == c.discoveredTotals.value
    ensures c.discoveredThreePhase == Some(map[]) ==> c.ActiveThreePhase() == c.threePhase
    ensures c.discoveredSinglePhase == Some(map[]) ==> c.ActiveSinglePhase() == c.singlePhase
    ensures var d := c.ActiveThreePhase();
      (Present(d) && phase in d.value ==>
        c.GetPhaseConfig(phase).power == Lookup(d.value[phase], "power") &&
        c.GetPhaseConfig(phase).voltage == Lookup(d.value[phase], "voltage") &&
        c.GetPhaseConfig(phase).current == Lookup(d.value[phase], "current") &&
        c.GetPhaseConfig(phase).powerReturned == Lookup(d.value[phase], "power_returned")) &&
      (!(Present(d) && phase in d.value) ==> c.GetPhaseConfig(phase) == EmptyPhase)
    ensures !Present(c.ActiveSinglePhase()) ==> c.GetSinglePhasePower() == ""
    ensures Present(c.ActiveSinglePhase()) ==> c.GetSinglePhasePower() == Lookup(c.ActiveSinglePhase().value, "power")
  {
  }

  /**
   * Discovery can report three-phase with an empty mapping: the meter is
   * then read phase by phase, yet every phase has no entities.
   */
  lemma ThreePhaseWithoutEntities(c: DsmrConfig, phase: string)
    requires c.autoDiscover && c.discoveredThreePhase == Some(map[]) && c.isDiscoveredThreePhase && c.threePhase.None?
    ensures c.IsThreePhase() && c.GetPhaseConfig(phase) == EmptyPhase
  {
  }

  // ---------------------------------------------------------------------
  // Parsing the configuration document

  /** Settings as Python stores them: every leaf is whatever the YAML document held there. */
  datatype ShellySettings = ShellySettings(deviceId: Json, deviceName: Json, macAddress: Json)
  datatype ModbusSettings = ModbusSettings(enabled: Json, host: Json, port: Json, unitId: Json)
  datatype UdpSettings = UdpSettings(enabled: Json, host: Json, ports: Json)
  datatype HttpSettings = HttpSettings(enabled: Json, host: Json, port: Json)
  datatype MdnsSettings = MdnsSettings(enabled: Json, host: Json)
  datatype ServersSettings = ServersSettings(modbus: ModbusSettings, udp: UdpSettings, http: HttpSettings, mdns: MdnsSettings)
  datatype HomeAssistantSettings = HomeAssistantSettings(url: Json, token: Json, useHttps: Json, verifySsl: Json, pollInterval: Json, timeout: Json)
  datatype TotalsSettings = TotalsSettings(
    energyDelivered: Json, energyReturned: Json,
    energyDeliveredTariff1: Json, energyDeliveredTariff2: Json,
    energyReturnedTariff1: Json, energyReturnedTariff2: Json)
  datatype DsmrSettings = DsmrSettings(autoDiscover: Json, singlePhase: Json, threePhase: Json, totals: TotalsSettings)
  datatype LoggingSettings = LoggingSettings(level: Json, format: Json)
  datatype AppSettings = AppSettings(
    shelly: ShellySettings, servers: ServersSettings, homeassistant: HomeAssistantSettings,
    dsmr: DsmrSettings, logging: LoggingSettings)

  const DefaultLogFormat := "%(asctime)s - %(name)s - %(levelname)s - %(message)s"

  const DefaultShelly := ShellySettings(JStr("shellypro3em-emulator"), JStr("Shelly Pro 3EM Emulator"), JStr("AA:BB:CC:DD:EE:FF"))
  const DefaultModbus := ModbusSettings(JBool(true), JStr("0.0.0.0"), JInt(502), JInt(1))
  /** The dataclass default lists three datagram ports. */
  const DefaultUdp := UdpSettings(JBool(true), JStr("0.0.0.0"), JArr([JInt(1010), JInt(2220), JInt(22222)]))
  const DefaultHttp := HttpSettings(JBool(false), JStr("0.0.0.0"), JInt(80))
  const DefaultMdns := MdnsSettings(JBool(false), JStr(""))
  const DefaultServers := ServersSettings(DefaultModbus, DefaultUdp, DefaultHttp, DefaultMdns)
  const DefaultHomeAssistant := HomeAssistantSettings(JStr("http://localhost:8123"), JStr(""), JBool(false), JBool(true), JNum(2.0), JNum(10.0))
  const DefaultTotals := TotalsSettings(JStr(""), JStr(""), JStr(""), JStr(""), JStr(""), JStr(""))
  const DefaultDsmr := DsmrSettings(JBool(true), JNull, JNull, DefaultTotals)
  const DefaultLogging := LoggingSettings(JStr("INFO"), JStr(DefaultLogFormat))
  const DefaultSettings := AppSettings(DefaultShelly, DefaultServers, DefaultHomeAssistant, DefaultDsmr, DefaultLogging)

  /** A section's value as a dict; calling `.get` on anything else raises AttributeError. */
  function AsDict(j: Json): (r: Result<map<string, Json>, PyError>)
    ensures j.JObj? ==> r == Ok(j.fields)
    ensures !j.JObj? ==> r == Err(AttributeError)
  {
    if j.JObj? then Ok(j.fields) else Err(AttributeError)
  }

  function ParseShelly(j: Json): (r: Result<ShellySettings, PyError>)
    ensures r.Ok? <==> j.JObj?
    ensures r.Err? ==> r.error == AttributeError
  {
    match AsDict(j)
    case Err(e) => Err(e)
    case Ok(m) => Ok(ShellySettings(
      Get(m, "device_id", DefaultShelly.deviceId),
      Get(m, "device_name", DefaultShelly.deviceName),
      Get(m, "mac_address", DefaultShelly.macAddress)))
  }

  function ParseModbus(j: Json): (r: Result<ModbusSettings, PyError>)
    ensures r.Ok? <==> j.JObj?
    ensures r.Err? ==> r.error == AttributeError
  {
    match AsDict(j)
    case Err(e) => Err(e)
    case Ok(m) => Ok(ModbusSettings(
      Get(m, "enabled", JBool(true)), Get(m, "host", JStr("0.0.0.0")),
      Get(m, "port", JInt(502)), Get(m, "unit_id", JInt(1))))
  }

  /** A present UDP section without `ports` gets two ports, not the dataclass's three. */
  function ParseUdp(j: Json): (r: Result<UdpSettings, PyError>)
    ensures r.Ok? <==> j.JObj?
    ensures r.Err? ==> r.error == AttributeError
  {
    match AsDict(j)
    case Err(e) => Err(e)
    case Ok(m) => Ok(UdpSettings(
      Get(m, "enabled", JBool(true)), Get(m, "host", JStr("0.0.0.0")),
      Get(m, "ports", JArr([JInt(1010), JInt(2220)]))))
  }

  function ParseHttp(j: Json): (r: Result<HttpSettings, PyError>)
    ensures r.Ok? <==> j.JObj?
    ensures r.Err? ==> r.error == AttributeError
  {
    match AsDict(j)
    case Err(e) => Err(e)
    case Ok(m) => Ok(HttpSettings(
      Get(m, "enabled", DefaultHttp.enabled), Get(m, "host", DefaultHttp.host), Get(m, "port", DefaultHttp.port)))
  }

  function ParseMdns(j: Json): (r: Result<MdnsSettings, PyError>)
    ensures r.Ok? <==> j.JObj?
    ensures r.Err? ==> r.error == AttributeError
  {
    match AsDict(j)
    case Err(e) => Err(e)
    case Ok(m) => Ok(MdnsSettings(Get(m, "enabled", DefaultMdns.enabled), Get(m, "host", DefaultMdns.host)))
  }

  function ParseHomeAssistant(j: Json): (r: Result<HomeAssistantSettings, PyError>)
    ensures r.Ok? <==> j.JObj?
    ensures r.Err? ==> r.error == AttributeError
  {
    match AsDict(j)
    case Err(e) => Err(e)
    case Ok(m) => Ok(HomeAssistantSettings(
      Get(m, "url", JStr("http://localhost:8123")), Get(m, "token", JStr("")),
      Get(m, "use_https", JBool(false)), Get(m, "verify_ssl", JBool(true)),
      Get(m, "poll_interval", JNum(2.0)), Get(m, "timeout", JNum(10.0))))
  }

  function ParseTotals(j: Json): (r: Result<TotalsSettings, PyError>)
    ensures r.Ok? <==> j.JObj?
    ensures r.Err? ==> r.error == AttributeError
  {
    match AsDict(j)
    case Err(e) => Err(e)
    case Ok(m) => Ok(TotalsSettings(
      Get(m, "energy_delivered", JStr("")), Get(m, "energy_returned", JStr("")),
      Get(m, "energy_delivered_tariff_1", JStr("")), Get(m, "energy_delivered_tariff_2", JStr("")),
      Get(m, "energy_returned_tariff_1", JStr("")), Get(m, "energy_returned_tariff_2", JStr(""))))
  }

  /** The mapping entries default to None, the totals to an empty dict. */
  function ParseDsmr(j: Json): (r: Result<DsmrSettings, PyError>)
    ensures r.Ok? <==> j.JObj? && Get(j.fields, "totals", JObj(map[])).JObj?
    ensures r.Ok? && "totals" !in j.fields ==> r.value.totals == DefaultTotals
  {
    match AsDict(j)
    case Err(e) => Err(e)
    case Ok(m) =>
      match ParseTotals(Get(m, "totals", JObj(map[])))
      case Err(e) => Err(e)
      case Ok(t) => Ok(DsmrSettings(Get(m, "auto_discover", JBool(true)), Get(m, "single_phase", JNull), Get(m, "three_phase", JNull), t))
  }

  function ParseLogging(j: Json): (r: Result<LoggingSettings, PyError>)
    ensures r.Ok? <==> j.JObj?
    ensures r.Err? ==> r.error == AttributeError
  {
    match AsDict(j)
    case Err(e) => Err(e)
    case Ok(m) => Ok(LoggingSettings(Get(m, "level", JStr("INFO")), Get(m, "format", JStr(DefaultLogFormat))))
  }

  /** The four server sub-sections in the order they are looked up. */
  const ServerKeys: seq<string> := ["modbus", "udp", "http", "mdns"]

  /**
   * Python's `name in servers_data` for a servers section: key membership
   * on a dict, substring on a string, membership on a list, TypeError
   * otherwise.
   */
  function SectionHas(section: Json, name: string): Result<bool, PyError> {
    PyIn(JStr(name), section)
  }

  /**
   * `servers_data[name]` when `name in servers_data`: Ok(None) when the
   * name is absent, the sub-section when present, and TypeError when a
   * string or list "contains" the name and is then indexed by it.
   */
  function SubSection(section: Json, name: string): (r: Result<Option<Json>, PyError>)
    ensures section.JObj? ==> r == Ok(if name in section.fields then Some(section.fields[name]) else None)
    ensures !section.JObj? ==> r.Ok? ==> r == Ok(None)
  {
    match SectionHas(section, name)
    case Err(e) => Err(e)
    case Ok(false) => Ok(None)
    case Ok(true) => if section.JObj? then Ok(Some(section.fields[name])) else Err(TypeError)
  }

  /** Parses a sub-section when present, else keeps `default`. */
  function Override<T>(sub: Option<Json>, parse: Json -> Result<T, PyError>, default: T): Result<T, PyError> {
    if sub.Some? then parse(sub.value) else Ok(default)
  }

  /**
   * The servers section, looked up in the order modbus, udp, http, mdns:
   * each sub-section present replaces that server's defaults.
   */
  function ParseServers(section: Json): Result<ServersSettings, PyError> {
    match SubSection(section, "modbus")
    case Err(e) => Err(e)
    case Ok(mb) =>
      match Override(mb, ParseModbus, DefaultModbus)
      case Err(e) => Err(e)
      case Ok(modbus) =>
        match SubSection(section, "udp")
        case Err(e) => Err(e)
        case Ok(ud) =>
          match Override(ud, ParseUdp, DefaultUdp)
          case Err(e) => Err(e)
          case Ok(udp) =>
            match SubSection(section, "http")
            case Err(e) => Err(e)
            case Ok(ht) =>
              match Override(ht, ParseHttp, DefaultHttp)
              case Err(e) => Err(e)
              case Ok(http) =>
                match SubSection(section, "mdns")
                case Err(e) => Err(e)
                case Ok(md) =>
                  match Override(md, ParseMdns, DefaultMdns)
                  case Err(e) => Err(e)
                  case Ok(mdns) => Ok(ServersSettings(modbus, udp, http, mdns))
  }

  /**
   * A servers dict keeps the defaults of each server it does not name and
   * fails exactly when a named sub-section is not a dict.
   */
  lemma ServersDictDefaults(m: map<string, Json>)
    ensures ParseServers(JObj(m)).Ok? <==> forall k :: k in ServerKeys && k in m ==> m[k].JObj?
    ensures ParseServers(JObj(m)).Ok? ==>
      ParseServers(JObj(m)).value.modbus == (if "modbus" in m then ParseModbus(m["modbus"]).value else DefaultModbus) &&
      ParseServers(JObj(m)).value.udp == (if "udp" in m then ParseUdp(m["udp"]).value else DefaultUdp) &&
      ParseServers(JObj(m)).value.http == (if "http" in m then ParseHttp(m["http"]).value else DefaultHttp) &&
      ParseServers(JObj(m)).value.mdns == (if "mdns" in m then ParseMdns(m["mdns"]).value else DefaultMdns)
  {
    assert ServerKeys[0] == "modbus" && ServerKeys[1] == "udp" && ServerKeys[2] == "http" && ServerKeys[3] == "mdns";
  }

  /** A servers section that is neither a dict nor names any server leaves all server defaults. */
  lemma ServersNonDict(section: Json)
    requires !section.JObj?
    ensures ParseServers(section).Ok? ==> ParseServers(section).value == DefaultServers
  {
  }

  /**
   * Builds the settings from a parsed YAML document section by section:
   * an absent section keeps every default; a present one takes each key
   * it holds and the documented default for each key it lacks. An
   * attribute or type error while reading a section fails the parse.
   */
  method ParseConfig(data: map<string, Json>) returns (r: Result<AppSettings, PyError>)
    ensures "shelly" !in data && "servers" !in data && "homeassistant" !in data && "dsmr" !in data && "logging" !in data
      ==> r == Ok(DefaultSettings)
    ensures r.Ok? <==>
      ("shelly" in data ==> ParseShelly(data["shelly"]).Ok?) &&
      ("homeassistant" in data ==> ParseHomeAssistant(data["homeassistant"]).Ok?) &&
      ("dsmr" in data ==> ParseDsmr(data["dsmr"]).Ok?) &&
      ("logging" in data ==> ParseLogging(data["logging"]).Ok?) &&
      ("servers" in data ==> ParseServers(data["servers"]).Ok?)
    ensures r.Ok? ==> r.value.shelly == (if "shelly" in data then ParseShelly(data["shelly"]).value else DefaultShelly)
    ensures r.Ok? ==> r.value.servers == (if "servers" in data then ParseServers(data["servers"]).value else DefaultServers)
    ensures r.Ok? ==> r.value.homeassistant == (if "homeassistant" in data then ParseHomeAssistant(data["homeassistant"]).value else DefaultHomeAssistant)
    ensures r.Ok? ==> r.value.dsmr == (if "dsmr" in data then ParseDsmr(data["dsmr"]).value else DefaultDsmr)
    ensures r.Ok? ==> r.value.logging == (if "logging" in data then ParseLogging(data["logging"]).value else DefaultLogging)
  {
    var settings := DefaultSettings;
    if "shelly" in data {
      var s := ParseShelly(data["shelly"]);
      if s.Err? { return Err(s.error); }
      settings := settings.(shelly := s.value);
    }
    if "servers" in data {
      var s := ParseServers(data["servers"]);
      if s.Err? { return Err(s.error); }
      settings := settings.(servers := s.value);
    }
    if "homeassistant" in data {
      var h := ParseHomeAssistant(data["homeassistant"]);
      if h.Err? { return Err(h.error); }
      settings := settings.(homeassistant := h.value);
    }
    if "dsmr" in data {
      var d := ParseDsmr(data["dsmr"]);
      if d.Err? { return Err(d.error); }
      settings := settings.(dsmr := d.value);
    }
    if "logging" in data {
      var l := ParseLogging(data["logging"]);
      if l.Err? { return Err(l.error); }
      settings := settings.(logging := l.value);
    }
    return Ok(settings);
  }

  /** A UDP section that names no ports listens on 1010 and 2220 only, where the dataclass default adds 22222. */
  lemma UdpPortsQuirk(m: map<string, Json>)
    requires "ports" !in m
    ensures ParseUdp(JObj(m)) == Ok(UdpSettings(Get(m, "enabled", JBool(true)), Get(m, "host", JStr("0.0.0.0")), JArr([JInt(1010), JInt(2220)])))
    ensures ParseUdp(JObj(m)).value.ports != DefaultUdp.ports
  {
    assert JArr([JInt(1010), JInt(2220)]).items != DefaultUdp.ports.items;
  }

  /** An empty section reproduces every default of that section, except the UDP ports. */
  lemma EmptySectionsKeepDefaults()
    ensures ParseShelly(JObj(map[])) == Ok(DefaultShelly)
    ensures ParseModbus(JObj(map[])) == Ok(DefaultModbus)
    ensures ParseHttp(JObj(map[])) == Ok(DefaultHttp)
    ensures ParseMdns(JObj(map[])) == Ok(DefaultMdns)
    ensures ParseHomeAssistant(JObj(map[])) == Ok(DefaultHomeAssistant)
    ensures ParseDsmr(JObj(map[])) == Ok(DefaultDsmr)
    ensures ParseLogging(JObj(map[])) == Ok(DefaultLogging)
  {
  }
}
