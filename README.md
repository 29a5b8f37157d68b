# Shelly Pro 3EM emulator — a verified model

The emulator presents a Home Assistant DSMR smart meter as a Shelly Pro 3EM
energy meter. A data manager polls Home Assistant entities (found by
configuration or by pattern-based auto-discovery), keeps one meter snapshot,
and three fronts present it:

- a Modbus TCP register map (function codes 3 and 4, sections 6.3 and 6.4 of
  the MODBUS Application Protocol Specification V1.1b3, with the big-endian
  word order of its section 4.2);
- a UDP JSON-RPC responder that storage batteries poll;
- the Shelly Gen2 HTTP and WebSocket RPC API, with the error codes of
  section 5.1 of the JSON-RPC 2.0 Specification.

A separate validation tool reads the registers back and turns the readings
into a pass/fail exit code.

The Dafny project models these parts, one module per source file:

| module | file | models |
|---|---|---|
| `Common` | common.dfy | Python values and helpers: `Result`/`Option`, a JSON value type, `dict.get`, `==`, `in`, truthiness, ASCII case mapping, `rstrip`, `int()` truncation, decimal `round` |
| `Settings` | settings.dfy | the `DSMRConfig` entity resolution (a class) and `_parse_config` defaulting |
| `HomeAssistant` | homeassistant.dfy | URL normalisation, unit conversion, the client's connected / last-error state machine |
| `DsmrDiscovery` | dsmr_discovery.dfy | the pattern table, first-match selection, the sensor filter and `discover` |
| `DataManager` | data_manager.dfy | snapshot arithmetic, staleness, `build_em_status`, and one refresh cycle as a class method against a pure specification |
| `ShellyDevice` | shelly_device.dfy | MAC normalisation, device-id derivation, `bytes.fromhex`, the colon form, the device-info record |
| `RegisterMap` | register_map.dfy | the sparse register table, the getters, word packing and the read loop |
| `ModbusServer` | modbus_server.dfy | `validate`, `getValues`, `setValues` |
| `UdpServer` | udp_server.dfy | request filtering and dispatch, the four responses, the decimal enforcer |
| `HttpServer` | http_server.dfy | RPC dispatch, `Shelly.GetComponents`, status documents, the status-change comparison, notifications, WebSocket client pruning |
| `ValidateEmulator` | validate_emulator.dfy | the register decoders, the per-register verdicts, the tally and the exit code |

Things the model receives as parameters instead of computing them:

- the clock, as `now`;
- the upstream HTTP answers, as `upstream: string -> Response`;
- `float(str)`, as `parseFloat`;
- the IEEE-754 bit pattern, as `floatBits` / `floatOf`;
- the outcome of a WebSocket send, as `delivered`;
- the Modbus reads of the validation tool, as `read`;
- the local time text, as `clock`.

## Model

| member | source | states |
|---|---|---|
| Settings.Lookup | src/config/settings.py:144-149 | a missing mapping key reads as "", a present key yields its entity id |
| Settings.DsmrConfig.constructor | src/config/settings.py:100-116 | manual mappings as given, nothing discovered yet |
| Settings.DsmrConfig.SetDiscoveredEntities | src/config/settings.py:118-136 | sets exactly the four discovered fields; with auto-discovery on, a non-empty three-phase result becomes the active mapping, the totals are the discovered ones, and a discovered three-phase result decides three-phase mode; otherwise the manual mapping decides it |
| Settings.DsmrConfig.CheckAnyEntity | src/config/settings.py:185-196 | the early-return scan answers true iff a discovered mapping is non-empty, the manual single phase has a power entity, or a manual phase has one |
| Settings.IsThreePhaseRule | src/config/settings.py:166-171 | the discovered flag decides when auto-discovery is on and a three-phase value was discovered; otherwise a non-empty manual three-phase mapping decides |
| Settings.IsThreePhaseMatchesMapping | src/config/settings.py:166-177 | unless discovery reported a three-phase result under auto-discovery, three-phase mode holds iff the mapping the phase getter consults is non-empty |
| Settings.DsmrConfig.IsThreePhase | src/config/settings.py:166-171 | `is_three_phase`; its contract is carried by IsThreePhaseRule, IsThreePhaseMatchesMapping and SetDiscoveredEntities |
| Settings.DsmrConfig.HasAnyEntity | src/config/settings.py:185-195 | `has_any_entity`; CheckAnyEntity is proved equal to it |
| Settings.MappingPrecedence | src/config/settings.py:138-183 | without auto-discovery the manual mappings and totals are used; discovered totals win when set; an empty discovered mapping never overrides; a phase entry reads "" for missing keys and is all-empty when absent; the single-phase power is the active "power" or "" |
| Settings.DsmrConfig.ActiveThreePhase | src/config/settings.py:173-177 | the three-phase mapping in use; its contract is carried by MappingPrecedence |
| Settings.DsmrConfig.ActiveSinglePhase | src/config/settings.py:179-183 | the single-phase mapping in use; its contract is carried by MappingPrecedence |
| Settings.DsmrConfig.GetPhaseConfig | src/config/settings.py:138-151 | `get_phase_config`; its contract is carried by MappingPrecedence and ThreePhaseWithoutEntities |
| Settings.DsmrConfig.GetSinglePhasePower | src/config/settings.py:153-158 | `get_single_phase_power`; its contract is carried by MappingPrecedence |
| Settings.DsmrConfig.GetTotals | src/config/settings.py:160-164 | `get_totals`; its contract is carried by MappingPrecedence and SetDiscoveredEntities |
| Settings.ThreePhaseWithoutEntities | src/config/settings.py:138-177 | a discovery flagged three-phase with an empty mapping gives three-phase mode and all-empty phase entries |
| Settings.AsDict | src/config/settings.py:268-302 | `.get` works on an object section and raises AttributeError on anything else |
| Settings.SubSection | src/config/settings.py:268-302 | a sub-section is read from an object section, and only then |
| Settings.ServersDictDefaults | src/config/settings.py:268-302 | a servers object parses iff every present server entry is an object, and absent servers keep their defaults |
| Settings.ServersNonDict | src/config/settings.py:268-302 | a servers value that is not an object, when it parses, yields the default servers |
| Settings.ParseConfig | src/config/settings.py:254-350 | an absent section keeps its default; a present one is parsed; the result is an error iff a present section fails to parse |
| Settings.UdpPortsQuirk | src/config/settings.py:280-286 | a UDP section without ports gets [1010, 2220], which differs from the dataclass default at line 36 |
| Settings.EmptySectionsKeepDefaults | src/config/settings.py:254-350 | every empty section parses to its defaults |
| Settings.ParseShelly | src/config/settings.py:259-265 | the shelly section parses iff it is an object, else AttributeError |
| Settings.ParseModbus | src/config/settings.py:271-278 | the modbus section parses iff it is an object, else AttributeError |
| Settings.ParseUdp | src/config/settings.py:280-286 | the udp section parses iff it is an object, else AttributeError |
| Settings.ParseHttp | src/config/settings.py:288-294 | the http section parses iff it is an object, else AttributeError |
| Settings.ParseMdns | src/config/settings.py:296-301 | the mdns section parses iff it is an object, else AttributeError |
| Settings.ParseHomeAssistant | src/config/settings.py:304-313 | the homeassistant section parses iff it is an object, else AttributeError |
| Settings.ParseTotals | src/config/settings.py:318-339 | the totals section parses iff it is an object, else AttributeError |
| Settings.ParseDsmr | src/config/settings.py:316-340 | the dsmr section parses iff it is an object whose totals entry, if any, is an object; without totals the totals are all "" |
| Settings.ParseLogging | src/config/settings.py:343-348 | the logging section parses iff it is an object, else AttributeError |
| Settings.ParseServers | src/config/settings.py:268-302 | the servers section looked up in the order modbus, udp, http, mdns; its contract is carried by ServersDictDefaults and ServersNonDict |
| HomeAssistant.FloatOf | src/data_sources/homeassistant.py:103 | `float()` of a state: numbers convert, strings per the parse function or ValueError, containers and None TypeError |
| HomeAssistant.Factor | src/data_sources/homeassistant.py:14-19 | a listed unit yields its factor, other strings and None no factor, a list or object unit raises |
| HomeAssistant.EmptyEntityId | src/data_sources/homeassistant.py:85-86 | an empty entity id yields None (or an empty entity value) and leaves the client state as it was |
| HomeAssistant.UnavailableChangesNothing | src/data_sources/homeassistant.py:94-98 | an "unavailable", "unknown" or missing state yields None and leaves the client state unchanged |
| HomeAssistant.ConnectedRule | src/data_sources/homeassistant.py:73-144 | `connected` becomes true on any available state, false on a request error, and is kept on an HTTP status error; the last error is cleared on success and set to the matching kind on failure |
| HomeAssistant.ValueIsConverted | src/data_sources/homeassistant.py:93-118 | a returned value came from a successful object answer with an available state, and equals the raw value times the unit factor when converting |
| HomeAssistant.EntityWithUnitKeepsError | src/data_sources/homeassistant.py:146-186 | `get_entity_with_unit` never raises: a parse failure yields an empty value and records the error |
| HomeAssistant.ReadersAgree | src/data_sources/homeassistant.py:106-180 | when `get_entity_with_unit` finds a value, `get_value` with conversion returns its converted value |
| HomeAssistant.NormalizeUrlShape | src/data_sources/homeassistant.py:52-55 | the base URL has no trailing '/'; with https a stripped "http://" URL becomes "https://" followed by the rest unchanged, and any other URL is only stripped; without https the URL is only stripped |
| HomeAssistant.NormalizeUrlIdempotent | src/data_sources/homeassistant.py:52-55 | normalising twice equals normalising once |
| HomeAssistant.NormalizeUrl | src/data_sources/homeassistant.py:52-55 | the URL normalisation; its contract is carried by NormalizeUrlShape and NormalizeUrlIdempotent |
| HomeAssistant.GetValueStep | src/data_sources/homeassistant.py:73-144 | `get_value` on an upstream answer; its contract is carried by EmptyEntityId, UnavailableChangesNothing, ConnectedRule and ValueIsConverted |
| HomeAssistant.EntityWithUnitStep | src/data_sources/homeassistant.py:146-186 | `get_entity_with_unit` on an upstream answer; its contract is carried by EmptyEntityId, UnavailableChangesNothing, EntityWithUnitKeepsError and ReadersAgree |
| HomeAssistant.HomeAssistantClient.constructor | src/data_sources/homeassistant.py:35-71 | the base URL is the normalised URL; the client starts disconnected with no error |
| HomeAssistant.HomeAssistantClient.GetValue | src/data_sources/homeassistant.py:73-144 | result and new client state are those of the response-handling specification on the upstream answer |
| HomeAssistant.HomeAssistantClient.GetEntityWithUnit | src/data_sources/homeassistant.py:146-186 | result and new client state are those of the specification for `get_entity_with_unit` |
| DsmrDiscovery.FirstMatchIn | src/data_sources/dsmr_discovery.py:396-399 | the selected id is in the list and matches, no earlier id matches, and nothing is selected iff no id matches |
| DsmrDiscovery.CategoryMatchSpec | src/data_sources/dsmr_discovery.py:393-401 | a category selects the first matching id of its earliest pattern that matches any id, and nothing iff no pattern matches any id |
| DsmrDiscovery.MatchEntities | src/data_sources/dsmr_discovery.py:382-403 | the nested loops with breaks build exactly the first-match map of the specification |
| DsmrDiscovery.MatchSpecKeys | src/data_sources/dsmr_discovery.py:393-401 | only category names of the table appear as keys |
| DsmrDiscovery.MatchSpecAt | src/data_sources/dsmr_discovery.py:393-401 | a category is present iff its patterns select an id, and maps to that id |
| DsmrDiscovery.SelectedIsFirstMatch | src/data_sources/dsmr_discovery.py:393-401 | a selected id is in the input and is matched by one of its category's patterns, with no earlier pattern matching any id |
| DsmrDiscovery.AbsentIffNoMatch | src/data_sources/dsmr_discovery.py:393-401 | a category is absent iff none of its patterns matches any id |
| DsmrDiscovery.PatternNamesDistinct | src/data_sources/dsmr_discovery.py:37-210 | the twenty categories of the pattern table have distinct names |
| DsmrDiscovery.HasPowerDataIgnoresReturned | src/data_sources/dsmr_discovery.py:254-261 | returned-power entities never decide whether power data was found; the empty result has none |
| DsmrDiscovery.SensorFilterMembers | src/data_sources/dsmr_discovery.py:312-316 | the ids SensorFilter keeps all start with "sensor." and are, as a set, the sensor ids of the states list; it raises exactly when some state is not an object or has a non-string id; order and duplicates are pinned down by SensorFilterSingle and SensorFilterConcat |
| DsmrDiscovery.SensorFilterSingle | src/data_sources/dsmr_discovery.py:312-316 | one state contributes AttributeError (not an object, or a non-string id), its id when that starts with "sensor.", or nothing |
| DsmrDiscovery.SensorFilterConcat | src/data_sources/dsmr_discovery.py:312-316 | the ids of two state lists in a row are the ids of the first followed by those of the second, so the list comprehension keeps the states' order and one id per sensor state |
| DsmrDiscovery.SensorIds | src/data_sources/dsmr_discovery.py:308-316 | the sensor list of the `/api/states` body: a list goes through SensorFilter; an empty dict or string yields no ids; a non-empty one raises AttributeError, anything else TypeError |
| DsmrDiscovery.MatchSpec | src/data_sources/dsmr_discovery.py:382-403 | the first-match map as a specification; its contract is carried by MatchSpecKeys, MatchSpecAt, SelectedIsFirstMatch and AbsentIffNoMatch, and MatchEntities is proved equal to it |
| DsmrDiscovery.HasPowerData | src/data_sources/dsmr_discovery.py:254-261 | `has_power_data`; its contract is carried by HasPowerDataIgnoresReturned |
| DsmrDiscovery.Discover | src/data_sources/dsmr_discovery.py:297-380 | any failure yields the empty result; otherwise every field is its category's selection or "", and `is_three_phase` holds iff some phase has a power or returned-power entity |
| DsmrDiscovery.PowerTotalIsMatchedSensor | src/data_sources/dsmr_discovery.py:328 | the total power field is "" or a listed sensor id matched by one of its category's patterns |
| DataManager.TotalsAreSums | src/emulator/data_manager.py:73-94 | the total is the signed sum of power minus returned power over the phases (1000 + 800 + (600 − 200) = 2200) |
| DataManager.ActivePower | src/emulator/data_manager.py:31-34 | `power − power_returned`; its contract is carried by TotalsAreSums and NegativePowerSplit |
| DataManager.TotalPower | src/emulator/data_manager.py:73-81 | the three-phase total; its contract is carried by TotalsAreSums |
| DataManager.CalculateDerivedKeeps | src/emulator/data_manager.py:36-46 | a non-zero apparent power is never overwritten and the measured fields are untouched |
| DataManager.CalculateDerivedApparent | src/emulator/data_manager.py:36-44 | a zero apparent power with positive voltage becomes V·\|I\|, negative exactly when the active power is |
| DataManager.PowerFactorBounds | src/emulator/data_manager.py:45-46 | with a non-zero apparent power the power factor is min(1, \|P\|/\|S\|) and lies in [0, 1]; otherwise it is unchanged |
| DataManager.CalculateDerivedIdempotent | src/emulator/data_manager.py:36-46 | deriving twice equals deriving once |
| DataManager.CalculateDerived | src/emulator/data_manager.py:36-46 | `calculate_derived` on a phase value; its contract is carried by CalculateDerivedKeeps, CalculateDerivedApparent, PowerFactorBounds and CalculateDerivedIdempotent |
| DataManager.StaleRule | src/emulator/data_manager.py:68-71 | timestamp 0 is never stale, staleness persists as time advances, and a snapshot is fresh within 120 s of its timestamp |
| DataManager.IsStale | src/emulator/data_manager.py:68-71 | `is_stale`; its contract is carried by StaleRule and EmStatusFailSafe |
| DataManager.WithPhase | src/emulator/data_manager.py:460-518 | replacing one phase of a snapshot leaves the other phases and fields as they were |
| DataManager.EmStatusJson | src/emulator/data_manager.py:107-144 | the "errors" list is ["power_meter_failure"] exactly when the status reports a meter failure |
| DataManager.EmStatusFailSafe | src/emulator/data_manager.py:97-145 | the status reports a failure iff the snapshot is invalid or stale, and then every reading is 0; the id is echoed |
| DataManager.EmStatusNearExact | src/emulator/data_manager.py:97-145 | with live data every shown value of every phase (current to 3 digits, voltage, active and apparent power and frequency to 1, power factor to 2) and every total is within half a unit of its last digit of the exact value |
| DataManager.ShownPhaseNear | src/emulator/data_manager.py:116-136 | each of the six shown values of a live phase is within half a unit of its last digit of the phase's value |
| DataManager.BuildEmStatus | src/emulator/data_manager.py:97-145 | `build_em_status`; its contract is carried by EmStatusFailSafe, EmStatusNearExact and EmStatusJson |
| DataManager.ReadPower | src/emulator/data_manager.py:494-500 | a reading is marked changed only when it has a value |
| DataManager.ReadPowerChange | src/emulator/data_manager.py:494-500 | a power reading counts as changed iff it has a value and its `last_updated` differs from the stored one; that stamp is then stored, else the stamps are kept |
| DataManager.UnconfiguredPhaseDefaults | src/emulator/data_manager.py:477-518 | a phase with no entities keeps the defaults (230 V, 0 A), reports no change and polls nothing |
| DataManager.NegativePowerSplit | src/emulator/data_manager.py:501-516 | a negative power is stored as returned power of the same magnitude with power 0, and the returned-power entity is not polled |
| DataManager.FetchPhasesSpec | src/emulator/data_manager.py:376-387 | a completed pass over the phases yields one reading per configured phase |
| DataManager.RaisedSticks | src/emulator/data_manager.py:376-387 | once a phase raises, the later phases do not change the outcome |
| DataManager.SkipPath | src/emulator/data_manager.py:409-415 | the cycle takes the skip path iff nothing changed, the cache is valid and a power entity is configured |
| DataManager.ReplacedSnapshot | src/emulator/data_manager.py:441-449 | a replacing cycle installs a snapshot stamped `now`, valid iff the client is connected, with every phase already derived |
| DataManager.TariffFallback | src/emulator/data_manager.py:431-439 | a total of 0 becomes tariff 1 plus tariff 2 (a missing tariff counting as 0); a non-zero total is kept without reading the tariffs |
| DataManager.FetchPhaseSpec | src/emulator/data_manager.py:460-518 | `_fetch_phase_data` as a specification; its contract is carried by ReadPowerChange, UnconfiguredPhaseDefaults and NegativePowerSplit, and FetchPhaseData is proved equal to it |
| DataManager.TotalsSpec | src/emulator/data_manager.py:417-439 | the energy totals as a specification; its contract is carried by TariffFallback, and ReadTotals is proved equal to it |
| DataManager.FetchSpec | src/emulator/data_manager.py:363-449 | one refresh cycle as a specification; its contract is carried by SkipPath and ReplacedSnapshot, and FetchData is proved equal to it |
| DataManager.DataManager.constructor | src/emulator/data_manager.py:150-172 | the default snapshot and no stored stamps |
| DataManager.DataManager.CurrentMode | src/emulator/data_manager.py:376-389 | three-phase mode carries one entity configuration per phase |
| DataManager.DataManager.GetData | src/emulator/data_manager.py:321-333 | returns the current snapshot |
| DataManager.DataManager.Value | src/data_sources/homeassistant.py:73-144 | one `get_value` through the client, advancing the cycle's client state |
| DataManager.DataManager.Power | src/emulator/data_manager.py:494-500 | one power reading with change detection, as the specification says |
| DataManager.DataManager.FetchPhaseData | src/emulator/data_manager.py:460-518 | the phase reading and the new stamps and client state are those of the phase specification |
| DataManager.DataManager.ReadPhases | src/emulator/data_manager.py:376-387 | the loop over the phases computes the specification of the phase pass |
| DataManager.DataManager.ReadPowerPart | src/emulator/data_manager.py:376-402 | the power part of the cycle in three-phase or single-phase mode, as specified |
| DataManager.DataManager.ReadTariffs | src/emulator/data_manager.py:431-439 | the tariff fallback, as specified |
| DataManager.DataManager.ReadTotals | src/emulator/data_manager.py:417-439 | the energy totals with their fallbacks, as specified |
| DataManager.DataManager.FetchData | src/emulator/data_manager.py:363-449 | one cycle either only moves the cached timestamp, or installs the fresh snapshot, or raises and leaves the cache; stamps and client state follow the specification |
| DataManager.DataManager.PollStep | src/emulator/data_manager.py:352-359 | a failed cycle marks the cache invalid only when it is stale |
| DataManager.DataManager.ApplyDiscovery | src/emulator/data_manager.py:209-272 | without power data nothing changes; otherwise the three-phase or single-phase mapping and the totals are handed over, the manual settings are kept, and discovery is no longer needed |
| DataManager.DeriveAll | src/emulator/data_manager.py:441-443 | the loop derives each of the three phases and nothing else |
| ShellyDevice.PySuffix | src/emulator/shelly_device.py:31 | `s[-n:]` has min(\|s\|, n) characters |
| ShellyDevice.UpperSpec | src/emulator/shelly_device.py:24 | upper-casing leaves no lower-case letter and adds no ':' or '-' |
| ShellyDevice.NormalizeMacSpec | src/emulator/shelly_device.py:21-27 | normalisation succeeds iff 12 characters remain after removing ':' and '-', else ValueError; the result has no separators or lower-case letters |
| ShellyDevice.NormalizeMacIdempotent | src/emulator/shelly_device.py:24-27 | an already-normalised MAC is left unchanged |
| ShellyDevice.NormalizeMac | src/emulator/shelly_device.py:21-27 | the MAC normalisation; its contract is carried by NormalizeMacSpec and NormalizeMacIdempotent |
| ShellyDevice.DeriveDeviceId | src/emulator/shelly_device.py:29-31 | the device-id derivation; its contract is carried by DeviceIdRule |
| ShellyDevice.DeviceIdRule | src/emulator/shelly_device.py:29-31 | an empty or placeholder id becomes "shellypro3em-" plus the last six MAC characters in lower case; other ids are kept |
| ShellyDevice.HexValue | src/emulator/shelly_device.py:38 | a hex digit's value is below 16 |
| ShellyDevice.FromHexPairs | src/emulator/shelly_device.py:35-38 | an even run of hex digits decodes to one byte per pair, high nibble first |
| ShellyDevice.HexDigit | src/emulator/shelly_device.py:38 | the digit of a nibble is a hex digit with that value |
| ShellyDevice.ToHexUpper | src/emulator/shelly_device.py:38 | re-encoding gives two digits per byte |
| ShellyDevice.HexRoundTrip | src/emulator/shelly_device.py:35-38 | decoding an upper-case hex string and re-encoding it gives it back |
| ShellyDevice.FromHex | src/emulator/shelly_device.py:35-38 | `bytes.fromhex`; its contract is carried by FromHexPairs, HexRoundTrip, HexMacDecodes and NonHexMacAccepted |
| ShellyDevice.MacFormattedSpec | src/emulator/shelly_device.py:40-43 | the colon form has 17 characters, a colon after each pair and the MAC digits in order; removing the colons gives the MAC back |
| ShellyDevice.MacFormatted | src/emulator/shelly_device.py:40-43 | the colon form; its contract is carried by MacFormattedSpec |
| ShellyDevice.ShellyDevice.constructor | src/emulator/shelly_device.py:7-19 | the fields as given and the model and firmware defaults |
| ShellyDevice.ShellyDevice.PostInit | src/emulator/shelly_device.py:21-33 | a bad length raises ValueError and assigns nothing; otherwise the MAC is normalised, the id derived and the start time recorded |
| ShellyDevice.InfoDocumentFields | src/emulator/shelly_device.py:45-57 | the device-info record echoes id, MAC, model and versions, with generation 2, app "Pro3EM" and no authentication |
| ShellyDevice.Create | src/emulator/shelly_device.py:7-33 | construction fails with ValueError exactly when normalisation does; otherwise the device has the normalised MAC and the derived id |
| ShellyDevice.NonHexMacAccepted | src/emulator/shelly_device.py:25-27 | the length check accepts "GG0000000000", whose `mac_bytes` then raises ValueError |
| ShellyDevice.HexMacDecodes | src/emulator/shelly_device.py:35-38 | a normalised MAC of hex digits decodes to six bytes, pair by pair |
| RegisterMap.Uint32Words | src/emulator/register_map.py:458-470 | two words |
| RegisterMap.Uint32WordsExact | src/emulator/register_map.py:458-470 | for 0 ≤ v < 2^32 the high word is v / 65536, the low word v mod 65536, and w0·65536 + w1 = v |
| RegisterMap.Uint32WordsWrap | src/emulator/register_map.py:458-470 | the words depend only on v mod 2^32 |
| RegisterMap.FloatWords | src/emulator/register_map.py:441-456 | two words holding the 32-bit pattern, high word first |
| RegisterMap.PackBytes | src/emulator/register_map.py:117-140 | word i packs byte 2i high and byte 2i+1 low |
| RegisterMap.PadBytes | src/emulator/register_map.py:117-140 | truncation to n bytes, padded with zero bytes |
| RegisterMap.Utf8 | src/emulator/register_map.py:119 | UTF-8 never has fewer bytes than characters |
| RegisterMap.Utf8Char | src/emulator/register_map.py:119 | one to four bytes per character; ASCII is one byte with its code |
| RegisterMap.StringWords | src/emulator/register_map.py:117-140 | a string register is exactly `words` words |
| RegisterMap.GetterWords | src/emulator/register_map.py:96-439 | every getter returns exactly its register's size; only the MAC getter can fail |
| RegisterMap.TableLookup | src/emulator/register_map.py:96-439 | the table holds exactly the addresses with a definition |
| RegisterMap.DefAtShape | src/emulator/register_map.py:96-439 | each definition carries its own address and a getter of its size |
| RegisterMap.TableDisjoint | src/emulator/register_map.py:96-439 | register intervals [a, a + size) never contain another register's start |
| RegisterMap.TableGettersFit | src/emulator/register_map.py:96-439 | each table entry sits at its key and its getter returns exactly `size` words |
| RegisterMap.Walk | src/emulator/register_map.py:79-92 | a successful walk returns at least the words asked for |
| RegisterMap.Read | src/emulator/register_map.py:66-94 | a successful read returns exactly `count` words (none for a negative count) |
| RegisterMap.WalkSucceeds | src/emulator/register_map.py:79-92 | the walk cannot fail while every getter it reaches succeeds |
| RegisterMap.ReadIsTotal | src/emulator/register_map.py:66-94 | on the built table any read with a decodable MAC succeeds with exactly `count` words |
| RegisterMap.UndefinedAddressReadsZero | src/emulator/register_map.py:89-92 | an address that is not a register start, including mid-register addresses, reads one 0 |
| RegisterMap.GapsReadZero | src/emulator/register_map.py:89-92 | addresses 29000, 31001 and 31168 read 0 |
| RegisterMap.AlignedReadAt | src/emulator/register_map.py:79-94 | a read of exactly one register at its start yields its getter's words |
| RegisterMap.AlignedRead | src/emulator/register_map.py:79-94 | on the built table a read of one register at its start yields its getter's words |
| RegisterMap.ReadDef | src/emulator/register_map.py:79-94 | reading a defined register at its start yields its getter's words |
| RegisterMap.MacRegisters | src/emulator/register_map.py:100-106 | MAC word i is byte 2i times 256 plus byte 2i+1; AA:BB:CC:DD:EE:FF reads 0xAABB, 0xCCDD, 0xEEFF |
| RegisterMap.StringRegisters | src/emulator/register_map.py:117-140 | the model and name registers hold the UTF-8 bytes cut to 20 / 32, zero-padded, packed high byte first |
| RegisterMap.PhaseFloatDef | src/emulator/register_map.py:237-336 | the phase float registers show voltage, current, active power, apparent power, power factor and frequency at offsets 0-13 |
| RegisterMap.PhaseFloatRead | src/emulator/register_map.py:237-336 | a phase float register reads the float words of its quantity |
| RegisterMap.EnergyRead | src/emulator/register_map.py:385-439 | a phase energy register reads the float words of its quantity |
| RegisterMap.TimestampRead | src/emulator/register_map.py:146-148 | both timestamp registers read the snapshot's timestamp, or the clock when none is installed, truncated |
| RegisterMap.RegistersWithoutSnapshot | src/emulator/register_map.py:245-336 | with no snapshot the phase registers read the defaults (230 V, pf 1, 50 Hz, 0 otherwise) |
| RegisterMap.RegistersWithSnapshot | src/emulator/register_map.py:245-336 | with a snapshot the phase registers read the phase's values |
| RegisterMap.EnergyRegisters | src/emulator/register_map.py:393-414 | energy registers read 0 without a snapshot and the phase energies with one |
| RegisterMap.TotalsRead | src/emulator/register_map.py:174-377 | the totals registers read total current, power and apparent power, the energy totals (0 without a snapshot), and the neutral current 0 |
| RegisterMap.FlagsReadZero | src/emulator/register_map.py:158-191 | every error-flag register reads 0 |
| RegisterMap.PerpetualCounters | src/emulator/register_map.py:424-439 | the perpetual counters at base+12 and base+14 read the same words as base+0 and base+4 |
| RegisterMap.RegisterMap.constructor | src/emulator/register_map.py:43-56 | no snapshot, and the registers are the whole table |
| RegisterMap.RegisterMap.BuildDeviceInfoRegisters | src/emulator/register_map.py:96-140 | adds the device-info definitions |
| RegisterMap.RegisterMap.BuildEmRegisters | src/emulator/register_map.py:142-235 | adds the EM definitions |
| RegisterMap.RegisterMap.BuildEmDataRegisters | src/emulator/register_map.py:338-383 | adds the EMData definitions |
| RegisterMap.RegisterMap.SetData | src/emulator/register_map.py:58-64 | installs the snapshot and keeps the table |
| RegisterMap.RegisterMap.ReadRegisters | src/emulator/register_map.py:66-94 | the while loop computes the read specification and returns exactly `count` words |
| RegisterMap.ConstructedTable | src/emulator/register_map.py:52-56 | the three builders together produce exactly the table |
| ModbusServer.ValidateIgnoresCount | src/servers/modbus_server.py:87-110 | the count never changes the verdict; write codes 5, 6 and 16 are refused |
| ModbusServer.WindowsDisjoint | src/servers/modbus_server.py:103-108 | the three accepted windows do not overlap |
| ModbusServer.ValidateWindows | src/servers/modbus_server.py:87-110 | an address is accepted with code 3 or 4 iff it lies in one of the windows |
| ModbusServer.Validate | src/servers/modbus_server.py:87-110 | `validate`; its contract is carried by ValidateWindows, ValidateIgnoresCount, WindowsDisjoint and RegisterWordsWithinWindows |
| ModbusServer.RegisterWordsWithinWindows | src/servers/modbus_server.py:87-110 | every word of every defined register lies in an accepted window |
| ModbusServer.Zeros | src/servers/modbus_server.py:77 | `[0] * count`: count zeros, none for a negative count |
| ModbusServer.AnswerLength | src/servers/modbus_server.py:44-77 | any request answers exactly `count` words; other codes answer zeros |
| ModbusServer.DeviceContext.constructor | src/servers/modbus_server.py:23-40 | keeps the register map and the data manager |
| ModbusServer.DeviceContext.GetValues | src/servers/modbus_server.py:44-77 | installs the current snapshot first, then answers a read code from the register map and other codes with zeros |
| ModbusServer.DeviceContext.SetValues | src/servers/modbus_server.py:79-85 | a write changes neither the table nor the snapshot |
| UdpServer.FormatPowerSmall | src/servers/udp_server.py:294-298 | below 0.1 in magnitude only the sign is kept, as ±0.001 |
| UdpServer.FormatPowerNeverWhole | src/servers/udp_server.py:282-308 | the result is never a whole number |
| UdpServer.FormatPowerSign | src/servers/udp_server.py:282-308 | the result is non-negative iff the reading is |
| UdpServer.FormatPowerNear | src/servers/udp_server.py:300-308 | the result is within 0.051 of the reading (0.101 below 0.1) |
| UdpServer.FormatPower | src/servers/udp_server.py:282-308 | `_format_power`; its contract is carried by FormatPowerSmall, FormatPowerNeverWhole, FormatPowerSign and FormatPowerNear |
| UdpServer.ReplyIffSupported | src/servers/udp_server.py:172-198 | a reply is sent iff `params.id` is an int and the method is one of the four supported |
| UdpServer.ProcessRequest | src/servers/udp_server.py:172-198 | `_process_request`; a non-object request or `params` raises AttributeError; its contract is carried by ReplyIffSupported and ReplyEnvelope |
| UdpServer.Reply | src/servers/udp_server.py:141-170 | `_handle_request` after decoding: an exception sends nothing; its contract is carried by ReplyIffSupported and ReplyEnvelope |
| UdpServer.ReplyEnvelope | src/servers/udp_server.py:181-279 | every reply echoes the request id (0 by default), with the device as source and "unknown" as destination |
| UdpServer.EmResultRawPowers | src/servers/udp_server.py:200-223 | the EM reply carries the enforced raw powers, also when the status reports a meter failure and every other reading is 0 |
| UdpServer.Em1AndCtTypes | src/servers/udp_server.py:225-279 | EM1 reports component 0 with the enforced total, which is never whole; the CT types are 120A and 50A |
| UdpServer.UdpServer.constructor | src/servers/udp_server.py:23-41 | keeps the device and the data manager |
| UdpServer.UdpServer.ContextAt | src/servers/udp_server.py:200-260 | what a request sees: the device's id and `get_device_info()`, and the data manager's snapshot; its contract is carried by DeviceInfoIsDevices |
| UdpServer.DeviceInfoIsDevices | src/servers/udp_server.py:200-262 | Shelly.GetDeviceInfo answers the device's own info record from the device's id; EM1 and EM answers are built from the data manager's snapshot |
| HttpServer.DeviceInfo | src/servers/http_server.py:73-78 | the device's info with its name and slot 0 added |
| HttpServer.EmDataFailSafe | src/servers/http_server.py:84-119 | the id is echoed; every energy is 0.0 when the snapshot is invalid or stale, and otherwise each of the eight energies is within 0.005 of its counter |
| HttpServer.BuildEmDataStatus | src/servers/http_server.py:84-119 | `_get_emdata_status`; its contract is carried by EmDataFailSafe |
| HttpServer.FilterKeys | src/servers/http_server.py:219-220 | the kept keys are exactly those in the filter, in order |
| HttpServer.SliceFrom | src/servers/http_server.py:234-235 | the listing starts at the offset |
| HttpServer.GetComponents | src/servers/http_server.py:189-243 | the loop that attaches status and config computes the component specification |
| HttpServer.ComponentsDefault | src/servers/http_server.py:189-243 | without parameters em:0 and emdata:0 are listed, total 2 |
| HttpServer.ComponentsDynamicOnly | src/servers/http_server.py:213-216 | `dynamic_only` lists nothing, total 0 |
| HttpServer.ComponentsShape | src/servers/http_server.py:201-243 | `total` counts the filtered keys, the offset is echoed, status is attached iff included, config iff included and em:0 |
| HttpServer.SelectedKeysStatic | src/servers/http_server.py:207-220 | only em:0 and emdata:0 can be listed |
| HttpServer.CompareEmptyIsChange | src/servers/http_server.py:250-251 | an empty side always counts as a change |
| HttpServer.CompareIgnoresClock | src/servers/http_server.py:245-267 | statuses that differ only in the sys clock fields compare equal |
| HttpServer.CompareSeesEmChange | src/servers/http_server.py:245-267 | a change outside "sys" counts as a change |
| HttpServer.CompareWithoutSys | src/servers/http_server.py:245-267 | without "sys" the comparison is plain inequality |
| HttpServer.CompareStatusDicts | src/servers/http_server.py:245-267 | `_compare_status_dicts`; its contract is carried by CompareEmptyIsChange, CompareIgnoresClock, CompareSeesEmChange and CompareWithoutSys |
| HttpServer.NotifyShape | src/servers/http_server.py:269-299 | NotifyFullStatus iff full, which alone adds sys and wifi; both carry em:0 and emdata:0, `dst` as given and the device as source |
| HttpServer.NotifyStatus | src/servers/http_server.py:269-299 | `_build_notify_status`; its contract is carried by NotifyShape |
| HttpServer.DispatchKnown | src/servers/http_server.py:514-562 | a method is dispatched iff it is one of the listed methods |
| HttpServer.HandleRpcOutcomes | src/servers/http_server.py:509-567 | a call raises ValueError iff the response model refuses the id; otherwise the response holds the coerced id and exactly one of result and error; unknown methods are −32601, handler failures −32000 |
| HttpServer.HandleRpc | src/servers/http_server.py:509-567 | `_handle_rpc`; its contract is carried by HandleRpcOutcomes, EmIdRule and EmGetStatusEchoesId |
| HttpServer.IdAccepted | src/servers/http_server.py:32-36 | whether the response model's `Optional[int]` id accepts a value; its contract is carried by RejectedIds, IntTextExamples and HandleRpcOutcomes |
| HttpServer.CoercedId | src/servers/http_server.py:32-36 | an accepted id becomes None or an int, None exactly for None |
| HttpServer.CoercedIdValue | src/servers/http_server.py:32-36 | an accepted bool, int or integral float keeps its numeric value |
| HttpServer.IntTextExamples | src/servers/http_server.py:32-36 | "12" and "-7" are integer texts of 12 and −7; "abc", "" and "-" are not |
| HttpServer.RejectedIds | src/servers/http_server.py:32-36 | 1.5, "abc", a list and an object are refused as response ids |
| HttpServer.EmIdRule | src/servers/http_server.py:514 | `em_id` is `params["id"]` when present, else 0, and 0 without params |
| HttpServer.EmGetStatusEchoesId | src/servers/http_server.py:538-539 | EM.GetStatus answers iff the id is accepted, and then with the shared EM status for the requested component id |
| HttpServer.WsReplyShape | src/servers/http_server.py:453-507 | invalid JSON is answered with −32700 and a null id; a non-object, or an id the response model refuses, ends the connection; otherwise the reply goes to the client's latest source with the raw request id and exactly one of result and error |
| HttpServer.WsReply | src/servers/http_server.py:453-507 | one message of the WebSocket loop; its contract is carried by WsReplyShape |
| HttpServer.PushAll | src/servers/http_server.py:308-329 | each client is sent its NotifyStatus; exactly the undelivered ones are collected |
| HttpServer.HttpServer.constructor | src/servers/http_server.py:50-71 | no WebSocket clients |
| HttpServer.HttpServer.Connect | src/servers/http_server.py:430-450 | a new client is registered as "user_1" and is sent the full status |
| HttpServer.HttpServer.Disconnect | src/servers/http_server.py:502-507 | the client leaves the map |
| HttpServer.HttpServer.SendStatusUpdate | src/servers/http_server.py:301-334 | every client is sent a NotifyStatus addressed to its source; exactly the failed clients are removed and the others keep their source |
| HttpServer.HttpServer.RemoveClients | src/servers/http_server.py:331-334 | exactly the listed clients leave the map; the others are kept |
| ValidateEmulator.RegistersToUint32 | tools/validate_emulator.py:207-209 | two or more words decode to w0·65536 + w1 below 2^32; fewer raise IndexError |
| ValidateEmulator.Uint32RoundTrip | tools/validate_emulator.py:207-209 | decoding the encoder's words gives v mod 2^32 |
| ValidateEmulator.TimestampDecodes | tools/validate_emulator.py:207-209 | both timestamp registers decode to the truncated timestamp mod 2^32 |
| ValidateEmulator.RegistersToFloat | tools/validate_emulator.py:201-204 | two or more words decode through the bit pattern; fewer raise |
| ValidateEmulator.FloatRoundTrip | tools/validate_emulator.py:201-204 | when the bit pattern is invertible, decoding the encoder's words gives the value back |
| ValidateEmulator.WordBytes | tools/validate_emulator.py:215-219 | a word yields its high byte, then its low byte |
| ValidateEmulator.Bytes | tools/validate_emulator.py:215-219 | two bytes per word |
| ValidateEmulator.Visible | tools/validate_emulator.py:215-221 | the zero bytes are skipped, so no NUL remains |
| ValidateEmulator.RegistersToString | tools/validate_emulator.py:212-222 | the loop over the words computes the decoding specification |
| ValidateEmulator.DecodedIsVisible | tools/validate_emulator.py:212-222 | the decoded text has no NUL, so the final rstrip changes nothing |
| ValidateEmulator.Decoded | tools/validate_emulator.py:212-222 | `registers_to_string` as a specification; its contract is carried by DecodedIsVisible, InnerZerosDropped, StringRoundTrip and ModelAndNameDecode, and RegistersToString is proved equal to it |
| ValidateEmulator.InnerZerosDropped | tools/validate_emulator.py:215-221 | inner zero bytes are dropped too: [0x4100, 0x0042] decodes to "AB" |
| ValidateEmulator.StringRoundTrip | tools/validate_emulator.py:212-222 | an ASCII string without NUL decodes back from its register words, cut to twice the word count |
| ValidateEmulator.ModelAndNameDecode | tools/validate_emulator.py:212-222 | the model and name registers decode to the ASCII model and name cut to 20 and 32 bytes |
| ValidateEmulator.FailIff | tools/validate_emulator.py:245-291 | a register fails iff the read returned nothing or its words could not be decoded |
| ValidateEmulator.SkipIff | tools/validate_emulator.py:245-291 | a register is skipped iff its type is unknown and the read succeeded |
| ValidateEmulator.FloatRange | tools/validate_emulator.py:256-263 | a float below the minimum (checked first) or above the maximum warns; otherwise it passes |
| ValidateEmulator.ValidateRegister | tools/validate_emulator.py:245-291 | `validate_register`; its contract is carried by FailIff, SkipIff and FloatRange |
| ValidateEmulator.CountIsMultiplicity | tools/validate_emulator.py:373-397 | each count is the number of verdicts of its kind, and the counts add up to the number of registers |
| ValidateEmulator.Outcomes | tools/validate_emulator.py:373-397 | one verdict per register, in order |
| ValidateEmulator.ValidateModbusRegisters | tools/validate_emulator.py:373-397 | the loop's tally equals the multiset count of the verdicts and covers every register |
| ValidateEmulator.ExitCodeRule | tools/validate_emulator.py:441-495 | the exit code is 1 iff some Modbus register, the connection or a UDP check failed in a part that was run |
| ValidateEmulator.WarningsDoNotFail | tools/validate_emulator.py:487-495 | warnings never change the exit code |
| ValidateEmulator.RunTotals | tools/validate_emulator.py:441-485 | the totals `main` reports; its contract is carried by ExitCodeRule |
| ValidateEmulator.ExitCode | tools/validate_emulator.py:487-495 | `main`'s return value; its contract is carried by ExitCodeRule and WarningsDoNotFail |

## Left out

- Threads, locks, timers and sleeps: `DataManager.start` and `stop`, the discovery retry timer of the poll loop, the UDP listen threads, and the Modbus and HTTP server threads. One poll step is modelled (`PollStep`) with one `now` per cycle; the source reads the clock up to three times per cycle.
- Transports: sockets, the pymodbus TCP server, uvicorn and FastAPI, and the asyncio push task. The REST shortcut routes call the builders that are modelled. The GET form of Shelly.ListMethods lists eight methods and is not modelled. The WebSocket receive loop is modelled one message at a time (`WsReply`).
- IEEE-754 binary32: `struct.pack(">f")` and `struct.unpack(">f")` are the parameters `floatBits` and `floatOf`; only the word split is specified. The overflow of `struct.pack` on very large values and NaN readings are therefore not modelled.
- Python's binary `round`: `RoundDigits` rounds the exact decimal value half to even. The lemmas use only its nearness bound.
- `float(str)` is the partial parameter `parseFloat`. UTF-8 encoding is modelled per character; `str.upper`/`lower` are modelled for ASCII only.
- `time.strftime` and `time.time` are the parameters `clock` and `now`; `get_uptime` is the truncated difference from the recorded start time.
- The regex engine: `RegexMatch` interprets only the constructs the pattern table uses (literals, `.`, `\.`, `.*`, anchoring with `$`), case-insensitively for ASCII.
- `load_config`, YAML reading and environment overrides; pydantic request validation; logging; the text of error and log messages (the HomeAssistant client records the error kind only; the validator records the branch taken, not its message).
- JSON key order and `json.dumps` formatting.
- src/servers/mdns_server.py, src/main.py, src/health.py and src/config/logger.py are not part of this model.
- HomeAssistant client `test_connection` and `close`; `_log_discovery_results` and the discovery client's `close`; `discover_dsmr_entities`.
- The validator's `print_result`, the `bytes` hex formatting, the unit and description fields, the UDP protocol checks (their tallies are an input of `RunTotals`), and the Modbus client's transaction framing (`read` is a pure parameter).
- `_last_pushed_status` of the HTTP server, which nothing reads.
- HttpServer.IdAccepted: the response model's lax integer check (pydantic 2) is modelled for None, ints, bools, floats without a fractional part and texts made of an optional sign and decimal digits; its other lax text forms (surrounding whitespace, underscores, a trailing ".0") are not modelled.
- DataManager.DataManager.Value: the upstream answers are a fixed function of the entity id within one cycle, so two reads of the same entity in one cycle see the same answer.
