/**
 * The Shelly Gen2 HTTP and WebSocket API of the emulator: JSON-RPC
 * dispatch with the error codes of section 5.1 of the JSON-RPC 2.0
 * Specification (-32601 method not found, -32700 parse error, -32000
 * from the server-error range), the component listing with its filters,
 * the status documents, the status-change comparison, the notifications
 * and the pruning of WebSocket clients whose push failed.
 */
module HttpServer {
  import opened Common
  import opened DataManager
  import ShellyDevice

  /**
   * Everything a handler reads: the device identity, its uptime, the bind
   * host, the local wall-clock text, the data manager's snapshot and the
   * time.
   */
  datatype View = View(
    deviceId: string,
    deviceName: string,
    mac: string,
    fwId: string,
    deviceInfo: map<string, Json>,
    uptime: int,
    host: string,
    clock: string,
    data: MeterData,
    now: real)

  // ---------------------------------------------------------------------
  // Status and configuration documents

  /** `_get_device_info`: the device's info with its name and slot 0 added. */
  function DeviceInfo(v: View): (r: map<string, Json>)
    ensures r.Keys == v.deviceInfo.Keys + {"name", "slot"}
    ensures r["name"] == JStr(v.deviceName) && r["slot"] == JInt(0)
    ensures forall k :: k in v.deviceInfo && k != "name" && k != "slot" ==> r[k] == v.deviceInfo[k]
  {
    v.deviceInfo["name" := JStr(v.deviceName)]["slot" := JInt(0)]
  }

  function EmStatusOf(v: View, emId: Json): Json {
    JObj(EmStatusJson(BuildEmStatus(v.data, emId, v.now)))
  }

  /** The EMData component status; `noData` hides every energy as 0.0. */
  datatype EmDataStatus = EmDataStatus(
    id: Json,
    aTotalActEnergy: real,
    aTotalActRetEnergy: real,
    bTotalActEnergy: real,
    bTotalActRetEnergy: real,
    cTotalActEnergy: real,
    cTotalActRetEnergy: real,
    totalAct: real,
    totalActRet: real)

  /** `_get_emdata_status`: energies rounded to two digits, or 0.0 when the snapshot is invalid or stale. */
  function BuildEmDataStatus(m: MeterData, emId: Json, now: real): EmDataStatus {
    var nd := NoData(m, now);
    EmDataStatus(emId,
      Shown(nd, m.phaseA.energyTotal, 2), Shown(nd, m.phaseA.energyReturnedTotal, 2),
      Shown(nd, m.phaseB.energyTotal, 2), Shown(nd, m.phaseB.energyReturnedTotal, 2),
      Shown(nd, m.phaseC.energyTotal, 2), Shown(nd, m.phaseC.energyReturnedTotal, 2),
      Shown(nd, m.totalEnergy, 2), Shown(nd, m.totalEnergyReturned, 2))
  }

  function EmDataStatusJson(s: EmDataStatus): map<string, Json> {
    map[
      "id" := s.id,
      "a_total_act_energy" := JNum(s.aTotalActEnergy), "a_total_act_ret_energy" := JNum(s.aTotalActRetEnergy),
      "b_total_act_energy" := JNum(s.bTotalActEnergy), "b_total_act_ret_energy" := JNum(s.bTotalActRetEnergy),
      "c_total_act_energy" := JNum(s.cTotalActEnergy), "c_total_act_ret_energy" := JNum(s.cTotalActRetEnergy),
      "total_act" := JNum(s.totalAct), "total_act_ret" := JNum(s.totalActRet)
    ]
  }

  function EmDataStatusOf(v: View, emId: Json): Json {
    JObj(EmDataStatusJson(BuildEmDataStatus(v.data, emId, v.now)))
  }

  /** A shown energy lies within 0.005 of the counter it rounds. */
  predicate EnergyNear(shown: real, exact: real) {
    -0.005 <= shown - exact <= 0.005
  }

  /** An invalid or stale snapshot reports every energy as 0.0; a live one shows every counter within 0.005. */
  lemma EmDataFailSafe(m: MeterData, emId: Json, now: real)
    ensures BuildEmDataStatus(m, emId, now).id == emId
    ensures NoData(m, now) ==> BuildEmDataStatus(m, emId, now) == EmDataStatus(emId, 0.0, 0.0, 0.0, 0.0, 0.0, 0.0, 0.0, 0.0)
    ensures !NoData(m, now) ==> var s := BuildEmDataStatus(m, emId, now);
      EnergyNear(s.aTotalActEnergy, m.phaseA.energyTotal) && EnergyNear(s.aTotalActRetEnergy, m.phaseA.energyReturnedTotal) &&
      EnergyNear(s.bTotalActEnergy, m.phaseB.energyTotal) && EnergyNear(s.bTotalActRetEnergy, m.phaseB.energyReturnedTotal) &&
      EnergyNear(s.cTotalActEnergy, m.phaseC.energyTotal) && EnergyNear(s.cTotalActRetEnergy, m.phaseC.energyReturnedTotal) &&
      EnergyNear(s.totalAct, m.totalEnergy) && EnergyNear(s.totalActRet, m.totalEnergyReturned)
  {
    RoundNear(m.phaseA.energyTotal, 2);
    RoundNear(m.phaseA.energyReturnedTotal, 2);
    RoundNear(m.phaseB.energyTotal, 2);
    RoundNear(m.phaseB.energyReturnedTotal, 2);
    RoundNear(m.phaseC.energyTotal, 2);
    RoundNear(m.phaseC.energyReturnedTotal, 2);
    RoundNear(m.totalEnergy, 2);
    RoundNear(m.totalEnergyReturned, 2);
  }

  /** `_get_sys_status`. */
  function SysStatus(v: View): Json {
    JObj(map[
      "mac" := JStr(v.mac), "restart_required" := JBool(false), "time" := JStr(v.clock),
      "unixtime" := JInt(Trunc(v.now)), "uptime" := JInt(v.uptime),
      "ram_size" := JInt(245388), "ram_free" := JInt(139388), "fs_size" := JInt(524288), "fs_free" := JInt(163840),
      "available_updates" := JObj(map[])
    ])
  }

  /** `_get_wifi_status`: the bind host, or a placeholder address when bound to every interface. */
  function WifiStatus(v: View): Json {
    JObj(map[
      "sta_ip" := JStr(if v.host != "0.0.0.0" then v.host else "192.168.1.100"),
      "status" := JStr("got ip"), "ssid" := JStr("WiFi"), "rssi" := JInt(-55)
    ])
  }

  function FullStatus(v: View): Json {
    JObj(map["sys" := SysStatus(v), "wifi" := WifiStatus(v), "em:0" := EmStatusOf(v, JInt(0)), "emdata:0" := EmDataStatusOf(v, JInt(0))])
  }

  function EmConfig(emId: Json): Json {
    JObj(map[
      "id" := emId, "name" := JNull, "blink_mode_selector" := JStr("active_energy"), "phase_selector" := JStr("all"),
      "monitor_phase_sequence" := JBool(false), "ct_type" := JStr("120A"), "reverse" := JObj(map[])
    ])
  }

  const CtTypes: Json := JObj(map["types" := JArr([JStr("120A"), JStr("50A")])])

  function FullConfig(v: View): Json {
    JObj(map[
      "sys" := JObj(map["device" := JObj(map[
        "name" := JStr(v.deviceName), "mac" := JStr(v.mac), "fw_id" := JStr(v.fwId), "discoverable" := JBool(true)])]),
      "wifi" := JObj(map[
        "ap" := JObj(map["enable" := JBool(false)]),
        "sta" := JObj(map["enable" := JBool(true), "ssid" := JStr("WiFi")]),
        "sta1" := JObj(map["enable" := JBool(false)])]),
      "em:0" := EmConfig(JInt(0))
    ])
  }

  const ListedMethods: seq<string> := [
    "Shelly.ListMethods", "Shelly.GetDeviceInfo", "Shelly.GetStatus", "Shelly.GetConfig", "Shelly.GetComponents",
    "EM.GetStatus", "EM.GetConfig", "EM.GetCTTypes", "EMData.GetStatus", "Script.List", "Script.GetCode"]

  // ---------------------------------------------------------------------
  // Shelly.GetComponents

  const StaticKeys: seq<string> := ["em:0", "emdata:0"]

  /** `[c for c in components if c["key"] in keys_filter]`; the first failing `in` raises. */
  function FilterKeys(keys: seq<string>, filter: Json): (r: Result<seq<string>, PyError>)
    ensures r.Ok? ==> forall i :: 0 <= i < |r.value| ==> r.value[i] in keys && PyIn(JStr(r.value[i]), filter) == Ok(true)
    ensures r.Ok? ==> forall i :: 0 <= i < |keys| && PyIn(JStr(keys[i]), filter) == Ok(true) ==> keys[i] in r.value
    ensures r.Ok? ==> |r.value| <= |keys|
  {
    if keys == [] then Ok([])
    else
      match PyIn(JStr(keys[0]), filter)
      case Err(e) => Err(e)
      case Ok(keep) =>
        match FilterKeys(keys[1..], filter)
        case Err(e) => Err(e)
        case Ok(rest) => Ok(if keep then [keys[0]] + rest else rest)
  }

  /** One component with the status and configuration the request asked for. */
  function Attach(key: string, v: View, wantStatus: bool, wantConfig: bool): map<string, Json> {
    var c := map["key" := JStr(key)];
    var c := if wantStatus && key == "em:0" then c["status" := EmStatusOf(v, JInt(0))]
             else if wantStatus && key == "emdata:0" then c["status" := EmDataStatusOf(v, JInt(0))]
             else c;
    if wantConfig && key == "em:0" then c["config" := EmConfig(JInt(0))] else c
  }

  /** `lst[offset:]` for an int offset (a bool counts as one) or None; any other offset is a TypeError. */
  function SliceFrom<T>(xs: seq<T>, offset: Json): (r: Result<seq<T>, PyError>)
    ensures r.Ok? ==> |r.value| <= |xs|
    ensures offset.JNull? ==> r == Ok(xs)
    ensures offset.JInt? && 0 <= offset.i ==> r.Ok? && |r.value| == if offset.i < |xs| then |xs| - offset.i else 0
  {
    match offset
    case JNull => Ok(xs)
    case JBool(b) => Ok(if b && |xs| >= 1 then xs[1..] else if b then [] else xs)
    case JInt(o) =>
      var start := if o < 0 then (if |xs| + o < 0 then 0 else |xs| + o) else (if o > |xs| then |xs| else o);
      Ok(xs[start..])
    case _ => Err(TypeError)
  }

  /** The request's filters after `params or {}`; a truthy `params` that is not an object raises AttributeError. */
  datatype ComponentQuery = ComponentQuery(offset: Json, dynamicOnly: Json, extras: Json, keysFilter: Json)

  function QueryOf(params: Json): Result<ComponentQuery, PyError> {
    var p := if Truthy(params) then params else JObj(map[]);
    if !p.JObj? then Err(AttributeError)
    else Ok(ComponentQuery(Get(p.fields, "offset", JInt(0)), Get(p.fields, "dynamic_only", JBool(false)),
                           Get(p.fields, "include", JArr([])), Get(p.fields, "keys", JNull)))
  }

  /** The keys that survive `dynamic_only` and the `keys` filter. */
  function SelectedKeys(q: ComponentQuery): Result<seq<string>, PyError> {
    var keys := if Truthy(q.dynamicOnly) then [] else StaticKeys;
    if Truthy(q.keysFilter) then FilterKeys(keys, q.keysFilter) else Ok(keys)
  }

  /** The answer of `_get_components`. */
  function ComponentsResult(components: seq<map<string, Json>>, offset: Json, total: nat): Json {
    JObj(map[
      "components" := JArr(seq(|components|, i requires 0 <= i < |components| => JObj(components[i]))),
      "cfg_rev" := JInt(0), "offset" := offset, "total" := JInt(total)])
  }

  /** What `_get_components` answers, stated without its loop. */
  function ComponentsSpec(v: View, params: Json): Result<Json, PyError> {
    match QueryOf(params)
    case Err(e) => Err(e)
    case Ok(q) =>
      match SelectedKeys(q)
      case Err(e) => Err(e)
      case Ok(keys) =>
        var wantStatus := PyIn(JStr("status"), q.extras);
        var wantConfig := PyIn(JStr("config"), q.extras);
        if keys != [] && wantStatus.Err? then Err(wantStatus.error)
        else if keys != [] && wantConfig.Err? then Err(wantConfig.error)
        else
          var comps := seq(|keys|, i requires 0 <= i < |keys| => Attach(keys[i], v, wantStatus.Ok? && wantStatus.value, wantConfig.Ok? && wantConfig.value));
          match SliceFrom(comps, q.offset)
          case Err(e) => Err(e)
          case Ok(shown) => Ok(ComponentsResult(shown, q.offset, |comps|))
  }

  /**
   * `_get_components`: filter the static components, attach status and
   * configuration one component at a time, then apply the offset.
   */
  method GetComponents(v: View, params: Json) returns (r: Result<Json, PyError>)
    ensures r == ComponentsSpec(v, params)
  {
    var query := QueryOf(params);
    if query.Err? {
      return Err(query.error);
    }
    var q := query.value;
    var selected := SelectedKeys(q);
    if selected.Err? {
      return Err(selected.error);
    }
    var keys := selected.value;
    var comps: seq<map<string, Json>> := [];
    var i := 0;
    while i < |keys|
      invariant 0 <= i <= |keys|
      invariant i > 0 ==> PyIn(JStr("status"), q.extras).Ok? && PyIn(JStr("config"), q.extras).Ok?
      invariant |comps| == i
      invariant forall j :: 0 <= j < i ==>
        comps[j] == Attach(keys[j], v, PyIn(JStr("status"), q.extras).value, PyIn(JStr("config"), q.extras).value)
    {
      var wantStatus := PyIn(JStr("status"), q.extras);
      if wantStatus.Err? {
        return Err(wantStatus.error);
      }
      var wantConfig := PyIn(JStr("config"), q.extras);
      if wantConfig.Err? {
        return Err(wantConfig.error);
      }
      comps := comps + [Attach(keys[i], v, wantStatus.value, wantConfig.value)];
      i := i + 1;
    }
    var wantStatus := PyIn(JStr("status"), q.extras);
    var wantConfig := PyIn(JStr("config"), q.extras);
    assert comps == seq(|keys|, i requires 0 <= i < |keys| => Attach(keys[i], v, wantStatus.Ok? && wantStatus.value, wantConfig.Ok? && wantConfig.value));
    var shown := SliceFrom(comps, q.offset);
    if shown.Err? {
      return Err(shown.error);
    }
    return Ok(ComponentsResult(shown.value, q.offset, |comps|));
  }

  /** With no parameters both components are listed, bare, from offset 0. */
  lemma ComponentsDefault(v: View)
    ensures ComponentsSpec(v, JNull) == Ok(ComponentsResult([map["key" := JStr("em:0")], map["key" := JStr("emdata:0")]], JInt(0), 2))
  {
    var comps := seq(2, i requires 0 <= i < 2 => Attach(StaticKeys[i], v, false, false));
    assert comps == [map["key" := JStr("em:0")], map["key" := JStr("emdata:0")]];
  }

  /** `dynamic_only` lists nothing: total 0, whatever else the request asks. */
  lemma ComponentsDynamicOnly(v: View, params: map<string, Json>)
    requires "dynamic_only" in params && Truthy(params["dynamic_only"])
    requires "offset" !in params
    ensures ComponentsSpec(v, JObj(params)) == Ok(ComponentsResult([], JInt(0), 0))
  {
    var q := QueryOf(JObj(params)).value;
    if Truthy(q.keysFilter) {
      assert FilterKeys([], q.keysFilter) == Ok([]);
    }
  }

  /**
   * On success, `total` counts the components after the filters, the
   * offset is echoed, and the listing starts at the offset; a component
   * carries a status exactly when "status" was included, and a
   * configuration exactly when "config" was included and it is em:0.
   */
  lemma ComponentsShape(v: View, params: Json)
    requires ComponentsSpec(v, params).Ok?
    ensures var q := QueryOf(params).value;
      var keys := SelectedKeys(q).value;
      var r := ComponentsSpec(v, params).value;
      r.fields["total"] == JInt(|keys|) && r.fields["offset"] == q.offset && r.fields["cfg_rev"] == JInt(0) &&
      |r.fields["components"].items| <= |keys|
    ensures var q := QueryOf(params).value;
      var keys := SelectedKeys(q).value;
      forall i :: 0 <= i < |keys| ==>
        var c := Attach(keys[i], v, PyIn(JStr("status"), q.extras) == Ok(true), PyIn(JStr("config"), q.extras) == Ok(true));
        c["key"] == JStr(keys[i]) &&
        ("status" in c <==> PyIn(JStr("status"), q.extras) == Ok(true)) &&
        ("config" in c <==> PyIn(JStr("config"), q.extras) == Ok(true) && keys[i] == "em:0")
  {
    var q := QueryOf(params).value;
    var keys := SelectedKeys(q).value;
    SelectedKeysStatic(q);
  }

  /** The selected keys are drawn from em:0 and emdata:0. */
  lemma SelectedKeysStatic(q: ComponentQuery)
    requires SelectedKeys(q).Ok?
    ensures forall k :: k in SelectedKeys(q).value ==> k == "em:0" || k == "emdata:0"
  {
  }

  // ---------------------------------------------------------------------
  // The status-change comparison

  const IgnoredSysFields: set<string> := {"time", "unixtime", "uptime"}

  /** `clean_status`: a copy whose "sys" entry lacks the clock fields; `pop` on a non-dict "sys" raises. */
  function CleanStatus(status: map<string, Json>): Result<map<string, Json>, PyError> {
    if "sys" !in status then Ok(status)
    else
      match status["sys"]
      case JObj(sys) => Ok(status["sys" := JObj(sys - IgnoredSysFields)])
      case JArr(_) => Err(TypeError)
      case _ => Err(AttributeError)
  }

  /** `_compare_status_dicts`: whether a push is due. */
  function CompareStatusDicts(oldStatus: map<string, Json>, newStatus: map<string, Json>): Result<bool, PyError> {
    if oldStatus == map[] || newStatus == map[] then Ok(true)
    else
      match CleanStatus(oldStatus)
      case Err(e) => Err(e)
      case Ok(o) =>
        match CleanStatus(newStatus)
        case Err(e) => Err(e)
        case Ok(n) => Ok(!PyEq(JObj(o), JObj(n)))
  }

  /** An empty side always counts as a change. */
  lemma CompareEmptyIsChange(oldStatus: map<string, Json>, newStatus: map<string, Json>)
    requires oldStatus == map[] || newStatus == map[]
    ensures CompareStatusDicts(oldStatus, newStatus) == Ok(true)
  {
  }

  /** Two statuses whose "sys" entries differ only in time, unixtime and uptime compare as unchanged. */
  lemma CompareIgnoresClock(status: map<string, Json>, sys1: map<string, Json>, sys2: map<string, Json>)
    requires sys1 - IgnoredSysFields == sys2 - IgnoredSysFields
    ensures CompareStatusDicts(status["sys" := JObj(sys1)], status["sys" := JObj(sys2)]) == Ok(false)
  {
    var s1 := status["sys" := JObj(sys1)];
    var s2 := status["sys" := JObj(sys2)];
    assert "sys" in s1 && "sys" in s2;
    var o := s1["sys" := JObj(sys1 - IgnoredSysFields)];
    var n := s2["sys" := JObj(sys2 - IgnoredSysFields)];
    assert CleanStatus(s1) == Ok(o) && CleanStatus(s2) == Ok(n);
    assert o == n;
    PyEqReflexive(JObj(o));
  }

  /** A status whose EM entry changed in value is a change. */
  lemma CompareSeesEmChange(oldStatus: map<string, Json>, newStatus: map<string, Json>)
    requires oldStatus != map[] && newStatus != map[]
    requires "sys" !in oldStatus && "sys" !in newStatus
    requires "em:0" in oldStatus && "em:0" in newStatus && !PyEq(oldStatus["em:0"], newStatus["em:0"])
    ensures CompareStatusDicts(oldStatus, newStatus) == Ok(true)
  {
  }

  /** Without a "sys" entry the comparison is Python's `!=`. */
  lemma CompareWithoutSys(oldStatus: map<string, Json>, newStatus: map<string, Json>)
    requires oldStatus != map[] && newStatus != map[] && "sys" !in oldStatus && "sys" !in newStatus
    ensures CompareStatusDicts(oldStatus, newStatus) == Ok(!PyEq(JObj(oldStatus), JObj(newStatus)))
  {
  }

  // ---------------------------------------------------------------------
  // Notifications

  /** `_build_notify_status`: the EM and EMData statuses, plus sys and wifi for the full form. */
  function NotifyStatus(v: View, full: bool, dst: Json): Json {
    var params := map["ts" := JNum(v.now), "em:0" := EmStatusOf(v, JInt(0)), "emdata:0" := EmDataStatusOf(v, JInt(0))];
    var params := if full then params["sys" := SysStatus(v)]["wifi" := WifiStatus(v)] else params;
    JObj(map[
      "src" := JStr(v.deviceId), "dst" := dst,
      "method" := JStr(if full then "NotifyFullStatus" else "NotifyStatus"),
      "params" := JObj(params)])
  }

  /** The method is NotifyFullStatus exactly for the full form, which alone adds sys and wifi. */
  lemma NotifyShape(v: View, full: bool, dst: Json)
    ensures var n := NotifyStatus(v, full, dst).fields;
      n.Keys == {"src", "dst", "method", "params"} &&
      n["src"] == JStr(v.deviceId) && n["dst"] == dst &&
      (n["method"] == JStr("NotifyFullStatus") <==> full) &&
      (!full ==> n["method"] == JStr("NotifyStatus")) &&
      n["params"].fields.Keys == {"ts", "em:0", "emdata:0"} + (if full then {"sys", "wifi"} else {}) &&
      n["params"].fields["em:0"] == EmStatusOf(v, JInt(0)) &&
      n["params"].fields["emdata:0"] == EmDataStatusOf(v, JInt(0))
  {
  }

  // ---------------------------------------------------------------------
  // JSON-RPC dispatch

  datatype RpcError = MethodNotFound | InternalError(cause: PyError)

  /** `JsonRpcResponse`: a result or an error, and the request id. */
  datatype RpcResponse = RpcResponse(result: Option<Json>, error: Option<RpcError>, id: Json)

  function ErrorCode(e: RpcError): int {
    match e
    case MethodNotFound => -32601
    case InternalError(_) => -32000
  }

  function ErrorObject(e: RpcError): map<string, Json> {
    match e
    case MethodNotFound => map["code" := JInt(-32601), "message" := JStr("Method not found")]
    case InternalError(c) => map["code" := JInt(-32000), "message" := JStr("Internal error: " + ErrorName(c))]
  }

  function ErrorName(e: PyError): string {
    match e
    case AttributeError => "AttributeError"
    case TypeError => "TypeError"
    case ValueError => "ValueError"
    case KeyError => "KeyError"
    case IndexError => "IndexError"
  }

  /** `params.get("id", 0) if params else 0`; a truthy non-object `params` raises AttributeError. */
  function EmIdOf(params: Json): Result<Json, PyError> {
    if !Truthy(params) then Ok(JInt(0))
    else if params.JObj? then Ok(Get(params.fields, "id", JInt(0)))
    else Err(AttributeError)
  }

  /** The result of a known method, or None for an unknown one. */
  function Dispatch(v: View, name: Json, params: Json, emId: Json): Option<Result<Json, PyError>> {
    if name == JStr("Shelly.ListMethods") then
      Some(Ok(JObj(map["methods" := JArr(seq(|ListedMethods|, i requires 0 <= i < |ListedMethods| => JStr(ListedMethods[i])))])))
    else if name == JStr("Shelly.GetDeviceInfo") then Some(Ok(JObj(DeviceInfo(v))))
    else if name == JStr("Shelly.GetStatus") then Some(Ok(FullStatus(v)))
    else if name == JStr("Shelly.GetConfig") then Some(Ok(FullConfig(v)))
    else if name == JStr("EM.GetStatus") then Some(Ok(EmStatusOf(v, emId)))
    else if name == JStr("EM.GetConfig") then Some(Ok(EmConfig(emId)))
    else if name == JStr("EM.GetCTTypes") then Some(Ok(CtTypes))
    else if name == JStr("EMData.GetStatus") then Some(Ok(EmDataStatusOf(v, emId)))
    else if name == JStr("Shelly.GetComponents") then Some(ComponentsSpec(v, params))
    else if name == JStr("Script.GetCode") then Some(Ok(JObj(map["data" := JStr("")])))
    else if name == JStr("Script.List") then Some(Ok(JObj(map["scripts" := JArr([])])))
    else None
  }

  // ---------------------------------------------------------------------
  // The response id: `JsonRpcResponse.id` is a pydantic `Optional[int]`

  predicate IsDecimalDigit(c: char) {
    '0' <= c <= '9'
  }

  predicate AllDigits(s: string) {
    forall i :: 0 <= i < |s| ==> IsDecimalDigit(s[i])
  }

  /** The value of a string of decimal digits, most significant first. */
  function DigitsValue(s: string): (n: nat)
    requires AllDigits(s)
  {
    if s == [] then 0 else 10 * DigitsValue(s[..|s| - 1]) + (s[|s| - 1] as int - '0' as int)
  }

  /** The digits of an integer text after its optional sign. */
  function Unsigned(s: string): string {
    if |s| > 0 && (s[0] == '+' || s[0] == '-') then s[1..] else s
  }

  /** An optional sign followed by at least one decimal digit. */
  predicate IsIntText(s: string) {
    |Unsigned(s)| > 0 && AllDigits(Unsigned(s))
  }

  function IntTextValue(s: string): int
    requires IsIntText(s)
  {
    if |s| > 0 && s[0] == '-' then -(DigitsValue(Unsigned(s)) as int) else DigitsValue(Unsigned(s))
  }

  /**
   * Whether pydantic's lax `Optional[int]` accepts the id: None, an int,
   * a bool, a float without a fractional part, or an integer text.
   */
  predicate IdAccepted(id: Json) {
    match id
    case JNull => true
    case JInt(_) => true
    case JBool(_) => true
    case JNum(r) => IsInteger(r)
    case JStr(s) => IsIntText(s)
    case _ => false
  }

  /** The id the response model holds once pydantic has accepted it. */
  function CoercedId(id: Json): (r: Json)
    requires IdAccepted(id)
    ensures r.JNull? || r.JInt?
    ensures r.JNull? <==> id.JNull?
  {
    match id
    case JNull => JNull
    case JInt(i) => JInt(i)
    case JBool(b) => JInt(if b then 1 else 0)
    case JNum(r) => JInt(r.Floor)
    case JStr(s) => JInt(IntTextValue(s))
  }

  /** The coerced id has the value Python compares the accepted one by. */
  lemma CoercedIdValue(id: Json)
    requires IdAccepted(id) && !id.JNull? && !id.JStr?
    ensures NumberOf(id) == Some(CoercedId(id).i as real)
  {
  }

  /** Integer texts read as the integer they spell; "12" is 12 and "-7" is -7. */
  lemma IntTextExamples()
    ensures IsIntText("12") && IntTextValue("12") == 12
    ensures IsIntText("-7") && IntTextValue("-7") == -7
    ensures !IsIntText("abc") && !IsIntText("") && !IsIntText("-")
  {
    assert Unsigned("12") == "12";
    assert "12"[..1] == "1";
    assert DigitsValue("1") == 1 by { assert "1"[..0] == ""; }
    assert Unsigned("-7") == "7";
    assert DigitsValue("7") == 7 by { assert "7"[..0] == ""; }
    assert !IsDecimalDigit('a');
    assert Unsigned("-") == "";
  }

  /** Ids the response model refuses: a fractional float, a non-numeric text, a list, an object. */
  lemma RejectedIds()
    ensures !IdAccepted(JNum(1.5)) && !IdAccepted(JStr("abc"))
    ensures !IdAccepted(JArr([JInt(1)])) && !IdAccepted(JObj(map[]))
  {
    assert (1.5).Floor == 1;
    assert !IsDecimalDigit('a');
  }

  /**
   * `_handle_rpc`: the component id is read before dispatch, so a bad
   * `params` fails every method alike. Building the response validates
   * the id; a refused id raises, and so does the error response built in
   * the `except`, so the ValidationError (a ValueError) leaves the call.
   */
  function HandleRpc(v: View, name: Json, params: Json, requestId: Json): Result<RpcResponse, PyError> {
    if !IdAccepted(requestId) then Err(ValueError)
    else
      var id := CoercedId(requestId);
      match EmIdOf(params)
      case Err(e) => Ok(RpcResponse(None, Some(InternalError(e)), id))
      case Ok(emId) =>
        match Dispatch(v, name, params, emId)
        case None => Ok(RpcResponse(None, Some(MethodNotFound), id))
        case Some(Err(e)) => Ok(RpcResponse(None, Some(InternalError(e)), id))
        case Some(Ok(result)) => Ok(RpcResponse(Some(result), None, id))
  }

  /** A method named in Shelly.ListMethods. */
  predicate Known(name: Json) {
    name.JStr? && name.s in ListedMethods
  }

  lemma DispatchKnown(v: View, name: Json, params: Json, emId: Json)
    ensures Dispatch(v, name, params, emId).Some? <==> Known(name)
  {
  }

  /**
   * A call returns a response exactly when the id is accepted, and raises
   * ValueError otherwise. The response holds the coerced id and exactly
   * one of a result and an error. An unknown method is -32601 "Method not
   * found" unless `params` already failed; a failure inside a handler is
   * -32000; only GetComponents can fail once `params` is acceptable.
   */
  lemma HandleRpcOutcomes(v: View, name: Json, params: Json, requestId: Json)
    ensures HandleRpc(v, name, params, requestId).Ok? <==> IdAccepted(requestId)
    ensures !IdAccepted(requestId) ==> HandleRpc(v, name, params, requestId) == Err(ValueError)
    ensures IdAccepted(requestId) ==> var r := HandleRpc(v, name, params, requestId).value;
      r.id == CoercedId(requestId) && (r.result.Some? <==> r.error.None?)
    ensures IdAccepted(requestId) ==> var r := HandleRpc(v, name, params, requestId).value;
      EmIdOf(params).Ok? && !Known(name) ==> r.error == Some(MethodNotFound) && ErrorCode(r.error.value) == -32601
    ensures IdAccepted(requestId) ==> var r := HandleRpc(v, name, params, requestId).value;
      EmIdOf(params).Ok? && Known(name) && name != JStr("Shelly.GetComponents") ==> r.result.Some?
    ensures IdAccepted(requestId) ==> var r := HandleRpc(v, name, params, requestId).value;
      r.error.Some? && r.error.value.InternalError? ==>
        ErrorCode(r.error.value) == -32000 &&
        (EmIdOf(params).Err? || (name == JStr("Shelly.GetComponents") && ComponentsSpec(v, params).Err?))
  {
    if EmIdOf(params).Ok? {
      DispatchKnown(v, name, params, EmIdOf(params).value);
    }
  }

  /** `em_id` is `params["id"]` when present, 0 when absent, and 0 when `params` is None or empty. */
  lemma EmIdRule(params: Json)
    ensures params.JNull? ==> EmIdOf(params) == Ok(JInt(0))
    ensures params.JObj? && "id" in params.fields ==> EmIdOf(params) == Ok(params.fields["id"])
    ensures params.JObj? && "id" !in params.fields ==> EmIdOf(params) == Ok(JInt(0))
  {
  }

  /** EM.GetStatus answers the shared EM status with the requested component id. */
  lemma EmGetStatusEchoesId(v: View, params: map<string, Json>, requestId: Json)
    requires "id" in params
    ensures HandleRpc(v, JStr("EM.GetStatus"), JObj(params), requestId).Ok? <==> IdAccepted(requestId)
    ensures IdAccepted(requestId) ==>
      HandleRpc(v, JStr("EM.GetStatus"), JObj(params), requestId).value.result ==
        Some(JObj(EmStatusJson(BuildEmStatus(v.data, params["id"], v.now))))
  {
  }

  // ---------------------------------------------------------------------
  // WebSocket messages

  /** What the receive loop does with one message: answer it and go on with the client's source, or end the connection. */
  datatype WsOutcome = Send(response: Json, clientSrc: Json) | Close

  /**
   * One message of the WebSocket loop, given its parse (None for invalid
   * JSON): a parse error gets -32700; a non-object message makes `.get`
   * raise, which ends the connection; otherwise the client's "src" (if
   * any) becomes the destination, and the RPC answer is wrapped in the
   * Shelly envelope with the request's own id. An id the response model
   * refuses makes `_handle_rpc` raise, which also ends the connection.
   */
  function WsReply(v: View, parsed: Option<Json>, clientSrc: Json): WsOutcome {
    match parsed
    case None =>
      Send(JObj(map["id" := JNull, "src" := JStr(v.deviceId),
                    "error" := JObj(map["code" := JInt(-32700), "message" := JStr("Parse error")])]), clientSrc)
    case Some(request) =>
      if !request.JObj? then Close
      else
        var src := if "src" in request.fields then request.fields["src"] else clientSrc;
        var requestId := Get(request.fields, "id", JNull);
        match HandleRpc(v, Get(request.fields, "method", JStr("")), Get(request.fields, "params", JNull), requestId)
        case Err(_) => Close
        case Ok(rpc) =>
        var envelope := map["id" := requestId, "src" := JStr(v.deviceId), "dst" := src];
        var response := if rpc.error.Some? then envelope["error" := JObj(ErrorObject(rpc.error.value))]
                        else envelope["result" := rpc.result.value];
        Send(JObj(response), src)
  }

  lemma RpcExclusive(v: View, name: Json, params: Json, requestId: Json)
    requires HandleRpc(v, name, params, requestId).Ok?
    ensures HandleRpc(v, name, params, requestId).value.error.None? ==> HandleRpc(v, name, params, requestId).value.result.Some?
  {
  }

  /**
   * Invalid JSON is answered with -32700 and a null id; an object message
   * with an id the response model accepts is answered to the client's
   * latest source with the request id and either a result or an error;
   * a non-object message or a refused id ends the connection.
   */
  lemma WsReplyShape(v: View, parsed: Option<Json>, clientSrc: Json)
    ensures parsed.None? ==>
      WsReply(v, parsed, clientSrc).Send? &&
      WsReply(v, parsed, clientSrc).response.fields["id"] == JNull &&
      WsReply(v, parsed, clientSrc).response.fields["error"].fields["code"] == JInt(-32700)
    ensures parsed.Some? && !parsed.value.JObj? ==> WsReply(v, parsed, clientSrc) == Close
    ensures parsed.Some? && parsed.value.JObj? && !IdAccepted(Get(parsed.value.fields, "id", JNull)) ==>
      WsReply(v, parsed, clientSrc) == Close
    ensures parsed.Some? && parsed.value.JObj? && IdAccepted(Get(parsed.value.fields, "id", JNull)) ==>
      var f := parsed.value.fields;
      var out := WsReply(v, parsed, clientSrc);
      out.Send? &&
      out.clientSrc == (if "src" in f then f["src"] else clientSrc) &&
      out.response.fields["dst"] == out.clientSrc &&
      out.response.fields["id"] == Get(f, "id", JNull) &&
      out.response.fields["src"] == JStr(v.deviceId) &&
      ("error" in out.response.fields <==> "result" !in out.response.fields)
  {
    if parsed.Some? && parsed.value.JObj? && IdAccepted(Get(parsed.value.fields, "id", JNull)) {
      var f := parsed.value.fields;
      RpcExclusive(v, Get(f, "method", JStr("")), Get(f, "params", JNull), Get(f, "id", JNull));
    }
  }

  // ---------------------------------------------------------------------
  // The server object: the WebSocket client map

  /** The sending loop: one NotifyStatus per client, addressed to its source; the failed sends are collected. */
  method PushAll(notify: Json -> Json, clients: map<Client, Json>, delivered: Client -> bool) returns (sent: map<Client, Json>, failed: set<Client>)
    ensures sent.Keys == clients.Keys
    ensures forall c :: c in sent ==> sent[c] == notify(clients[c])
    ensures forall c :: c in failed <==> c in clients && !delivered(c)
  {
    sent := map[];
    failed := {};
    var pending := clients.Keys;
    while pending != {}
      invariant forall c :: c in pending ==> c in clients
      invariant forall c :: c in sent <==> c in clients && c !in pending
      invariant forall c :: c in sent ==> sent[c] == notify(clients[c])
      invariant forall c :: c in failed <==> c in sent && !delivered(c)
      decreases |pending|
    {
      var c :| c in pending;
      sent := sent[c := notify(clients[c])];
      if !delivered(c) {
        failed := failed + {c};
      }
      pending := pending - {c};
    }
  }

  /** A connected WebSocket. */
  datatype Client = Client(id: nat)

  class HttpServer {
    const device: ShellyDevice.ShellyDevice
    const dataManager: DataManager
    const host: string
    /** Each connected client with the source it last announced. */
    var websocketClients: map<Client, Json>

    constructor (device: ShellyDevice.ShellyDevice, dataManager: DataManager, host: string)
      ensures this.device == device && this.dataManager == dataManager && this.host == host
      ensures websocketClients == map[]
    {
      this.device := device;
      this.dataManager := dataManager;
      this.host := host;
      websocketClients := map[];
    }

    /** What the handlers see at time `now`, with `clock` the local time as "%H:%M". */
    function ViewAt(now: real, clock: string): View
      reads device, dataManager
    {
      View(device.deviceId, device.deviceName, device.macAddress, device.fwId, device.DeviceInfo(),
           Trunc(now - device.startTime), host, clock, dataManager.data, now)
    }

    /** A new connection is registered as "user_1" and is sent the full status. */
    method Connect(client: Client, now: real, clock: string) returns (initial: Json)
      modifies this
      ensures websocketClients == old(websocketClients)[client := JStr("user_1")]
      ensures initial == NotifyStatus(ViewAt(now, clock), true, JStr("user_1"))
    {
      websocketClients := websocketClients[client := JStr("user_1")];
      initial := NotifyStatus(ViewAt(now, clock), true, JStr("user_1"));
    }

    /** The `finally` of the receive loop: the client leaves the map if it is still there. */
    method Disconnect(client: Client)
      modifies this
      ensures websocketClients == old(websocketClients) - {client}
    {
      if client in websocketClients {
        websocketClients := websocketClients - {client};
      }
    }

    /**
     * `_send_status_update`: every client is sent a NotifyStatus addressed
     * to its source; `delivered` says which sends went through. Exactly
     * the clients whose send failed are removed; the others keep their
     * source.
     */
    method SendStatusUpdate(now: real, clock: string, delivered: Client -> bool) returns (sent: map<Client, Json>)
      modifies this
      ensures sent.Keys == old(websocketClients).Keys
      ensures forall c :: c in sent ==> sent[c] == NotifyStatus(ViewAt(now, clock), false, old(websocketClients)[c])
      ensures forall c :: c in websocketClients <==> c in old(websocketClients) && delivered(c)
      ensures forall c :: c in websocketClients ==> websocketClients[c] == old(websocketClients)[c]
    {
      if websocketClients == map[] {
        return map[];
      }
      var view := ViewAt(now, clock);
      var notify := (dst: Json) => NotifyStatus(view, false, dst);
      var clients := websocketClients;
      var toRemove;
      sent, toRemove := PushAll(notify, clients, delivered);
      assert forall c :: c in sent ==> sent[c] == NotifyStatus(view, false, clients[c]);
      RemoveClients(toRemove);
      assert view == ViewAt(now, clock);
    }

    /** The removal loop: each listed client still in the map is deleted. */
    method RemoveClients(toRemove: set<Client>)
      modifies this
      ensures forall c :: c in websocketClients <==> c in old(websocketClients) && c !in toRemove
      ensures forall c :: c in websocketClients ==> websocketClients[c] == old(websocketClients)[c]
    {
      var removing := toRemove;
      while removing != {}
        invariant removing <= toRemove
        invariant forall c :: c in websocketClients <==> c in old(websocketClients) && (c !in toRemove || c in removing)
        invariant forall c :: c in websocketClients ==> websocketClients[c] == old(websocketClients)[c]
        decreases |removing|
      {
        var c :| c in removing;
        if c in websocketClients {
          websocketClients := websocketClients - {c};
        }
        removing := removing - {c};
      }
    }
  }
}
