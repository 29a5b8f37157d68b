/**
 * The UDP JSON-RPC responder that storage batteries poll: request
 * filtering, dispatch on the four supported methods, the response
 * envelopes, and the decimal enforcer that keeps every power value a
 * non-whole number.
 */
module UdpServer {
  import opened Common
  import opened DataManager
  import ShellyDevice

  // ---------------------------------------------------------------------
  // The decimal enforcer

  const DecimalEnforcer: real := 0.001

  /** `_format_power`: small values become ±0.001; whole rounded values are moved 0.001 away from zero. */
  function FormatPower(power: real): real {
    if Abs(power) < 0.1 then
      if power >= 0.0 then DecimalEnforcer else -DecimalEnforcer
    else
      var result := RoundDigits(power, 1);
      if IsInteger(result) || result == 0.0 then
        if result >= 0.0 then result + DecimalEnforcer else result - DecimalEnforcer
      else result
  }

  /** Values below 0.1 in magnitude keep only their sign. */
  lemma FormatPowerSmall(power: real)
    requires Abs(power) < 0.1
    ensures FormatPower(power) == if power >= 0.0 then 0.001 else -0.001
  {
  }

  lemma RoundOneNear(power: real)
    ensures -0.05 <= RoundDigits(power, 1) - power <= 0.05
  {
    RoundNear(power, 1);
  }

  /** A whole number plus or minus 0.001 is not whole. */
  lemma OffsetNotWhole(k: real)
    requires IsInteger(k)
    ensures !IsInteger(k + DecimalEnforcer) && !IsInteger(k - DecimalEnforcer)
  {
    assert (k + DecimalEnforcer).Floor == k.Floor;
    assert (k - DecimalEnforcer).Floor == k.Floor - 1;
  }

  /** The result is never a whole number, so it is always sent with a decimal point. */
  lemma FormatPowerNeverWhole(power: real)
    ensures !IsInteger(FormatPower(power))
  {
    if Abs(power) < 0.1 {
      assert DecimalEnforcer.Floor == 0;
      assert (-DecimalEnforcer).Floor == -1;
    } else {
      var result := RoundDigits(power, 1);
      if IsInteger(result) || result == 0.0 {
        assert IsInteger(result) by {
          if result == 0.0 {
            assert result.Floor == 0;
          }
        }
        OffsetNotWhole(result);
      }
    }
  }

  /** The sign survives: the result is non-negative exactly when the reading is. */
  lemma FormatPowerSign(power: real)
    ensures FormatPower(power) >= 0.0 <==> power >= 0.0
  {
    if Abs(power) >= 0.1 {
      RoundOneNear(power);
    }
  }

  /** The result stays within 0.051 of the reading for readings of 0.1 or more in magnitude, and within 0.101 below. */
  lemma FormatPowerNear(power: real)
    ensures Abs(power) >= 0.1 ==> -0.051 <= FormatPower(power) - power <= 0.051
    ensures Abs(power) < 0.1 ==> -0.101 <= FormatPower(power) - power <= 0.101
  {
    if Abs(power) >= 0.1 {
      RoundOneNear(power);
    }
  }

  // ---------------------------------------------------------------------
  // Responses

  /** What a response is built from: the device id and info, and the data manager's current snapshot. */
  datatype Context = Context(deviceId: string, deviceInfo: map<string, Json>, data: MeterData, now: real)

  /** Every response: the request id echoed, the device as source, "unknown" as destination. */
  function Envelope(requestId: Json, ctx: Context, result: Json): Json {
    JObj(map["id" := requestId, "src" := JStr(ctx.deviceId), "dst" := JStr("unknown"), "result" := result])
  }

  /**
   * The EM status of `_create_em_response`: the shared status, with the
   * four active powers replaced by the enforced raw readings, also when
   * the status reports a meter failure.
   */
  function EmResult(ctx: Context): EmStatus {
    var s := BuildEmStatus(ctx.data, JInt(0), ctx.now);
    s.(a := s.a.(actPower := FormatPower(ActivePower(ctx.data.phaseA))),
       b := s.b.(actPower := FormatPower(ActivePower(ctx.data.phaseB))),
       c := s.c.(actPower := FormatPower(ActivePower(ctx.data.phaseC))),
       totalActPower := FormatPower(TotalPower(ctx.data)))
  }

  function EmResponse(requestId: Json, ctx: Context): Json {
    Envelope(requestId, ctx, JObj(EmStatusJson(EmResult(ctx))))
  }

  /** `_create_em1_response`: component 0 with the enforced total power. */
  function Em1Response(requestId: Json, ctx: Context): Json {
    Envelope(requestId, ctx, JObj(map["id" := JInt(0), "act_power" := JNum(FormatPower(TotalPower(ctx.data)))]))
  }

  function DeviceInfoResponse(requestId: Json, ctx: Context): Json {
    Envelope(requestId, ctx, JObj(ctx.deviceInfo))
  }

  const CtTypes: seq<Json> := [JStr("120A"), JStr("50A")]

  function CtTypesResponse(requestId: Json, ctx: Context): Json {
    Envelope(requestId, ctx, JObj(map["types" := JArr(CtTypes)]))
  }

  const SupportedMethods: seq<string> := ["EM.GetStatus", "EM1.GetStatus", "Shelly.GetDeviceInfo", "EM.GetCTTypes"]

  /** `isinstance(x, int)`: a bool is an int in Python. */
  predicate IsPyInt(j: Json) {
    j.JInt? || j.JBool?
  }

  /**
   * `_process_request`. A request or `params` that is not an object
   * makes `.get` raise AttributeError; a `params.id` that is not an int,
   * or an unsupported method, gives no response.
   */
  function ProcessRequest(request: Json, ctx: Context): Result<Option<Json>, PyError> {
    if !request.JObj? then Err(AttributeError)
    else
      var name := Get(request.fields, "method", JStr(""));
      var requestId := Get(request.fields, "id", JInt(0));
      var params := Get(request.fields, "params", JObj(map[]));
      if !params.JObj? then Err(AttributeError)
      else if !IsPyInt(Get(params.fields, "id", JNull)) then Ok(None)
      else if name == JStr("EM.GetStatus") then Ok(Some(EmResponse(requestId, ctx)))
      else if name == JStr("EM1.GetStatus") then Ok(Some(Em1Response(requestId, ctx)))
      else if name == JStr("Shelly.GetDeviceInfo") then Ok(Some(DeviceInfoResponse(requestId, ctx)))
      else if name == JStr("EM.GetCTTypes") then Ok(Some(CtTypesResponse(requestId, ctx)))
      else Ok(None)
  }

  /** `_handle_request` after decoding: an exception is logged and nothing is sent. */
  function Reply(request: Json, ctx: Context): Option<Json> {
    match ProcessRequest(request, ctx)
    case Ok(response) => response
    case Err(_) => None
  }

  /** The request parts a response depends on. */
  predicate WellFormed(request: Json) {
    request.JObj? &&
    var params := Get(request.fields, "params", JObj(map[]));
    params.JObj? && IsPyInt(Get(params.fields, "id", JNull))
  }

  function MethodOf(request: Json): Json
    requires request.JObj?
  {
    Get(request.fields, "method", JStr(""))
  }

  /** A reply is sent exactly for a well-formed request naming one of the four supported methods. */
  lemma ReplyIffSupported(request: Json, ctx: Context)
    ensures Reply(request, ctx).Some? <==>
      WellFormed(request) && exists i :: 0 <= i < |SupportedMethods| && MethodOf(request) == JStr(SupportedMethods[i])
  {
    if WellFormed(request) {
      var m := MethodOf(request);
      if m == JStr("EM.GetStatus") {
        assert m == JStr(SupportedMethods[0]);
      } else if m == JStr("EM1.GetStatus") {
        assert m == JStr(SupportedMethods[1]);
      } else if m == JStr("Shelly.GetDeviceInfo") {
        assert m == JStr(SupportedMethods[2]);
      } else if m == JStr("EM.GetCTTypes") {
        assert m == JStr(SupportedMethods[3]);
      }
    }
  }

  /** Every reply echoes the request id (0 when absent), names the device as source and "unknown" as destination. */
  lemma ReplyEnvelope(request: Json, ctx: Context)
    requires Reply(request, ctx).Some?
    ensures var r := Reply(request, ctx).value;
      request.JObj? && r.JObj? &&
      r.fields.Keys == {"id", "src", "dst", "result"} &&
      r.fields["id"] == Get(request.fields, "id", JInt(0)) &&
      r.fields["src"] == JStr(ctx.deviceId) && r.fields["dst"] == JStr("unknown")
  {
  }

  /**
   * The EM reply carries the enforced raw powers even when the status
   * reports a meter failure and every other reading is 0.
   */
  lemma EmResultRawPowers(ctx: Context)
    ensures EmResult(ctx).a.actPower == FormatPower(ActivePower(ctx.data.phaseA))
    ensures EmResult(ctx).b.actPower == FormatPower(ActivePower(ctx.data.phaseB))
    ensures EmResult(ctx).c.actPower == FormatPower(ActivePower(ctx.data.phaseC))
    ensures EmResult(ctx).totalActPower == FormatPower(TotalPower(ctx.data))
    ensures EmResult(ctx).meterFailure <==> NoData(ctx.data, ctx.now)
    ensures NoData(ctx.data, ctx.now) ==>
      EmResult(ctx).a.voltage == 0.0 && EmResult(ctx).a.current == 0.0 && EmResult(ctx).totalCurrent == 0.0 &&
      EmResult(ctx).a.actPower != 0.0 && EmResult(ctx).totalActPower != 0.0
  {
    FormatPowerNeverWhole(ActivePower(ctx.data.phaseA));
    FormatPowerNeverWhole(TotalPower(ctx.data));
  }

  /** EM1.GetStatus reports component 0 and the enforced total; EM.GetCTTypes the two clamp types. */
  lemma Em1AndCtTypes(requestId: Json, ctx: Context)
    ensures Em1Response(requestId, ctx).fields["result"] == JObj(map["id" := JInt(0), "act_power" := JNum(FormatPower(TotalPower(ctx.data)))])
    ensures !IsInteger(Em1Response(requestId, ctx).fields["result"].fields["act_power"].r)
    ensures CtTypesResponse(requestId, ctx).fields["result"].fields["types"] == JArr([JStr("120A"), JStr("50A")])
  {
    FormatPowerNeverWhole(TotalPower(ctx.data));
  }

  // ---------------------------------------------------------------------
  // The server object: what the responses are built from

  class UdpServer {
    const device: ShellyDevice.ShellyDevice
    const dataManager: DataManager

    constructor (device: ShellyDevice.ShellyDevice, dataManager: DataManager)
      ensures this.device == device && this.dataManager == dataManager
    {
      this.device := device;
      this.dataManager := dataManager;
    }

    /** What a request handled at time `now` sees: the device's id and info record, and the data manager's snapshot. */
    function ContextAt(now: real): Context
      reads device, dataManager
    {
      Context(device.deviceId, device.DeviceInfo(), dataManager.data, now)
    }
  }

  /**
   * Shelly.GetDeviceInfo answers the device's own info record, sent from
   * the device's id; the EM replies are built from the data manager's
   * current snapshot.
   */
  lemma DeviceInfoIsDevices(server: UdpServer, requestId: Json, now: real)
    ensures var r := DeviceInfoResponse(requestId, server.ContextAt(now));
      r.fields["result"] == JObj(server.device.DeviceInfo()) && r.fields["src"] == JStr(server.device.deviceId)
    ensures Em1Response(requestId, server.ContextAt(now)).fields["result"].fields["act_power"] ==
      JNum(FormatPower(TotalPower(server.dataManager.data)))
    ensures EmResult(server.ContextAt(now)).meterFailure <==> NoData(server.dataManager.data, now)
  {
  }
}
