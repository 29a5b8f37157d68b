/**
 * The Home Assistant REST client: how one answer of
 * `GET <base>/api/states/<entity>` is turned into a reading, and the
 * small connection state (`connected`, last error) that the answers drive.
 * The HTTP exchange itself is an input: a Response value per request.
 */
module HomeAssistant {
  import opened Common

  /**
   * What one request produced: a transport failure (no answer), or an
   * answer with its status code and its body parsed as JSON (None when
   * the body is not JSON).
   */
  datatype Response = RequestFailed(reason: string) | Answer(status: int, body: Option<Json>)

  /** The error text the client remembers: "HTTP error: <code>", "Request error: ...", "Value error: ...". */
  datatype LastError = HttpStatusError(code: int) | RequestError(reason: string) | ValueParseError

  datatype ClientState = ClientState(connected: bool, lastError: Option<LastError>)

  /** A call's result together with the client state after it. */
  datatype Reply<T> = Reply(result: T, after: ClientState)

  /** A reading with its unit: raw value, unit as reported, value in W / Wh, and the entity's last-updated stamp. */
  datatype EntityValue = EntityValue(value: Option<real>, unit: Json, converted: Option<real>, lastUpdated: Json)

  const NoEntityValue := EntityValue(None, JNull, None, JNull)

  /** Units that are scaled to W and Wh. */
  const UnitConversions: map<string, real> := map["kW" := 1000.0, "MW" := 1000000.0, "kWh" := 1000.0, "MWh" := 1000000.0]

  /** `raise_for_status` accepts exactly the 2xx codes. */
  predicate IsSuccess(status: int) {
    200 <= status < 300
  }

  /** `state in ("unavailable", "unknown", None)`; a missing state reads as None. */
  predicate Unavailable(state: Json) {
    state == JStr("unavailable") || state == JStr("unknown") || state == JNull
  }

  /**
   * Python's `float(state)`: numbers and bools convert, strings go through
   * the given parser (ValueError when it refuses), other values raise
   * TypeError.
   */
  function FloatOf(state: Json, parseFloat: string -> Option<real>): (r: Result<real, PyError>)
    ensures state.JInt? ==> r == Ok(state.i as real)
    ensures state.JNum? ==> r == Ok(state.r)
    ensures state.JStr? ==> (r.Ok? <==> parseFloat(state.s).Some?)
    ensures state.JStr? && r.Err? ==> r.error == ValueError
    ensures (state.JArr? || state.JObj? || state.JNull?) ==> r == Err(TypeError)
  {
    match state
    case JBool(b) => Ok(if b then 1.0 else 0.0)
    case JInt(i) => Ok(i as real)
    case JNum(x) => Ok(x)
    case JStr(s) => if parseFloat(s).Some? then Ok(parseFloat(s).value) else Err(ValueError)
    case _ => Err(TypeError)
  }

  /**
   * `unit in UNIT_CONVERSIONS` and the factor: a listed unit gives its
   * factor, any other hashable value none, a list or dict TypeError.
   */
  function Factor(unit: Json): (r: Result<Option<real>, PyError>)
    ensures unit.JStr? && unit.s in UnitConversions ==> r == Ok(Some(UnitConversions[unit.s]))
    ensures r.Ok? && r.value.Some? ==> unit.JStr? && unit.s in UnitConversions
    ensures r.Err? <==> unit.JArr? || unit.JObj?
  {
    if unit.JArr? || unit.JObj? then Err(TypeError)
    else if unit.JStr? && unit.s in UnitConversions then Ok(Some(UnitConversions[unit.s]))
    else Ok(None)
  }

  /** Scales `v` by the unit's factor, if it has one. */
  function Convert(v: real, factor: Option<real>): real {
    if factor.Some? then v * factor.value else v
  }

  /**
   * One `get_value` call as a transition on the client state. `Err` is an
   * exception the method does not catch (a body that is not a dict, an
   * unconvertible list or dict state, a non-dict `attributes`, an
   * unhashable unit).
   */
  function GetValueStep(st: ClientState, entityId: string, autoConvert: bool, resp: Response,
                        parseFloat: string -> Option<real>): Reply<Result<Option<real>, PyError>>
  {
    if entityId == "" then Reply(Ok(None), st)
    else match resp
      case RequestFailed(reason) => Reply(Ok(None), ClientState(false, Some(RequestError(reason))))
      case Answer(status, body) =>
        if !IsSuccess(status) then Reply(Ok(None), st.(lastError := Some(HttpStatusError(status))))
        else if body.None? then Reply(Ok(None), st.(lastError := Some(ValueParseError)))
        else if !body.value.JObj? then Reply(Err(AttributeError), st)
        else
          var data := body.value.fields;
          var state := Get(data, "state", JNull);
          if Unavailable(state) then Reply(Ok(None), st)
          else
            var live := ClientState(true, None);
            match FloatOf(state, parseFloat)
            case Err(e) =>
              if e == ValueError then Reply(Ok(None), live.(lastError := Some(ValueParseError)))
              else Reply(Err(e), live)
            case Ok(v) =>
              if !autoConvert then Reply(Ok(Some(v)), live)
              else
                var attributes := Get(data, "attributes", JObj(map[]));
                if !attributes.JObj? then Reply(Err(AttributeError), live)
                else match Factor(Get(attributes.fields, "unit_of_measurement", JStr("")))
                  case Err(e) => Reply(Err(e), live)
                  case Ok(f) => Reply(Ok(Some(Convert(v, f))), live)
  }

  /**
   * One `get_entity_with_unit` call. Every exception is swallowed into the
   * empty value; only an available state touches the state, by setting
   * `connected`.
   */
  function EntityWithUnitStep(st: ClientState, entityId: string, resp: Response,
                              parseFloat: string -> Option<real>): Reply<EntityValue>
  {
    if entityId == "" || resp.RequestFailed? || !IsSuccess(resp.status) || resp.body.None? || !resp.body.value.JObj? then
      Reply(NoEntityValue, st)
    else
      var data := resp.body.value.fields;
      var state := Get(data, "state", JNull);
      if Unavailable(state) then Reply(NoEntityValue, st)
      else
        var live := st.(connected := true);
        match FloatOf(state, parseFloat)
        case Err(_) => Reply(NoEntityValue, live)
        case Ok(v) =>
          var attributes := Get(data, "attributes", JObj(map[]));
          if !attributes.JObj? then Reply(NoEntityValue, live)
          else
            var unit := Get(attributes.fields, "unit_of_measurement", JNull);
            match Factor(unit)
            case Err(_) => Reply(NoEntityValue, live)
            case Ok(f) => Reply(EntityValue(Some(v), unit, Some(Convert(v, f)), Get(data, "last_updated", JNull)), live)
  }

  /** The base URL: trailing slashes removed, and "http://" upgraded to "https://" when HTTPS is asked for. */
  function NormalizeUrl(url: string, useHttps: bool): string {
    var base := RStrip(url, '/');
    if useHttps && StartsWith(base, "http://") then "https://" + base[7..] else base
  }

  // ---------------------------------------------------------------------
  // Properties of the answer interpretation

  /** An empty entity id sends nothing and changes nothing. */
  lemma EmptyEntityId(st: ClientState, autoConvert: bool, resp: Response, parseFloat: string -> Option<real>)
    ensures GetValueStep(st, "", autoConvert, resp, parseFloat) == Reply(Ok(None), st)
    ensures EntityWithUnitStep(st, "", resp, parseFloat) == Reply(NoEntityValue, st)
  {
  }

  /** An unavailable, unknown or missing state yields no value and leaves the state as it was. */
  lemma UnavailableChangesNothing(st: ClientState, entityId: string, autoConvert: bool, data: map<string, Json>,
                                  status: int, parseFloat: string -> Option<real>)
    requires IsSuccess(status)
    requires Unavailable(Get(data, "state", JNull))
    ensures GetValueStep(st, entityId, autoConvert, Answer(status, Some(JObj(data))), parseFloat) == Reply(Ok(None), st)
    ensures EntityWithUnitStep(st, entityId, Answer(status, Some(JObj(data))), parseFloat) == Reply(NoEntityValue, st)
  {
  }

  /**
   * How `get_value` moves the connected flag: false after a transport
   * failure, unchanged after an HTTP status error, true after any available
   * state (even one that then fails to parse).
   */
  lemma ConnectedRule(st: ClientState, entityId: string, autoConvert: bool, resp: Response, parseFloat: string -> Option<real>)
    requires entityId != ""
    ensures var r := GetValueStep(st, entityId, autoConvert, resp, parseFloat);
      (resp.RequestFailed? ==> !r.after.connected && r.after.lastError == Some(RequestError(resp.reason))) &&
      (resp.Answer? && !IsSuccess(resp.status) ==>
        r.after.connected == st.connected && r.after.lastError == Some(HttpStatusError(resp.status))) &&
      ((resp.Answer? && IsSuccess(resp.status) && resp.body.Some? && resp.body.value.JObj? &&
        !Unavailable(Get(resp.body.value.fields, "state", JNull))) ==> r.after.connected)
  {
  }

  /**
   * A value is returned only from an available state, and then the last
   * error is cleared and the value is the parsed state scaled by its
   * unit's factor (or unscaled when conversion is off).
   */
  lemma ValueIsConverted(st: ClientState, entityId: string, autoConvert: bool, resp: Response, parseFloat: string -> Option<real>)
    requires GetValueStep(st, entityId, autoConvert, resp, parseFloat).result.Ok?
    requires GetValueStep(st, entityId, autoConvert, resp, parseFloat).result.value.Some?
    ensures resp.Answer? && IsSuccess(resp.status) && resp.body.Some? && resp.body.value.JObj?
    ensures var data := resp.body.value.fields;
      var v := FloatOf(Get(data, "state", JNull), parseFloat);
      var r := GetValueStep(st, entityId, autoConvert, resp, parseFloat);
      v.Ok? && r.after == ClientState(true, None) &&
      (!autoConvert ==> r.result.value.value == v.value) &&
      (autoConvert ==>
        var attributes := Get(data, "attributes", JObj(map[]));
        attributes.JObj? &&
        var unit := Get(attributes.fields, "unit_of_measurement", JStr(""));
        r.result.value.value == (if unit.JStr? && unit.s in UnitConversions then v.value * UnitConversions[unit.s] else v.value))
  {
    var data := resp.body.value.fields;
    var v := FloatOf(Get(data, "state", JNull), parseFloat);
    if autoConvert {
      var attributes := Get(data, "attributes", JObj(map[]));
      var unit := Get(attributes.fields, "unit_of_measurement", JStr(""));
      assert Factor(unit).Ok?;
    }
  }

  /** `get_entity_with_unit` never clears or sets the last error and never drops the connection. */
  lemma EntityWithUnitKeepsError(st: ClientState, entityId: string, resp: Response, parseFloat: string -> Option<real>)
    ensures var r := EntityWithUnitStep(st, entityId, resp, parseFloat);
      r.after.lastError == st.lastError && (st.connected ==> r.after.connected)
  {
  }

  /**
   * The two readers agree: when the unit-aware reader finds a value, the
   * converting reader returns the same converted value.
   */
  lemma ReadersAgree(st: ClientState, entityId: string, resp: Response, parseFloat: string -> Option<real>)
    requires EntityWithUnitStep(st, entityId, resp, parseFloat).result.value.Some?
    ensures GetValueStep(st, entityId, true, resp, parseFloat).result == Ok(EntityWithUnitStep(st, entityId, resp, parseFloat).result.converted)
  {
    var data := resp.body.value.fields;
    var attributes := Get(data, "attributes", JObj(map[]));
    var u1 := Get(attributes.fields, "unit_of_measurement", JNull);
    var u2 := Get(attributes.fields, "unit_of_measurement", JStr(""));
    assert Factor(u1).Ok?;
    if "unit_of_measurement" !in attributes.fields {
      assert Factor(u1) == Ok(None) == Factor(u2);
    }
  }

  /**
   * The normalised URL never ends in '/'. With HTTPS asked for, a
   * stripped "http://" URL has that scheme replaced by "https://" once and
   * the rest kept, and any other URL is only stripped; without HTTPS the
   * URL is only stripped.
   */
  lemma NormalizeUrlShape(url: string, useHttps: bool)
    ensures var u := NormalizeUrl(url, useHttps); u == [] || u[|u| - 1] != '/'
    ensures useHttps ==> !StartsWith(NormalizeUrl(url, useHttps), "http://")
    ensures useHttps && StartsWith(RStrip(url, '/'), "http://") ==>
      var u := NormalizeUrl(url, useHttps);
      StartsWith(u, "https://") && u[8..] == RStrip(url, '/')[7..]
    ensures useHttps && !StartsWith(RStrip(url, '/'), "http://") ==> NormalizeUrl(url, useHttps) == RStrip(url, '/')
    ensures !useHttps ==> NormalizeUrl(url, useHttps) == RStrip(url, '/')
  {
    var base := RStrip(url, '/');
    if useHttps && StartsWith(base, "http://") {
      assert base[6] == '/';
      assert |base| > 7;
      var u := "https://" + base[7..];
      assert u[|u| - 1] == base[|base| - 1];
      assert u[4] == 's';
    }
  }

  /** Normalising twice gives the same URL as normalising once. */
  lemma NormalizeUrlIdempotent(url: string, useHttps: bool)
    ensures NormalizeUrl(NormalizeUrl(url, useHttps), useHttps) == NormalizeUrl(url, useHttps)
  {
    NormalizeUrlShape(url, useHttps);
    var u := NormalizeUrl(url, useHttps);
    assert RStrip(u, '/') == u;
  }

  // ---------------------------------------------------------------------
  // The client object

  class HomeAssistantClient {
    const baseUrl: string
    const token: string
    var connected: bool
    var lastError: Option<LastError>

    function State(): ClientState
      reads this
    {
      ClientState(connected, lastError)
    }

    constructor (url: string, token: string, useHttps: bool)
      ensures baseUrl == NormalizeUrl(url, useHttps) && this.token == token
      ensures !connected && lastError == None
    {
      var base := RStrip(url, '/');
      if useHttps && StartsWith(base, "http://") {
        base := "https://" + base[7..];
      }
      baseUrl := base;
      this.token := token;
      connected := false;
      lastError := None;
    }

    /** Whether the last completed request found the server reachable. */
    function IsConnected(): bool
      reads this
    {
      connected
    }

    /** `get_value`: `upstream` answers the request for `entityId`. */
    method GetValue(entityId: string, autoConvert: bool, upstream: string -> Response, parseFloat: string -> Option<real>)
      returns (r: Result<Option<real>, PyError>)
      modifies this
      ensures Reply(r, State()) == GetValueStep(old(State()), entityId, autoConvert, upstream(entityId), parseFloat)
    {
      if entityId == "" {
        return Ok(None);
      }
      var resp := upstream(entityId);
      if resp.RequestFailed? {
        connected := false;
        lastError := Some(RequestError(resp.reason));
        return Ok(None);
      }
      if !IsSuccess(resp.status) {
        lastError := Some(HttpStatusError(resp.status));
        return Ok(None);
      }
      if resp.body.None? {
        lastError := Some(ValueParseError);
        return Ok(None);
      }
      if !resp.body.value.JObj? {
        return Err(AttributeError);
      }
      var data := resp.body.value.fields;
      var state := Get(data, "state", JNull);
      if Unavailable(state) {
        return Ok(None);
      }
      connected := true;
      lastError := None;
      var value := FloatOf(state, parseFloat);
      if value.Err? {
        if value.error == ValueError {
          lastError := Some(ValueParseError);
          return Ok(None);
        }
        return Err(value.error);
      }
      var v := value.value;
      if autoConvert {
        var attributes := Get(data, "attributes", JObj(map[]));
        if !attributes.JObj? {
          return Err(AttributeError);
        }
        var factor := Factor(Get(attributes.fields, "unit_of_measurement", JStr("")));
        if factor.Err? {
          return Err(factor.error);
        }
        v := Convert(v, factor.value);
      }
      return Ok(Some(v));
    }

    /** `get_entity_with_unit`: never raises; failures give the empty value. */
    method GetEntityWithUnit(entityId: string, upstream: string -> Response, parseFloat: string -> Option<real>)
      returns (r: EntityValue)
      modifies this
      ensures Reply(r, State()) == EntityWithUnitStep(old(State()), entityId, upstream(entityId), parseFloat)
    {
      if entityId == "" {
        return NoEntityValue;
      }
      var resp := upstream(entityId);
      if resp.RequestFailed? || !IsSuccess(resp.status) || resp.body.None? || !resp.body.value.JObj? {
        return NoEntityValue;
      }
      var data := resp.body.value.fields;
      var state := Get(data, "state", JNull);
      if Unavailable(state) {
        return NoEntityValue;
      }
      connected := true;
      var value := FloatOf(state, parseFloat);
      if value.Err? {
        return NoEntityValue;
      }
      var attributes := Get(data, "attributes", JObj(map[]));
      if !attributes.JObj? {
        return NoEntityValue;
      }
      var unit := Get(attributes.fields, "unit_of_measurement", JNull);
      var factor := Factor(unit);
      if factor.Err? {
        return NoEntityValue;
      }
      return EntityValue(Some(value.value), unit, Some(Convert(value.value, factor.value)), Get(data, "last_updated", JNull));
    }
  }
}
