/**
 * The meter snapshot and its refresh cycle: per-phase arithmetic, the
 * staleness rule, the fail-safe EM status shared by all protocols, and one
 * refresh step that polls Home Assistant through the client, tracks each
 * power entity's last-updated stamp, and either refreshes only the cached
 * timestamp or replaces the snapshot.
 */
module DataManager {
  import opened Common
  import opened HomeAssistant
  import Settings
  import DsmrDiscovery

  // ---------------------------------------------------------------------
  // Snapshot values

  /** One phase. `power` is consumption, `powerReturned` production, both in W. */
  datatype PhaseData = PhaseData(
    voltage: real,
    current: real,
    power: real,
    powerReturned: real,
    apparentPower: real,
    powerFactor: real,
    frequency: real,
    energyTotal: real,
    energyReturnedTotal: real)

  const DefaultPhase := PhaseData(230.0, 0.0, 0.0, 0.0, 0.0, 1.0, 50.0, 0.0, 0.0)

  /** The whole meter: three phases, energy counters (Wh), the time of the reading and a validity flag. */
  datatype MeterData = MeterData(
    phaseA: PhaseData,
    phaseB: PhaseData,
    phaseC: PhaseData,
    totalEnergy: real,
    totalEnergyReturned: real,
    timestamp: real,
    isValid: bool)

  const DefaultMeter := MeterData(DefaultPhase, DefaultPhase, DefaultPhase, 0.0, 0.0, 0.0, false)

  /** Seconds after which a snapshot is no longer trusted. */
  const DataStaleTimeout: real := 120.0

  function Abs(x: real): real {
    if x < 0.0 then -x else x
  }

  function Min(a: real, b: real): real {
    if a <= b then a else b
  }

  /** Net active power: consumption minus production. */
  function ActivePower(p: PhaseData): real {
    p.power - p.powerReturned
  }

  function TotalPower(m: MeterData): real {
    ActivePower(m.phaseA) + ActivePower(m.phaseB) + ActivePower(m.phaseC)
  }

  function TotalCurrent(m: MeterData): real {
    m.phaseA.current + m.phaseB.current + m.phaseC.current
  }

  function TotalApparentPower(m: MeterData): real {
    m.phaseA.apparentPower + m.phaseB.apparentPower + m.phaseC.apparentPower
  }

  /** A snapshot is stale when it carries a time and that time is more than 120 s before `now`. */
  predicate IsStale(m: MeterData, now: real) {
    m.timestamp > 0.0 && now - m.timestamp > DataStaleTimeout
  }

  /**
   * `calculate_derived`: a zero apparent power is derived as V times |I|,
   * signed like the active power; then a non-zero apparent power fixes the
   * power factor at min(1, |active| / |apparent|).
   */
  function CalculateDerived(p: PhaseData): PhaseData {
    var apparent :=
      if p.apparentPower == 0.0 && p.voltage > 0.0 then
        (if ActivePower(p) < 0.0 then -(p.voltage * Abs(p.current)) else p.voltage * Abs(p.current))
      else p.apparentPower;
    var pf := if Abs(apparent) > 0.0 then Min(1.0, Abs(ActivePower(p)) / Abs(apparent)) else p.powerFactor;
    p.(apparentPower := apparent, powerFactor := pf)
  }

  function PhaseAt(m: MeterData, i: int): PhaseData
    requires 0 <= i < 3
  {
    if i == 0 then m.phaseA else if i == 1 then m.phaseB else m.phaseC
  }

  function WithPhase(m: MeterData, i: int, p: PhaseData): (r: MeterData)
    requires 0 <= i < 3
    ensures PhaseAt(r, i) == p
    ensures forall j :: 0 <= j < 3 && j != i ==> PhaseAt(r, j) == PhaseAt(m, j)
    ensures r.totalEnergy == m.totalEnergy && r.totalEnergyReturned == m.totalEnergyReturned
    ensures r.timestamp == m.timestamp && r.isValid == m.isValid
  {
    if i == 0 then m.(phaseA := p) else if i == 1 then m.(phaseB := p) else m.(phaseC := p)
  }

  // ---------------------------------------------------------------------
  // Properties of the arithmetic

  /** The totals are plain signed sums; e.g. 1000 + 800 + (600 - 200) = 2200 W. */
  lemma TotalsAreSums(m: MeterData)
    ensures TotalPower(m) == (m.phaseA.power + m.phaseB.power + m.phaseC.power)
                           - (m.phaseA.powerReturned + m.phaseB.powerReturned + m.phaseC.powerReturned)
    ensures TotalPower(m.(phaseA := m.phaseA.(power := 1000.0, powerReturned := 0.0),
                          phaseB := m.phaseB.(power := 800.0, powerReturned := 0.0),
                          phaseC := m.phaseC.(power := 600.0, powerReturned := 200.0))) == 2200.0
  {
  }

  /** A non-zero apparent power is never overwritten; the other measured fields are never touched. */
  lemma CalculateDerivedKeeps(p: PhaseData)
    ensures var q := CalculateDerived(p);
      (p.apparentPower != 0.0 ==> q.apparentPower == p.apparentPower) &&
      q.voltage == p.voltage && q.current == p.current && q.power == p.power &&
      q.powerReturned == p.powerReturned && q.frequency == p.frequency &&
      q.energyTotal == p.energyTotal && q.energyReturnedTotal == p.energyReturnedTotal
  {
  }

  /** A zero apparent power with a positive voltage becomes V times |I|, negative exactly when the active power is. */
  lemma CalculateDerivedApparent(p: PhaseData)
    requires p.apparentPower == 0.0 && p.voltage > 0.0
    ensures Abs(CalculateDerived(p).apparentPower) == p.voltage * Abs(p.current)
    ensures p.current != 0.0 ==> (CalculateDerived(p).apparentPower < 0.0 <==> ActivePower(p) < 0.0)
  {
    var m := p.voltage * Abs(p.current);
    assert m >= 0.0;
    if p.current != 0.0 {
      assert Abs(p.current) > 0.0;
      assert m > 0.0;
    }
  }

  /**
   * The power factor lies in [0, 1] once the apparent power is non-zero,
   * and is left as it was while the apparent power stays zero.
   */
  lemma PowerFactorBounds(p: PhaseData)
    ensures var q := CalculateDerived(p);
      (q.apparentPower != 0.0 ==>
         0.0 <= q.powerFactor <= 1.0 && q.powerFactor == Min(1.0, Abs(ActivePower(q)) / Abs(q.apparentPower))) &&
      (q.apparentPower == 0.0 ==> q.powerFactor == p.powerFactor)
  {
    var q := CalculateDerived(p);
    if q.apparentPower != 0.0 {
      assert Abs(q.apparentPower) > 0.0;
      DivNonNegative(Abs(ActivePower(q)), Abs(q.apparentPower));
    }
  }

  lemma DivNonNegative(a: real, b: real)
    requires a >= 0.0 && b > 0.0
    ensures a / b >= 0.0
  {
  }

  /** Deriving twice gives what deriving once gave. */
  lemma CalculateDerivedIdempotent(p: PhaseData)
    ensures CalculateDerived(CalculateDerived(p)) == CalculateDerived(p)
  {
    var q := CalculateDerived(p);
    if q.apparentPower == 0.0 && q.voltage > 0.0 {
      // then the first pass derived a zero magnitude: |I| is zero
      assert p.voltage * Abs(p.current) == 0.0;
      assert Abs(p.current) == 0.0;
    }
  }

  /** Staleness needs a recorded time: a snapshot without one is never stale; a stale one stays stale as time goes on. */
  lemma StaleRule(m: MeterData, now: real, later: real)
    ensures m.timestamp == 0.0 ==> !IsStale(m, now)
    ensures IsStale(m, now) && later >= now ==> IsStale(m, later)
    ensures m.timestamp > 0.0 && now <= m.timestamp + DataStaleTimeout ==> !IsStale(m, now)
  {
  }

  // ---------------------------------------------------------------------
  // The EM status

  /** The shown values of one phase. */
  datatype PhaseStatus = PhaseStatus(current: real, voltage: real, actPower: real, aprtPower: real, pf: real, freq: real)

  const ZeroPhaseStatus := PhaseStatus(0.0, 0.0, 0.0, 0.0, 0.0, 0.0)

  /** The EM component status; `meterFailure` is the `power_meter_failure` entry of its error list. */
  datatype EmStatus = EmStatus(
    id: Json,
    a: PhaseStatus,
    b: PhaseStatus,
    c: PhaseStatus,
    totalCurrent: real,
    totalActPower: real,
    totalAprtPower: real,
    meterFailure: bool)

  /** A rounded value, or 0.0 when the snapshot may not be shown. */
  function Shown(noData: bool, x: real, digits: nat): real {
    if noData then 0.0 else RoundDigits(x, digits)
  }

  /** `not is_valid or is_stale`: whether the EM status hides the readings and reports a meter failure. */
  predicate NoData(m: MeterData, now: real) {
    !m.isValid || IsStale(m, now)
  }

  /** Currents are rounded to 3 digits, power factors to 2, everything else to 1. */
  function ShownPhase(noData: bool, p: PhaseData): PhaseStatus {
    PhaseStatus(Shown(noData, p.current, 3), Shown(noData, p.voltage, 1), Shown(noData, ActivePower(p), 1),
                Shown(noData, p.apparentPower, 1), Shown(noData, p.powerFactor, 2), Shown(noData, p.frequency, 1))
  }

  /** `build_em_status`: the EM component status of a snapshot. */
  function BuildEmStatus(m: MeterData, emId: Json, now: real): EmStatus {
    var nd := NoData(m, now);
    EmStatus(emId, ShownPhase(nd, m.phaseA), ShownPhase(nd, m.phaseB), ShownPhase(nd, m.phaseC),
             Shown(nd, TotalCurrent(m), 3), Shown(nd, TotalPower(m), 1), Shown(nd, TotalApparentPower(m), 1), nd)
  }

  /** The status as the JSON object the protocols send, in the field order of the device API. */
  function EmStatusJson(s: EmStatus): (r: map<string, Json>)
    ensures "errors" in r && (r["errors"] == JArr([JStr("power_meter_failure")]) <==> s.meterFailure)
  {
    map[
      "id" := s.id,
      "a_current" := JNum(s.a.current), "a_voltage" := JNum(s.a.voltage), "a_act_power" := JNum(s.a.actPower),
      "a_aprt_power" := JNum(s.a.aprtPower), "a_pf" := JNum(s.a.pf), "a_freq" := JNum(s.a.freq),
      "a_errors" := JArr([]),
      "b_current" := JNum(s.b.current), "b_voltage" := JNum(s.b.voltage), "b_act_power" := JNum(s.b.actPower),
      "b_aprt_power" := JNum(s.b.aprtPower), "b_pf" := JNum(s.b.pf), "b_freq" := JNum(s.b.freq),
      "b_errors" := JArr([]),
      "c_current" := JNum(s.c.current), "c_voltage" := JNum(s.c.voltage), "c_act_power" := JNum(s.c.actPower),
      "c_aprt_power" := JNum(s.c.aprtPower), "c_pf" := JNum(s.c.pf), "c_freq" := JNum(s.c.freq),
      "c_errors" := JArr([]),
      "n_current" := JNull,
      "n_errors" := JArr([]),
      "total_current" := JNum(s.totalCurrent),
      "total_act_power" := JNum(s.totalActPower),
      "total_aprt_power" := JNum(s.totalAprtPower),
      "user_calibrated_phase" := JArr([]),
      "errors" := if s.meterFailure then JArr([JStr("power_meter_failure")]) else JArr([])
    ]
  }

  /**
   * The status reports a meter failure exactly when the snapshot is
   * invalid or stale, and then every value reads 0.0; the id is echoed.
   */
  lemma EmStatusFailSafe(m: MeterData, emId: Json, now: real)
    ensures var s := BuildEmStatus(m, emId, now);
      (s.meterFailure <==> !m.isValid || IsStale(m, now)) && s.id == emId
    ensures var s := BuildEmStatus(m, emId, now);
      NoData(m, now) ==>
        s.a == ZeroPhaseStatus && s.b == ZeroPhaseStatus && s.c == ZeroPhaseStatus &&
        s.totalCurrent == 0.0 && s.totalActPower == 0.0 && s.totalAprtPower == 0.0
  {
  }

  /** Each shown value of a phase lies within half a unit of its last digit of the exact value. */
  predicate PhaseNear(s: PhaseStatus, p: PhaseData) {
    -0.0005 <= s.current - p.current <= 0.0005 &&
    -0.05 <= s.voltage - p.voltage <= 0.05 &&
    -0.05 <= s.actPower - ActivePower(p) <= 0.05 &&
    -0.05 <= s.aprtPower - p.apparentPower <= 0.05 &&
    -0.005 <= s.pf - p.powerFactor <= 0.005 &&
    -0.05 <= s.freq - p.frequency <= 0.05
  }

  lemma ShownPhaseNear(p: PhaseData)
    ensures PhaseNear(ShownPhase(false, p), p)
  {
    RoundNear(p.current, 3);
    RoundNear(p.voltage, 1);
    RoundNear(ActivePower(p), 1);
    RoundNear(p.apparentPower, 1);
    RoundNear(p.powerFactor, 2);
    RoundNear(p.frequency, 1);
  }

  /**
   * With a live snapshot every shown value is within half a unit of its
   * last digit of the exact value: currents to 3 digits, power factors to
   * 2, voltages, powers and frequencies to 1.
   */
  lemma EmStatusNearExact(m: MeterData, emId: Json, now: real)
    requires !NoData(m, now)
    ensures var s := BuildEmStatus(m, emId, now);
      PhaseNear(s.a, m.phaseA) && PhaseNear(s.b, m.phaseB) && PhaseNear(s.c, m.phaseC)
    ensures var s := BuildEmStatus(m, emId, now);
      -0.0005 <= s.totalCurrent - TotalCurrent(m) <= 0.0005 &&
      -0.05 <= s.totalActPower - TotalPower(m) <= 0.05 &&
      -0.05 <= s.totalAprtPower - TotalApparentPower(m) <= 0.05
  {
    ShownPhaseNear(m.phaseA);
    ShownPhaseNear(m.phaseB);
    ShownPhaseNear(m.phaseC);
    RoundNear(TotalCurrent(m), 3);
    RoundNear(TotalPower(m), 1);
    RoundNear(TotalApparentPower(m), 1);
  }

  lemma RoundNear(x: real, d: nat)
    requires d <= 3
    ensures d == 1 ==> -0.05 <= RoundDigits(x, d) - x <= 0.05
    ensures d == 2 ==> -0.005 <= RoundDigits(x, d) - x <= 0.005
    ensures d == 3 ==> -0.0005 <= RoundDigits(x, d) - x <= 0.0005
  {
    assert Pow10(0) == 1;
    assert Pow10(1) == 10 && Pow10(2) == 100 && Pow10(3) == 1000;
  }

  // ---------------------------------------------------------------------
  // One refresh cycle, as a specification

  /** What a cycle carries from call to call: the client state and the last-updated stamp per entity. */
  datatype Env = Env(client: ClientState, stamps: map<string, Json>)

  /** A partial cycle: it went through with a value, or an exception escaped. */
  datatype Step<T> = Done(value: T, env: Env) | Raised(error: PyError, env: Env)

  /** A power reading: the converted value, whether its stamp changed, and the environment after it. */
  datatype PowerRead = PowerRead(value: Option<real>, changed: bool, env: Env)

  /** One phase as filled by `_fetch_phase_data`, and whether any of its power stamps changed. */
  datatype PhaseRead = PhaseRead(phase: PhaseData, changed: bool)

  /** `get_value(id)` with unit conversion. */
  function ReadValue(env: Env, id: string, upstream: string -> Response, pf: string -> Option<real>): Step<Option<real>> {
    var r := GetValueStep(env.client, id, true, upstream(id), pf);
    if r.result.Err? then Raised(r.result.error, env.(client := r.after))
    else Done(r.result.value, env.(client := r.after))
  }

  /** `get_entity_with_unit(id)` with change detection against the stored stamp (None when absent). */
  function ReadPower(env: Env, id: string, upstream: string -> Response, pf: string -> Option<real>): (r: PowerRead)
    ensures r.changed ==> r.value.Some?
  {
    var ev := EntityWithUnitStep(env.client, id, upstream(id), pf);
    var env1 := env.(client := ev.after);
    if ev.result.converted.None? then PowerRead(None, false, env1)
    else if !PyEq(ev.result.lastUpdated, Get(env.stamps, id, JNull)) then
      PowerRead(ev.result.converted, true, env1.(stamps := env1.stamps[id := ev.result.lastUpdated]))
    else PowerRead(ev.result.converted, false, env1)
  }

  /** A power reading stored by sign: consumption when non-negative, else its magnitude as production. */
  function SplitPower(p: PhaseData, v: real): PhaseData {
    if v >= 0.0 then p.(power := v) else p.(powerReturned := -v)
  }

  /** The power-returned entity is polled only when configured and no negative power reading already set production. */
  predicate PollsReturned(cfg: Settings.PhaseConfig, afterPower: PhaseData) {
    cfg.powerReturned != "" && afterPower.powerReturned == 0.0
  }

  /** `_fetch_phase_data` on a fresh phase: voltage, current, power, then power returned. */
  function FetchPhaseSpec(env: Env, cfg: Settings.PhaseConfig, upstream: string -> Response, pf: string -> Option<real>): Step<PhaseRead> {
    match (if cfg.voltage != "" then ReadValue(env, cfg.voltage, upstream, pf) else Done(None, env))
    case Raised(e, env1) => Raised(e, env1)
    case Done(v, env1) =>
      var p1 := if v.Some? then DefaultPhase.(voltage := v.value) else DefaultPhase;
      match (if cfg.current != "" then ReadValue(env1, cfg.current, upstream, pf) else Done(None, env1))
      case Raised(e, env2) => Raised(e, env2)
      case Done(c, env2) =>
        var p2 := if c.Some? then p1.(current := c.value) else p1;
        var pw := if cfg.power != "" then ReadPower(env2, cfg.power, upstream, pf) else PowerRead(None, false, env2);
        var p3 := if pw.value.Some? then SplitPower(p2, pw.value.value) else p2;
        var rt := if PollsReturned(cfg, p3) then ReadPower(pw.env, cfg.powerReturned, upstream, pf) else PowerRead(None, false, pw.env);
        var p4 := if rt.value.Some? then p3.(powerReturned := rt.value.value) else p3;
        Done(PhaseRead(p4, pw.changed || rt.changed), rt.env)
  }

  /** The three phases in order; the cycle stops at the first escaped exception. */
  datatype PhasesRead = PhasesRead(phases: seq<PhaseData>, anyChanged: bool, hasPower: bool)

  function FetchPhasesSpec(env: Env, cfgs: seq<Settings.PhaseConfig>, upstream: string -> Response, pf: string -> Option<real>): (r: Step<PhasesRead>)
    ensures r.Done? ==> |r.value.phases| == |cfgs|
    decreases |cfgs|
  {
    if cfgs == [] then Done(PhasesRead([], false, false), env)
    else match FetchPhasesSpec(env, cfgs[..|cfgs| - 1], upstream, pf)
      case Raised(e, env1) => Raised(e, env1)
      case Done(acc, env1) =>
        var cfg := cfgs[|cfgs| - 1];
        match FetchPhaseSpec(env1, cfg, upstream, pf)
        case Raised(e, env2) => Raised(e, env2)
        case Done(pr, env2) =>
          Done(PhasesRead(acc.phases + [pr.phase], acc.anyChanged || pr.changed,
                          acc.hasPower || cfg.power != "" || cfg.powerReturned != ""), env2)
  }

  /** Once a prefix of the phases raised, the longer sequence raises the same way. */
  lemma {:induction false} RaisedSticks(env: Env, cfgs: seq<Settings.PhaseConfig>, k: nat,
                                         upstream: string -> Response, pf: string -> Option<real>)
    requires k <= |cfgs|
    requires FetchPhasesSpec(env, cfgs[..k], upstream, pf).Raised?
    ensures FetchPhasesSpec(env, cfgs, upstream, pf) == FetchPhasesSpec(env, cfgs[..k], upstream, pf)
    decreases |cfgs|
  {
    if k < |cfgs| {
      var init := cfgs[..|cfgs| - 1];
      assert init[..k] == cfgs[..k];
      RaisedSticks(env, init, k, upstream, pf);
    } else {
      assert cfgs[..k] == cfgs;
    }
  }

  /** The single-phase path: one power entity, split by sign into phase A. */
  function FetchSingleSpec(env: Env, powerEntity: string, upstream: string -> Response, pf: string -> Option<real>): PowerRead {
    if powerEntity != "" then ReadPower(env, powerEntity, upstream, pf) else PowerRead(None, false, env)
  }

  /** `x or 0` on an optional reading. */
  function OrZero(o: Option<real>): real {
    if o.Some? then o.value else 0.0
  }

  datatype EnergyTotals = EnergyTotals(delivered: real, returned: real)

  /**
   * The energy counters: the direct totals when configured, then for a
   * total still at 0 the sum of its two tariff readings (a missing reading
   * counting as 0).
   */
  function TotalsSpec(env: Env, t: Settings.TotalsConfig, upstream: string -> Response, pf: string -> Option<real>): Step<EnergyTotals> {
    match (if t.energyDelivered != "" then ReadValue(env, t.energyDelivered, upstream, pf) else Done(None, env))
    case Raised(e, env1) => Raised(e, env1)
    case Done(d, env1) =>
      match (if t.energyReturned != "" then ReadValue(env1, t.energyReturned, upstream, pf) else Done(None, env1))
      case Raised(e, env2) => Raised(e, env2)
      case Done(r, env2) =>
        match TariffSum(env2, OrZero(d), t.energyDeliveredTariff1, t.energyDeliveredTariff2, upstream, pf)
        case Raised(e, env3) => Raised(e, env3)
        case Done(delivered, env3) =>
          match TariffSum(env3, OrZero(r), t.energyReturnedTariff1, t.energyReturnedTariff2, upstream, pf)
          case Raised(e, env4) => Raised(e, env4)
          case Done(returned, env4) => Done(EnergyTotals(delivered, returned), env4)
  }

  /** A total that is still 0 is replaced by tariff 1 plus tariff 2. */
  function TariffSum(env: Env, total: real, tariff1: string, tariff2: string,
                     upstream: string -> Response, pf: string -> Option<real>): Step<real> {
    if total != 0.0 then Done(total, env)
    else match ReadValue(env, tariff1, upstream, pf)
      case Raised(e, env1) => Raised(e, env1)
      case Done(t1, env1) =>
        match ReadValue(env1, tariff2, upstream, pf)
        case Raised(e, env2) => Raised(e, env2)
        case Done(t2, env2) => Done(OrZero(t1) + OrZero(t2), env2)
  }

  /** Where the entity mapping points: three per-phase configs, or one single-phase power entity. */
  datatype Mode = ThreePhase(cfgs: seq<Settings.PhaseConfig>) | SinglePhase(powerEntity: string)

  /** The power part of a cycle: the fresh snapshot before totals, whether a stamp changed, whether power entities exist. */
  datatype PowerPart = PowerPart(meter: MeterData, anyChanged: bool, hasPower: bool)

  function PowerPartSpec(env: Env, mode: Mode, now: real, upstream: string -> Response, pf: string -> Option<real>): Step<PowerPart>
    requires mode.ThreePhase? ==> |mode.cfgs| == 3
  {
    var blank := DefaultMeter.(timestamp := now);
    match mode
    case ThreePhase(cfgs) =>
      (match FetchPhasesSpec(env, cfgs, upstream, pf)
       case Raised(e, env1) => Raised(e, env1)
       case Done(pr, env1) =>
         Done(PowerPart(blank.(phaseA := pr.phases[0], phaseB := pr.phases[1], phaseC := pr.phases[2]),
                        pr.anyChanged, pr.hasPower), env1))
    case SinglePhase(entity) =>
      var r := FetchSingleSpec(env, entity, upstream, pf);
      var meter := if r.value.Some? then blank.(phaseA := SplitPower(blank.phaseA, r.value.value)) else blank;
      Done(PowerPart(meter, r.changed, entity != ""), r.env)
  }

  /** How a cycle ended. */
  datatype FetchOutcome =
    | Skipped(env: Env)                 // nothing changed: only the cached timestamp moves to `now`
    | Replaced(data: MeterData, env: Env)
    | Failed(error: PyError, env: Env)  // an exception escaped; the cache is untouched

  /** The skip rule: no stamp changed, the cache is valid, and some power entity is configured. */
  predicate SkipsUpdate(cached: MeterData, p: PowerPart) {
    !p.anyChanged && cached.isValid && p.hasPower
  }

  /** The snapshot that replaces the cache: totals filled, derived values computed, validity from the client. */
  function Finish(p: PowerPart, t: EnergyTotals, env: Env): MeterData {
    p.meter.(phaseA := CalculateDerived(p.meter.phaseA),
             phaseB := CalculateDerived(p.meter.phaseB),
             phaseC := CalculateDerived(p.meter.phaseC),
             totalEnergy := t.delivered, totalEnergyReturned := t.returned,
             isValid := env.client.connected)
  }

  /** `_fetch_data` as a transition. */
  function FetchSpec(cached: MeterData, env: Env, mode: Mode, totals: Settings.TotalsConfig, now: real,
                     upstream: string -> Response, pf: string -> Option<real>): FetchOutcome
    requires mode.ThreePhase? ==> |mode.cfgs| == 3
  {
    match PowerPartSpec(env, mode, now, upstream, pf)
    case Raised(e, env1) => Failed(e, env1)
    case Done(p, env1) =>
      if SkipsUpdate(cached, p) then Skipped(env1)
      else match TotalsSpec(env1, totals, upstream, pf)
        case Raised(e, env2) => Failed(e, env2)
        case Done(t, env2) => Replaced(Finish(p, t, env2), env2)
  }

  // ---------------------------------------------------------------------
  // Properties of the cycle

  /**
   * A phase reports a change exactly when a polled power or power-returned
   * entity gave a value whose stamp differs from the stored one; the new
   * stamp is then stored.
   */
  lemma ReadPowerChange(env: Env, id: string, upstream: string -> Response, pf: string -> Option<real>)
    ensures var r := ReadPower(env, id, upstream, pf);
      var ev := EntityWithUnitStep(env.client, id, upstream(id), pf).result;
      (r.changed <==> ev.converted.Some? && !PyEq(ev.lastUpdated, Get(env.stamps, id, JNull))) &&
      (r.changed ==> r.env.stamps == env.stamps[id := ev.lastUpdated]) &&
      (!r.changed ==> r.env.stamps == env.stamps)
  {
  }

  /** With nothing configured a phase keeps every default (230 V, 0 A) and touches nothing. */
  lemma UnconfiguredPhaseDefaults(env: Env, upstream: string -> Response, pf: string -> Option<real>)
    ensures FetchPhaseSpec(env, Settings.EmptyPhase, upstream, pf) == Done(PhaseRead(DefaultPhase, false), env)
  {
  }

  /**
   * A negative power reading is stored as production of the same
   * magnitude, and the power-returned entity is then not polled: the
   * outcome does not depend on how that entity would answer.
   */
  lemma NegativePowerSplit(env: Env, cfg: Settings.PhaseConfig, up1: string -> Response, up2: string -> Response,
                           pf: string -> Option<real>)
    requires cfg.power != ""
    requires forall id :: id != cfg.powerReturned ==> up1(id) == up2(id)
    requires cfg.voltage != cfg.powerReturned && cfg.current != cfg.powerReturned && cfg.power != cfg.powerReturned
    requires var r := FetchPhaseSpec(env, cfg, up1, pf); r.Done?
    requires var pw := ReadPower(StepEnvAfterCurrent(env, cfg, up1, pf), cfg.power, up1, pf);
      pw.value.Some? && pw.value.value < 0.0
    ensures FetchPhaseSpec(env, cfg, up1, pf) == FetchPhaseSpec(env, cfg, up2, pf)
    ensures var pw := ReadPower(StepEnvAfterCurrent(env, cfg, up1, pf), cfg.power, up1, pf);
      FetchPhaseSpec(env, cfg, up1, pf).value.phase.powerReturned == -pw.value.value &&
      FetchPhaseSpec(env, cfg, up1, pf).value.phase.power == 0.0
  {
    assert up1(cfg.voltage) == up2(cfg.voltage);
    assert up1(cfg.current) == up2(cfg.current);
    assert up1(cfg.power) == up2(cfg.power);
  }

  /** The environment after the voltage and current readings of a phase (the point where power is read). */
  function StepEnvAfterCurrent(env: Env, cfg: Settings.PhaseConfig, upstream: string -> Response, pf: string -> Option<real>): Env {
    match (if cfg.voltage != "" then ReadValue(env, cfg.voltage, upstream, pf) else Done(None, env))
    case Raised(_, env1) => env1
    case Done(_, env1) =>
      match (if cfg.current != "" then ReadValue(env1, cfg.current, upstream, pf) else Done(None, env1))
      case Raised(_, env2) => env2
      case Done(_, env2) => env2
  }

  /** The skip path: when nothing changed on a valid cache with power entities, the cycle only refreshes the timestamp. */
  lemma SkipPath(cached: MeterData, env: Env, mode: Mode, totals: Settings.TotalsConfig, now: real,
                 upstream: string -> Response, pf: string -> Option<real>)
    requires mode.ThreePhase? ==> |mode.cfgs| == 3
    requires PowerPartSpec(env, mode, now, upstream, pf).Done?
    ensures var p := PowerPartSpec(env, mode, now, upstream, pf);
      FetchSpec(cached, env, mode, totals, now, upstream, pf).Skipped? <==> SkipsUpdate(cached, p.value)
  {
  }

  /**
   * A replacing cycle installs a snapshot taken at `now`, valid exactly
   * when the client ended the cycle connected, with every phase already
   * derived (deriving again changes nothing).
   */
  lemma ReplacedSnapshot(cached: MeterData, env: Env, mode: Mode, totals: Settings.TotalsConfig, now: real,
                         upstream: string -> Response, pf: string -> Option<real>)
    requires mode.ThreePhase? ==> |mode.cfgs| == 3
    requires FetchSpec(cached, env, mode, totals, now, upstream, pf).Replaced?
    ensures var o := FetchSpec(cached, env, mode, totals, now, upstream, pf);
      o.data.timestamp == now && o.data.isValid == o.env.client.connected &&
      CalculateDerived(o.data.phaseA) == o.data.phaseA &&
      CalculateDerived(o.data.phaseB) == o.data.phaseB &&
      CalculateDerived(o.data.phaseC) == o.data.phaseC
  {
    var p := PowerPartSpec(env, mode, now, upstream, pf).value;
    CalculateDerivedIdempotent(p.meter.phaseA);
    CalculateDerivedIdempotent(p.meter.phaseB);
    CalculateDerivedIdempotent(p.meter.phaseC);
  }

  /** The tariff fallback: a total read as 0 (or not read) becomes tariff 1 plus tariff 2, a missing tariff counting as 0. */
  lemma TariffFallback(env: Env, tariff1: string, tariff2: string, upstream: string -> Response, pf: string -> Option<real>)
    requires ReadValue(env, tariff1, upstream, pf).Done?
    requires ReadValue(ReadValue(env, tariff1, upstream, pf).env, tariff2, upstream, pf).Done?
    ensures var r1 := ReadValue(env, tariff1, upstream, pf);
      var r2 := ReadValue(r1.env, tariff2, upstream, pf);
      TariffSum(env, 0.0, tariff1, tariff2, upstream, pf) == Done(OrZero(r1.value) + OrZero(r2.value), r2.env)
    ensures forall t :: t != 0.0 ==> TariffSum(env, t, tariff1, tariff2, upstream, pf) == Done(t, env)
  {
  }

  // ---------------------------------------------------------------------
  // The data manager object

  const PhaseNames: seq<string> := ["phase_a", "phase_b", "phase_c"]

  class DataManager {
    var data: MeterData
    var lastTimestamps: map<string, Json>
    const client: HomeAssistantClient
    const dsmr: Settings.DsmrConfig

    constructor (client: HomeAssistantClient, dsmr: Settings.DsmrConfig)
      ensures data == DefaultMeter && lastTimestamps == map[]
      ensures this.client == client && this.dsmr == dsmr
    {
      data := DefaultMeter;
      lastTimestamps := map[];
      this.client := client;
      this.dsmr := dsmr;
    }

    function CurrentEnv(): Env
      reads this, client
    {
      Env(client.State(), lastTimestamps)
    }

    /** Where the configuration points this cycle. */
    function CurrentMode(): (m: Mode)
      reads dsmr
      ensures m.ThreePhase? ==> |m.cfgs| == 3
    {
      if dsmr.IsThreePhase() then
        ThreePhase([dsmr.GetPhaseConfig(PhaseNames[0]), dsmr.GetPhaseConfig(PhaseNames[1]), dsmr.GetPhaseConfig(PhaseNames[2])])
      else SinglePhase(dsmr.GetSinglePhasePower())
    }

    /** `get_data`: a copy of the cached snapshot. */
    method GetData() returns (r: MeterData)
      ensures r == data
    {
      return data;
    }

    /** `_needs_discovery`: discovery is retried while it is enabled and no power entity is known. */
    predicate NeedsDiscovery()
      reads dsmr
    {
      dsmr.autoDiscover && !dsmr.HasAnyEntity()
    }

    /** `get_value` through the client, as a partial cycle. */
    method Value(id: string, upstream: string -> Response, pf: string -> Option<real>) returns (r: Step<Option<real>>)
      modifies client
      ensures r == ReadValue(old(CurrentEnv()), id, upstream, pf)
      ensures r.env == CurrentEnv()
    {
      var v := client.GetValue(id, true, upstream, pf);
      if v.Err? {
        r := Raised(v.error, CurrentEnv());
      } else {
        r := Done(v.value, CurrentEnv());
      }
    }

    /** A power entity read through the client, with its stamp tracked in `lastTimestamps`. */
    method Power(id: string, upstream: string -> Response, pf: string -> Option<real>) returns (value: Option<real>, changed: bool)
      modifies this, client
      ensures PowerRead(value, changed, CurrentEnv()) == ReadPower(old(CurrentEnv()), id, upstream, pf)
      ensures data == old(data)
    {
      var ev := client.GetEntityWithUnit(id, upstream, pf);
      value := ev.converted;
      changed := false;
      if ev.converted.Some? {
        var oldStamp := Get(lastTimestamps, id, JNull);
        if !PyEq(ev.lastUpdated, oldStamp) {
          changed := true;
          lastTimestamps := lastTimestamps[id := ev.lastUpdated];
        }
      }
    }

    /** `_fetch_phase_data` on a fresh phase. */
    method FetchPhaseData(cfg: Settings.PhaseConfig, upstream: string -> Response, pf: string -> Option<real>)
      returns (r: Step<PhaseRead>)
      modifies this, client
      ensures r == FetchPhaseSpec(old(CurrentEnv()), cfg, upstream, pf)
      ensures r.env == CurrentEnv()
      ensures data == old(data)
    {
      var phase := DefaultPhase;
      var anyChanged := false;
      if cfg.voltage != "" {
        var v := Value(cfg.voltage, upstream, pf);
        if v.Raised? {
          return Raised(v.error, CurrentEnv());
        }
        if v.value.Some? {
          phase := phase.(voltage := v.value.value);
        }
      }
      if cfg.current != "" {
        var c := Value(cfg.current, upstream, pf);
        if c.Raised? {
          return Raised(c.error, CurrentEnv());
        }
        if c.value.Some? {
          phase := phase.(current := c.value.value);
        }
      }
      if cfg.power != "" {
        var value, changed := Power(cfg.power, upstream, pf);
        if changed {
          anyChanged := true;
        }
        if value.Some? {
          phase := SplitPower(phase, value.value);
        }
      }
      if cfg.powerReturned != "" && phase.powerReturned == 0.0 {
        var value, changed := Power(cfg.powerReturned, upstream, pf);
        if changed {
          anyChanged := true;
        }
        if value.Some? {
          phase := phase.(powerReturned := value.value);
        }
      }
      return Done(PhaseRead(phase, anyChanged), CurrentEnv());
    }

    /** The per-phase loop of `_fetch_data`. */
    method ReadPhases(cfgs: seq<Settings.PhaseConfig>, upstream: string -> Response, pf: string -> Option<real>)
      returns (r: Step<PhasesRead>)
      modifies this, client
      ensures r == FetchPhasesSpec(old(CurrentEnv()), cfgs, upstream, pf)
      ensures r.env == CurrentEnv()
      ensures data == old(data)
    {
      ghost var env0 := CurrentEnv();
      var phases: seq<PhaseData> := [];
      var anyChanged := false;
      var hasPower := false;
      var i := 0;
      while i < |cfgs|
        invariant 0 <= i <= |cfgs|
        invariant data == old(data)
        invariant FetchPhasesSpec(env0, cfgs[..i], upstream, pf) == Done(PhasesRead(phases, anyChanged, hasPower), CurrentEnv())
      {
        var cfg := cfgs[i];
        assert cfgs[..i + 1][..i] == cfgs[..i];
        var pr := FetchPhaseData(cfg, upstream, pf);
        if pr.Raised? {
          RaisedSticks(env0, cfgs, i + 1, upstream, pf);
          return Raised(pr.error, CurrentEnv());
        }
        if pr.value.changed {
          anyChanged := true;
        }
        if cfg.power != "" || cfg.powerReturned != "" {
          hasPower := true;
        }
        phases := phases + [pr.value.phase];
        i := i + 1;
      }
      assert cfgs[..i] == cfgs;
      return Done(PhasesRead(phases, anyChanged, hasPower), CurrentEnv());
    }

    /** The power part of `_fetch_data`: the three phases in order, or the single power entity. */
    method ReadPowerPart(mode: Mode, now: real, upstream: string -> Response, pf: string -> Option<real>)
      returns (r: Step<PowerPart>)
      requires mode.ThreePhase? ==> |mode.cfgs| == 3
      modifies this, client
      ensures r == PowerPartSpec(old(CurrentEnv()), mode, now, upstream, pf)
      ensures r.env == CurrentEnv()
      ensures data == old(data)
    {
      var newData := DefaultMeter.(timestamp := now);
      if mode.ThreePhase? {
        var pr := ReadPhases(mode.cfgs, upstream, pf);
        if pr.Raised? {
          return Raised(pr.error, CurrentEnv());
        }
        var ps := pr.value.phases;
        newData := newData.(phaseA := ps[0], phaseB := ps[1], phaseC := ps[2]);
        return Done(PowerPart(newData, pr.value.anyChanged, pr.value.hasPower), CurrentEnv());
      }
      var entity := mode.powerEntity;
      var anyChanged := false;
      if entity != "" {
        var value, changed := Power(entity, upstream, pf);
        anyChanged := changed;
        if value.Some? {
          newData := newData.(phaseA := SplitPower(newData.phaseA, value.value));
        }
      }
      return Done(PowerPart(newData, anyChanged, entity != ""), CurrentEnv());
    }

    /** A total still at 0 becomes the sum of its two tariff readings. */
    method ReadTariffs(total: real, tariff1: string, tariff2: string, upstream: string -> Response, pf: string -> Option<real>)
      returns (r: Step<real>)
      modifies client
      ensures r == TariffSum(old(CurrentEnv()), total, tariff1, tariff2, upstream, pf)
      ensures r.env == CurrentEnv()
    {
      if total != 0.0 {
        return Done(total, CurrentEnv());
      }
      var t1 := Value(tariff1, upstream, pf);
      if t1.Raised? {
        return Raised(t1.error, CurrentEnv());
      }
      var t2 := Value(tariff2, upstream, pf);
      if t2.Raised? {
        return Raised(t2.error, CurrentEnv());
      }
      return Done(OrZero(t1.value) + OrZero(t2.value), CurrentEnv());
    }

    /** The energy part of `_fetch_data`. */
    method ReadTotals(t: Settings.TotalsConfig, upstream: string -> Response, pf: string -> Option<real>)
      returns (r: Step<EnergyTotals>)
      modifies client
      ensures r == TotalsSpec(old(CurrentEnv()), t, upstream, pf)
      ensures r.env == CurrentEnv()
    {
      var delivered: Option<real> := None;
      var returned: Option<real> := None;
      if t.energyDelivered != "" {
        var v := Value(t.energyDelivered, upstream, pf);
        if v.Raised? {
          return Raised(v.error, CurrentEnv());
        }
        delivered := v.value;
      }
      if t.energyReturned != "" {
        var v := Value(t.energyReturned, upstream, pf);
        if v.Raised? {
          return Raised(v.error, CurrentEnv());
        }
        returned := v.value;
      }
      var d := ReadTariffs(OrZero(delivered), t.energyDeliveredTariff1, t.energyDeliveredTariff2, upstream, pf);
      if d.Raised? {
        return Raised(d.error, CurrentEnv());
      }
      var rt := ReadTariffs(OrZero(returned), t.energyReturnedTariff1, t.energyReturnedTariff2, upstream, pf);
      if rt.Raised? {
        return Raised(rt.error, CurrentEnv());
      }
      return Done(EnergyTotals(d.value, rt.value), CurrentEnv());
    }

    /**
     * `_fetch_data`: one refresh cycle. It either moves only the cached
     * timestamp, or installs a fresh snapshot, or (when an exception
     * escapes) leaves the cache as it was; the stamps and the client state
     * advance in every case.
     */
    method FetchData(now: real, upstream: string -> Response, pf: string -> Option<real>) returns (raised: Option<PyError>)
      modifies this, client
      ensures var o := FetchSpec(old(data), old(CurrentEnv()), old(CurrentMode()), old(dsmr.GetTotals()), now, upstream, pf);
        CurrentEnv() == o.env &&
        (o.Skipped? ==> raised == None && data == old(data).(timestamp := now)) &&
        (o.Replaced? ==> raised == None && data == o.data) &&
        (o.Failed? ==> raised == Some(o.error) && data == old(data))
    {
      var mode := CurrentMode();
      var totals := dsmr.GetTotals();
      var part := ReadPowerPart(mode, now, upstream, pf);
      if part.Raised? {
        return Some(part.error);
      }
      if !part.value.anyChanged && data.isValid && part.value.hasPower {
        data := data.(timestamp := now);
        return None;
      }
      var t := ReadTotals(totals, upstream, pf);
      if t.Raised? {
        return Some(t.error);
      }
      var newData := DeriveAll(part.value.meter);
      var connected := client.IsConnected();
      data := newData.(totalEnergy := t.value.delivered, totalEnergyReturned := t.value.returned, isValid := connected);
      return None;
    }

    /**
     * One pass of the poll loop after any discovery retry: a cycle, and when
     * an exception escapes it, the cache is marked invalid only if it is
     * stale by `now`.
     */
    method PollStep(now: real, upstream: string -> Response, pf: string -> Option<real>)
      modifies this, client
      ensures var o := FetchSpec(old(data), old(CurrentEnv()), old(CurrentMode()), old(dsmr.GetTotals()), now, upstream, pf);
        CurrentEnv() == o.env &&
        (o.Skipped? ==> data == old(data).(timestamp := now)) &&
        (o.Replaced? ==> data == o.data) &&
        (o.Failed? ==> data == old(data).(isValid := old(data).isValid && !IsStale(old(data), now)))
    {
      var raised := FetchData(now, upstream, pf);
      if raised.Some? {
        if IsStale(data, now) {
          data := data.(isValid := false);
        }
      }
    }

    /**
     * `_run_discovery` once discovery has answered: nothing happens without
     * a power entity; otherwise a three-phase or a single-phase mapping and
     * the totals are handed to the entity configuration, after which
     * discovery is no longer retried.
     */
    method ApplyDiscovery(d: DsmrDiscovery.DiscoveredEntities)
      modifies dsmr
      ensures !DsmrDiscovery.HasPowerData(d) ==> unchanged(dsmr)
      ensures DsmrDiscovery.HasPowerData(d) ==>
        dsmr.discoveredThreePhase == (if d.isThreePhase then Some(DiscoveredPhaseDict(d)) else None) &&
        dsmr.discoveredSinglePhase == (if d.isThreePhase then None
                                       else Some(map["power" := d.powerTotal, "power_returned" := d.powerReturnedTotal])) &&
        dsmr.discoveredTotals == Some(Settings.TotalsConfig(d.totals.energyDelivered, d.totals.energyReturned,
            d.totals.energyDeliveredTariff1, d.totals.energyDeliveredTariff2,
            d.totals.energyReturnedTariff1, d.totals.energyReturnedTariff2)) &&
        dsmr.isDiscoveredThreePhase == d.isThreePhase &&
        dsmr.autoDiscover == old(dsmr.autoDiscover) && dsmr.threePhase == old(dsmr.threePhase) &&
        dsmr.singlePhase == old(dsmr.singlePhase) && dsmr.totals == old(dsmr.totals)
    ensures DsmrDiscovery.HasPowerData(d) ==> !NeedsDiscovery()
    {
      if !DsmrDiscovery.HasPowerData(d) {
        return;
      }
      var single: Option<Settings.EntityDict> := None;
      var three: Option<Settings.PhaseDict> := None;
      if d.isThreePhase {
        three := Some(DiscoveredPhaseDict(d));
        assert "phase_a" in three.value;
      } else {
        single := Some(map["power" := d.powerTotal, "power_returned" := d.powerReturnedTotal]);
        assert "power" in single.value;
      }
      var totals := Settings.TotalsConfig(d.totals.energyDelivered, d.totals.energyReturned,
        d.totals.energyDeliveredTariff1, d.totals.energyDeliveredTariff2,
        d.totals.energyReturnedTariff1, d.totals.energyReturnedTariff2);
      dsmr.SetDiscoveredEntities(single, three, totals, d.isThreePhase);
    }
  }

  /** `calculate_derived` on each phase of a fresh snapshot in turn. */
  method DeriveAll(m: MeterData) returns (r: MeterData)
    ensures r == m.(phaseA := CalculateDerived(m.phaseA), phaseB := CalculateDerived(m.phaseB),
                    phaseC := CalculateDerived(m.phaseC))
  {
    r := m;
    for j := 0 to 3
      invariant forall k :: 0 <= k < j ==> PhaseAt(r, k) == CalculateDerived(PhaseAt(m, k))
      invariant forall k :: j <= k < 3 ==> PhaseAt(r, k) == PhaseAt(m, k)
      invariant r.timestamp == m.timestamp && r.totalEnergy == m.totalEnergy
      invariant r.totalEnergyReturned == m.totalEnergyReturned && r.isValid == m.isValid
    {
      r := WithPhase(r, j, CalculateDerived(PhaseAt(r, j)));
    }
    assert PhaseAt(r, 0) == r.phaseA && PhaseAt(r, 1) == r.phaseB && PhaseAt(r, 2) == r.phaseC;
  }

  function PhaseEntities(p: DsmrDiscovery.DiscoveredPhase): Settings.EntityDict {
    map["voltage" := p.voltage, "current" := p.current, "power" := p.power, "power_returned" := p.powerReturned]
  }

  /** The three-phase mapping built from a discovery result. */
  function DiscoveredPhaseDict(d: DsmrDiscovery.DiscoveredEntities): Settings.PhaseDict {
    map["phase_a" := PhaseEntities(d.phaseA), "phase_b" := PhaseEntities(d.phaseB), "phase_c" := PhaseEntities(d.phaseC)]
  }
}
