/**
 * DSMR entity auto-discovery: the sensor filter over Home Assistant's
 * state list, the first-match selection of one entity per category from
 * an ordered pattern table, and the filling of the discovery result.
 */
module DsmrDiscovery {
  import opened Common
  import HomeAssistant

  // ---------------------------------------------------------------------
  // The regular expressions of the pattern table

  /**
   * The constructs the pattern table uses: a literal character (an escaped
   * `\.` is a literal dot), `.` (any character but newline), `.*`, and `$`.
   */
  datatype Tok = Lit(c: char) | Any | AnyStar | End

  function Tokenize(p: string): seq<Tok>
    decreases |p|
  {
    if p == [] then []
    else if p[0] == '\\' && |p| >= 2 then [Lit(p[1])] + Tokenize(p[2..])
    else if p[0] == '.' && |p| >= 2 && p[1] == '*' then [AnyStar] + Tokenize(p[2..])
    else if p[0] == '.' then [Any] + Tokenize(p[1..])
    else if p[0] == '$' then [End] + Tokenize(p[1..])
    else [Lit(p[0])] + Tokenize(p[1..])
  }

  /**
   * Whether the tokens match a prefix of `s` (Python's `re.match` anchors
   * only at the start), ignoring ASCII case. `$` matches at the end of the
   * string or just before a final newline.
   */
  predicate MatchToks(ts: seq<Tok>, s: string)
    decreases |ts|, |s|
  {
    if ts == [] then true
    else match ts[0]
      case Lit(c) => s != [] && LowerChar(s[0]) == LowerChar(c) && MatchToks(ts[1..], s[1..])
      case Any => s != [] && s[0] != '\n' && MatchToks(ts[1..], s[1..])
      case AnyStar => MatchToks(ts[1..], s) || (s != [] && s[0] != '\n' && MatchToks(ts, s[1..]))
      case End => (s == [] || s == "\n") && MatchToks(ts[1..], s)
  }

  /** `re.compile(pattern, re.IGNORECASE).match(entityId)` succeeds. */
  predicate RegexMatch(pattern: string, entityId: string) {
    MatchToks(Tokenize(pattern), entityId)
  }

  /** One category of the table: its name and its patterns, most specific first. */
  datatype Category = Category(name: string, patterns: seq<string>)

  /** The table's keys, in the order discovery tries them (dict insertion order). */
  const DsmrNames: seq<string> := [
    "power_consumption", "power_production", "power_consumption_l1", "power_consumption_l2",
    "power_consumption_l3", "power_production_l1", "power_production_l2", "power_production_l3",
    "voltage_l1", "voltage_l2", "voltage_l3", "current_l1",
    "current_l2", "current_l3", "energy_consumption_total", "energy_production_total",
    "energy_consumption_tariff_1", "energy_consumption_tariff_2", "energy_production_tariff_1", "energy_production_tariff_2"
  ]

  /** Each key's patterns, most specific first, in the order of DsmrNames. */
  const DsmrPatternLists: seq<seq<string>> := [
    ["sensor\\..*power_consumption$", "sensor\\..*electricity.*power_consumption$", "sensor\\..*current_electricity_usage$", "sensor\\..*power_delivered$", "sensor\\.dsmr.*power$", "sensor\\..*elektriciteit.*vermogen$", "sensor\\..*fluvius.*consumption$", "sensor\\..*electricite.*puissance$"],
    ["sensor\\..*power_production$", "sensor\\..*electricity.*power_production$", "sensor\\..*current_electricity_delivery$", "sensor\\..*power_returned$", "sensor\\..*teruglevering$", "sensor\\..*fluvius.*production$", "sensor\\..*electricite.*injection$"],
    ["sensor\\..*power.*l1_positive$", "sensor\\..*instantaneous_active_power_l1_positive$", "sensor\\..*power_delivered_l1$", "sensor\\..*power_consumption.*l1$", "sensor\\..*power_consumption.*phase.*l1$", "sensor\\..*active_power_l1$", "sensor\\..*vermogen.*l1$"],
    ["sensor\\..*power.*l2_positive$", "sensor\\..*instantaneous_active_power_l2_positive$", "sensor\\..*power_delivered_l2$", "sensor\\..*power_consumption.*l2$", "sensor\\..*power_consumption.*phase.*l2$", "sensor\\..*active_power_l2$", "sensor\\..*vermogen.*l2$"],
    ["sensor\\..*power.*l3_positive$", "sensor\\..*instantaneous_active_power_l3_positive$", "sensor\\..*power_delivered_l3$", "sensor\\..*power_consumption.*l3$", "sensor\\..*power_consumption.*phase.*l3$", "sensor\\..*active_power_l3$", "sensor\\..*vermogen.*l3$"],
    ["sensor\\..*power.*l1_negative$", "sensor\\..*instantaneous_active_power_l1_negative$", "sensor\\..*power_returned_l1$", "sensor\\..*power_production.*l1$", "sensor\\..*power_returned.*l1$", "sensor\\..*teruglevering.*l1$"],
    ["sensor\\..*power.*l2_negative$", "sensor\\..*instantaneous_active_power_l2_negative$", "sensor\\..*power_returned_l2$", "sensor\\..*power_production.*l2$", "sensor\\..*power_returned.*l2$", "sensor\\..*teruglevering.*l2$"],
    ["sensor\\..*power.*l3_negative$", "sensor\\..*instantaneous_active_power_l3_negative$", "sensor\\..*power_returned_l3$", "sensor\\..*power_production.*l3$", "sensor\\..*power_returned.*l3$", "sensor\\..*teruglevering.*l3$"],
    ["sensor\\..*voltage.*l1$", "sensor\\..*instantaneous_voltage_l1$", "sensor\\..*voltage.*phase.*l1$", "sensor\\..*voltage_phase_l1$", "sensor\\..*spanning.*l1$"],
    ["sensor\\..*voltage.*l2$", "sensor\\..*instantaneous_voltage_l2$", "sensor\\..*voltage.*phase.*l2$", "sensor\\..*voltage_phase_l2$", "sensor\\..*spanning.*l2$"],
    ["sensor\\..*voltage.*l3$", "sensor\\..*instantaneous_voltage_l3$", "sensor\\..*voltage.*phase.*l3$", "sensor\\..*voltage_phase_l3$", "sensor\\..*spanning.*l3$"],
    ["sensor\\..*current.*l1$", "sensor\\..*instantaneous_current_l1$", "sensor\\..*current.*phase.*l1$", "sensor\\..*current_phase_l1$", "sensor\\..*stroom.*l1$", "sensor\\..*courant.*l1$"],
    ["sensor\\..*current.*l2$", "sensor\\..*instantaneous_current_l2$", "sensor\\..*current.*phase.*l2$", "sensor\\..*current_phase_l2$", "sensor\\..*stroom.*l2$", "sensor\\..*courant.*l2$"],
    ["sensor\\..*current.*l3$", "sensor\\..*instantaneous_current_l3$", "sensor\\..*current.*phase.*l3$", "sensor\\..*current_phase_l3$", "sensor\\..*stroom.*l3$", "sensor\\..*courant.*l3$"],
    ["sensor\\..*energy_consumption.*total$", "sensor\\..*total.*energy.*consumption$", "sensor\\..*total_energy_import$", "sensor\\..*energie.*verbruik.*totaal$"],
    ["sensor\\..*energy_production.*total$", "sensor\\..*energy_returned.*total$", "sensor\\..*total.*energy.*returned$", "sensor\\..*total_energy_export$", "sensor\\..*energie.*teruglevering.*totaal$"],
    ["sensor\\..*energy_consumption.*tariff.*1$", "sensor\\..*electricity_used_tariff_1$", "sensor\\..*electricity.*tariff_1$", "sensor\\..*energy_delivered.*tariff.*1$", "sensor\\..*energie.*dal$", "sensor\\..*energie.*tarief.*1$"],
    ["sensor\\..*energy_consumption.*tariff.*2$", "sensor\\..*electricity_used_tariff_2$", "sensor\\..*electricity.*tariff_2$", "sensor\\..*energy_delivered.*tariff.*2$", "sensor\\..*energie.*piek$", "sensor\\..*energie.*tarief.*2$"],
    ["sensor\\..*energy_production.*tariff.*1$", "sensor\\..*electricity_delivered_tariff_1$", "sensor\\..*energy_returned.*tariff.*1$", "sensor\\..*teruglevering.*dal$", "sensor\\..*teruglevering.*tarief.*1$"],
    ["sensor\\..*energy_production.*tariff.*2$", "sensor\\..*electricity_delivered_tariff_2$", "sensor\\..*energy_returned.*tariff.*2$", "sensor\\..*teruglevering.*piek$", "sensor\\..*teruglevering.*tarief.*2$"]
  ]

  /** Pairs each name with its patterns. */
  function Zip(names: seq<string>, lists: seq<seq<string>>): (table: seq<Category>)
    requires |names| == |lists|
    ensures |table| == |names|
    ensures forall i :: 0 <= i < |table| ==> table[i] == Category(names[i], lists[i])
  {
    seq(|names|, i requires 0 <= i < |names| => Category(names[i], lists[i]))
  }

  /** The pattern table, in the order discovery tries it. */
  const DsmrPatterns: seq<Category> := Zip(DsmrNames, DsmrPatternLists)

  predicate DistinctNames(table: seq<Category>) {
    forall i, j :: 0 <= i < j < |table| ==> table[i].name != table[j].name
  }

  // ---------------------------------------------------------------------
  // First-match selection

  /** The first entity id, in list order, that `pattern` matches. */
  function FirstMatchIn(pattern: string, ids: seq<string>): (r: Option<string>)
    ensures r.Some? ==> r.value in ids && RegexMatch(pattern, r.value)
    ensures r.None? <==> forall k :: 0 <= k < |ids| ==> !RegexMatch(pattern, ids[k])
    ensures r.Some? ==> exists k :: 0 <= k < |ids| && ids[k] == r.value && forall k' :: 0 <= k' < k ==> !RegexMatch(pattern, ids[k'])
  {
    if ids == [] then None
    else if RegexMatch(pattern, ids[0]) then Some(ids[0])
    else FirstMatchIn(pattern, ids[1..])
  }

  /** The first id of the earliest pattern (in table order) that matches any id. */
  function CategoryMatch(patterns: seq<string>, ids: seq<string>): Option<string> {
    if patterns == [] then None
    else if FirstMatchIn(patterns[0], ids).Some? then FirstMatchIn(patterns[0], ids)
    else CategoryMatch(patterns[1..], ids)
  }

  /**
   * The category's choice is the first hit of its earliest pattern that
   * hits at all; there is none exactly when no pattern matches any id.
   */
  lemma {:induction false} CategoryMatchSpec(patterns: seq<string>, ids: seq<string>)
    ensures var r := CategoryMatch(patterns, ids);
      r.None? <==> forall j, k :: 0 <= j < |patterns| && 0 <= k < |ids| ==> !RegexMatch(patterns[j], ids[k])
    ensures var r := CategoryMatch(patterns, ids);
      r.Some? ==>
        exists j :: 0 <= j < |patterns| && FirstMatchIn(patterns[j], ids) == r &&
                    (forall j' :: 0 <= j' < j ==> FirstMatchIn(patterns[j'], ids).None?)
    decreases |patterns|
  {
    if patterns != [] {
      CategoryMatchSpec(patterns[1..], ids);
      var r := CategoryMatch(patterns, ids);
      if FirstMatchIn(patterns[0], ids).None? {
        if r.Some? {
          var j :| 0 <= j < |patterns[1..]| && FirstMatchIn(patterns[1..][j], ids) == r &&
            (forall j' :: 0 <= j' < j ==> FirstMatchIn(patterns[1..][j'], ids).None?);
          assert FirstMatchIn(patterns[j + 1], ids) == r;
          forall j' | 0 <= j' < j + 1 ensures FirstMatchIn(patterns[j'], ids).None? {
            if j' > 0 { assert patterns[j'] == patterns[1..][j' - 1]; }
          }
        } else {
          forall j, k | 0 <= j < |patterns| && 0 <= k < |ids| ensures !RegexMatch(patterns[j], ids[k]) {
            if j > 0 { assert patterns[j] == patterns[1..][j - 1]; }
          }
        }
      } else {
        assert FirstMatchIn(patterns[0], ids) == r;
      }
    }
  }

  /** The matched entity per category; categories without a match are absent. */
  function MatchSpec(table: seq<Category>, ids: seq<string>): map<string, string>
    decreases |table|
  {
    if table == [] then map[]
    else
      var rest := MatchSpec(table[..|table| - 1], ids);
      var last := table[|table| - 1];
      var c := CategoryMatch(last.patterns, ids);
      if c.Some? then rest[last.name := c.value] else rest
  }

  /** `_match_entities`: for each category, each pattern in turn against each id in turn, stopping at the first hit. */
  method MatchEntities(table: seq<Category>, ids: seq<string>) returns (matched: map<string, string>)
    requires DistinctNames(table)
    ensures matched == MatchSpec(table, ids)
  {
    matched := map[];
    var i := 0;
    while i < |table|
      invariant 0 <= i <= |table|
      invariant matched == MatchSpec(table[..i], ids)
    {
      var name := table[i].name;
      var patterns := table[i].patterns;
      assert table[..i + 1][..i] == table[..i];
      MatchSpecKeys(table[..i], ids);
      assert name !in matched;
      var j := 0;
      while j < |patterns|
        invariant 0 <= j <= |patterns|
        invariant name !in matched && matched == MatchSpec(table[..i], ids)
        invariant CategoryMatch(patterns, ids) == CategoryMatch(patterns[j..], ids)
      {
        var pattern := patterns[j];
        assert patterns[j..][0] == pattern && patterns[j..][1..] == patterns[j + 1..];
        var k := 0;
        while k < |ids|
          invariant 0 <= k <= |ids|
          invariant FirstMatchIn(pattern, ids) == FirstMatchIn(pattern, ids[k..])
          invariant name !in matched && matched == MatchSpec(table[..i], ids)
          invariant CategoryMatch(patterns, ids) == CategoryMatch(patterns[j..], ids)
        {
          assert ids[k..][0] == ids[k] && ids[k..][1..] == ids[k + 1..];
          if RegexMatch(pattern, ids[k]) {
            assert FirstMatchIn(pattern, ids) == Some(ids[k]);
            assert CategoryMatch(patterns, ids) == Some(ids[k]);
            matched := matched[name := ids[k]];
            break;
          }
          k := k + 1;
        }
        if name in matched {
          break;
        }
        assert ids[|ids|..] == [];
        j := j + 1;
      }
      if name !in matched {
        assert patterns[|patterns|..] == [];
        assert CategoryMatch(patterns, ids) == None;
      }
      assert table[..i + 1][i] == table[i];
      assert MatchSpec(table[..i + 1], ids) ==
        (if CategoryMatch(patterns, ids).Some? then MatchSpec(table[..i], ids)[name := CategoryMatch(patterns, ids).value]
         else MatchSpec(table[..i], ids));
      i := i + 1;
    }
    assert table[..|table|] == table;
  }

  /** The keys of the selection are names of categories in the table. */
  lemma {:induction false} MatchSpecKeys(table: seq<Category>, ids: seq<string>)
    ensures forall n :: n in MatchSpec(table, ids) ==> exists i :: 0 <= i < |table| && table[i].name == n
    decreases |table|
  {
    if table != [] {
      MatchSpecKeys(table[..|table| - 1], ids);
      forall n | n in MatchSpec(table, ids)
        ensures exists i :: 0 <= i < |table| && table[i].name == n
      {
        if n != table[|table| - 1].name {
          assert n in MatchSpec(table[..|table| - 1], ids);
          var i :| 0 <= i < |table| - 1 && table[..|table| - 1][i].name == n;
          assert table[i].name == n;
        }
      }
    }
  }

  /**
   * A category is selected exactly when one of its patterns matches some
   * id, and then it holds the first-match choice for that category.
   */
  lemma {:induction false} MatchSpecAt(table: seq<Category>, ids: seq<string>, i: int)
    requires DistinctNames(table)
    requires 0 <= i < |table|
    ensures table[i].name in MatchSpec(table, ids) <==> CategoryMatch(table[i].patterns, ids).Some?
    ensures table[i].name in MatchSpec(table, ids) ==> MatchSpec(table, ids)[table[i].name] == CategoryMatch(table[i].patterns, ids).value
    decreases |table|
  {
    var front := table[..|table| - 1];
    if i < |table| - 1 {
      assert front[i] == table[i];
      MatchSpecAt(front, ids, i);
    } else {
      var n := table[i].name;
      if CategoryMatch(table[i].patterns, ids).None? {
        MatchSpecKeys(front, ids);
      }
    }
  }

  /**
   * Every selected id comes from the input list and is matched by one of
   * its category's patterns; no earlier pattern of that category matches
   * any id, and no earlier id matches the selecting pattern.
   */
  lemma SelectedIsFirstMatch(table: seq<Category>, ids: seq<string>, i: int)
    requires DistinctNames(table)
    requires 0 <= i < |table|
    requires table[i].name in MatchSpec(table, ids)
    ensures var v := MatchSpec(table, ids)[table[i].name];
      v in ids &&
      exists j :: 0 <= j < |table[i].patterns| && RegexMatch(table[i].patterns[j], v) &&
        (forall j', k :: 0 <= j' < j && 0 <= k < |ids| ==> !RegexMatch(table[i].patterns[j'], ids[k])) &&
        (exists k :: 0 <= k < |ids| && ids[k] == v && forall k' :: 0 <= k' < k ==> !RegexMatch(table[i].patterns[j], ids[k']))
  {
    MatchSpecAt(table, ids, i);
    CategoryMatchSpec(table[i].patterns, ids);
    var ps := table[i].patterns;
    var v := MatchSpec(table, ids)[table[i].name];
    var j :| 0 <= j < |ps| && FirstMatchIn(ps[j], ids) == Some(v) && forall j' :: 0 <= j' < j ==> FirstMatchIn(ps[j'], ids).None?;
    assert RegexMatch(ps[j], v);
  }

  /** A category is absent from the selection exactly when none of its patterns matches any id. */
  lemma AbsentIffNoMatch(table: seq<Category>, ids: seq<string>, i: int)
    requires DistinctNames(table)
    requires 0 <= i < |table|
    ensures table[i].name !in MatchSpec(table, ids) <==>
      forall j, k :: 0 <= j < |table[i].patterns| && 0 <= k < |ids| ==> !RegexMatch(table[i].patterns[j], ids[k])
  {
    MatchSpecAt(table, ids, i);
    CategoryMatchSpec(table[i].patterns, ids);
  }

  lemma PatternNamesDistinct()
    ensures DistinctNames(DsmrPatterns)
  {
    assert forall i, j :: 0 <= i < j < |DsmrNames| ==> DsmrNames[i] != DsmrNames[j];
  }

  // ---------------------------------------------------------------------
  // The discovery result

  datatype DiscoveredPhase = DiscoveredPhase(voltage: string, current: string, power: string, powerReturned: string)

  datatype DiscoveredTotals = DiscoveredTotals(
    energyDelivered: string, energyReturned: string,
    energyDeliveredTariff1: string, energyDeliveredTariff2: string,
    energyReturnedTariff1: string, energyReturnedTariff2: string)

  datatype DiscoveredEntities = DiscoveredEntities(
    powerTotal: string,
    powerReturnedTotal: string,
    phaseA: DiscoveredPhase,
    phaseB: DiscoveredPhase,
    phaseC: DiscoveredPhase,
    totals: DiscoveredTotals,
    isThreePhase: bool,
    allEntities: seq<string>)

  const NoPhase := DiscoveredPhase("", "", "", "")
  const NoTotals := DiscoveredTotals("", "", "", "", "", "")
  const NothingDiscovered := DiscoveredEntities("", "", NoPhase, NoPhase, NoPhase, NoTotals, false, [])

  /** Whether a power entity was found: the total or a phase power; returned-power entities do not count. */
  predicate HasPowerData(d: DiscoveredEntities) {
    d.powerTotal != "" || d.phaseA.power != "" || d.phaseB.power != "" || d.phaseC.power != ""
  }

  /** Returned-power entities never decide whether power data was found, and nothing discovered has none. */
  lemma HasPowerDataIgnoresReturned(d: DiscoveredEntities, total: string, a: string, b: string, c: string)
    ensures HasPowerData(d.(powerReturnedTotal := total, phaseA := d.phaseA.(powerReturned := a),
                            phaseB := d.phaseB.(powerReturned := b), phaseC := d.phaseC.(powerReturned := c))) == HasPowerData(d)
    ensures !HasPowerData(NothingDiscovered)
  {
  }

  /** The entity id a state object contributes to the sensor list, if any. */
  function SensorIdOf(item: Json): Option<string> {
    if item.JObj? && "entity_id" in item.fields && item.fields["entity_id"].JStr?
       && StartsWith(item.fields["entity_id"].s, "sensor.")
    then Some(item.fields["entity_id"].s) else None
  }

  /** A state the filter can read: an object whose `entity_id`, if present, is a string. */
  predicate Readable(item: Json) {
    item.JObj? && Get(item.fields, "entity_id", JStr("")).JStr?
  }

  /**
   * The sensor filter over a state list, in order. A state that is not an
   * object, or whose `entity_id` is not a string, raises AttributeError; a
   * state without `entity_id` is skipped.
   */
  function SensorFilter(items: seq<Json>): Result<seq<string>, PyError> {
    if items == [] then Ok([])
    else
      var item := items[0];
      if !item.JObj? then Err(AttributeError)
      else
        var e := Get(item.fields, "entity_id", JStr(""));
        if !e.JStr? then Err(AttributeError)
        else match SensorFilter(items[1..])
          case Err(err) => Err(err)
          case Ok(rest) => if StartsWith(e.s, "sensor.") then Ok([e.s] + rest) else Ok(rest)
  }

  /**
   * The kept ids all start with "sensor." and are, as a set, exactly the
   * sensor ids of the states; the filter fails exactly when some state is
   * unreadable.
   */
  lemma {:induction false} SensorFilterMembers(items: seq<Json>)
    ensures SensorFilter(items).Ok? ==> forall x :: x in SensorFilter(items).value ==> StartsWith(x, "sensor.")
    ensures SensorFilter(items).Ok? ==>
      forall x :: x in SensorFilter(items).value <==> exists k :: 0 <= k < |items| && SensorIdOf(items[k]) == Some(x)
    ensures SensorFilter(items).Err? <==> exists k :: 0 <= k < |items| && !Readable(items[k])
  {
    if items != [] {
      var item := items[0];
      var rest := items[1..];
      SensorFilterMembers(rest);
      assert forall k :: 1 <= k < |items| ==> items[k] == rest[k - 1];
      if !Readable(item) {
        assert SensorFilter(items).Err?;
      } else {
        var e := Get(item.fields, "entity_id", JStr(""));
        assert SensorIdOf(item) == (if StartsWith(e.s, "sensor.") then Some(e.s) else None);
        if SensorFilter(rest).Err? {
          var k :| 0 <= k < |rest| && !Readable(rest[k]);
          assert !Readable(items[k + 1]);
        } else {
          var tail := SensorFilter(rest).value;
          var r := SensorFilter(items).value;
          assert r == (if StartsWith(e.s, "sensor.") then [e.s] + tail else tail);
          forall x | x in r
            ensures exists k :: 0 <= k < |items| && SensorIdOf(items[k]) == Some(x)
          {
            if x !in tail {
              assert SensorIdOf(items[0]) == Some(x);
            } else {
              var k :| 0 <= k < |rest| && SensorIdOf(rest[k]) == Some(x);
              assert SensorIdOf(items[k + 1]) == Some(x);
            }
          }
          forall x, k | 0 <= k < |items| && SensorIdOf(items[k]) == Some(x)
            ensures x in r
          {
            if k > 0 {
              assert SensorIdOf(rest[k - 1]) == Some(x);
            }
          }
          forall k | 0 <= k < |items|
            ensures Readable(items[k])
          {
            if k > 0 {
              assert Readable(rest[k - 1]);
            }
          }
        }
      }
    }
  }

  /** What one state contributes: AttributeError, its sensor id, or nothing. */
  lemma SensorFilterSingle(item: Json)
    ensures !Readable(item) ==> SensorFilter([item]) == Err(AttributeError)
    ensures Readable(item) ==>
      SensorFilter([item]) == Ok(if SensorIdOf(item).Some? then [SensorIdOf(item).value] else [])
  {
    assert [item][1..] == [];
    assert SensorFilter([]) == Ok([]);
    if item.JObj? && Get(item.fields, "entity_id", JStr("")).JStr? {
      var e := Get(item.fields, "entity_id", JStr(""));
      if "entity_id" !in item.fields {
        assert e.s == "";
        assert !StartsWith(e.s, "sensor.");
      }
      assert StartsWith(e.s, "sensor.") <==> SensorIdOf(item).Some?;
      assert [e.s] + [] == [e.s];
      assert SensorFilter([item]) == if StartsWith(e.s, "sensor.") then Ok([e.s] + []) else Ok([]);
    }
  }

  /**
   * The filter keeps the states' order and one id per sensor state: the
   * ids of a concatenation are the ids of the first part followed by
   * those of the second, so with SensorFilterSingle the result is fixed
   * state by state, duplicates included.
   */
  lemma {:induction false} SensorFilterConcat(xs: seq<Json>, ys: seq<Json>)
    ensures SensorFilter(xs + ys).Ok? <==> SensorFilter(xs).Ok? && SensorFilter(ys).Ok?
    ensures SensorFilter(xs + ys).Ok? ==> SensorFilter(xs + ys).value == SensorFilter(xs).value + SensorFilter(ys).value
  {
    if xs == [] {
      assert xs + ys == ys;
    } else {
      var zs := xs + ys;
      var item := xs[0];
      assert zs[0] == item;
      assert zs[1..] == xs[1..] + ys;
      SensorFilterConcat(xs[1..], ys);
      if item.JObj? && Get(item.fields, "entity_id", JStr("")).JStr? {
        var e := Get(item.fields, "entity_id", JStr(""));
        var head: seq<string> := if StartsWith(e.s, "sensor.") then [e.s] else [];
        assert SensorFilter(xs).Ok? ==> SensorFilter(xs).value == head + SensorFilter(xs[1..]).value;
        assert SensorFilter(zs).Ok? ==> SensorFilter(zs).value == head + SensorFilter(zs[1..]).value;
      }
    }
  }

  /**
   * The sensor ids of `/api/states`: iterating a dict or a string yields
   * strings, which have no `.get` (so only an empty one passes); other
   * non-lists are not iterable.
   */
  function SensorIds(allStates: Json): Result<seq<string>, PyError> {
    match allStates
    case JArr(items) => SensorFilter(items)
    case JObj(m) => if m == map[] then Ok([]) else Err(AttributeError)
    case JStr(s) => if s == "" then Ok([]) else Err(AttributeError)
    case _ => Err(TypeError)
  }

  /** `matched.get(name, "")`. */
  function Pick(matched: map<string, string>, name: string): string {
    if name in matched then matched[name] else ""
  }

  /** The states-list answer discovery can work with, if the response is one. */
  function StatesBody(resp: HomeAssistant.Response): Option<Json> {
    if resp.Answer? && HomeAssistant.IsSuccess(resp.status) && resp.body.Some? then resp.body else None
  }

  /**
   * `discover`: fetch the states list (given as `resp`), keep the sensors,
   * select by pattern and fill the result. Any failure along the way
   * yields the empty result.
   */
  method Discover(resp: HomeAssistant.Response) returns (result: DiscoveredEntities)
    ensures StatesBody(resp).None? || SensorIds(StatesBody(resp).value).Err? ==> result == NothingDiscovered
    ensures StatesBody(resp).Some? && SensorIds(StatesBody(resp).value).Ok? ==>
      var ids := SensorIds(StatesBody(resp).value).value;
      var m := MatchSpec(DsmrPatterns, ids);
      result.allEntities == ids &&
      result.powerTotal == Pick(m, "power_consumption") && result.powerReturnedTotal == Pick(m, "power_production") &&
      result.phaseA == DiscoveredPhase(Pick(m, "voltage_l1"), Pick(m, "current_l1"), Pick(m, "power_consumption_l1"), Pick(m, "power_production_l1")) &&
      result.phaseB == DiscoveredPhase(Pick(m, "voltage_l2"), Pick(m, "current_l2"), Pick(m, "power_consumption_l2"), Pick(m, "power_production_l2")) &&
      result.phaseC == DiscoveredPhase(Pick(m, "voltage_l3"), Pick(m, "current_l3"), Pick(m, "power_consumption_l3"), Pick(m, "power_production_l3")) &&
      result.totals == DiscoveredTotals(Pick(m, "energy_consumption_total"), Pick(m, "energy_production_total"),
        Pick(m, "energy_consumption_tariff_1"), Pick(m, "energy_consumption_tariff_2"),
        Pick(m, "energy_production_tariff_1"), Pick(m, "energy_production_tariff_2"))
    ensures result.isThreePhase <==>
      result.phaseA.power != "" || result.phaseA.powerReturned != "" || result.phaseB.power != "" ||
      result.phaseB.powerReturned != "" || result.phaseC.power != "" || result.phaseC.powerReturned != ""
  {
    result := NothingDiscovered;
    var body := StatesBody(resp);
    if body.None? {
      return;
    }
    var sensors := SensorIds(body.value);
    if sensors.Err? {
      return;
    }
    var ids := sensors.value;
    result := result.(allEntities := ids);
    PatternNamesDistinct();
    var matched := MatchEntities(DsmrPatterns, ids);
    result := result.(powerTotal := Pick(matched, "power_consumption"));
    result := result.(powerReturnedTotal := Pick(matched, "power_production"));
    result := result.(phaseA := result.phaseA.(voltage := Pick(matched, "voltage_l1")));
    result := result.(phaseA := result.phaseA.(current := Pick(matched, "current_l1")));
    result := result.(phaseA := result.phaseA.(power := Pick(matched, "power_consumption_l1")));
    result := result.(phaseA := result.phaseA.(powerReturned := Pick(matched, "power_production_l1")));
    result := result.(phaseB := result.phaseB.(voltage := Pick(matched, "voltage_l2")));
    result := result.(phaseB := result.phaseB.(current := Pick(matched, "current_l2")));
    result := result.(phaseB := result.phaseB.(power := Pick(matched, "power_consumption_l2")));
    result := result.(phaseB := result.phaseB.(powerReturned := Pick(matched, "power_production_l2")));
    result := result.(phaseC := result.phaseC.(voltage := Pick(matched, "voltage_l3")));
    result := result.(phaseC := result.phaseC.(current := Pick(matched, "current_l3")));
    result := result.(phaseC := result.phaseC.(power := Pick(matched, "power_consumption_l3")));
    result := result.(phaseC := result.phaseC.(powerReturned := Pick(matched, "power_production_l3")));
    result := result.(totals := result.totals.(energyDelivered := Pick(matched, "energy_consumption_total")));
    result := result.(totals := result.totals.(energyReturned := Pick(matched, "energy_production_total")));
    result := result.(totals := result.totals.(energyDeliveredTariff1 := Pick(matched, "energy_consumption_tariff_1")));
    result := result.(totals := result.totals.(energyDeliveredTariff2 := Pick(matched, "energy_consumption_tariff_2")));
    result := result.(totals := result.totals.(energyReturnedTariff1 := Pick(matched, "energy_production_tariff_1")));
    result := result.(totals := result.totals.(energyReturnedTariff2 := Pick(matched, "energy_production_tariff_2")));
    result := result.(isThreePhase :=
      result.phaseA.power != "" || result.phaseA.powerReturned != "" || result.phaseB.power != "" ||
      result.phaseB.powerReturned != "" || result.phaseC.power != "" || result.phaseC.powerReturned != "");
  }

  /**
   * Each field discovery fills is empty or an id from the sensor list that
   * one of its category's patterns matches (shown for the total power
   * entity; the other fields read their categories the same way).
   */
  lemma PowerTotalIsMatchedSensor(ids: seq<string>)
    ensures var v := Pick(MatchSpec(DsmrPatterns, ids), "power_consumption");
      v == "" || (v in ids && exists j :: 0 <= j < |DsmrPatterns[0].patterns| && RegexMatch(DsmrPatterns[0].patterns[j], v))
  {
    PatternNamesDistinct();
    assert DsmrPatterns[0].name == "power_consumption";
    if "power_consumption" in MatchSpec(DsmrPatterns, ids) {
      SelectedIsFirstMatch(DsmrPatterns, ids, 0);
    }
  }
}
