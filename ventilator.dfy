/**
 * The shared ventilator machinery (`Ventilator`): the enumerations, the
 * three-tier settings lookup, the fixed-size sample table with its `tick`,
 * `record` and `data` primitives, and the run set-up every mode starts with.
 */
module VentilatorBase {
  import opened Wrappers
  import opened Numerics
  import opened PatientModel

  /** Tolerance of the volume-cycled inspiration test, in litres. */
  const CloseEnough: real := 0.001

  /** The columns of the sample table (`parameters`), in column order. */
  datatype Parameter = Time | Pressure | Flow | Volume | PAlv

  function ParameterName(p: Parameter): string
  {
    match p
    case Time => "time"
    case Pressure => "pressure"
    case Flow => "flow"
    case Volume => "volume"
    case PAlv => "p_alv"
  }

  /** `parameters[name]`: the column called `name`, or None where the source raises a KeyError. */
  function ParameterNamed(name: string): (r: Option<Parameter>)
    ensures r.Some? ==> ParameterName(r.value) == name
    ensures r.None? ==> forall p :: ParameterName(p) != name
  {
    if name == "time" then Some(Time)
    else if name == "pressure" then Some(Pressure)
    else if name == "flow" then Some(Parameter.Flow)
    else if name == "volume" then Some(Volume)
    else if name == "p_alv" then Some(PAlv)
    else None
  }

  /** The breath phases (`phase`). */
  datatype Phase = Inspiratory | Expiratory | InspiratoryPause

  /** The setting names (`settings`), including `flow_trigger`, which pressure support reads. */
  datatype Setting =
    | RespiratoryRate | Peep | InspiratoryPause | Flow | RiseTime
    | FlowPattern | VolumeTarget | PressureTarget | InspiratoryTime | FlowTrigger

  function SettingName(s: Setting): string
  {
    match s
    case RespiratoryRate => "respiratory_rate"
    case Peep => "peep"
    case InspiratoryPause => "inspiratory_pause"
    case Flow => "flow"
    case RiseTime => "rise_time"
    case FlowPattern => "flow_pattern"
    case VolumeTarget => "volume_target"
    case PressureTarget => "pressure_target"
    case InspiratoryTime => "inspiratory_time"
    case FlowTrigger => "flow_trigger"
  }

  /** The members of the `settings` enumeration exactly as Ventilator.py declares them. */
  const DeclaredSettings: seq<Setting> := [
    RespiratoryRate, Peep, Setting.InspiratoryPause, Setting.Flow, RiseTime,
    FlowPattern, VolumeTarget, PressureTarget, InspiratoryTime]

  /** The enumeration the model uses: the declared members and `flow_trigger`. */
  const Settings: seq<Setting> := DeclaredSettings + [FlowTrigger]

  /** Enum lookup by name (`settings[name]`): the member of `members` called `name`, if any. */
  function MemberNamed(members: seq<Setting>, name: string): (r: Option<Setting>)
    ensures r.Some? ==> r.value in members && SettingName(r.value) == name
    ensures r.None? ==> forall s :: s in members ==> SettingName(s) != name
  {
    if members == [] then None
    else if SettingName(members[0]) == name then Some(members[0])
    else MemberNamed(members[1..], name)
  }

  function SettingNamed(name: string): (r: Option<Setting>)
    ensures r.Some? ==> SettingName(r.value) == name
  {
    if name == "respiratory_rate" then Some(RespiratoryRate)
    else if name == "peep" then Some(Peep)
    else if name == "inspiratory_pause" then Some(Setting.InspiratoryPause)
    else if name == "flow" then Some(Setting.Flow)
    else if name == "rise_time" then Some(RiseTime)
    else if name == "flow_pattern" then Some(FlowPattern)
    else if name == "volume_target" then Some(VolumeTarget)
    else if name == "pressure_target" then Some(PressureTarget)
    else if name == "inspiratory_time" then Some(InspiratoryTime)
    else if name == "flow_trigger" then Some(FlowTrigger)
    else None
  }

  /** The name lookup agrees with scanning the enumeration's members for the name. */
  lemma SettingNamedIsEnumLookup(name: string)
    ensures SettingNamed(name) == MemberNamed(Settings, name)
  {
    var scanned := MemberNamed(Settings, name);
    if scanned.Some? {
      SettingNameRoundTrip(scanned.value, name);
    } else if SettingNamed(name).Some? {
      var s := SettingNamed(name).value;
      SettingNameRoundTrip(s, name);
    }
  }

  /** Every setting is found under its own name, and only under it. */
  lemma SettingNameRoundTrip(s: Setting, name: string)
    ensures SettingNamed(SettingName(s)) == Some(s)
    ensures SettingNamed(name) == Some(s) ==> SettingName(s) == name
  {
    match s {
      case RespiratoryRate =>
      case Peep =>
      case InspiratoryPause =>
      case Flow =>
      case RiseTime =>
      case FlowPattern =>
      case VolumeTarget =>
      case PressureTarget =>
      case InspiratoryTime =>
      case FlowTrigger =>
    }
  }


  /** As declared, the enumeration has no `flow_trigger`: pressure support cannot name it. */
  lemma FlowTriggerUndeclared()
    ensures MemberNamed(DeclaredSettings, "flow_trigger") == None
  {
    forall s | s in DeclaredSettings ensures SettingName(s) != "flow_trigger" {
      NamedFlowTrigger(s);
    }
  }

  /** Only `FlowTrigger` is called `flow_trigger`. */
  lemma NamedFlowTrigger(s: Setting)
    ensures SettingName(s) == "flow_trigger" <==> s == FlowTrigger
  {
    match s {
      case RespiratoryRate => assert SettingName(s)[0] != 'f';
      case Peep => assert SettingName(s)[0] != 'f';
      case InspiratoryPause => assert SettingName(s)[0] != 'f';
      case Flow => assert |SettingName(s)| != 12;
      case RiseTime => assert SettingName(s)[0] != 'f';
      case FlowPattern => assert SettingName(s)[5] != 't';
      case VolumeTarget => assert SettingName(s)[0] != 'f';
      case PressureTarget => assert SettingName(s)[0] != 'f';
      case InspiratoryTime => assert SettingName(s)[0] != 'f';
      case FlowTrigger =>
    }
  }

  /** With `flow_trigger` added, the name resolves to its setting. */
  lemma FlowTriggerDeclared()
    ensures SettingNamed("flow_trigger") == Some(FlowTrigger)
  {
    SettingNameRoundTrip(FlowTrigger, "flow_trigger");
  }

  /** The flow patterns of volume control (`flow_patterns`). */
  datatype Pattern = Square | Decelerating

  /** A setting value: a number, or a flow pattern. */
  datatype Value = Num(x: real) | PatternValue(pattern: Pattern)

  /** `global_defaults`, the last tier of the settings lookup. */
  const GlobalDefaults: map<Setting, Value> := map[
    RespiratoryRate := Num(10.0),
    Peep := Num(0.0),
    Setting.InspiratoryPause := Num(0.0),
    RiseTime := Num(0.0)]

  /** The errors the core raises, each standing for the source's exception. */
  datatype Error =
    | UnknownSetting(name: string)        // KeyError from `settings[name]`
    | Unresolved(setting: Setting)        // KeyError from `global_defaults`
    | NotANumber(name: string)            // arithmetic on a flow-pattern value
    | UnknownParameter(name: string)      // KeyError from `parameters[name]`
    | EmptyTable                          // IndexError: row 0 of a table with no rows
    | ZeroCompliance                      // division by a zero compliance
    | ZeroResistance                      // division by a zero resistance
    | ZeroFlow                            // division by a zero flow setting
    | NegativeSampleCount                 // `np.linspace` asked for fewer than 0 points
    | EmptyProfile                        // IndexError: first entry of an empty flow profile

  /**
   * The index of the first tier in `layers` that defines `s`, or None when no tier does.
   * This is the reference meaning of a layered lookup.
   */
  function FirstLayer(layers: seq<map<Setting, Value>>, s: Setting): (r: Option<nat>)
    ensures r.Some? ==> r.value < |layers| && s in layers[r.value]
    ensures r.Some? ==> forall j :: 0 <= j < r.value ==> s !in layers[j]
    ensures r.None? ==> forall j :: 0 <= j < |layers| ==> s !in layers[j]
  {
    if layers == [] then None
    else if s in layers[0] then Some(0)
    else
      match FirstLayer(layers[1..], s)
      case None => None
      case Some(i) => Some(i + 1)
  }

  /**
   * Look a setting up by name through `layers`, most specific tier first: an
   * unknown name fails, a setting no tier defines is unresolved, and otherwise the
   * value is the one in the first tier that defines the setting.
   */
  function LayeredLookup(layers: seq<map<Setting, Value>>, name: string): (r: Result<Value, Error>)
    ensures SettingNamed(name).None? ==> r == Failure(UnknownSetting(name))
    ensures SettingNamed(name).Some? && (forall j :: 0 <= j < |layers| ==> SettingNamed(name).value !in layers[j]) ==>
      r == Failure(Unresolved(SettingNamed(name).value))
    ensures SettingNamed(name).Some? ==> forall i :: 0 <= i < |layers| && SettingNamed(name).value in layers[i] ==>
      (forall j :: 0 <= j < i ==> SettingNamed(name).value !in layers[j]) ==> r == Success(layers[i][SettingNamed(name).value])
  {
    match SettingNamed(name)
    case None => Failure(UnknownSetting(name))
    case Some(s) =>
      match FirstLayer(layers, s)
      case None => Failure(Unresolved(s))
      case Some(i) => Success(layers[i][s])
  }

  /** The three tiers of a ventilator: per-run overrides, the mode's defaults, the global defaults. */
  function Tiers(current: map<Setting, Value>, mode: map<Setting, Value>): seq<map<Setting, Value>>
  {
    [current, mode, GlobalDefaults]
  }

  /** Over the three tiers, the first tier is found by testing them in priority order. */
  lemma FirstLayerOfTiers(current: map<Setting, Value>, mode: map<Setting, Value>, s: Setting)
    ensures FirstLayer(Tiers(current, mode), s) ==
      if s in current then Some(0)
      else if s in mode then Some(1)
      else if s in GlobalDefaults then Some(2)
      else None
  {
    var tiers := Tiers(current, mode);
    assert tiers[1..] == [mode, GlobalDefaults];
    assert [mode, GlobalDefaults][1..] == [GlobalDefaults];
    assert [GlobalDefaults][1..] == [];
    FirstLayerOfOne(GlobalDefaults, s);
  }

  lemma FirstLayerOfOne(tier: map<Setting, Value>, s: Setting)
    ensures FirstLayer([tier], s) == if s in tier then Some(0) else None
  {
    assert [tier][1..] == [];
  }

  /** Settings precedence: the per-run override if set, else the mode default, else the global default. */
  lemma TieredPrecedence(current: map<Setting, Value>, mode: map<Setting, Value>, s: Setting)
    ensures LayeredLookup(Tiers(current, mode), SettingName(s)) ==
      if s in current then Success(current[s])
      else if s in mode then Success(mode[s])
      else if s in GlobalDefaults then Success(GlobalDefaults[s])
      else Failure(Unresolved(s))
  {
    SettingNameRoundTrip(s, SettingName(s));
    FirstLayerOfTiers(current, mode, s);
  }

  /** A setting that the mode does arithmetic on: it must resolve to a number. */
  function NumberSetting(current: map<Setting, Value>, mode: map<Setting, Value>, name: string): (r: Result<real, Error>)
    ensures r.Success? <==> LayeredLookup(Tiers(current, mode), name).Success? && LayeredLookup(Tiers(current, mode), name).value.Num?
    ensures r.Success? ==> LayeredLookup(Tiers(current, mode), name) == Success(Num(r.value))
  {
    match LayeredLookup(Tiers(current, mode), name)
    case Failure(e) => Failure(e)
    case Success(Num(x)) => Success(x)
    case Success(PatternValue(_)) => Failure(NotANumber(name))
  }

  /** Without an override, a numeric setting reads as the mode's default, or failing that the global default. */
  lemma DefaultNumber(current: map<Setting, Value>, mode: map<Setting, Value>, s: Setting, x: real)
    requires s !in current
    requires if s in mode then mode[s] == Num(x) else s in GlobalDefaults && GlobalDefaults[s] == Num(x)
    ensures NumberSetting(current, mode, SettingName(s)) == Success(x)
  {
    TieredPrecedence(current, mode, s);
  }

  /** A per-run override shadows the mode and global defaults for its own setting. */
  lemma OverrideShadows(current: map<Setting, Value>, mode: map<Setting, Value>, s: Setting, v: Value)
    ensures LayeredLookup(Tiers(current[s := v], mode), SettingName(s)) == Success(v)
  {
    SettingNameRoundTrip(s, SettingName(s));
    FirstLayerOfTiers(current[s := v], mode, s);
  }

  /** A per-run override changes no other setting's resolution. */
  lemma OverrideIsolated(current: map<Setting, Value>, mode: map<Setting, Value>, s: Setting, v: Value, name: string)
    requires SettingNamed(name) != Some(s)
    ensures LayeredLookup(Tiers(current[s := v], mode), name) == LayeredLookup(Tiers(current, mode), name)
  {
    match SettingNamed(name) {
      case None =>
      case Some(t) =>
        var before, after := Tiers(current, mode), Tiers(current[s := v], mode);
        assert forall j :: 0 <= j < 3 ==> (t in before[j] <==> t in after[j]);
        assert forall j :: 0 <= j < 3 && t in before[j] ==> before[j][t] == after[j][t];
        FirstLayerAgree(before, after, t);
    }
  }

  /** Two tier lists that agree on `s` resolve `s` alike. */
  lemma {:induction false} FirstLayerAgree(a: seq<map<Setting, Value>>, b: seq<map<Setting, Value>>, s: Setting)
    requires |a| == |b|
    requires forall j :: 0 <= j < |a| ==> (s in a[j] <==> s in b[j])
    ensures FirstLayer(a, s) == FirstLayer(b, s)
    decreases |a|
  {
    if a != [] && s !in a[0] {
      FirstLayerAgree(a[1..], b[1..], s);
    }
  }

  /** Removing an override reveals the mode default if there is one, else the global default. */
  lemma RemovingOverrideReveals(current: map<Setting, Value>, mode: map<Setting, Value>, s: Setting)
    ensures LayeredLookup(Tiers(current - {s}, mode), SettingName(s)) ==
      if s in mode then Success(mode[s])
      else if s in GlobalDefaults then Success(GlobalDefaults[s])
      else Failure(Unresolved(s))
  {
    SettingNameRoundTrip(s, SettingName(s));
    FirstLayerOfTiers(current - {s}, mode, s);
  }

  /** Airway geometry the modes read from the patient during a run. */
  datatype Lung = Lung(compliance: real, resistance: real)
  {
    predicate Valid() { compliance != 0.0 && resistance != 0.0 }
  }

  /** Passive exhalation through the airway toward PEEP: `-(p_alv - peep) / resistance`. */
  function ExpiratoryFlow(pAlv: real, peep: real, resistance: real): (flow: real)
    requires resistance != 0.0
    ensures flow * resistance == peep - pAlv
  {
    -1.0 * ((pAlv - peep) / resistance)
  }

  /** The rate trigger of a new breath: a positive rate whose period has elapsed since the last breath began. */
  predicate BreathDue(respiratoryRate: real, time: real, lastBreathStart: real)
  {
    respiratoryRate > 0.0 && time - lastBreathStart > 60.0 / respiratoryRate
  }

  // ---------------------------------------------------------------------------
  // The sample table
  // ---------------------------------------------------------------------------

  /** A table cell: unset (the NaN fill) or a recorded value. */
  datatype Cell = Unset | Val(x: real)

  /** One row of the table: one cell per parameter. */
  datatype Row = Row(time: Cell, pressure: Cell, flow: Cell, volume: Cell, pAlv: Cell)
  {
    function Get(p: Parameter): Cell
    {
      match p
      case Time => time
      case Pressure => pressure
      case Flow => flow
      case Volume => volume
      case PAlv => pAlv
    }

    function With(p: Parameter, c: Cell): (r: Row)
      ensures r.Get(p) == c
      ensures forall q :: q != p ==> r.Get(q) == Get(q)
    {
      match p
      case Time => this.(time := c)
      case Pressure => this.(pressure := c)
      case Flow => this.(flow := c)
      case Volume => this.(volume := c)
      case PAlv => this.(pAlv := c)
    }
  }

  const UnsetRow: Row := Row(Unset, Unset, Unset, Unset, Unset)
  const ZeroRow: Row := Row(Val(0.0), Val(0.0), Val(0.0), Val(0.0), Val(0.0))

  /** The table `setOutputLength(n)` allocates: row 0 all zeros, every other row unset. */
  function FreshTable(n: nat): (t: seq<Row>)
    ensures |t| == n
    ensures n > 0 ==> t[0] == ZeroRow
    ensures forall i :: 1 <= i < n ==> t[i] == UnsetRow
  {
    if n == 0 then [] else [ZeroRow] + seq(n - 1, _ => UnsetRow)
  }

  /** `np.roll(table, 1, axis=0)`: every row moves down one place and the last row wraps to the top. */
  function Roll(t: seq<Row>): (r: seq<Row>)
    ensures |r| == |t|
    ensures t != [] ==> r[0] == t[|t| - 1]
    ensures forall i :: 1 <= i < |t| ==> r[i] == t[i - 1]
  {
    if t == [] then [] else [t[|t| - 1]] + t[..|t| - 1]
  }

  /** `k` ticks in a row. */
  function RollTimes(t: seq<Row>, k: nat): seq<Row>
  {
    if k == 0 then t else Roll(RollTimes(t, k - 1))
  }

  /** Up to a full cycle, `k` ticks bring the last `k` rows to the top, in order. */
  lemma {:induction false} RollTimesRotates(t: seq<Row>, k: nat)
    requires k <= |t|
    ensures RollTimes(t, k) == t[|t| - k..] + t[..|t| - k]
  {
    var j := |t| - k;
    if k == 0 {
      assert t[j..] == [] && t[..j] == t;
    } else {
      RollTimesRotates(t, k - 1);
      RollRotation(t, j + 1);
    }
  }

  /** One tick of a rotation that starts at row `j` gives the rotation that starts at row `j - 1`. */
  lemma RollRotation(t: seq<Row>, j: nat)
    requires 1 <= j <= |t|
    ensures Roll(t[j..] + t[..j]) == t[j - 1..] + t[..j - 1]
  {
    var n := |t|;
    var x := t[j..] + t[..j];
    var lhs, rhs := Roll(x), t[j - 1..] + t[..j - 1];
    assert x[n - 1] == t[j - 1];
    forall i | 0 <= i < n ensures lhs[i] == rhs[i] {
      if i > 0 {
        assert lhs[i] == x[i - 1];
      }
    }
  }

  /** As many ticks as the table has rows bring it back to where it was. */
  lemma RollFullCycle(t: seq<Row>)
    ensures RollTimes(t, |t|) == t
  {
    RollTimesRotates(t, |t|);
    assert t[0..] + t[..0] == t;
  }

  /** What `record(values)` leaves: the new table, and the error that stopped it, if any. */
  datatype Recorded = Recorded(table: seq<Row>, outcome: Outcome<Error>)

  /**
   * `record(values)`: write each named value into row 0 in order; an unknown name
   * stops the loop with the earlier writes kept.
   */
  function RecordInto(t: seq<Row>, values: seq<(string, real)>): (r: Recorded)
    ensures |r.table| == |t|
    ensures forall i :: 1 <= i < |t| ==> r.table[i] == t[i]
    decreases |values|
  {
    if values == [] then Recorded(t, Pass)
    else
      match ParameterNamed(values[0].0)
      case None => Recorded(t, Fail(UnknownParameter(values[0].0)))
      case Some(p) =>
        if t == [] then Recorded(t, Fail(EmptyTable))
        else RecordInto(t[0 := t[0].With(p, Val(values[0].1))], values[1..])
  }

  /** A second write to row 0 replaces the first. */
  lemma RewriteRowZero(t: seq<Row>, a: Row, b: Row)
    requires t != []
    ensures t[0 := a][0 := b] == t[0 := b]
  {
    var once, twice := t[0 := b], t[0 := a][0 := b];
    assert forall i :: 0 <= i < |t| ==> twice[i] == once[i];
  }

  /** Recording a known name first writes its cell of row 0, then records the rest. */
  lemma RecordFirst(t: seq<Row>, name: string, p: Parameter, x: real, rest: seq<(string, real)>)
    requires t != [] && ParameterNamed(name) == Some(p)
    ensures RecordInto(t, [(name, x)] + rest) == RecordInto(t[0 := t[0].With(p, Val(x))], rest)
  {
    assert ([(name, x)] + rest)[1..] == rest;
  }

  /** `record` succeeds exactly when every name is a parameter and there is a row 0 to write (or nothing to write). */
  lemma {:induction false} RecordSucceedsIff(t: seq<Row>, values: seq<(string, real)>)
    ensures RecordInto(t, values).outcome == Pass <==>
      (values == [] || t != []) && forall i :: 0 <= i < |values| ==> ParameterNamed(values[i].0).Some?
    decreases |values|
  {
    if values != [] && ParameterNamed(values[0].0).Some? && t != [] {
      var p := ParameterNamed(values[0].0).value;
      RecordSucceedsIff(t[0 := t[0].With(p, Val(values[0].1))], values[1..]);
      assert forall i :: 1 <= i < |values| ==> values[i] == values[1..][i - 1];
    }
  }

  /** A successful `record` leaves a column that no name mentions as it was in row 0. */
  lemma {:induction false} RecordKeepsUnnamedCells(t: seq<Row>, values: seq<(string, real)>, p: Parameter)
    requires t != []
    requires RecordInto(t, values).outcome == Pass
    requires forall i :: 0 <= i < |values| ==> values[i].0 != ParameterName(p)
    ensures RecordInto(t, values).table[0].Get(p) == t[0].Get(p)
    decreases |values|
  {
    if values != [] {
      var q := ParameterNamed(values[0].0).value;
      var rest := values[1..];
      assert forall i :: 0 <= i < |rest| ==> rest[i] == values[i + 1];
      RecordKeepsUnnamedCells(t[0 := t[0].With(q, Val(values[0].1))], rest, p);
      assert q != p;
    }
  }

  /** A successful `record` leaves a named column of row 0 holding the last value given for it. */
  lemma {:induction false} RecordWritesLastValue(t: seq<Row>, values: seq<(string, real)>, p: Parameter, i: nat)
    requires t != []
    requires RecordInto(t, values).outcome == Pass
    requires i < |values| && values[i].0 == ParameterName(p)
    requires forall j :: i < j < |values| ==> values[j].0 != ParameterName(p)
    ensures RecordInto(t, values).table[0].Get(p) == Val(values[i].1)
    decreases |values|
  {
    var q := ParameterNamed(values[0].0).value;
    var t' := t[0 := t[0].With(q, Val(values[0].1))];
    var rest := values[1..];
    assert forall j :: 0 <= j < |rest| ==> rest[j] == values[j + 1];
    if i == 0 {
      assert q == p;
      RecordKeepsUnnamedCells(t', rest, p);
    } else {
      RecordWritesLastValue(t', rest, p, i - 1);
    }
  }

  /** One time-step's sample: the phase it ran in and the five recorded quantities. */
  datatype Sample = Sample(phase: Phase, time: real, pressure: real, flow: real, volume: real, pAlv: real)

  function SampleRow(s: Sample): Row
  {
    Row(Val(s.time), Val(s.pressure), Val(s.flow), Val(s.volume), Val(s.pAlv))
  }

  /** The values each mode records after the time, in the source's key order. */
  function MeasurementValues(flow: real, volume: real, pressure: real, pAlv: real): seq<(string, real)>
  {
    [("flow", flow), ("volume", volume), ("pressure", pressure), ("p_alv", pAlv)]
  }

  /** The row every run starts from: time 0, pressure and p_alv at PEEP, no flow, no volume. */
  function SeedRow(peep: real): Row
  {
    Row(Val(0.0), Val(peep), Val(0.0), Val(0.0), Val(peep))
  }

  /**
   * The table after a run has recorded `samples` on top of `seed`: newest sample
   * first, then the seed row, then rows never written.
   */
  function RunTable(seed: Row, samples: seq<Sample>, n: nat): (t: seq<Row>)
    requires |samples| < n
    ensures |t| == n
  {
    seq(|samples|, i requires 0 <= i < |samples| => SampleRow(samples[|samples| - 1 - i]))
      + [seed] + seq(n - 1 - |samples|, _ => UnsetRow)
  }

  /** Seeding a fresh table at PEEP gives the table of a run that has recorded nothing yet. */
  lemma SeedFreshTable(n: nat, peep: real)
    requires n > 0
    ensures RecordInto(FreshTable(n), [("pressure", peep), ("p_alv", peep)]) == Recorded(RunTable(SeedRow(peep), [], n), Pass)
  {
    var t := FreshTable(n);
    var t1 := t[0 := t[0].With(Pressure, Val(peep))];
    var t2 := t1[0 := t1[0].With(PAlv, Val(peep))];
    assert ParameterNamed("pressure") == Some(Pressure);
    assert ParameterNamed("p_alv") == Some(PAlv);
    assert [("pressure", peep), ("p_alv", peep)][1..] == [("p_alv", peep)];
    assert RecordInto(t1, [("p_alv", peep)]) == RecordInto(t2, []);
    assert t2 == RunTable(SeedRow(peep), [], n);
  }

  /**
   * One loop iteration of any mode (a tick, the time record, the measurement record)
   * on a table that still has an unset last row appends one sample and raises nothing.
   */
  lemma StepExtendsRunTable(seed: Row, samples: seq<Sample>, s: Sample, n: nat)
    requires |samples| + 1 < n
    ensures RecordInto(Roll(RunTable(seed, samples, n)), [("time", s.time)]).outcome == Pass
    ensures
      var t1 := RecordInto(Roll(RunTable(seed, samples, n)), [("time", s.time)]).table;
      RecordInto(t1, MeasurementValues(s.flow, s.volume, s.pressure, s.pAlv)) ==
        Recorded(RunTable(seed, samples + [s], n), Pass)
  {
    var t := RunTable(seed, samples, n);
    var rolled := Roll(t);
    assert rolled[0] == UnsetRow;
    var t1 := rolled[0 := UnsetRow.With(Time, Val(s.time))];
    assert ParameterNamed("time") == Some(Time);
    assert RecordInto(rolled, [("time", s.time)]) == RecordInto(t1, []);
    var vs := MeasurementValues(s.flow, s.volume, s.pressure, s.pAlv);
    assert ParameterNamed("flow") == Some(Parameter.Flow);
    assert ParameterNamed("volume") == Some(Volume);
    assert ParameterNamed("pressure") == Some(Pressure);
    assert ParameterNamed("p_alv") == Some(PAlv);
    var r1 := t1[0 := t1[0].With(Parameter.Flow, Val(s.flow))];
    var r2 := r1[0 := r1[0].With(Volume, Val(s.volume))];
    var r3 := r2[0 := r2[0].With(Pressure, Val(s.pressure))];
    var r4 := r3[0 := r3[0].With(PAlv, Val(s.pAlv))];
    assert RecordInto(t1, vs) == RecordInto(r1, vs[1..]);
    assert vs[1..] == [("volume", s.volume), ("pressure", s.pressure), ("p_alv", s.pAlv)];
    assert RecordInto(r1, vs[1..]) == RecordInto(r2, vs[1..][1..]);
    assert vs[1..][1..] == [("pressure", s.pressure), ("p_alv", s.pAlv)];
    assert RecordInto(r2, vs[1..][1..]) == RecordInto(r3, vs[1..][1..][1..]);
    assert vs[1..][1..][1..] == [("p_alv", s.pAlv)];
    assert RecordInto(r3, vs[1..][1..][1..]) == RecordInto(r4, []);
    assert r4[0] == SampleRow(s);
    var expected := RunTable(seed, samples + [s], n);
    RunTableShift(seed, samples, s, n);
    assert forall i :: 1 <= i < n ==> r4[i] == t[i - 1];
    assert r4 == expected;
  }

  /** Below its newest row, the table after one more sample is the previous table moved down a row. */
  lemma RunTableShift(seed: Row, samples: seq<Sample>, s: Sample, n: nat)
    requires |samples| + 1 < n
    ensures forall i :: 1 <= i < n ==> RunTable(seed, samples + [s], n)[i] == RunTable(seed, samples, n)[i - 1]
  {
    var longer := samples + [s];
    forall i | 1 <= i < n
      ensures RunTable(seed, longer, n)[i] == RunTable(seed, samples, n)[i - 1]
    {
      if i < |longer| {
        assert longer[|longer| - 1 - i] == samples[|samples| - 1 - (i - 1)];
      }
    }
  }

  /** `np.flip` of one column of the table: row `i` is read back `i` places from the end. */
  function ReversedColumn(t: seq<Row>, p: Parameter): (c: seq<Cell>)
    ensures |c| == |t|
    ensures forall i :: 0 <= i < |t| ==> c[|t| - 1 - i] == t[i].Get(p)
  {
    seq(|t|, i requires 0 <= i < |t| => t[|t| - 1 - i].Get(p))
  }

  /**
   * Read back after a run, a column is in chronological order: the never-written
   * rows first, then the seed, then every sample from the first to the last.
   */
  lemma RunDataChronological(seed: Row, samples: seq<Sample>, n: nat, p: Parameter)
    requires |samples| < n
    ensures ReversedColumn(RunTable(seed, samples, n), p) ==
      seq(n - 1 - |samples|, _ => Unset) + [seed.Get(p)]
        + seq(|samples|, j requires 0 <= j < |samples| => SampleRow(samples[j]).Get(p))
  {
    var t := RunTable(seed, samples, n);
    var m := |samples|;
    var lhs := ReversedColumn(t, p);
    var rhs := seq(n - 1 - m, _ => Unset) + [seed.Get(p)]
      + seq(m, j requires 0 <= j < m => SampleRow(samples[j]).Get(p));
    forall i | 0 <= i < n ensures lhs[i] == rhs[i] {
      var row := n - 1 - i;
      assert lhs[i] == t[row].Get(p);
      if row < m {
        assert t[row] == SampleRow(samples[m - 1 - row]);
        assert rhs[i] == SampleRow(samples[i - (n - m)]).Get(p);
      } else if row == m {
        assert t[row] == seed;
        assert rhs[i] == seed.Get(p);
      } else {
        assert t[row] == UnsetRow;
        assert rhs[i] == Unset;
      }
    }
  }

  /** `int(np.ceil(1 / time_step) + 1) * time_length` rows: enough for every step of the run and the seed. */
  function OutputLengthFor(timeLength: nat, timeStep: real): (n: nat)
    requires timeStep > 0.0
    ensures timeLength == 0 ==> n == 0
    ensures timeLength >= 1 ==> StepCount(timeLength as real, timeStep) < n
  {
    var perSecond := Ceil(1.0 / timeStep);
    CapacitySuffices(timeLength, timeStep);
    (perSecond + 1) * timeLength
  }

  lemma CapacitySuffices(timeLength: nat, timeStep: real)
    requires timeStep > 0.0
    ensures Ceil(1.0 / timeStep) >= 1
    ensures timeLength >= 1 ==> StepCount(timeLength as real, timeStep) < (Ceil(1.0 / timeStep) + 1) * timeLength
  {
    var c := Ceil(1.0 / timeStep);
    var T := timeLength as real;
    assert 1.0 / timeStep > 0.0;
    if timeLength >= 1 {
      assert T / timeStep == T * (1.0 / timeStep);
      assert T * (1.0 / timeStep) <= T * c as real;
      assert T * c as real == (c * timeLength) as real;
      CeilLeast(T / timeStep, c * timeLength);
      assert StepCount(T, timeStep) <= c * timeLength;
    }
  }

  // ---------------------------------------------------------------------------
  // The ventilator object
  // ---------------------------------------------------------------------------

  class Ventilator {
    const patient: Patient
    /** `mode_defaults`: fixed by the breath-delivery mode that owns this ventilator. */
    const modeDefaults: map<Setting, Value>
    /** `current_settings`: the per-run overrides. */
    var currentSettings: map<Setting, Value>
    var outputLength: nat
    var output: array<Row>

    ghost predicate Valid()
      reads this
    {
      output.Length == outputLength
    }

    /** Binds a patient (a fresh default one when none is given) and allocates a ten-row table. */
    constructor (patient: Patient?, modeDefaults: map<Setting, Value>)
      ensures Valid() && fresh(output)
      ensures patient != null ==> this.patient == patient
      ensures patient == null ==>
        (fresh(this.patient) && this.patient.volume == 0.0 &&
         this.patient.compliance == 0.05 && this.patient.resistance == 10.0)
      ensures this.modeDefaults == modeDefaults && currentSettings == map[]
      ensures outputLength == 10 && output[..] == FreshTable(10)
    {
      var p := patient;
      if p == null {
        p := new Patient();
      }
      this.patient := p;
      this.modeDefaults := modeDefaults;
      currentSettings := map[];
      outputLength := 10;
      output := new Row[10](i => if i == 0 then ZeroRow else UnsetRow);
      new;
      assert output[..] == FreshTable(10);
    }

    /** `self[name]`: the per-run override, else the mode default, else the global default. */
    function Get(name: string): (r: Result<Value, Error>)
      reads this
      ensures r == LayeredLookup(Tiers(currentSettings, modeDefaults), name)
    {
      match SettingNamed(name)
      case None => Failure(UnknownSetting(name))
      case Some(s) =>
        FirstLayerOfTiers(currentSettings, modeDefaults, s);
        if s in currentSettings then Success(currentSettings[s])
        else if s in modeDefaults then Success(modeDefaults[s])
        else if s in GlobalDefaults then Success(GlobalDefaults[s])
        else Failure(Unresolved(s))
    }

    /** `self[name] = value`: writes the per-run tier only; an unknown name raises. */
    method Set(name: string, value: Value) returns (outcome: Outcome<Error>)
      modifies this`currentSettings
      ensures SettingNamed(name).None? ==>
        outcome == Fail(UnknownSetting(name)) && currentSettings == old(currentSettings)
      ensures SettingNamed(name).Some? ==>
        outcome == Pass && currentSettings == old(currentSettings)[SettingNamed(name).value := value]
      ensures SettingNamed(name).Some? ==> Get(name) == Success(value)
    {
      var s := SettingNamed(name);
      if s.None? {
        return Fail(UnknownSetting(name));
      }
      currentSettings := currentSettings[s.value := value];
      SettingNameRoundTrip(s.value, name);
      OverrideShadows(old(currentSettings), modeDefaults, s.value, value);
      outcome := Pass;
    }

    /** `setOutputLength(n)`: a fresh table of `n` unset rows whose row 0 is then zeroed. */
    method SetOutputLength(length: nat) returns (outcome: Outcome<Error>)
      modifies this
      ensures Valid() && fresh(output) && outputLength == length
      ensures output[..] == FreshTable(length)
      ensures outcome == if length == 0 then Fail(EmptyTable) else Pass
      ensures currentSettings == old(currentSettings)
    {
      outputLength := length;
      output := new Row[length](_ => UnsetRow);
      if length == 0 {
        return Fail(EmptyTable);
      }
      output[0] := ZeroRow;
      outcome := Pass;
    }

    /** `tick()`: the table rolled down by one row, into a new array. */
    method Tick()
      requires Valid()
      modifies this
      ensures Valid() && fresh(output) && outputLength == old(outputLength)
      ensures output[..] == Roll(old(output[..]))
      ensures currentSettings == old(currentSettings)
    {
      var previous := output;
      var n := previous.Length;
      output := new Row[n](i reads previous =>
        if 0 < i < n then previous[i - 1] else if n > 0 then previous[n - 1] else UnsetRow);
      assert output[..] == Roll(previous[..]);
    }

    /** `record(values)`: write the named cells of row 0, stopping at the first unknown name. */
    method Record(values: seq<(string, real)>) returns (outcome: Outcome<Error>)
      requires Valid()
      modifies output
      ensures output[..] == RecordInto(old(output[..]), values).table
      ensures outcome == RecordInto(old(output[..]), values).outcome
    {
      var i := 0;
      while i < |values|
        invariant 0 <= i <= |values|
        invariant RecordInto(output[..], values[i..]) == RecordInto(old(output[..]), values)
      {
        var p := ParameterNamed(values[i].0);
        if p.None? {
          return Fail(UnknownParameter(values[i].0));
        }
        if output.Length == 0 {
          return Fail(EmptyTable);
        }
        assert values[i..][1..] == values[i + 1..];
        output[0] := output[0].With(p.value, Val(values[i].1));
        i := i + 1;
      }
      outcome := Pass;
    }

    /** `data(name)`: one column read from the last row to the first. */
    function Data(name: string): (r: Result<seq<Cell>, Error>)
      reads this, output
      ensures ParameterNamed(name).None? ==> r == Failure(UnknownParameter(name))
      ensures ParameterNamed(name).Some? ==>
        (r.Success? && |r.value| == output.Length &&
         forall i :: 0 <= i < output.Length ==>
           r.value[i] == output[output.Length - 1 - i].Get(ParameterNamed(name).value))
    {
      match ParameterNamed(name)
      case None => Failure(UnknownParameter(name))
      case Some(p) => Success(ReversedColumn(output[..], p))
    }

    /**
     * The base `simulate`: size the table for the run, seed the patient at PEEP
     * and record the seed pressures in row 0.
     */
    method BeginRun(timeLength: nat, timeStep: real) returns (outcome: Outcome<Error>)
      requires Valid() && timeStep > 0.0
      modifies this, patient
      ensures Valid() && fresh(output) && outputLength == OutputLengthFor(timeLength, timeStep)
      ensures currentSettings == old(currentSettings)
      ensures patient.compliance == old(patient.compliance) && patient.resistance == old(patient.resistance)
      ensures outcome.Pass? <==>
        outputLength > 0 && NumberSetting(currentSettings, modeDefaults, "peep").Success?
      ensures outcome.Pass? ==>
        var peep := NumberSetting(currentSettings, modeDefaults, "peep").value;
        patient.volume == RestingVolume(patient.compliance, peep) &&
        output[..] == RunTable(SeedRow(peep), [], outputLength)
    {
      var sized := SetOutputLength(OutputLengthFor(timeLength, timeStep));
      if sized.Fail? {
        return sized;
      }
      var peep := NumberSetting(currentSettings, modeDefaults, "peep");
      if peep.Failure? {
        return Fail(peep.error);
      }
      patient.SetPeepHint(peep.value);
      SeedFreshTable(outputLength, peep.value);
      outcome := Record([("pressure", peep.value), ("p_alv", peep.value)]);
    }
  }
}
