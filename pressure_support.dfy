/**
 * Pressure support (`PressureSupportVentilator`): each breath drives flow with
 * the pressure target on top of PEEP, and ends (flow-cycled) once flow falls
 * below a fraction of the breath's peak flow; exhalation and the rate trigger
 * are those of pressure control, and there is no inspiratory pause.
 */
module PressureSupport {
  import opened Wrappers
  import opened Numerics
  import opened PatientModel
  import opened VentilatorBase

  /** `PressureSupportVentilator.mode_defaults`. */
  const ModeDefaults: map<Setting, Value> := map[PressureTarget := Num(20.0), FlowTrigger := Num(0.25)]

  /** The settings a pressure-support run reads, resolved to numbers. */
  datatype Config = Config(pressureTarget: real, peep: real, flowTrigger: real, respiratoryRate: real)

  /**
   * The settings of a run resolve exactly when each one the loop reads is a
   * number, and the configuration then holds those numbers.
   */
  function Configure(current: map<Setting, Value>, mode: map<Setting, Value>): (r: Result<Config, Error>)
    ensures r.Success? <==>
      && NumberSetting(current, mode, SettingName(Peep)).Success?
      && NumberSetting(current, mode, SettingName(PressureTarget)).Success?
      && NumberSetting(current, mode, SettingName(FlowTrigger)).Success?
      && NumberSetting(current, mode, SettingName(RespiratoryRate)).Success?
    ensures r.Success? ==>
      && NumberSetting(current, mode, SettingName(Peep)) == Success(r.value.peep)
      && NumberSetting(current, mode, SettingName(PressureTarget)) == Success(r.value.pressureTarget)
      && NumberSetting(current, mode, SettingName(FlowTrigger)) == Success(r.value.flowTrigger)
      && NumberSetting(current, mode, SettingName(RespiratoryRate)) == Success(r.value.respiratoryRate)
  {
    var peep :- NumberSetting(current, mode, SettingName(Peep));
    var pressureTarget :- NumberSetting(current, mode, SettingName(PressureTarget));
    var flowTrigger :- NumberSetting(current, mode, SettingName(FlowTrigger));
    var respiratoryRate :- NumberSetting(current, mode, SettingName(RespiratoryRate));
    Success(Config(pressureTarget, peep, flowTrigger, respiratoryRate))
  }

  /**
   * With no overrides a run uses target 20, PEEP 0, a flow trigger of 25% of peak
   * and 10 breaths a minute: the mode's own `flow_trigger` default resolves.
   */
  lemma DefaultConfiguration()
    ensures Configure(map[], ModeDefaults) == Success(Config(20.0, 0.0, 0.25, 10.0))
  {
    DefaultNumber(map[], ModeDefaults, Peep, 0.0);
    DefaultNumber(map[], ModeDefaults, PressureTarget, 20.0);
    DefaultNumber(map[], ModeDefaults, FlowTrigger, 0.25);
    DefaultNumber(map[], ModeDefaults, RespiratoryRate, 10.0);
  }

  /** The loop variables of `simulate`, the current time among them, and the patient's volume. */
  datatype State = State(
    phase: Phase, currentVolume: real, lastBreathStart: real,
    peakFlow: real, time: real, lungVolume: real)

  function Start(seedVolume: real): State
  {
    State(Inspiratory, 0.0, 0.0, 0.0, 0.0, seedVolume)
  }

  /**
   * One iteration of the `simulate` loop: the next state (one step later) and the
   * sample recorded. Every phase other than inspiration runs the expiratory branch.
   */
  function Step(cfg: Config, lung: Lung, dt: real, s: State): (r: (State, Sample))
    requires lung.Valid()
    ensures r.0.lungVolume == s.lungVolume + r.1.flow * dt
  {
    if s.phase == Inspiratory then
      var flow := ((cfg.pressureTarget + cfg.peep) - AlveolarPressure(s.lungVolume, lung.compliance)) / lung.resistance;
      var peak := if flow > s.peakFlow then flow else s.peakFlow;
      var lungVolume := s.lungVolume + flow * dt;
      var currentVolume := s.currentVolume + flow * dt;
      var next := s.(phase := if flow < peak * cfg.flowTrigger then Expiratory else Inspiratory,
                     currentVolume := currentVolume, peakFlow := peak,
                     time := s.time + dt, lungVolume := lungVolume);
      (next, Sample(Inspiratory, s.time, cfg.pressureTarget + cfg.peep, flow, currentVolume,
                    AlveolarPressure(lungVolume, lung.compliance)))
    else
      var flow := ExpiratoryFlow(AlveolarPressure(s.lungVolume, lung.compliance), cfg.peep, lung.resistance);
      var lungVolume := s.lungVolume + flow * dt;
      var currentVolume := s.currentVolume + flow * dt;
      var next :=
        if BreathDue(cfg.respiratoryRate, s.time, s.lastBreathStart)
        then s.(phase := Inspiratory, currentVolume := 0.0, peakFlow := 0.0, lastBreathStart := s.time,
                time := s.time + dt, lungVolume := lungVolume)
        else s.(currentVolume := currentVolume, time := s.time + dt, lungVolume := lungVolume);
      (next, Sample(s.phase, s.time, cfg.peep, flow, currentVolume,
                    AlveolarPressure(lungVolume, lung.compliance)))
  }

  /** The first `k` iterations from `s0`: the state reached and one sample per iteration. */
  function Trace(cfg: Config, lung: Lung, dt: real, s0: State, k: nat): (r: (State, seq<Sample>))
    requires lung.Valid()
    ensures |r.1| == k
  {
    if k == 0 then (s0, [])
    else
      var (s, samples) := Trace(cfg, lung, dt, s0, k - 1);
      var (next, sample) := Step(cfg, lung, dt, s);
      (next, samples + [sample])
  }

  /** A whole run of `time_length` seconds from a lung seeded at PEEP. */
  function Run(cfg: Config, lung: Lung, dt: real, timeLength: nat): (r: (State, seq<Sample>))
    requires lung.Valid() && dt > 0.0
    ensures |r.1| == StepCount(timeLength as real, dt)
  {
    Trace(cfg, lung, dt, Start(RestingVolume(lung.compliance, cfg.peep)), StepCount(timeLength as real, dt))
  }

  /** Unrolls one iteration of a trace; earlier samples are kept as they were. */
  lemma TracePrefix(cfg: Config, lung: Lung, dt: real, s0: State, k: nat)
    requires lung.Valid() && k > 0
    ensures Trace(cfg, lung, dt, s0, k).1[..k - 1] == Trace(cfg, lung, dt, s0, k - 1).1
    ensures Trace(cfg, lung, dt, s0, k).0 == Step(cfg, lung, dt, Trace(cfg, lung, dt, s0, k - 1).0).0
    ensures Trace(cfg, lung, dt, s0, k).1[k - 1] == Step(cfg, lung, dt, Trace(cfg, lung, dt, s0, k - 1).0).1
  {
  }

  /** A step is stamped with the current time and moves the clock on by `dt`. */
  lemma StepTime(cfg: Config, lung: Lung, dt: real, s: State)
    requires lung.Valid()
    ensures Step(cfg, lung, dt, s).0.time == s.time + dt
    ensures Step(cfg, lung, dt, s).1.time == s.time
  {
  }

  /** After `k` steps from time 0 the clock reads `k` steps of `dt`. */
  lemma {:induction false} ClockTime(cfg: Config, lung: Lung, dt: real, seedVolume: real, k: nat)
    requires lung.Valid()
    ensures Trace(cfg, lung, dt, Start(seedVolume), k).0.time == Elapsed(k, dt)
  {
    if k > 0 {
      ClockTime(cfg, lung, dt, seedVolume, k - 1);
      StepTime(cfg, lung, dt, Trace(cfg, lung, dt, Start(seedVolume), k - 1).0);
    }
  }

  /**
   * Inspiration: flow is the pressure target plus PEEP less alveolar pressure,
   * over the resistance; target plus PEEP is recorded as airway pressure and the
   * flow is integrated into both the lung and the breath's volume.
   */
  lemma InspiratoryStep(cfg: Config, lung: Lung, dt: real, s: State)
    requires lung.Valid() && s.phase == Inspiratory
    ensures
      var (next, sample) := Step(cfg, lung, dt, s);
      && sample.flow * lung.resistance ==
           cfg.pressureTarget + cfg.peep - AlveolarPressure(s.lungVolume, lung.compliance)
      && sample.pressure == cfg.pressureTarget + cfg.peep
      && next.lungVolume == s.lungVolume + sample.flow * dt
      && next.currentVolume == s.currentVolume + sample.flow * dt == sample.volume
      && sample.pAlv * lung.compliance == next.lungVolume
  {
  }

  /**
   * During inspiration the breath's peak flow becomes the larger of the old peak
   * and the flow just delivered; inspiration ends exactly when that flow is below
   * `flow_trigger` times the peak, and never ends in a pause.
   */
  lemma FlowCycled(cfg: Config, lung: Lung, dt: real, s: State)
    requires lung.Valid() && s.phase == Inspiratory
    ensures
      var (next, sample) := Step(cfg, lung, dt, s);
      && next.peakFlow >= s.peakFlow && next.peakFlow >= sample.flow
      && (next.peakFlow == s.peakFlow || next.peakFlow == sample.flow)
      && (next.phase == Expiratory <==> sample.flow < next.peakFlow * cfg.flowTrigger)
      && next.phase != Phase.InspiratoryPause
      && next.lastBreathStart == s.lastBreathStart
  {
  }

  /**
   * Exhalation is passive toward PEEP with PEEP recorded as airway pressure; a new
   * breath begins exactly when the rate is positive and its period has elapsed,
   * restarting the breath volume and the peak flow from zero.
   */
  lemma Exhalation(cfg: Config, lung: Lung, dt: real, s: State)
    requires lung.Valid() && s.phase == Expiratory
    ensures
      var (next, sample) := Step(cfg, lung, dt, s);
      && sample.flow * lung.resistance == cfg.peep - AlveolarPressure(s.lungVolume, lung.compliance)
      && sample.pressure == cfg.peep
      && next.lungVolume == s.lungVolume + sample.flow * dt
      && (next.phase == Inspiratory <==>
            cfg.respiratoryRate > 0.0 && s.time - s.lastBreathStart > 60.0 / cfg.respiratoryRate)
      && (next.phase == Inspiratory ==>
            next.currentVolume == 0.0 && next.peakFlow == 0.0 && next.lastBreathStart == s.time)
      && (next.phase != Inspiratory ==>
            next.phase == Expiratory && next.peakFlow == s.peakFlow &&
            next.currentVolume == s.currentVolume + sample.flow * dt)
  {
  }

  /** Apart from the step that starts a new breath, the lung gains exactly what the breath's volume gains. */
  lemma BreathVolume(cfg: Config, lung: Lung, dt: real, s: State)
    requires lung.Valid()
    ensures
      var next := Step(cfg, lung, dt, s).0;
      !(s.phase != Inspiratory && next.phase == Inspiratory) ==>
        next.lungVolume - next.currentVolume == s.lungVolume - s.currentVolume
  {
  }

  /** Pressure support never enters an inspiratory pause: no state or sample of a run is a pause. */
  lemma {:induction false} NeverPauses(cfg: Config, lung: Lung, dt: real, seedVolume: real, k: nat)
    requires lung.Valid()
    ensures Trace(cfg, lung, dt, Start(seedVolume), k).0.phase != Phase.InspiratoryPause
    ensures forall j :: 0 <= j < k ==> Trace(cfg, lung, dt, Start(seedVolume), k).1[j].phase != Phase.InspiratoryPause
  {
    if k > 0 {
      NeverPauses(cfg, lung, dt, seedVolume, k - 1);
      TracePrefix(cfg, lung, dt, Start(seedVolume), k);
      var previous := Trace(cfg, lung, dt, Start(seedVolume), k - 1);
      var samples := Trace(cfg, lung, dt, Start(seedVolume), k).1;
      assert forall j :: 0 <= j < k - 1 ==> samples[j] == previous.1[j];
    }
  }

  /**
   * Over a stretch of steps that are all inspiratory (one breath, since only the
   * expiratory branch restarts a breath), the peak flow never falls and bounds
   * every flow delivered in the stretch.
   */
  lemma {:induction false} PeakBoundsBreathFlows(cfg: Config, lung: Lung, dt: real, s0: State, j: nat, k: nat)
    requires lung.Valid() && j <= k
    requires forall i :: j <= i < k ==> Trace(cfg, lung, dt, s0, i).0.phase == Inspiratory
    ensures Trace(cfg, lung, dt, s0, k).0.peakFlow >= Trace(cfg, lung, dt, s0, j).0.peakFlow
    ensures forall i :: j <= i < k ==> Trace(cfg, lung, dt, s0, k).1[i].flow <= Trace(cfg, lung, dt, s0, k).0.peakFlow
    decreases k
  {
    if k > j {
      PeakBoundsBreathFlows(cfg, lung, dt, s0, j, k - 1);
      TracePrefix(cfg, lung, dt, s0, k);
      var previous := Trace(cfg, lung, dt, s0, k - 1);
      FlowCycled(cfg, lung, dt, previous.0);
      var samples := Trace(cfg, lung, dt, s0, k).1;
      assert forall i :: j <= i < k - 1 ==> samples[i] == previous.1[i];
    }
  }

  /** The inspiratory record as `PressureSupportVentilator.simulate` writes it: the four measurements, then `peak_flow`. */
  function InspiratoryValuesAsWritten(flow: real, volume: real, pressure: real, pAlv: real, peakFlow: real): seq<(string, real)>
  {
    MeasurementValues(flow, volume, pressure, pAlv) + [("peak_flow", peakFlow)]
  }

  /**
   * As written, the inspiratory record cannot succeed: `peak_flow` is not a
   * column, so after writing the four measurements it raises on that key.
   */
  lemma PeakFlowRecordRaises(t: seq<Row>, flow: real, volume: real, pressure: real, pAlv: real, peakFlow: real)
    requires t != []
    ensures RecordInto(t, InspiratoryValuesAsWritten(flow, volume, pressure, pAlv, peakFlow)) ==
      Recorded(RecordInto(t, MeasurementValues(flow, volume, pressure, pAlv)).table, Fail(UnknownParameter("peak_flow")))
  {
    var values := InspiratoryValuesAsWritten(flow, volume, pressure, pAlv, peakFlow);
    var m := MeasurementValues(flow, volume, pressure, pAlv);
    MeasurementsWritten(t, flow, volume, pressure, pAlv, [("peak_flow", peakFlow)]);
    assert values == m + [("peak_flow", peakFlow)];
    assert ParameterNamed("peak_flow") == None;
    MeasurementsWritten(t, flow, volume, pressure, pAlv, []);
    assert m + [] == m;
  }

  /**
   * Recording the four measurements and then `rest` is the same as writing the
   * four cells of row 0 and recording `rest` on the result.
   */
  lemma MeasurementsWritten(t: seq<Row>, flow: real, volume: real, pressure: real, pAlv: real,
                            rest: seq<(string, real)>)
    requires t != []
    ensures RecordInto(t, MeasurementValues(flow, volume, pressure, pAlv) + rest) ==
      RecordInto(t[0 := Row(t[0].time, Val(pressure), Val(flow), Val(volume), Val(pAlv))], rest)
  {
    var t1 := t[0 := t[0].With(Parameter.Flow, Val(flow))];
    var t2 := t1[0 := t1[0].With(Volume, Val(volume))];
    var t3 := t2[0 := t2[0].With(Pressure, Val(pressure))];
    var t4 := t3[0 := t3[0].With(PAlv, Val(pAlv))];
    var written := t[0 := Row(t[0].time, Val(pressure), Val(flow), Val(volume), Val(pAlv))];
    assert RecordInto(t, MeasurementValues(flow, volume, pressure, pAlv) + rest) == RecordInto(t4, rest) by {
      var r3 := [("p_alv", pAlv)] + rest;
      var r2 := [("pressure", pressure)] + r3;
      var r1 := [("volume", volume)] + r2;
      assert MeasurementValues(flow, volume, pressure, pAlv) + rest == [("flow", flow)] + r1;
      RecordFirst(t, "flow", Parameter.Flow, flow, r1);
      RecordFirst(t1, "volume", Volume, volume, r2);
      RecordFirst(t2, "pressure", Pressure, pressure, r3);
      RecordFirst(t3, "p_alv", PAlv, pAlv, rest);
    }
    assert t4 == written by {
      var r1 := t[0].With(Parameter.Flow, Val(flow));
      var r2 := r1.With(Volume, Val(volume));
      var r3 := r2.With(Pressure, Val(pressure));
      RewriteRowZero(t, r1, r2);
      RewriteRowZero(t, r2, r3);
      RewriteRowZero(t, r3, r3.With(PAlv, Val(pAlv)));
      assert r3.With(PAlv, Val(pAlv)) == Row(t[0].time, Val(pressure), Val(flow), Val(volume), Val(pAlv));
    }
  }

  /** Without the `peak_flow` key the inspiratory record succeeds and writes all four measurements. */
  lemma InspiratoryRecordSucceeds(t: seq<Row>, flow: real, volume: real, pressure: real, pAlv: real)
    requires t != []
    ensures RecordInto(t, MeasurementValues(flow, volume, pressure, pAlv)).outcome == Pass
    ensures RecordInto(t, MeasurementValues(flow, volume, pressure, pAlv)).table[0] ==
      Row(t[0].time, Val(pressure), Val(flow), Val(volume), Val(pAlv))
  {
    MeasurementsWritten(t, flow, volume, pressure, pAlv, []);
    assert MeasurementValues(flow, volume, pressure, pAlv) + [] == MeasurementValues(flow, volume, pressure, pAlv);
  }

  /** `PressureSupportVentilator`: a ventilator with the pressure-support defaults. */
  class PressureSupportVentilator {
    const vent: Ventilator

    constructor (patient: Patient?)
      ensures fresh(vent) && vent.Valid() && vent.modeDefaults == ModeDefaults
      ensures vent.currentSettings == map[]
      ensures patient != null ==> vent.patient == patient
    {
      vent := new Ventilator(patient, ModeDefaults);
    }

    /**
     * One iteration of the `simulate` loop: roll the table, record the time, then
     * the phase's branch (`Breathe`) and its measurements; the loop variables and
     * the patient move as `Step` says and the table gains the step's sample.
     */
    method Advance(cfg: Config, ghost lung: Lung, timeStep: real, currentTime: real,
                   phase: Phase, currentVolume: real, lastBreathStart: real, peakFlow: real,
                   ghost seed: Row, ghost samples: seq<Sample>)
      returns (phase': Phase, currentVolume': real, lastBreathStart': real, peakFlow': real)
      requires vent.Valid() && lung.Valid() && |samples| + 1 < vent.outputLength
      requires vent.patient.compliance == lung.compliance && vent.patient.resistance == lung.resistance
      requires vent.output[..] == RunTable(seed, samples, vent.outputLength)
      modifies vent, vent.patient
      ensures vent.Valid() && fresh(vent.output) && vent.outputLength == old(vent.outputLength)
      ensures vent.currentSettings == old(vent.currentSettings)
      ensures vent.patient.compliance == lung.compliance && vent.patient.resistance == lung.resistance
      ensures
        var (after, sample) := Step(cfg, lung, timeStep,
          State(phase, currentVolume, lastBreathStart, peakFlow, currentTime, old(vent.patient.volume)));
        && after == State(phase', currentVolume', lastBreathStart', peakFlow',
                          currentTime + timeStep, vent.patient.volume)
        && vent.output[..] == RunTable(seed, samples + [sample], vent.outputLength)
    {
      vent.Tick();
      var recorded := vent.Record([("time", currentTime)]);
      assert recorded == Pass;
      var sample;
      phase', currentVolume', lastBreathStart', peakFlow', sample :=
        Breathe(cfg, lung, timeStep, currentTime, phase, currentVolume, lastBreathStart, peakFlow);
      StepExtendsRunTable(seed, samples, sample, vent.outputLength);
      recorded := vent.Record(MeasurementValues(sample.flow, sample.volume, sample.pressure, sample.pAlv));
      assert recorded == Pass;
    }

    /**
     * The phase's branch of one loop iteration: push toward the support pressure
     * and track the peak flow, or exhale, on the patient; the loop variables and
     * the patient move as `Step` says, and the returned sample holds the values
     * the branch records.
     */
    method Breathe(cfg: Config, ghost lung: Lung, timeStep: real, currentTime: real,
                   phase: Phase, currentVolume: real, lastBreathStart: real, peakFlow: real)
      returns (phase': Phase, currentVolume': real, lastBreathStart': real, peakFlow': real, sample: Sample)
      requires lung.Valid()
      requires vent.patient.compliance == lung.compliance && vent.patient.resistance == lung.resistance
      modifies vent.patient
      ensures vent.patient.compliance == lung.compliance && vent.patient.resistance == lung.resistance
      ensures Step(cfg, lung, timeStep,
          State(phase, currentVolume, lastBreathStart, peakFlow, currentTime, old(vent.patient.volume))) ==
        (State(phase', currentVolume', lastBreathStart', peakFlow', currentTime + timeStep, vent.patient.volume),
         sample)
    {
      var patient := vent.patient;
      ghost var expected := Step(cfg, lung, timeStep,
        State(phase, currentVolume, lastBreathStart, peakFlow, currentTime, patient.volume));
      phase', currentVolume', lastBreathStart', peakFlow' := phase, currentVolume, lastBreathStart, peakFlow;
      if phase == Inspiratory {
        var currentFlow := ((cfg.pressureTarget + cfg.peep) - patient.GetPressure()) / patient.resistance;
        if currentFlow > peakFlow {
          peakFlow' := currentFlow;
        }
        var deltaVolume := currentFlow * timeStep;
        patient.AddVolume(deltaVolume);
        currentVolume' := currentVolume + deltaVolume;
        if currentFlow < peakFlow' * cfg.flowTrigger {
          phase' := Expiratory;
        }
        sample := Sample(phase, currentTime, cfg.pressureTarget + cfg.peep, currentFlow, currentVolume', patient.GetPressure());
        assert patient.volume == old(patient.volume) + currentFlow * timeStep;
        assert expected.1 == sample;
        assert expected == (State(phase', currentVolume', lastBreathStart', peakFlow', currentTime + timeStep, patient.volume), sample);
      } else {
        var currentFlow := ExpiratoryFlow(patient.GetPressure(), cfg.peep, patient.resistance);
        var deltaVolume := currentFlow * timeStep;
        patient.AddVolume(deltaVolume);
        currentVolume' := currentVolume + deltaVolume;
        sample := Sample(phase, currentTime, cfg.peep, currentFlow, currentVolume', patient.GetPressure());
        assert patient.volume == old(patient.volume) + currentFlow * timeStep;
        assert expected.1 == sample;
        if BreathDue(cfg.respiratoryRate, currentTime, lastBreathStart) {
          phase' := Inspiratory;
          currentVolume' := 0.0;
          peakFlow' := 0.0;
          lastBreathStart' := currentTime;
        }
        assert expected == (State(phase', currentVolume', lastBreathStart', peakFlow', currentTime + timeStep, patient.volume), sample);
      }
    }

    /**
     * `simulate(time_length = 60, time_step = 0.02)`: the base set-up, then one loop iteration
     * per step while `current_time < time_length`. A successful run leaves the
     * patient and the table exactly as `Run` describes.
     */
    method Simulate(timeLength: nat := 60, timeStep: real := 0.02) returns (outcome: Outcome<Error>)
      requires vent.Valid() && timeStep > 0.0
      modifies vent, vent.patient
      ensures vent.Valid() && vent.currentSettings == old(vent.currentSettings)
      ensures vent.outputLength == OutputLengthFor(timeLength, timeStep)
      ensures vent.patient.compliance == old(vent.patient.compliance)
      ensures vent.patient.resistance == old(vent.patient.resistance)
      ensures outcome.Pass? <==>
        && OutputLengthFor(timeLength, timeStep) > 0
        && Configure(vent.currentSettings, vent.modeDefaults).Success?
        && Lung(vent.patient.compliance, vent.patient.resistance).Valid()
      ensures outcome.Pass? ==>
        var cfg := Configure(vent.currentSettings, vent.modeDefaults).value;
        var lung := Lung(vent.patient.compliance, vent.patient.resistance);
        var run := Run(cfg, lung, timeStep, timeLength);
        && vent.patient.volume == run.0.lungVolume
        && vent.output[..] == RunTable(SeedRow(cfg.peep), run.1, vent.outputLength)
    {
      outcome := vent.BeginRun(timeLength, timeStep);
      if outcome.Fail? {
        return;
      }
      var configured := Configure(vent.currentSettings, vent.modeDefaults);
      if configured.Failure? {
        return Fail(configured.error);
      }
      var cfg := configured.value;
      var patient := vent.patient;
      if patient.compliance == 0.0 {
        return Fail(ZeroCompliance);
      }
      if patient.resistance == 0.0 {
        return Fail(ZeroResistance);
      }
      ghost var lung := Lung(patient.compliance, patient.resistance);
      assert StepCount(timeLength as real, timeStep) < vent.outputLength;
      RunSteps(cfg, lung, timeLength, timeStep);
    }

    /** The `while current_time < time_length` loop of `simulate`, from a seeded table. */
    method RunSteps(cfg: Config, ghost lung: Lung, timeLength: nat, timeStep: real)
      requires vent.Valid() && lung.Valid() && timeStep > 0.0
      requires vent.patient.compliance == lung.compliance && vent.patient.resistance == lung.resistance
      requires StepCount(timeLength as real, timeStep) < vent.outputLength
      requires vent.patient.volume == RestingVolume(lung.compliance, cfg.peep)
      requires vent.output[..] == RunTable(SeedRow(cfg.peep), [], vent.outputLength)
      modifies vent, vent.patient
      ensures vent.Valid() && vent.outputLength == old(vent.outputLength)
      ensures vent.output == old(vent.output) || fresh(vent.output)
      ensures vent.currentSettings == old(vent.currentSettings)
      ensures vent.patient.compliance == lung.compliance && vent.patient.resistance == lung.resistance
      ensures
        var run := Run(cfg, lung, timeStep, timeLength);
        && vent.patient.volume == run.0.lungVolume
        && vent.output[..] == RunTable(SeedRow(cfg.peep), run.1, vent.outputLength)
    {
      var patient := vent.patient;
      ghost var n := vent.outputLength;
      ghost var m := StepCount(timeLength as real, timeStep);
      ghost var seedVolume := RestingVolume(lung.compliance, cfg.peep);
      ghost var seed := SeedRow(cfg.peep);

      var phase := Inspiratory;
      var currentTime := 0.0;
      var currentVolume := 0.0;
      var lastBreathStart := 0.0;
      var peakFlow := 0.0;
      ghost var k: nat := 0;
      ghost var samples: seq<Sample> := [];

      while currentTime < timeLength as real
        invariant vent.Valid() && vent.outputLength == n
        invariant vent.output == old(vent.output) || fresh(vent.output)
        invariant vent.currentSettings == old(vent.currentSettings)
        invariant patient.compliance == lung.compliance && patient.resistance == lung.resistance
        invariant k <= m
        invariant Trace(cfg, lung, timeStep, Start(seedVolume), k) ==
          (State(phase, currentVolume, lastBreathStart, peakFlow, currentTime, patient.volume), samples)
        invariant vent.output[..] == RunTable(seed, samples, n)
        decreases m - k
      {
        ClockTime(cfg, lung, timeStep, seedVolume, k);
        StepBelowLimit(timeLength as real, timeStep, k);
        ghost var sample := Step(cfg, lung, timeStep,
          State(phase, currentVolume, lastBreathStart, peakFlow, currentTime, patient.volume)).1;
        phase, currentVolume, lastBreathStart, peakFlow :=
          Advance(cfg, lung, timeStep, currentTime, phase, currentVolume, lastBreathStart, peakFlow, seed, samples);
        TracePrefix(cfg, lung, timeStep, Start(seedVolume), k + 1);
        samples := samples + [sample];
        currentTime := currentTime + timeStep;
        k := k + 1;
      }
      ClockTime(cfg, lung, timeStep, seedVolume, k);
      StepBelowLimit(timeLength as real, timeStep, k);
    }
  }
}
