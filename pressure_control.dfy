/**
 * Pressure control (`PressureVentilator`): a time-cycled breath that drives
 * flow with the pressure target, optionally holds an inspiratory pause, then
 * exhales toward PEEP until the respiratory rate triggers the next breath.
 */
module PressureControl {
  import opened Wrappers
  import opened Numerics
  import opened PatientModel
  import opened VentilatorBase

  /** `PressureVentilator.mode_defaults`. */
  const ModeDefaults: map<Setting, Value> := map[PressureTarget := Num(20.0), InspiratoryTime := Num(0.8)]

  /** The settings a pressure-control run reads, resolved to numbers. */
  datatype Config = Config(
    pressureTarget: real, peep: real, inspiratoryTime: real,
    inspiratoryPause: real, respiratoryRate: real)

  /**
   * The settings of a run resolve exactly when each one the loop reads is a
   * number, and the configuration then holds those numbers.
   */
  function Configure(current: map<Setting, Value>, mode: map<Setting, Value>): (r: Result<Config, Error>)
    ensures r.Success? <==>
      && NumberSetting(current, mode, SettingName(Peep)).Success?
      && NumberSetting(current, mode, SettingName(PressureTarget)).Success?
      && NumberSetting(current, mode, SettingName(InspiratoryTime)).Success?
      && NumberSetting(current, mode, SettingName(Setting.InspiratoryPause)).Success?
      && NumberSetting(current, mode, SettingName(RespiratoryRate)).Success?
    ensures r.Success? ==>
      && NumberSetting(current, mode, SettingName(Peep)) == Success(r.value.peep)
      && NumberSetting(current, mode, SettingName(PressureTarget)) == Success(r.value.pressureTarget)
      && NumberSetting(current, mode, SettingName(InspiratoryTime)) == Success(r.value.inspiratoryTime)
      && NumberSetting(current, mode, SettingName(Setting.InspiratoryPause)) == Success(r.value.inspiratoryPause)
      && NumberSetting(current, mode, SettingName(RespiratoryRate)) == Success(r.value.respiratoryRate)
  {
    var peep :- NumberSetting(current, mode, SettingName(Peep));
    var pressureTarget :- NumberSetting(current, mode, SettingName(PressureTarget));
    var inspiratoryTime :- NumberSetting(current, mode, SettingName(InspiratoryTime));
    var inspiratoryPause :- NumberSetting(current, mode, SettingName(Setting.InspiratoryPause));
    var respiratoryRate :- NumberSetting(current, mode, SettingName(RespiratoryRate));
    Success(Config(pressureTarget, peep, inspiratoryTime, inspiratoryPause, respiratoryRate))
  }

  /** With no overrides a run uses target 20, PEEP 0, inspiratory time 0.8 s, no pause and 10 breaths a minute. */
  lemma DefaultConfiguration()
    ensures Configure(map[], ModeDefaults) == Success(Config(20.0, 0.0, 0.8, 0.0, 10.0))
  {
    DefaultNumber(map[], ModeDefaults, Setting.InspiratoryPause, 0.0);
    DefaultNumber(map[], ModeDefaults, RespiratoryRate, 10.0);
    DefaultBreath();
  }

  /** With no overrides a breath starts from PEEP 0, aims at 20 and lasts 0.8 s. */
  lemma DefaultBreath()
    ensures NumberSetting(map[], ModeDefaults, SettingName(Peep)) == Success(0.0)
    ensures NumberSetting(map[], ModeDefaults, SettingName(PressureTarget)) == Success(20.0)
    ensures NumberSetting(map[], ModeDefaults, SettingName(InspiratoryTime)) == Success(0.8)
  {
    DefaultNumber(map[], ModeDefaults, Peep, 0.0);
    DefaultNumber(map[], ModeDefaults, PressureTarget, 20.0);
    DefaultNumber(map[], ModeDefaults, InspiratoryTime, 0.8);
  }

  /** The loop variables of `simulate`, the current time among them, and the patient's volume. */
  datatype State = State(
    phase: Phase, currentVolume: real, lastBreathStart: real,
    lastPauseStart: real, time: real, lungVolume: real)

  /** The state before the first step; `last_pause_start` is unset in the source until a pause begins. */
  function Start(seedVolume: real): State
  {
    State(Inspiratory, 0.0, 0.0, 0.0, 0.0, seedVolume)
  }

  /** One iteration of the `simulate` loop: the next state (one step later) and the sample recorded. */
  function Step(cfg: Config, lung: Lung, dt: real, s: State): (r: (State, Sample))
    requires lung.Valid()
    ensures r.0.lungVolume == s.lungVolume + r.1.flow * dt
  {
    match s.phase
    case Inspiratory =>
      var flow := (cfg.pressureTarget - AlveolarPressure(s.lungVolume, lung.compliance)) / lung.resistance;
      var lungVolume := s.lungVolume + flow * dt;
      var currentVolume := s.currentVolume + flow * dt;
      var filled := s.(currentVolume := currentVolume, time := s.time + dt, lungVolume := lungVolume);
      var next :=
        if !(s.time - s.lastBreathStart > cfg.inspiratoryTime) then filled
        else if cfg.inspiratoryPause > 0.0 then filled.(phase := Phase.InspiratoryPause, lastPauseStart := s.time)
        else filled.(phase := Expiratory);
      (next, Sample(Inspiratory, s.time, cfg.pressureTarget, flow, currentVolume,
                    AlveolarPressure(lungVolume, lung.compliance)))
    case InspiratoryPause =>
      var pAlv := AlveolarPressure(s.lungVolume, lung.compliance);
      var held := s.(time := s.time + dt);
      var next := if s.time > s.lastPauseStart + cfg.inspiratoryPause then held.(phase := Expiratory) else held;
      (next, Sample(Phase.InspiratoryPause, s.time, pAlv, 0.0, s.currentVolume, pAlv))
    case Expiratory =>
      var flow := ExpiratoryFlow(AlveolarPressure(s.lungVolume, lung.compliance), cfg.peep, lung.resistance);
      var lungVolume := s.lungVolume + flow * dt;
      var currentVolume := s.currentVolume + flow * dt;
      var next :=
        if BreathDue(cfg.respiratoryRate, s.time, s.lastBreathStart)
        then s.(phase := Inspiratory, currentVolume := 0.0, lastBreathStart := s.time,
                time := s.time + dt, lungVolume := lungVolume)
        else s.(currentVolume := currentVolume, time := s.time + dt, lungVolume := lungVolume);
      (next, Sample(Expiratory, s.time, cfg.peep, flow, currentVolume,
                    AlveolarPressure(lungVolume, lung.compliance)))
  }

  /** The first `k` iterations from `s0`: the state reached and one sample per iteration. */
  function Trace(cfg: Config, lung: Lung, dt: real, s0: State, k: nat): (r: (State, seq<Sample>))
    requires lung.Valid()
    ensures |r.1| == k
  {
    if k == 0 then (s0, [])
    else
      var (s, samples) := Trace(cfg, lung, dt, s0, k - 1);
      var (next, sample) := Step(cfg, lung, dt, s);
      (next, samples + [sample])
  }

  /** A whole run of `time_length` seconds from a lung seeded at PEEP. */
  function Run(cfg: Config, lung: Lung, dt: real, timeLength: nat): (r: (State, seq<Sample>))
    requires lung.Valid() && dt > 0.0
    ensures |r.1| == StepCount(timeLength as real, dt)
  {
    Trace(cfg, lung, dt, Start(RestingVolume(lung.compliance, cfg.peep)), StepCount(timeLength as real, dt))
  }

  /** Unrolls one iteration of a trace; earlier samples are kept as they were. */
  lemma TracePrefix(cfg: Config, lung: Lung, dt: real, s0: State, k: nat)
    requires lung.Valid() && k > 0
    ensures Trace(cfg, lung, dt, s0, k).1[..k - 1] == Trace(cfg, lung, dt, s0, k - 1).1
    ensures Trace(cfg, lung, dt, s0, k).0 == Step(cfg, lung, dt, Trace(cfg, lung, dt, s0, k - 1).0).0
    ensures Trace(cfg, lung, dt, s0, k).1[k - 1] == Step(cfg, lung, dt, Trace(cfg, lung, dt, s0, k - 1).0).1
  {
  }

  /** A step is stamped with the current time and moves the clock on by `dt`. */
  lemma StepTime(cfg: Config, lung: Lung, dt: real, s: State)
    requires lung.Valid()
    ensures Step(cfg, lung, dt, s).0.time == s.time + dt
    ensures Step(cfg, lung, dt, s).1.time == s.time
  {
  }

  /** After `k` steps from time 0 the clock reads `k` steps of `dt`. */
  lemma {:induction false} ClockTime(cfg: Config, lung: Lung, dt: real, seedVolume: real, k: nat)
    requires lung.Valid()
    ensures Trace(cfg, lung, dt, Start(seedVolume), k).0.time == Elapsed(k, dt)
  {
    if k > 0 {
      ClockTime(cfg, lung, dt, seedVolume, k - 1);
      StepTime(cfg, lung, dt, Trace(cfg, lung, dt, Start(seedVolume), k - 1).0);
    }
  }

  /** The `j`-th sample of a run from time 0 is taken after `j` steps of `dt`. */
  lemma {:induction false} SampleTimes(cfg: Config, lung: Lung, dt: real, seedVolume: real, k: nat)
    requires lung.Valid()
    ensures forall j :: 0 <= j < k ==> Trace(cfg, lung, dt, Start(seedVolume), k).1[j].time == Elapsed(j, dt)
  {
    if k > 0 {
      SampleTimes(cfg, lung, dt, seedVolume, k - 1);
      ClockTime(cfg, lung, dt, seedVolume, k - 1);
      TracePrefix(cfg, lung, dt, Start(seedVolume), k);
      StepTime(cfg, lung, dt, Trace(cfg, lung, dt, Start(seedVolume), k - 1).0);
    }
  }

  /**
   * Inspiration: flow is the pressure target (with no PEEP added) less alveolar
   * pressure, over the resistance; the recorded airway pressure is the target and
   * the flow is integrated into both the lung and the breath's volume.
   */
  lemma InspiratoryStep(cfg: Config, lung: Lung, dt: real, s: State)
    requires lung.Valid() && s.phase == Inspiratory
    ensures
      var (next, sample) := Step(cfg, lung, dt, s);
      && sample.flow * lung.resistance == cfg.pressureTarget - AlveolarPressure(s.lungVolume, lung.compliance)
      && sample.pressure == cfg.pressureTarget
      && next.lungVolume == s.lungVolume + sample.flow * dt
      && next.currentVolume == s.currentVolume + sample.flow * dt == sample.volume
      && sample.pAlv * lung.compliance == next.lungVolume
  {
  }

  /**
   * Inspiration is time-cycled: it ends exactly when more than the inspiratory
   * time has passed since the breath began, and it ends in a pause (stamped now)
   * exactly when a pause is set.
   */
  lemma TimeCycled(cfg: Config, lung: Lung, dt: real, s: State)
    requires lung.Valid() && s.phase == Inspiratory
    ensures
      var next := Step(cfg, lung, dt, s).0;
      && (next.phase != Inspiratory <==> s.time - s.lastBreathStart > cfg.inspiratoryTime)
      && (next.phase == Phase.InspiratoryPause <==>
            s.time - s.lastBreathStart > cfg.inspiratoryTime && cfg.inspiratoryPause > 0.0)
      && (next.phase == Phase.InspiratoryPause ==> next.lastPauseStart == s.time)
      && next.lastBreathStart == s.lastBreathStart
  {
  }

  /**
   * The inspiratory pause is a static hold: no flow, no volume change, airway
   * pressure equal to alveolar pressure; it ends once the pause time has passed.
   */
  lemma PauseHolds(cfg: Config, lung: Lung, dt: real, s: State)
    requires lung.Valid() && s.phase == Phase.InspiratoryPause
    ensures
      var (next, sample) := Step(cfg, lung, dt, s);
      && sample.flow == 0.0 && sample.pressure == sample.pAlv
      && sample.pAlv * lung.compliance == s.lungVolume
      && next.lungVolume == s.lungVolume && next.currentVolume == s.currentVolume
      && (next.phase == Expiratory <==> s.time > s.lastPauseStart + cfg.inspiratoryPause)
      && (next.phase != Expiratory ==> next == s.(time := s.time + dt))
  {
  }

  /**
   * Exhalation is passive toward PEEP with PEEP recorded as airway pressure; a new
   * breath begins exactly when the rate is positive and its period has elapsed,
   * and then the breath volume restarts from zero at the current time.
   */
  lemma Exhalation(cfg: Config, lung: Lung, dt: real, s: State)
    requires lung.Valid() && s.phase == Expiratory
    ensures
      var (next, sample) := Step(cfg, lung, dt, s);
      && sample.flow * lung.resistance == cfg.peep - AlveolarPressure(s.lungVolume, lung.compliance)
      && sample.pressure == cfg.peep
      && next.lungVolume == s.lungVolume + sample.flow * dt
      && (next.phase == Inspiratory <==>
            cfg.respiratoryRate > 0.0 && s.time - s.lastBreathStart > 60.0 / cfg.respiratoryRate)
      && (next.phase == Inspiratory ==> next.currentVolume == 0.0 && next.lastBreathStart == s.time)
      && (next.phase != Inspiratory ==>
            next.phase == Expiratory && next.lastBreathStart == s.lastBreathStart &&
            next.currentVolume == s.currentVolume + sample.flow * dt)
  {
  }

  /** Apart from the step that starts a new breath, the lung gains exactly what the breath's volume gains. */
  lemma BreathVolume(cfg: Config, lung: Lung, dt: real, s: State)
    requires lung.Valid()
    ensures
      var next := Step(cfg, lung, dt, s).0;
      !(s.phase == Expiratory && next.phase == Inspiratory) ==>
        next.lungVolume - next.currentVolume == s.lungVolume - s.currentVolume
  {
  }

  /**
   * With no backup rate (rate 0), once the machine exhales it exhales for the
   * rest of the run: no later step is inspiratory.
   */
  lemma {:induction false} ApneaStaysExpiratory(cfg: Config, lung: Lung, dt: real, s0: State, j: nat, k: nat)
    requires lung.Valid() && cfg.respiratoryRate <= 0.0 && j <= k
    requires Trace(cfg, lung, dt, s0, j).0.phase == Expiratory
    ensures Trace(cfg, lung, dt, s0, k).0.phase == Expiratory
    ensures forall i :: j <= i < k ==> Trace(cfg, lung, dt, s0, k).1[i].phase == Expiratory
    decreases k
  {
    if k > j {
      ApneaStaysExpiratory(cfg, lung, dt, s0, j, k - 1);
      TracePrefix(cfg, lung, dt, s0, k);
      var previous := Trace(cfg, lung, dt, s0, k - 1);
      Exhalation(cfg, lung, dt, previous.0);
      var samples := Trace(cfg, lung, dt, s0, k).1;
      assert forall i :: j <= i < k - 1 ==> samples[i] == previous.1[i];
    }
  }

  /**
   * During the first breath (before the rate has started another), the lung's
   * volume above its seed is the breath's delivered volume.
   */
  lemma {:induction false} FirstBreathVolume(cfg: Config, lung: Lung, dt: real, seedVolume: real, k: nat)
    requires lung.Valid()
    ensures Trace(cfg, lung, dt, Start(seedVolume), k).0.lastBreathStart >= 0.0
    ensures
      var s := Trace(cfg, lung, dt, Start(seedVolume), k).0;
      s.lastBreathStart == 0.0 ==> s.lungVolume - seedVolume == s.currentVolume
  {
    if k > 0 {
      FirstBreathVolume(cfg, lung, dt, seedVolume, k - 1);
      var s := Trace(cfg, lung, dt, Start(seedVolume), k - 1).0;
      BreathVolume(cfg, lung, dt, s);
      if s.phase == Expiratory {
        Exhalation(cfg, lung, dt, s);
        if BreathDue(cfg.respiratoryRate, s.time, s.lastBreathStart) {
          assert 60.0 / cfg.respiratoryRate > 0.0;
        }
      }
    }
  }

  /** `PressureVentilator`: a ventilator with the pressure-control defaults. */
  class PressureVentilator {
    const vent: Ventilator

    constructor (patient: Patient?)
      ensures fresh(vent) && vent.Valid() && vent.modeDefaults == ModeDefaults
      ensures vent.currentSettings == map[]
      ensures patient != null ==> vent.patient == patient
    {
      vent := new Ventilator(patient, ModeDefaults);
    }

    /**
     * One iteration of the `simulate` loop: roll the table, record the time, then
     * the phase's branch (`Breathe`) and its measurements; the loop variables and
     * the patient move as `Step` says and the table gains the step's sample.
     */
    method Advance(cfg: Config, ghost lung: Lung, timeStep: real, currentTime: real,
                   phase: Phase, currentVolume: real, lastBreathStart: real, lastPauseStart: real,
                   ghost seed: Row, ghost samples: seq<Sample>)
      returns (phase': Phase, currentVolume': real, lastBreathStart': real, lastPauseStart': real)
      requires vent.Valid() && lung.Valid() && |samples| + 1 < vent.outputLength
      requires vent.patient.compliance == lung.compliance && vent.patient.resistance == lung.resistance
      requires vent.output[..] == RunTable(seed, samples, vent.outputLength)
      modifies vent, vent.patient
      ensures vent.Valid() && fresh(vent.output) && vent.outputLength == old(vent.outputLength)
      ensures vent.currentSettings == old(vent.currentSettings)
      ensures vent.patient.compliance == lung.compliance && vent.patient.resistance == lung.resistance
      ensures
        var (after, sample) := Step(cfg, lung, timeStep,
          State(phase, currentVolume, lastBreathStart, lastPauseStart, currentTime, old(vent.patient.volume)));
        && after == State(phase', currentVolume', lastBreathStart', lastPauseStart',
                          currentTime + timeStep, vent.patient.volume)
        && vent.output[..] == RunTable(seed, samples + [sample], vent.outputLength)
    {
      vent.Tick();
      var recorded := vent.Record([("time", currentTime)]);
      assert recorded == Pass;
      var sample;
      phase', currentVolume', lastBreathStart', lastPauseStart', sample :=
        Breathe(cfg, lung, timeStep, currentTime, phase, currentVolume, lastBreathStart, lastPauseStart);
      StepExtendsRunTable(seed, samples, sample, vent.outputLength);
      recorded := vent.Record(MeasurementValues(sample.flow, sample.volume, sample.pressure, sample.pAlv));
      assert recorded == Pass;
    }

    /**
     * The phase's branch of one loop iteration: push toward the pressure target,
     * hold, or exhale, on the patient; the loop variables and the patient move as
     * `Step` says, and the returned sample holds the values the branch records.
     */
    method Breathe(cfg: Config, ghost lung: Lung, timeStep: real, currentTime: real,
                   phase: Phase, currentVolume: real, lastBreathStart: real, lastPauseStart: real)
      returns (phase': Phase, currentVolume': real, lastBreathStart': real, lastPauseStart': real, sample: Sample)
      requires lung.Valid()
      requires vent.patient.compliance == lung.compliance && vent.patient.resistance == lung.resistance
      modifies vent.patient
      ensures vent.patient.compliance == lung.compliance && vent.patient.resistance == lung.resistance
      ensures Step(cfg, lung, timeStep,
          State(phase, currentVolume, lastBreathStart, lastPauseStart, currentTime, old(vent.patient.volume))) ==
        (State(phase', currentVolume', lastBreathStart', lastPauseStart', currentTime + timeStep, vent.patient.volume),
         sample)
    {
      var patient := vent.patient;
      ghost var expected := Step(cfg, lung, timeStep,
        State(phase, currentVolume, lastBreathStart, lastPauseStart, currentTime, patient.volume));
      phase', currentVolume', lastBreathStart', lastPauseStart' := phase, currentVolume, lastBreathStart, lastPauseStart;
      if phase == Inspiratory {
        var currentFlow := (cfg.pressureTarget - patient.GetPressure()) / patient.resistance;
        var deltaVolume := currentFlow * timeStep;
        patient.AddVolume(deltaVolume);
        currentVolume' := currentVolume + deltaVolume;
        if currentTime - lastBreathStart > cfg.inspiratoryTime {
          if cfg.inspiratoryPause > 0.0 {
            phase' := Phase.InspiratoryPause;
            lastPauseStart' := currentTime;
          } else {
            phase' := Expiratory;
          }
        }
        sample := Sample(phase, currentTime, cfg.pressureTarget, currentFlow, currentVolume', patient.GetPressure());
        assert patient.volume == old(patient.volume) + currentFlow * timeStep;
        assert expected.1 == sample;
        assert expected == (State(phase', currentVolume', lastBreathStart', lastPauseStart', currentTime + timeStep, patient.volume), sample);
      } else if phase == Phase.InspiratoryPause {
        var pAlv := patient.GetPressure();
        sample := Sample(phase, currentTime, pAlv, 0.0, currentVolume, pAlv);
        if currentTime > lastPauseStart + cfg.inspiratoryPause {
          phase' := Expiratory;
        }
        assert expected == (State(phase', currentVolume', lastBreathStart', lastPauseStart', currentTime + timeStep, patient.volume), sample);
      } else {
        var currentFlow := ExpiratoryFlow(patient.GetPressure(), cfg.peep, patient.resistance);
        var deltaVolume := currentFlow * timeStep;
        patient.AddVolume(deltaVolume);
        currentVolume' := currentVolume + deltaVolume;
        sample := Sample(phase, currentTime, cfg.peep, currentFlow, currentVolume', patient.GetPressure());
        assert patient.volume == old(patient.volume) + currentFlow * timeStep;
        assert expected.1 == sample;
        if BreathDue(cfg.respiratoryRate, currentTime, lastBreathStart) {
          phase' := Inspiratory;
          currentVolume' := 0.0;
          lastBreathStart' := currentTime;
        }
        assert expected == (State(phase', currentVolume', lastBreathStart', lastPauseStart', currentTime + timeStep, patient.volume), sample);
      }
    }

    /**
     * `simulate(time_length = 60, time_step = 0.02)`: the base set-up, then one loop iteration
     * per step while `current_time < time_length`. A successful run leaves the
     * patient and the table exactly as `Run` describes.
     */
    method Simulate(timeLength: nat := 60, timeStep: real := 0.02) returns (outcome: Outcome<Error>)
      requires vent.Valid() && timeStep > 0.0
      modifies vent, vent.patient
      ensures vent.Valid() && vent.currentSettings == old(vent.currentSettings)
      ensures vent.outputLength == OutputLengthFor(timeLength, timeStep)
      ensures vent.patient.compliance == old(vent.patient.compliance)
      ensures vent.patient.resistance == old(vent.patient.resistance)
      ensures outcome.Pass? <==>
        && OutputLengthFor(timeLength, timeStep) > 0
        && Configure(vent.currentSettings, vent.modeDefaults).Success?
        && Lung(vent.patient.compliance, vent.patient.resistance).Valid()
      ensures outcome.Pass? ==>
        var cfg := Configure(vent.currentSettings, vent.modeDefaults).value;
        var lung := Lung(vent.patient.compliance, vent.patient.resistance);
        var run := Run(cfg, lung, timeStep, timeLength);
        && vent.patient.volume == run.0.lungVolume
        && vent.output[..] == RunTable(SeedRow(cfg.peep), run.1, vent.outputLength)
    {
      outcome := vent.BeginRun(timeLength, timeStep);
      if outcome.Fail? {
        return;
      }
      var configured := Configure(vent.currentSettings, vent.modeDefaults);
      if configured.Failure? {
        return Fail(configured.error);
      }
      var cfg := configured.value;
      var patient := vent.patient;
      if patient.compliance == 0.0 {
        return Fail(ZeroCompliance);
      }
      if patient.resistance == 0.0 {
        return Fail(ZeroResistance);
      }
      ghost var lung := Lung(patient.compliance, patient.resistance);
      assert StepCount(timeLength as real, timeStep) < vent.outputLength;
      RunSteps(cfg, lung, timeLength, timeStep);
    }

    /** The `while current_time < time_length` loop of `simulate`, from a seeded table. */
    method RunSteps(cfg: Config, ghost lung: Lung, timeLength: nat, timeStep: real)
      requires vent.Valid() && lung.Valid() && timeStep > 0.0
      requires vent.patient.compliance == lung.compliance && vent.patient.resistance == lung.resistance
      requires StepCount(timeLength as real, timeStep) < vent.outputLength
      requires vent.patient.volume == RestingVolume(lung.compliance, cfg.peep)
      requires vent.output[..] == RunTable(SeedRow(cfg.peep), [], vent.outputLength)
      modifies vent, vent.patient
      ensures vent.Valid() && vent.outputLength == old(vent.outputLength)
      ensures vent.output == old(vent.output) || fresh(vent.output)
      ensures vent.currentSettings == old(vent.currentSettings)
      ensures vent.patient.compliance == lung.compliance && vent.patient.resistance == lung.resistance
      ensures
        var run := Run(cfg, lung, timeStep, timeLength);
        && vent.patient.volume == run.0.lungVolume
        && vent.output[..] == RunTable(SeedRow(cfg.peep), run.1, vent.outputLength)
    {
      var patient := vent.patient;
      ghost var n := vent.outputLength;
      ghost var m := StepCount(timeLength as real, timeStep);
      ghost var seedVolume := RestingVolume(lung.compliance, cfg.peep);
      ghost var seed := SeedRow(cfg.peep);

      var phase := Inspiratory;
      var currentTime := 0.0;
      var currentVolume := 0.0;
      var lastBreathStart := 0.0;
      var lastPauseStart := 0.0;
      ghost var k: nat := 0;
      ghost var samples: seq<Sample> := [];

      while currentTime < timeLength as real
        invariant vent.Valid() && vent.outputLength == n
        invariant vent.output == old(vent.output) || fresh(vent.output)
        invariant vent.currentSettings == old(vent.currentSettings)
        invariant patient.compliance == lung.compliance && patient.resistance == lung.resistance
        invariant k <= m
        invariant Trace(cfg, lung, timeStep, Start(seedVolume), k) ==
          (State(phase, currentVolume, lastBreathStart, lastPauseStart, currentTime, patient.volume), samples)
        invariant vent.output[..] == RunTable(seed, samples, n)
        decreases m - k
      {
        ClockTime(cfg, lung, timeStep, seedVolume, k);
        StepBelowLimit(timeLength as real, timeStep, k);
        ghost var sample := Step(cfg, lung, timeStep,
          State(phase, currentVolume, lastBreathStart, lastPauseStart, currentTime, patient.volume)).1;
        phase, currentVolume, lastBreathStart, lastPauseStart :=
          Advance(cfg, lung, timeStep, currentTime, phase, currentVolume, lastBreathStart, lastPauseStart, seed, samples);
        TracePrefix(cfg, lung, timeStep, Start(seedVolume), k + 1);
        samples := samples + [sample];
        currentTime := currentTime + timeStep;
        k := k + 1;
      }
      ClockTime(cfg, lung, timeStep, seedVolume, k);
      StepBelowLimit(timeLength as real, timeStep, k);
    }
  }
}
