/**
 * Volume control (`VolumeVentilator`): each breath delivers a flow profile set
 * up from the flow pattern (square, or a decelerating ramp), one entry per
 * step, until the delivered volume comes within `CLOSE_ENOUGH` of the volume
 * target; then an optional inspiratory pause, then passive exhalation toward
 * PEEP until the respiratory rate triggers the next breath.
 */
module VolumeControl {
  import opened Wrappers
  import opened Numerics
  import opened PatientModel
  import opened VentilatorBase

  /** `VolumeVentilator.mode_defaults`. */
  const ModeDefaults: map<Setting, Value> :=
    map[Setting.Flow := Num(1.0), VolumeTarget := Num(0.5), FlowPattern := PatternValue(Square)]

  /** The settings `setupInspiratoryFlow` reads: they shape each breath's flow profile. */
  datatype BreathShape = BreathShape(pattern: Pattern, riseTime: real, flow: real, volumeTarget: real)

  /** The settings a volume-control run reads, resolved once per run. */
  datatype Config = Config(peep: real, shape: BreathShape, inspiratoryPause: real, respiratoryRate: real)

  /** The flow pattern: a decelerating setting selects the ramp, any other value the square wave. */
  function PatternSetting(current: map<Setting, Value>, mode: map<Setting, Value>): Result<Pattern, Error>
  {
    var v :- LayeredLookup(Tiers(current, mode), SettingName(FlowPattern));
    Success(if v == PatternValue(Decelerating) then Decelerating else Square)
  }

  /**
   * The breath's shape resolves exactly when the flow pattern is set and the rise
   * time, flow and volume target are numbers, and it then holds those values.
   */
  function ConfigureShape(current: map<Setting, Value>, mode: map<Setting, Value>): (r: Result<BreathShape, Error>)
    ensures r.Success? <==>
      && PatternSetting(current, mode).Success?
      && NumberSetting(current, mode, SettingName(RiseTime)).Success?
      && NumberSetting(current, mode, SettingName(Setting.Flow)).Success?
      && NumberSetting(current, mode, SettingName(VolumeTarget)).Success?
    ensures r.Success? ==>
      && PatternSetting(current, mode) == Success(r.value.pattern)
      && NumberSetting(current, mode, SettingName(RiseTime)) == Success(r.value.riseTime)
      && NumberSetting(current, mode, SettingName(Setting.Flow)) == Success(r.value.flow)
      && NumberSetting(current, mode, SettingName(VolumeTarget)) == Success(r.value.volumeTarget)
  {
    var pattern :- PatternSetting(current, mode);
    var riseTime :- NumberSetting(current, mode, SettingName(RiseTime));
    var flow :- NumberSetting(current, mode, SettingName(Setting.Flow));
    var volumeTarget :- NumberSetting(current, mode, SettingName(VolumeTarget));
    Success(BreathShape(pattern, riseTime, flow, volumeTarget))
  }

  /**
   * The settings of a run resolve exactly when the breath's shape resolves and
   * each other setting the loop reads is a number, and it then holds those values.
   */
  function Configure(current: map<Setting, Value>, mode: map<Setting, Value>): (r: Result<Config, Error>)
    ensures r.Success? <==>
      && NumberSetting(current, mode, SettingName(Peep)).Success?
      && ConfigureShape(current, mode).Success?
      && NumberSetting(current, mode, SettingName(Setting.InspiratoryPause)).Success?
      && NumberSetting(current, mode, SettingName(RespiratoryRate)).Success?
    ensures r.Success? ==>
      && NumberSetting(current, mode, SettingName(Peep)) == Success(r.value.peep)
      && ConfigureShape(current, mode) == Success(r.value.shape)
      && NumberSetting(current, mode, SettingName(Setting.InspiratoryPause)) == Success(r.value.inspiratoryPause)
      && NumberSetting(current, mode, SettingName(RespiratoryRate)) == Success(r.value.respiratoryRate)
  {
    var peep :- NumberSetting(current, mode, SettingName(Peep));
    var shape :- ConfigureShape(current, mode);
    var inspiratoryPause :- NumberSetting(current, mode, SettingName(Setting.InspiratoryPause));
    var respiratoryRate :- NumberSetting(current, mode, SettingName(RespiratoryRate));
    Success(Config(peep, shape, inspiratoryPause, respiratoryRate))
  }

  /** With no overrides a breath is a square wave of 1 L/s with no rise time, aiming at 0.5 L. */
  lemma DefaultShape()
    ensures ConfigureShape(map[], ModeDefaults) == Success(BreathShape(Square, 0.0, 1.0, 0.5))
  {
    TieredPrecedence(map[], ModeDefaults, FlowPattern);
    DefaultNumber(map[], ModeDefaults, RiseTime, 0.0);
    DefaultNumber(map[], ModeDefaults, Setting.Flow, 1.0);
    DefaultNumber(map[], ModeDefaults, VolumeTarget, 0.5);
  }

  /** With no overrides a run uses PEEP 0, the default breath, no pause and 10 breaths a minute. */
  lemma DefaultConfiguration()
    ensures Configure(map[], ModeDefaults) == Success(Config(0.0, BreathShape(Square, 0.0, 1.0, 0.5), 0.0, 10.0))
  {
    DefaultNumber(map[], ModeDefaults, Peep, 0.0);
    DefaultNumber(map[], ModeDefaults, Setting.InspiratoryPause, 0.0);
    DefaultNumber(map[], ModeDefaults, RespiratoryRate, 10.0);
    DefaultShape();
  }

  // ---------------------------------------------------------------------------
  // The inspiratory flow profile (`setupInspiratoryFlow`)
  // ---------------------------------------------------------------------------

  /**
   * The per-step flows of one breath. The rise lasts `ceil(rise_time / dt)` steps.
   * Square: a ramp from 0 to the flow setting, then the flow setting. Decelerating:
   * a ramp from 0 to twice the flow, then a fall from twice the flow to 0 long
   * enough for the rest of the volume target at the flow setting. A negative
   * sample count is refused by `np.linspace`; a zero flow leaves the planned time
   * infinite or undefined, which `int` refuses.
   */
  function InspiratoryFlow(shape: BreathShape, dt: real): (r: Result<seq<real>, Error>)
    requires dt > 0.0
    ensures r.Failure? ==> r.error == NegativeSampleCount || r.error == ZeroFlow
    ensures r.Success? && shape.pattern == Square ==> r.value != [] && r.value[|r.value| - 1] == shape.flow
  {
    var riseSteps := Ceil(shape.riseTime / dt);
    if riseSteps < 0 then Failure(NegativeSampleCount)
    else if shape.pattern == Decelerating then
      if shape.flow == 0.0 then Failure(ZeroFlow)
      else
        var totalSteps := Ceil(PlannedTime(shape, dt, riseSteps) / dt);
        if totalSteps < 0 then Failure(NegativeSampleCount)
        else Success(Scale(Linspace(0.0, 2.0, riseSteps), shape.flow) + Scale(Linspace(2.0, 0.0, totalSteps), shape.flow))
    else
      Success(Scale(Linspace(0.0, 1.0, riseSteps), shape.flow) + [shape.flow])
  }

  /**
   * `planned_inspiratory_time`: the time the fall of a decelerating breath needs
   * at the flow setting to deliver what a rise of `riseSteps` steps leaves of the
   * volume target.
   */
  function PlannedTime(shape: BreathShape, dt: real, riseSteps: nat): real
    requires shape.flow != 0.0
  {
    (shape.volumeTarget - Sum(Scale(Scale(Linspace(0.0, 2.0, riseSteps), shape.flow), dt))) / shape.flow
  }

  /** A run can deliver its breaths: the profile sets up and has a first entry. */
  predicate Deliverable(cfg: Config, dt: real)
  {
    dt > 0.0 && InspiratoryFlow(cfg.shape, dt).Success? && InspiratoryFlow(cfg.shape, dt).value != []
  }

  /** The profile every breath starts from. */
  function Profile(cfg: Config, dt: real): (p: seq<real>)
    requires Deliverable(cfg, dt)
    ensures p != []
  {
    InspiratoryFlow(cfg.shape, dt).value
  }

  lemma RiseStepsAccepted(riseTime: real, dt: real)
    requires dt > 0.0
    ensures Ceil(riseTime / dt) >= 0 <==> riseTime > -dt
  {
    CeilNonNegative(riseTime / dt);
    assert riseTime / dt * dt == riseTime;
  }

  /**
   * `q` runs evenly from `first` to `last`, as `np.linspace` spaces its points:
   * it starts at `first`, ends at `last`, and every step is `(last - first) / (|q| - 1)`.
   */
  predicate EvenRamp(q: seq<real>, first: real, last: real)
  {
    && (|q| >= 1 ==> q[0] == first)
    && (|q| >= 2 ==> q[|q| - 1] == last)
    && (forall i :: 0 <= i < |q| - 1 ==> q[i + 1] - q[i] == (last - first) / (|q| - 1) as real)
  }

  /** `np.linspace(start, stop, n) * flow` runs evenly from `start * flow` to `stop * flow`. */
  lemma ScaledLinspace(start: real, stop: real, n: nat, flow: real, first: real, last: real)
    requires first == start * flow && last == stop * flow
    ensures EvenRamp(Scale(Linspace(start, stop, n), flow), first, last)
  {
    LinspaceIsEven(start, stop, n);
    ScaledRamp(Linspace(start, stop, n), start, stop, flow, first, last);
  }

  /** `np.linspace(start, stop, n)` itself runs evenly from `start` to `stop`. */
  lemma LinspaceIsEven(start: real, stop: real, n: nat)
    ensures EvenRamp(Linspace(start, stop, n), start, stop)
  {
  }

  /** Scaling an even ramp from `start` to `stop` by `flow` gives an even ramp between the scaled ends. */
  lemma ScaledRamp(s: seq<real>, start: real, stop: real, flow: real, first: real, last: real)
    requires EvenRamp(s, start, stop)
    requires first == start * flow && last == stop * flow
    ensures EvenRamp(Scale(s, flow), first, last)
  {
    if |s| >= 2 {
      var d := (|s| - 1) as real;
      ScaleKeepsSteps(s, flow, (stop - start) / d);
      StepScales(start, stop, d, flow, first, last);
      EvenSteps(Scale(s, flow), first, last, (stop - start) / d * flow);
    }
  }

  /** A sequence of two or more entries from `first` to `last` whose steps all equal the even step is an even ramp. */
  lemma EvenSteps(q: seq<real>, first: real, last: real, step: real)
    requires |q| >= 2 && q[0] == first && q[|q| - 1] == last
    requires step == (last - first) / (|q| - 1) as real
    requires forall i :: 0 <= i < |q| - 1 ==> q[i + 1] - q[i] == step
    ensures EvenRamp(q, first, last)
  {
  }

  /** A step of `(b - a) / d` scaled by `k` is the step between the scaled ends. */
  lemma StepScales(a: real, b: real, d: real, k: real, first: real, last: real)
    requires d > 0.0 && first == a * k && last == b * k
    ensures (b - a) / d * k == (last - first) / d
  {
    var q := (b - a) / d;
    assert q * d == b - a;
    assert q * k * d == (b - a) * k;
  }

  /**
   * The square profile exists exactly when the rise time is above `-dt`; it is a
   * ramp of `ceil(rise_time / dt)` entries running evenly from 0 to the flow
   * setting, followed by the flow setting itself, and just the flow setting
   * when there is no rise time.
   */
  lemma SquareProfile(shape: BreathShape, dt: real)
    requires dt > 0.0 && shape.pattern == Square
    ensures InspiratoryFlow(shape, dt).Success? <==> shape.riseTime > -dt
    ensures InspiratoryFlow(shape, dt).Failure? ==> InspiratoryFlow(shape, dt).error == NegativeSampleCount
    ensures InspiratoryFlow(shape, dt).Success? ==>
      var p := InspiratoryFlow(shape, dt).value;
      var r := Ceil(shape.riseTime / dt);
      && r >= 0 && |p| == r + 1 && p[r] == shape.flow
      && EvenRamp(p[..r], 0.0, shape.flow)
      && (shape.riseTime <= 0.0 ==> p == [shape.flow])
  {
    RiseStepsAccepted(shape.riseTime, dt);
    var r := Ceil(shape.riseTime / dt);
    if r >= 0 {
      SquareRamp(r, shape.flow);
      if shape.riseTime <= 0.0 {
        assert shape.riseTime / dt <= 0.0;
        CeilLeast(shape.riseTime / dt, 0);
      }
    }
  }

  /** A rise of `r` steps to `flow`, then `flow`: an even ramp from 0 to the flow, then the flow. */
  lemma SquareRamp(r: nat, flow: real)
    ensures
      var p := Scale(Linspace(0.0, 1.0, r), flow) + [flow];
      && |p| == r + 1 && p[r] == flow
      && EvenRamp(p[..r], 0.0, flow)
      && (r == 0 ==> p == [flow])
  {
    var ramp := Scale(Linspace(0.0, 1.0, r), flow);
    ScaledLinspace(0.0, 1.0, r, flow, 0.0, flow);
    assert (ramp + [flow])[..r] == ramp;
  }

  /**
   * `p` runs evenly from 0 up to twice `flow` over its first `r` entries, then
   * evenly from twice `flow` down to 0 over the rest.
   */
  predicate RisesThenFalls(p: seq<real>, r: nat, flow: real)
  {
    r <= |p| && EvenRamp(p[..r], 0.0, 2.0 * flow) && EvenRamp(p[r..], 2.0 * flow, 0.0)
  }

  /**
   * The decelerating profile fails on a rise time at or below `-dt` or a zero flow
   * setting, and otherwise exactly when the planned time after the rise is at or
   * below `-dt`. When it sets up, it is a rise of `ceil(rise_time / dt)` entries
   * running evenly from 0 to twice the flow, then a fall of `ceil(planned / dt)`
   * entries running evenly from twice the flow to 0.
   */
  lemma DeceleratingProfile(shape: BreathShape, dt: real)
    requires dt > 0.0 && shape.pattern == Decelerating
    ensures shape.riseTime <= -dt ==> InspiratoryFlow(shape, dt) == Failure(NegativeSampleCount)
    ensures shape.riseTime > -dt && shape.flow == 0.0 ==> InspiratoryFlow(shape, dt) == Failure(ZeroFlow)
    ensures shape.riseTime > -dt && shape.flow != 0.0 ==>
      var r := Ceil(shape.riseTime / dt);
      && r >= 0
      && (InspiratoryFlow(shape, dt).Success? <==> PlannedTime(shape, dt, r) > -dt)
      && (InspiratoryFlow(shape, dt).Failure? ==> InspiratoryFlow(shape, dt).error == NegativeSampleCount)
    ensures InspiratoryFlow(shape, dt).Success? ==>
      var r := Ceil(shape.riseTime / dt);
      && shape.flow != 0.0 && r >= 0
      && |InspiratoryFlow(shape, dt).value| == r + Ceil(PlannedTime(shape, dt, r) / dt)
      && RisesThenFalls(InspiratoryFlow(shape, dt).value, r, shape.flow)
  {
    RiseStepsAccepted(shape.riseTime, dt);
    var r := Ceil(shape.riseTime / dt);
    if r >= 0 && shape.flow != 0.0 {
      RiseStepsAccepted(PlannedTime(shape, dt, r), dt);
      var n := Ceil(PlannedTime(shape, dt, r) / dt);
      if n >= 0 {
        DeceleratingRamps(shape.flow, r, n);
      }
    }
  }

  /** A rise of `r` entries from 0 to twice the flow, then a fall of `n` entries back to 0. */
  lemma DeceleratingRamps(flow: real, r: nat, n: nat)
    ensures RisesThenFalls(Scale(Linspace(0.0, 2.0, r), flow) + Scale(Linspace(2.0, 0.0, n), flow), r, flow)
  {
    ScaledLinspace(0.0, 2.0, r, flow, 0.0, 2.0 * flow);
    ScaledLinspace(2.0, 0.0, n, flow, 2.0 * flow, 0.0);
    JoinRamps(Scale(Linspace(0.0, 2.0, r), flow), Scale(Linspace(2.0, 0.0, n), flow), flow);
  }

  /** An even ramp from 0 up to twice `flow`, then an even ramp back down to 0, rises then falls. */
  lemma JoinRamps(rise: seq<real>, fall: seq<real>, flow: real)
    requires EvenRamp(rise, 0.0, 2.0 * flow) && EvenRamp(fall, 2.0 * flow, 0.0)
    ensures RisesThenFalls(rise + fall, |rise|, flow)
  {
    assert (rise + fall)[..|rise|] == rise;
    assert (rise + fall)[|rise|..] == fall;
  }

  /** `np.linspace(2, 0, n)` sums to at least `n`. */
  lemma FallingSum(n: nat)
    ensures Sum(Linspace(2.0, 0.0, n)) >= n as real
  {
    if n == 1 {
      assert Linspace(2.0, 0.0, 1)[..0] == [];
    } else if n >= 2 {
      SumLinspace(2.0, 0.0, n);
    }
  }

  /** A fall of `n >= gap / flow / dt` steps delivers at least `gap`. */
  lemma FallVolume(n: nat, flow: real, dt: real, gap: real)
    requires dt > 0.0 && flow > 0.0
    requires gap / flow / dt <= n as real
    ensures Sum(Scale(Scale(Linspace(2.0, 0.0, n), flow), dt)) >= gap
  {
    FallingSum(n);
    SumScaleTwice(Linspace(2.0, 0.0, n), flow, dt);
    FallCovers(Sum(Linspace(2.0, 0.0, n)), n, flow, dt, gap);
  }

  lemma FallCovers(total: real, n: nat, flow: real, dt: real, gap: real)
    requires dt > 0.0 && flow > 0.0 && total >= n as real
    requires gap / flow / dt <= n as real
    ensures total * flow * dt >= gap
  {
    var planned := gap / flow;
    assert planned / dt * dt == planned;
    assert n as real * dt >= planned;
    assert planned * flow == gap;
    assert total * dt >= n as real * dt;
    assert total * dt * flow >= planned * flow;
  }

  /**
   * With a positive flow setting the decelerating profile delivers at least the
   * volume target over its steps: the fall is sized with `ceil`, so it never
   * comes up short.
   */
  lemma DeceleratingDelivers(shape: BreathShape, dt: real)
    requires dt > 0.0 && shape.pattern == Decelerating && shape.flow > 0.0
    requires InspiratoryFlow(shape, dt).Success?
    ensures Sum(Scale(InspiratoryFlow(shape, dt).value, dt)) >= shape.volumeTarget
  {
    var r := Ceil(shape.riseTime / dt);
    var rise := Scale(Linspace(0.0, 2.0, r), shape.flow);
    var riseVolume := Sum(Scale(rise, dt));
    var n := Ceil(PlannedTime(shape, dt, r) / dt);
    var fallShape := Linspace(2.0, 0.0, n);
    var fall := Scale(fallShape, shape.flow);
    var p := InspiratoryFlow(shape, dt).value;
    assert p == rise + fall;
    var fallVolume := Sum(Scale(fall, dt));
    assert Sum(Scale(p, dt)) == riseVolume + fallVolume by {
      ScaleAppend(rise, fall, dt);
      SumAppend(Scale(rise, dt), Scale(fall, dt));
    }
    var gap := shape.volumeTarget - riseVolume;
    assert gap / shape.flow / dt <= n as real;
    FallVolume(n, shape.flow, dt, gap);
  }

  /** With the default settings, every breath is a flat 1 L/s whatever the time step. */
  lemma DefaultProfile(dt: real)
    requires dt > 0.0
    ensures InspiratoryFlow(BreathShape(Square, 0.0, 1.0, 0.5), dt) == Success([1.0])
  {
    SquareProfile(BreathShape(Square, 0.0, 1.0, 0.5), dt);
  }

  // ---------------------------------------------------------------------------
  // The `simulate` loop
  // ---------------------------------------------------------------------------

  /** The loop variables of `simulate` (with the remaining profile), and the patient's volume. */
  datatype State = State(
    phase: Phase, currentVolume: real, lastBreathStart: real, lastPauseStart: real,
    profile: seq<real>, time: real, lungVolume: real)

  /** The state before the first step, holding the first breath's profile. */
  function Start(seedVolume: real, profile: seq<real>): State
  {
    State(Inspiratory, 0.0, 0.0, 0.0, profile, 0.0, seedVolume)
  }

  /** One iteration of the `simulate` loop: the next state (one step later) and the sample recorded. */
  function Step(cfg: Config, lung: Lung, dt: real, setup: seq<real>, s: State): (r: (State, Sample))
    requires lung.Valid() && setup != [] && s.profile != []
    ensures r.0.profile != []
    ensures r.0.lungVolume == s.lungVolume + r.1.flow * dt
  {
    match s.phase
    case Inspiratory =>
      var flow := s.profile[0];
      var profile := if |s.profile| > 1 then s.profile[1..] else s.profile;
      var lungVolume := s.lungVolume + flow * dt;
      var currentVolume := s.currentVolume + flow * dt;
      var filled := s.(currentVolume := currentVolume, profile := profile,
                       time := s.time + dt, lungVolume := lungVolume);
      var next :=
        if !(cfg.shape.volumeTarget - currentVolume < CloseEnough) then filled
        else if cfg.inspiratoryPause > 0.0 then filled.(phase := Phase.InspiratoryPause, lastPauseStart := s.time)
        else filled.(phase := Expiratory);
      var pAlv := AlveolarPressure(lungVolume, lung.compliance);
      (next, Sample(Inspiratory, s.time, flow * lung.resistance + pAlv, flow, currentVolume, pAlv))
    case InspiratoryPause =>
      var pAlv := AlveolarPressure(s.lungVolume, lung.compliance);
      var held := s.(time := s.time + dt);
      var next := if s.time > s.lastPauseStart + cfg.inspiratoryPause then held.(phase := Expiratory) else held;
      (next, Sample(Phase.InspiratoryPause, s.time, pAlv, 0.0, s.currentVolume, pAlv))
    case Expiratory =>
      var flow := ExpiratoryFlow(AlveolarPressure(s.lungVolume, lung.compliance), cfg.peep, lung.resistance);
      var lungVolume := s.lungVolume + flow * dt;
      var currentVolume := s.currentVolume + flow * dt;
      var next :=
        if BreathDue(cfg.respiratoryRate, s.time, s.lastBreathStart)
        then s.(phase := Inspiratory, currentVolume := 0.0, lastBreathStart := s.time,
                profile := setup, time := s.time + dt, lungVolume := lungVolume)
        else s.(currentVolume := currentVolume, time := s.time + dt, lungVolume := lungVolume);
      (next, Sample(Expiratory, s.time, cfg.peep, flow, currentVolume,
                    AlveolarPressure(lungVolume, lung.compliance)))
  }

  /** The first `k` iterations from `s0`: the state reached and one sample per iteration. */
  function Trace(cfg: Config, lung: Lung, dt: real, setup: seq<real>, s0: State, k: nat): (r: (State, seq<Sample>))
    requires lung.Valid() && setup != [] && s0.profile != []
    ensures |r.1| == k && r.0.profile != []
  {
    if k == 0 then (s0, [])
    else
      var (s, samples) := Trace(cfg, lung, dt, setup, s0, k - 1);
      var (next, sample) := Step(cfg, lung, dt, setup, s);
      (next, samples + [sample])
  }

  /** A whole run of `time_length` seconds from a lung seeded at PEEP. */
  function Run(cfg: Config, lung: Lung, dt: real, timeLength: nat): (r: (State, seq<Sample>))
    requires lung.Valid() && Deliverable(cfg, dt)
    ensures |r.1| == StepCount(timeLength as real, dt)
  {
    var setup := Profile(cfg, dt);
    Trace(cfg, lung, dt, setup, Start(RestingVolume(lung.compliance, cfg.peep), setup),
          StepCount(timeLength as real, dt))
  }

  /** Unrolls one iteration of a trace; earlier samples are kept as they were. */
  lemma TracePrefix(cfg: Config, lung: Lung, dt: real, setup: seq<real>, s0: State, k: nat)
    requires lung.Valid() && setup != [] && s0.profile != [] && k > 0
    ensures Trace(cfg, lung, dt, setup, s0, k).1[..k - 1] == Trace(cfg, lung, dt, setup, s0, k - 1).1
    ensures Trace(cfg, lung, dt, setup, s0, k).0 == Step(cfg, lung, dt, setup, Trace(cfg, lung, dt, setup, s0, k - 1).0).0
    ensures Trace(cfg, lung, dt, setup, s0, k).1[k - 1] == Step(cfg, lung, dt, setup, Trace(cfg, lung, dt, setup, s0, k - 1).0).1
  {
  }

  /** A step is stamped with the current time and moves the clock on by `dt`. */
  lemma StepTime(cfg: Config, lung: Lung, dt: real, setup: seq<real>, s: State)
    requires lung.Valid() && setup != [] && s.profile != []
    ensures Step(cfg, lung, dt, setup, s).0.time == s.time + dt
    ensures Step(cfg, lung, dt, setup, s).1.time == s.time
  {
  }

  /** After `k` steps from time 0 the clock reads `k` steps of `dt`. */
  lemma {:induction false} ClockTime(cfg: Config, lung: Lung, dt: real, setup: seq<real>, seedVolume: real, k: nat)
    requires lung.Valid() && setup != []
    ensures Trace(cfg, lung, dt, setup, Start(seedVolume, setup), k).0.time == Elapsed(k, dt)
  {
    if k > 0 {
      ClockTime(cfg, lung, dt, setup, seedVolume, k - 1);
      StepTime(cfg, lung, dt, setup, Trace(cfg, lung, dt, setup, Start(seedVolume, setup), k - 1).0);
    }
  }

  /**
   * Inspiration takes the head of the profile as this step's flow and drops it,
   * unless it is the last entry, which is held; the flow is integrated into the
   * lung and the breath's volume, and the airway pressure recorded is the
   * resistive drop plus the new alveolar pressure.
   */
  lemma InspiratoryStep(cfg: Config, lung: Lung, dt: real, setup: seq<real>, s: State)
    requires lung.Valid() && setup != [] && s.profile != [] && s.phase == Inspiratory
    ensures
      var (next, sample) := Step(cfg, lung, dt, setup, s);
      && sample.flow == s.profile[0]
      && next.profile == (if |s.profile| > 1 then s.profile[1..] else s.profile)
      && next.lungVolume == s.lungVolume + sample.flow * dt
      && next.currentVolume == s.currentVolume + sample.flow * dt == sample.volume
      && sample.pAlv * lung.compliance == next.lungVolume
      && sample.pressure == sample.flow * lung.resistance + sample.pAlv
  {
  }

  /**
   * Inspiration is volume-cycled: it ends exactly when the delivered volume is
   * within `CLOSE_ENOUGH` of the target (or past it), and it ends in a pause
   * (stamped now) exactly when a pause is set.
   */
  lemma VolumeCycled(cfg: Config, lung: Lung, dt: real, setup: seq<real>, s: State)
    requires lung.Valid() && setup != [] && s.profile != [] && s.phase == Inspiratory
    ensures
      var next := Step(cfg, lung, dt, setup, s).0;
      && (next.phase != Inspiratory <==> next.currentVolume > cfg.shape.volumeTarget - CloseEnough)
      && (next.phase == Phase.InspiratoryPause <==>
            next.currentVolume > cfg.shape.volumeTarget - CloseEnough && cfg.inspiratoryPause > 0.0)
      && (next.phase == Phase.InspiratoryPause ==> next.lastPauseStart == s.time)
      && next.lastBreathStart == s.lastBreathStart
  {
  }

  /**
   * The inspiratory pause is a static hold: no flow, no volume change, airway
   * pressure equal to alveolar pressure; it ends once the pause time has passed.
   */
  lemma PauseHolds(cfg: Config, lung: Lung, dt: real, setup: seq<real>, s: State)
    requires lung.Valid() && setup != [] && s.profile != [] && s.phase == Phase.InspiratoryPause
    ensures
      var (next, sample) := Step(cfg, lung, dt, setup, s);
      && sample.flow == 0.0 && sample.pressure == sample.pAlv
      && sample.pAlv * lung.compliance == s.lungVolume
      && (next.phase == Expiratory <==> s.time > s.lastPauseStart + cfg.inspiratoryPause)
      && next == s.(phase := next.phase, time := s.time + dt)
  {
  }

  /**
   * Exhalation is passive toward PEEP with PEEP recorded as airway pressure; a new
   * breath begins exactly when the rate is positive and its period has elapsed,
   * and then the breath volume restarts from zero with a fresh profile.
   */
  lemma Exhalation(cfg: Config, lung: Lung, dt: real, setup: seq<real>, s: State)
    requires lung.Valid() && setup != [] && s.profile != [] && s.phase == Expiratory
    ensures
      var (next, sample) := Step(cfg, lung, dt, setup, s);
      && sample.flow * lung.resistance == cfg.peep - AlveolarPressure(s.lungVolume, lung.compliance)
      && sample.pressure == cfg.peep
      && next.lungVolume == s.lungVolume + sample.flow * dt
      && (next.phase == Inspiratory <==>
            cfg.respiratoryRate > 0.0 && s.time - s.lastBreathStart > 60.0 / cfg.respiratoryRate)
      && (next.phase == Inspiratory ==>
            next.currentVolume == 0.0 && next.lastBreathStart == s.time && next.profile == setup)
      && (next.phase != Inspiratory ==>
            next.phase == Expiratory && next.lastBreathStart == s.lastBreathStart &&
            next.currentVolume == s.currentVolume + sample.flow * dt && next.profile == s.profile)
  {
  }

  /** Apart from the step that starts a new breath, the lung gains exactly what the breath's volume gains. */
  lemma BreathVolume(cfg: Config, lung: Lung, dt: real, setup: seq<real>, s: State)
    requires lung.Valid() && setup != [] && s.profile != []
    ensures
      var next := Step(cfg, lung, dt, setup, s).0;
      !(s.phase == Expiratory && next.phase == Inspiratory) ==>
        next.lungVolume - next.currentVolume == s.lungVolume - s.currentVolume
  {
  }

  /** `q` is what is left of profile `p` after some of its leading entries were delivered. */
  predicate RemainderOf(q: seq<real>, p: seq<real>)
  {
    0 < |q| <= |p| && q == p[|p| - |q|..]
  }

  /** Every step keeps the remaining profile a nonempty tail of the breath's profile. */
  lemma ProfileStep(cfg: Config, lung: Lung, dt: real, setup: seq<real>, s: State)
    requires lung.Valid() && setup != [] && RemainderOf(s.profile, setup)
    ensures RemainderOf(Step(cfg, lung, dt, setup, s).0.profile, setup)
  {
    var p := setup;
    if s.phase == Inspiratory && |s.profile| > 1 {
      assert s.profile[1..] == p[|p| - (|s.profile| - 1)..];
    }
  }

  /** Along a whole run the remaining profile is always a nonempty tail of the breath's profile. */
  lemma {:induction false} ProfileRemainder(cfg: Config, lung: Lung, dt: real, setup: seq<real>, s0: State, k: nat)
    requires lung.Valid() && setup != [] && RemainderOf(s0.profile, setup)
    ensures RemainderOf(Trace(cfg, lung, dt, setup, s0, k).0.profile, setup)
  {
    if k > 0 {
      ProfileRemainder(cfg, lung, dt, setup, s0, k - 1);
      ProfileStep(cfg, lung, dt, setup, Trace(cfg, lung, dt, setup, s0, k - 1).0);
    }
  }

  /**
   * From the start of a breath, while it stays inspiratory, the `i`-th step
   * delivers the profile's `i`-th entry: the breath's volume is the profile's
   * first `i` flows integrated over `dt`, and what is left of the profile is the
   * rest (its last entry being held).
   */
  lemma {:induction false} BreathDelivers(cfg: Config, lung: Lung, dt: real, setup: seq<real>, s0: State, i: nat)
    requires lung.Valid() && setup != [] && s0.profile == setup
    requires i <= |setup|
    requires forall j :: 0 <= j < i ==> Trace(cfg, lung, dt, setup, s0, j).0.phase == Inspiratory
    ensures
      var p := setup;
      var s := Trace(cfg, lung, dt, setup, s0, i).0;
      && s.currentVolume == s0.currentVolume + Sum(Scale(p[..i], dt))
      && s.profile == (if i < |p| then p[i..] else p[|p| - 1..])
  {
    var p := setup;
    if i == 0 {
      assert Scale(p[..0], dt) == [];
    } else {
      BreathDelivers(cfg, lung, dt, setup, s0, i - 1);
      var s := Trace(cfg, lung, dt, setup, s0, i - 1).0;
      assert s.phase == Inspiratory;
      DeliverEntry(cfg, lung, dt, setup, s, p, i);
      TracePrefix(cfg, lung, dt, setup, s0, i);
      SumScalePrefix(p, i, dt);
    }
  }

  /** The breath's `i`-th inspiratory step delivers the profile's `i`-th entry and moves past it. */
  lemma DeliverEntry(cfg: Config, lung: Lung, dt: real, setup: seq<real>, s: State, p: seq<real>, i: nat)
    requires lung.Valid() && setup != [] && s.phase == Inspiratory
    requires 0 < i <= |p| && s.profile == p[i - 1..]
    ensures
      var next := Step(cfg, lung, dt, setup, s).0;
      && next.currentVolume == s.currentVolume + p[i - 1] * dt
      && next.profile == (if i < |p| then p[i..] else p[|p| - 1..])
  {
    InspiratoryStep(cfg, lung, dt, setup, s);
    if i < |p| {
      assert p[i - 1..][1..] == p[i..];
    }
  }

  /**
   * A breath whose whole profile, integrated over `dt`, reaches the volume
   * target is over within as many steps as the profile has entries.
   */
  lemma CyclesWithinProfile(cfg: Config, lung: Lung, dt: real, setup: seq<real>, s0: State)
    requires lung.Valid() && setup != [] && Sum(Scale(setup, dt)) >= cfg.shape.volumeTarget
    requires s0.phase == Inspiratory && s0.currentVolume == 0.0 && s0.profile == setup
    ensures exists i :: 1 <= i <= |setup| && Trace(cfg, lung, dt, setup, s0, i).0.phase != Inspiratory
  {
    var p := setup;
    if !exists i :: 1 <= i < |p| && Trace(cfg, lung, dt, setup, s0, i).0.phase != Inspiratory {
      var n := |p|;
      BreathDelivers(cfg, lung, dt, setup, s0, n);
      assert p[..n] == p;
      var s := Trace(cfg, lung, dt, setup, s0, n - 1).0;
      VolumeCycled(cfg, lung, dt, setup, s);
      assert Trace(cfg, lung, dt, setup, s0, n).0.phase != Inspiratory;
    }
  }

  /**
   * A decelerating breath with a positive flow setting is over within as many
   * steps as its profile has entries: by then it has delivered the volume target.
   */
  lemma DeceleratingBreathEnds(cfg: Config, lung: Lung, dt: real, s0: State)
    requires lung.Valid() && Deliverable(cfg, dt)
    requires cfg.shape.pattern == Decelerating && cfg.shape.flow > 0.0
    requires s0.phase == Inspiratory && s0.currentVolume == 0.0 && s0.profile == Profile(cfg, dt)
    ensures
      var setup := Profile(cfg, dt);
      exists i :: 1 <= i <= |setup| && Trace(cfg, lung, dt, setup, s0, i).0.phase != Inspiratory
  {
    DeceleratingDelivers(cfg.shape, dt);
    CyclesWithinProfile(cfg, lung, dt, Profile(cfg, dt), s0);
  }

  /** `VolumeVentilator`: a ventilator with the volume-control defaults. */
  class VolumeVentilator {
    const vent: Ventilator

    constructor (patient: Patient?)
      ensures fresh(vent) && vent.Valid() && vent.modeDefaults == ModeDefaults
      ensures vent.currentSettings == map[]
      ensures patient != null ==> vent.patient == patient
    {
      vent := new Ventilator(patient, ModeDefaults);
    }

    /**
     * One iteration of the `simulate` loop: roll the table, record the time, then
     * the phase's branch (`Breathe`) and its measurements; the loop variables, the
     * remaining profile and the patient move as `Step` says and the table gains
     * the step's sample.
     */
    method Advance(cfg: Config, ghost lung: Lung, timeStep: real, setup: seq<real>, currentTime: real,
                   phase: Phase, currentVolume: real, lastBreathStart: real, lastPauseStart: real,
                   profile: seq<real>, ghost seed: Row, ghost samples: seq<Sample>)
      returns (phase': Phase, currentVolume': real, lastBreathStart': real, lastPauseStart': real,
               profile': seq<real>)
      requires vent.Valid() && lung.Valid() && setup != [] && profile != []
      requires |samples| + 1 < vent.outputLength
      requires vent.patient.compliance == lung.compliance && vent.patient.resistance == lung.resistance
      requires vent.output[..] == RunTable(seed, samples, vent.outputLength)
      modifies vent, vent.patient
      ensures vent.Valid() && fresh(vent.output) && vent.outputLength == old(vent.outputLength)
      ensures vent.currentSettings == old(vent.currentSettings)
      ensures vent.patient.compliance == lung.compliance && vent.patient.resistance == lung.resistance
      ensures
        var (after, sample) := Step(cfg, lung, timeStep, setup,
          State(phase, currentVolume, lastBreathStart, lastPauseStart, profile, currentTime, old(vent.patient.volume)));
        && after == State(phase', currentVolume', lastBreathStart', lastPauseStart', profile',
                          currentTime + timeStep, vent.patient.volume)
        && vent.output[..] == RunTable(seed, samples + [sample], vent.outputLength)
    {
      vent.Tick();
      var recorded := vent.Record([("time", currentTime)]);
      assert recorded == Pass;
      var sample;
      phase', currentVolume', lastBreathStart', lastPauseStart', profile', sample :=
        Breathe(cfg, lung, timeStep, setup, currentTime, phase, currentVolume, lastBreathStart, lastPauseStart, profile);
      StepExtendsRunTable(seed, samples, sample, vent.outputLength);
      recorded := vent.Record(MeasurementValues(sample.flow, sample.volume, sample.pressure, sample.pAlv));
      assert recorded == Pass;
    }

    /**
     * The phase's branch of one loop iteration: deliver the next profile entry,
     * hold, or exhale, on the patient; the loop variables and the patient move as
     * `Step` says, and the returned sample holds the values the branch records.
     */
    method Breathe(cfg: Config, ghost lung: Lung, timeStep: real, setup: seq<real>, currentTime: real,
                   phase: Phase, currentVolume: real, lastBreathStart: real, lastPauseStart: real,
                   profile: seq<real>)
      returns (phase': Phase, currentVolume': real, lastBreathStart': real, lastPauseStart': real,
               profile': seq<real>, sample: Sample)
      requires lung.Valid() && setup != [] && profile != []
      requires vent.patient.compliance == lung.compliance && vent.patient.resistance == lung.resistance
      modifies vent.patient
      ensures vent.patient.compliance == lung.compliance && vent.patient.resistance == lung.resistance
      ensures Step(cfg, lung, timeStep, setup,
          State(phase, currentVolume, lastBreathStart, lastPauseStart, profile, currentTime, old(vent.patient.volume))) ==
        (State(phase', currentVolume', lastBreathStart', lastPauseStart', profile', currentTime + timeStep, vent.patient.volume),
         sample)
    {
      var patient := vent.patient;
      ghost var expected := Step(cfg, lung, timeStep, setup,
        State(phase, currentVolume, lastBreathStart, lastPauseStart, profile, currentTime, patient.volume));
      phase', currentVolume', lastBreathStart', lastPauseStart', profile' :=
        phase, currentVolume, lastBreathStart, lastPauseStart, profile;
      if phase == Inspiratory {
        var currentFlow := profile[0];
        if |profile| > 1 {
          profile' := profile[1..];
        }
        var deltaVolume := currentFlow * timeStep;
        patient.AddVolume(deltaVolume);
        currentVolume' := currentVolume + deltaVolume;
        if cfg.shape.volumeTarget - currentVolume' < CloseEnough {
          if cfg.inspiratoryPause > 0.0 {
            phase' := Phase.InspiratoryPause;
            lastPauseStart' := currentTime;
          } else {
            phase' := Expiratory;
          }
        }
        var pAlv := patient.GetPressure();
        sample := Sample(phase, currentTime, currentFlow * patient.resistance + pAlv, currentFlow, currentVolume', pAlv);
        assert patient.volume == old(patient.volume) + currentFlow * timeStep;
        assert pAlv == AlveolarPressure(patient.volume, lung.compliance);
        assert expected.1 == sample;
        assert expected.0.lungVolume == patient.volume;
        assert expected == (State(phase', currentVolume', lastBreathStart', lastPauseStart', profile', currentTime + timeStep, patient.volume), sample);
      } else if phase == Phase.InspiratoryPause {
        var pAlv := patient.GetPressure();
        sample := Sample(phase, currentTime, pAlv, 0.0, currentVolume, pAlv);
        if currentTime > lastPauseStart + cfg.inspiratoryPause {
          phase' := Expiratory;
        }
        assert expected == (State(phase', currentVolume', lastBreathStart', lastPauseStart', profile', currentTime + timeStep, patient.volume), sample);
      } else {
        var currentFlow := ExpiratoryFlow(patient.GetPressure(), cfg.peep, patient.resistance);
        var deltaVolume := currentFlow * timeStep;
        patient.AddVolume(deltaVolume);
        currentVolume' := currentVolume + deltaVolume;
        sample := Sample(phase, currentTime, cfg.peep, currentFlow, currentVolume', patient.GetPressure());
        assert patient.volume == old(patient.volume) + currentFlow * timeStep;
        assert expected.1 == sample;
        if BreathDue(cfg.respiratoryRate, currentTime, lastBreathStart) {
          phase' := Inspiratory;
          currentVolume' := 0.0;
          lastBreathStart' := currentTime;
          profile' := setup;
        }
        assert expected == (State(phase', currentVolume', lastBreathStart', lastPauseStart', profile', currentTime + timeStep, patient.volume), sample);
      }
    }

    /**
     * `simulate(time_length = 60, time_step = 0.02)`: the base set-up, the first breath's
     * profile, then one loop iteration per step while `current_time < time_length`.
     * A successful run leaves the patient and the table exactly as `Run` describes.
     */
    method Simulate(timeLength: nat := 60, timeStep: real := 0.02) returns (outcome: Outcome<Error>)
      requires vent.Valid() && timeStep > 0.0
      modifies vent, vent.patient
      ensures vent.Valid() && vent.currentSettings == old(vent.currentSettings)
      ensures vent.outputLength == OutputLengthFor(timeLength, timeStep)
      ensures vent.patient.compliance == old(vent.patient.compliance)
      ensures vent.patient.resistance == old(vent.patient.resistance)
      ensures outcome.Pass? <==>
        && OutputLengthFor(timeLength, timeStep) > 0
        && Configure(vent.currentSettings, vent.modeDefaults).Success?
        && Deliverable(Configure(vent.currentSettings, vent.modeDefaults).value, timeStep)
        && Lung(vent.patient.compliance, vent.patient.resistance).Valid()
      ensures outcome.Pass? ==>
        var cfg := Configure(vent.currentSettings, vent.modeDefaults).value;
        var lung := Lung(vent.patient.compliance, vent.patient.resistance);
        var run := Run(cfg, lung, timeStep, timeLength);
        && vent.patient.volume == run.0.lungVolume
        && vent.output[..] == RunTable(SeedRow(cfg.peep), run.1, vent.outputLength)
    {
      outcome := vent.BeginRun(timeLength, timeStep);
      if outcome.Fail? {
        return;
      }
      var configured := Configure(vent.currentSettings, vent.modeDefaults);
      if configured.Failure? {
        return Fail(configured.error);
      }
      var cfg := configured.value;
      var flow := InspiratoryFlow(cfg.shape, timeStep);
      if flow.Failure? {
        return Fail(flow.error);
      }
      if flow.value == [] {
        return Fail(EmptyProfile);
      }
      var patient := vent.patient;
      if patient.compliance == 0.0 {
        return Fail(ZeroCompliance);
      }
      if patient.resistance == 0.0 {
        return Fail(ZeroResistance);
      }
      ghost var lung := Lung(patient.compliance, patient.resistance);
      assert StepCount(timeLength as real, timeStep) < vent.outputLength;
      RunSteps(cfg, lung, timeLength, timeStep, flow.value);
    }

    /** The `while current_time < time_length` loop of `simulate`, from a seeded table. */
    method RunSteps(cfg: Config, ghost lung: Lung, timeLength: nat, timeStep: real, setup: seq<real>)
      requires vent.Valid() && lung.Valid() && timeStep > 0.0 && setup != []
      requires vent.patient.compliance == lung.compliance && vent.patient.resistance == lung.resistance
      requires StepCount(timeLength as real, timeStep) < vent.outputLength
      requires vent.patient.volume == RestingVolume(lung.compliance, cfg.peep)
      requires vent.output[..] == RunTable(SeedRow(cfg.peep), [], vent.outputLength)
      modifies vent, vent.patient
      ensures vent.Valid() && vent.outputLength == old(vent.outputLength)
      ensures vent.output == old(vent.output) || fresh(vent.output)
      ensures vent.currentSettings == old(vent.currentSettings)
      ensures vent.patient.compliance == lung.compliance && vent.patient.resistance == lung.resistance
      ensures
        var run := Trace(cfg, lung, timeStep, setup, Start(RestingVolume(lung.compliance, cfg.peep), setup),
                         StepCount(timeLength as real, timeStep));
        && vent.patient.volume == run.0.lungVolume
        && vent.output[..] == RunTable(SeedRow(cfg.peep), run.1, vent.outputLength)
    {
      var patient := vent.patient;
      ghost var n := vent.outputLength;
      ghost var m := StepCount(timeLength as real, timeStep);
      ghost var seedVolume := RestingVolume(lung.compliance, cfg.peep);
      ghost var seed := SeedRow(cfg.peep);

      var phase := Inspiratory;
      var currentTime := 0.0;
      var currentVolume := 0.0;
      var lastBreathStart := 0.0;
      var lastPauseStart := 0.0;
      var profile := setup;
      ghost var k: nat := 0;
      ghost var samples: seq<Sample> := [];

      while currentTime < timeLength as real
        invariant vent.Valid() && vent.outputLength == n
        invariant vent.output == old(vent.output) || fresh(vent.output)
        invariant vent.currentSettings == old(vent.currentSettings)
        invariant patient.compliance == lung.compliance && patient.resistance == lung.resistance
        invariant k <= m
        invariant Trace(cfg, lung, timeStep, setup, Start(seedVolume, setup), k) ==
          (State(phase, currentVolume, lastBreathStart, lastPauseStart, profile, currentTime, patient.volume), samples)
        invariant vent.output[..] == RunTable(seed, samples, n)
        decreases m - k
      {
        ClockTime(cfg, lung, timeStep, setup, seedVolume, k);
        StepBelowLimit(timeLength as real, timeStep, k);
        ghost var sample := Step(cfg, lung, timeStep, setup,
          State(phase, currentVolume, lastBreathStart, lastPauseStart, profile, currentTime, patient.volume)).1;
        phase, currentVolume, lastBreathStart, lastPauseStart, profile :=
          Advance(cfg, lung, timeStep, setup, currentTime, phase, currentVolume, lastBreathStart, lastPauseStart,
                  profile, seed, samples);
        TracePrefix(cfg, lung, timeStep, setup, Start(seedVolume, setup), k + 1);
        samples := samples + [sample];
        currentTime := currentTime + timeStep;
        k := k + 1;
      }
      ClockTime(cfg, lung, timeStep, setup, seedVolume, k);
      StepBelowLimit(timeLength as real, timeStep, k);
    }
  }
}
