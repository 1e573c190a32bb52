# VentSimulator in Dafny

A model of the core of VentSimulator, a teaching simulator of mechanical ventilation.
A single-compartment linear lung (`Patient`: volume, compliance, resistance) is
ventilated step by step by one of three breath-delivery modes, each of which records
time, airway pressure, flow, volume and alveolar pressure into a fixed-size table:

- **pressure control** (`PressureVentilator`): time-cycled breaths driven by the pressure target;
- **pressure support** (`PressureSupportVentilator`): breaths driven by target plus PEEP, flow-cycled at a fraction of the breath's peak flow;
- **volume control** (`VolumeVentilator`): breaths that deliver a precomputed flow profile (square or decelerating) until the volume target is reached within `CLOSE_ENOUGH`.

Every mode shares the `Ventilator` machinery: a settings lookup in three tiers
(per-run override, then mode default, then global default), a table rolled down one
row per step (`tick`), written in row 0 (`record`), and read back oldest-first (`data`).

Modules, one per source file (plus two support modules):

| file | module | models |
|---|---|---|
| `wrappers.dfy` | `Wrappers` | `Option`, `Result` and `Outcome` (success, or the error the source raises) |
| `numerics.dfy` | `Numerics` | exact-real `np.ceil`, `np.linspace`, `np.sum` and scaling; the step count of a `while t < T` loop |
| `patient.dfy` | `PatientModel` | `Patient` (a class: its methods update the volume in place) |
| `ventilator.dfy` | `VentilatorBase` | enumerations, `CLOSE_ENOUGH`, `global_defaults`, the settings lookup, the table and the `Ventilator` class |
| `pressure_control.dfy` | `PressureControl` | `PressureVentilator` |
| `pressure_support.dfy` | `PressureSupport` | `PressureSupportVentilator` |
| `volume_control.dfy` | `VolumeControl` | `VolumeVentilator`, including `setupInspiratoryFlow` |

Each mode is modelled twice, and the two are proved to agree:

- a pure `Step` function (one loop iteration on a `State` of the loop variables and the lung volume) and `Trace`/`Run` (the whole loop), about which the breath-level properties are proved;
- a class whose `Simulate` runs the imperative loop over the patient and the table array (`RunSteps`, with the body in `Advance` and the phase's branch in `Breathe`), proved to leave exactly the patient volume and table that `Run` describes.

Numbers are exact reals; the table's NaN fill is the cell value `Unset`.

## Model

| member | source | states |
|---|---|---|
| PatientModel.Patient.constructor | VentSimulator/Patient.py:2-5 | a new patient has volume 0, compliance 0.05 and resistance 10 |
| PatientModel.Patient.SetPeepHint | VentSimulator/Patient.py:8-9 | the volume becomes the resting volume at PEEP (`compliance * peep`); compliance and resistance are unchanged |
| PatientModel.Patient.AddVolume | VentSimulator/Patient.py:11-12 | the volume grows by exactly the delta (no bound); nothing else changes |
| PatientModel.Patient.GetPressure | VentSimulator/Patient.py:14-15 | the pressure times the compliance is the volume (linear lung) |
| PatientModel.AlveolarPressure | VentSimulator/Patient.py:14-15 | the same relation, as a function of volume and compliance |
| PatientModel.PeepHintPressure | VentSimulator/Patient.py:8-15 | a lung seeded with a PEEP hint reads back exactly that PEEP |
| PatientModel.SeedAndRead | VentSimulator/Patient.py:8-15 | `setPeepHint` then `getPressure` on a patient returns the hint |
| PatientModel.AddVolumeTwice | VentSimulator/Patient.py:11-12 | two additions equal one addition of their sum |
| VentilatorBase.ParameterNamed | VentSimulator/Ventilator.py:7 | a name maps to the column with that name, and to none exactly when no column has it |
| VentilatorBase.MemberNamed | VentSimulator/Ventilator.py:9-10 | an enumeration lookup finds a member with that name, or proves none has it |
| VentilatorBase.SettingNamed | VentSimulator/Ventilator.py:9-10 | `settings[name]` yields only the setting that has that name |
| VentilatorBase.SettingNamedIsEnumLookup | VentSimulator/Ventilator.py:9-10 | the name lookup agrees with scanning the enumeration's members for the name |
| VentilatorBase.SettingNameRoundTrip | VentSimulator/Ventilator.py:9-10 | every setting is found under its own name, and only under it |
| VentilatorBase.FlowTriggerUndeclared | VentSimulator/Ventilator.py:9-10 | the enumeration as declared has no `flow_trigger` |
| VentilatorBase.FlowTriggerDeclared | VentSimulator/Ventilator.py:9-10 | with `flow_trigger` added, its name resolves |
| VentilatorBase.FirstLayer | VentSimulator/Ventilator.py:31-38 | the first tier defining a setting: it defines it and no earlier tier does; none when no tier does |
| VentilatorBase.FirstLayerOfTiers | VentSimulator/Ventilator.py:31-38 | over the three tiers the first is found in the order override, mode default, global default |
| VentilatorBase.LayeredLookup | VentSimulator/Ventilator.py:31-38 | an unknown name fails; a setting no tier defines is unresolved; otherwise the value is the one in the first tier that defines the setting |
| VentilatorBase.TieredPrecedence | VentSimulator/Ventilator.py:31-38 | a setting reads as its override, else its mode default, else its global default, else fails |
| VentilatorBase.NumberSetting | VentSimulator/Ventilator.py:31-38 | a numeric read succeeds exactly when the lookup yields a number, and returns that number |
| VentilatorBase.DefaultNumber | VentSimulator/Ventilator.py:14-17 | without an override a setting reads as its mode default, or failing that its global default |
| VentilatorBase.OverrideShadows | VentSimulator/Ventilator.py:31-41 | after `self[name] = v` the setting reads `v`, whatever the defaults |
| VentilatorBase.OverrideIsolated | VentSimulator/Ventilator.py:31-41 | an override changes no other setting's reading |
| VentilatorBase.FirstLayerAgree | VentSimulator/Ventilator.py:31-38 | tier lists that agree on whether they define a setting find the same first tier |
| VentilatorBase.RemovingOverrideReveals | VentSimulator/Ventilator.py:31-38 | removing an override reveals the mode default, else the global default |
| VentilatorBase.ExpiratoryFlow | VentSimulator/PressureVentilator.py:48 | expiratory flow times resistance is PEEP minus alveolar pressure (passive exhalation toward PEEP) |
| VentilatorBase.Row.With | VentSimulator/Ventilator.py:58 | writing one cell of a row sets that cell and keeps the others |
| VentilatorBase.Roll | VentSimulator/Ventilator.py:53-54 | a tick moves every row down one place and wraps the last row to the top |
| VentilatorBase.RollTimesRotates | VentSimulator/Ventilator.py:53-54 | `k` ticks bring the last `k` rows to the top, in order |
| VentilatorBase.RollRotation | VentSimulator/Ventilator.py:53-54 | one tick turns a rotation starting at row `j` into the one starting at `j - 1` |
| VentilatorBase.RollFullCycle | VentSimulator/Ventilator.py:53-54 | as many ticks as rows restore the table |
| VentilatorBase.RecordInto | VentSimulator/Ventilator.py:56-58 | recording keeps the table's size and every row but row 0 |
| VentilatorBase.RecordFirst | VentSimulator/Ventilator.py:56-58 | recording a known name first writes its cell of row 0, then records the rest |
| VentilatorBase.RecordSucceedsIff | VentSimulator/Ventilator.py:56-58 | a record succeeds exactly when every name is a column and there is a row 0 (or nothing to write) |
| VentilatorBase.RecordKeepsUnnamedCells | VentSimulator/Ventilator.py:56-58 | a successful record leaves every column that no name mentions as it was in row 0 |
| VentilatorBase.RecordWritesLastValue | VentSimulator/Ventilator.py:56-58 | a successful record leaves a named column of row 0 at the last value given for it |
| VentilatorBase.FreshTable | VentSimulator/Ventilator.py:43-46 | a fresh table of `n` rows: row 0 all zero, every other row unset (NaN) |
| VentilatorBase.SeedFreshTable | VentSimulator/Ventilator.py:43-51 | a fresh table seeded at PEEP is the table of a run that has recorded nothing yet |
| VentilatorBase.StepExtendsRunTable | VentSimulator/Ventilator.py:53-58 | a tick, the time record and the measurement record append one sample and raise nothing while an unset row remains |
| VentilatorBase.RunTableShift | VentSimulator/Ventilator.py:53-54 | below the newest row, the table after one more sample is the previous table moved down a row |
| VentilatorBase.RunDataChronological | VentSimulator/Ventilator.py:60-61 | read back, a column lists the unset rows, the seed, then every sample oldest first |
| VentilatorBase.ReversedColumn | VentSimulator/Ventilator.py:60-61 | a flipped column has one entry per row, and row `i` is read back `i` places from the end |
| VentilatorBase.OutputLengthFor | VentSimulator/Ventilator.py:49 | a zero-length run gets no rows; otherwise more rows than the loop has steps |
| VentilatorBase.CapacitySuffices | VentSimulator/Ventilator.py:49 | `ceil(1 / dt) + 1` rows per second exceed the step count of the run |
| VentilatorBase.Ventilator.constructor | VentSimulator/Ventilator.py:21-29 | binds the given patient or a fresh default one, with no overrides and a ten-row table whose row 0 is zero |
| VentilatorBase.Ventilator.Get | VentSimulator/Ventilator.py:31-38 | `self[name]` is the three-tier lookup |
| VentilatorBase.Ventilator.Set | VentSimulator/Ventilator.py:40-41 | a known name writes only the override tier, after which it reads back; an unknown name fails and changes nothing |
| VentilatorBase.Ventilator.SetOutputLength | VentSimulator/Ventilator.py:43-46 | a fresh table of the given length with row 0 zeroed; a zero length fails at row 0 |
| VentilatorBase.Ventilator.Tick | VentSimulator/Ventilator.py:53-54 | the table becomes its roll |
| VentilatorBase.Ventilator.Record | VentSimulator/Ventilator.py:56-58 | the table and the outcome are those of `RecordInto` |
| VentilatorBase.Ventilator.Data | VentSimulator/Ventilator.py:60-61 | an unknown column fails; a known one is that column read from the last row to the first |
| VentilatorBase.Ventilator.BeginRun | VentSimulator/Ventilator.py:48-51 | succeeds exactly when the table has rows and PEEP is a number; the lung is then at its resting volume at PEEP and the table holds only the seed row |
| Numerics.Ceil | VentSimulator/VolumeVentilator.py:17 | the least integer not below `x` |
| Numerics.CeilLeast | VentSimulator/VolumeVentilator.py:17 | no integer at or above `x` is below its ceiling |
| Numerics.Scale | VentSimulator/VolumeVentilator.py:18 | element-wise product with a scalar |
| Numerics.ScaleKeepsSteps | VentSimulator/VolumeVentilator.py:18 | scaling a sequence whose steps are all `d` gives one whose steps are all `d * k` |
| Numerics.ScaleAppend | VentSimulator/VolumeVentilator.py:24 | scaling distributes over `np.append` |
| Numerics.Linspace | VentSimulator/VolumeVentilator.py:18 | `num` points from `start` to `stop` inclusive, evenly spaced |
| Numerics.LinspaceIsProgression | VentSimulator/VolumeVentilator.py:18 | a linspace of two or more points is an arithmetic progression |
| Numerics.SumAppend | VentSimulator/VolumeVentilator.py:19 | the sum of a concatenation is the sum of the sums |
| Numerics.SumScale | VentSimulator/VolumeVentilator.py:19 | scaling commutes with summing |
| Numerics.SumScalePrefix | VentSimulator/VolumeVentilator.py:19 | one more element adds its scaled value to a prefix's scaled sum |
| Numerics.SumScaleTwice | VentSimulator/VolumeVentilator.py:19 | scaling twice scales the sum by both factors |
| Numerics.SumNonNegative | VentSimulator/VolumeVentilator.py:19 | `np.sum` of entries none of which is negative is not negative |
| Numerics.SumProgression | VentSimulator/VolumeVentilator.py:19 | Gauss's formula for an arithmetic progression |
| Numerics.SumLinspace | VentSimulator/VolumeVentilator.py:19 | a linspace of two or more points sums to `num * (start + stop) / 2` |
| Numerics.StepCount | VentSimulator/PressureVentilator.py:19 | the number of loop iterations: the least `m` with `m * dt >= T` |
| Numerics.ElapsedIsMultiple | VentSimulator/PressureVentilator.py:62 | the clock after `k` additions of `dt` is `k * dt` |
| Numerics.StepBelowLimit | VentSimulator/PressureVentilator.py:19 | the loop guard holds exactly for the first `StepCount` iterations |
| PressureControl.DefaultConfiguration | VentSimulator/PressureVentilator.py:5-6 | with no overrides: target 20, PEEP 0, inspiratory time 0.8 s, no pause, 10 breaths a minute |
| PressureControl.DefaultBreath | VentSimulator/PressureVentilator.py:5-6 | with no overrides PEEP reads 0, the target 20 and the inspiratory time 0.8 s |
| PressureControl.Configure | VentSimulator/PressureVentilator.py:24-58 | the settings a run reads resolve exactly when each of PEEP, target, inspiratory time, pause and rate reads as a number, and the configuration then holds those numbers |
| PressureControl.Step | VentSimulator/PressureVentilator.py:20-61 | one iteration: the lung gains exactly the recorded flow times `dt` |
| PressureControl.Run | VentSimulator/PressureVentilator.py:12-62 | a run records one sample per iteration of `while current_time < time_length`: as many as the loop's step count |
| PressureControl.Trace | VentSimulator/PressureVentilator.py:19-62 | `k` iterations record `k` samples |
| PressureControl.TracePrefix | VentSimulator/PressureVentilator.py:19-62 | unrolls one iteration: the state after `k` iterations is one `Step` from the state after `k - 1`, whose sample comes last, and the earlier samples are kept |
| PressureControl.StepTime | VentSimulator/PressureVentilator.py:21 | a sample is stamped with the current time and the clock advances by `dt` |
| PressureControl.ClockTime | VentSimulator/PressureVentilator.py:62 | after `k` iterations the clock reads `k` steps of `dt` |
| PressureControl.SampleTimes | VentSimulator/PressureVentilator.py:21 | the `j`-th sample is stamped at `j` steps of `dt` |
| PressureControl.InspiratoryStep | VentSimulator/PressureVentilator.py:23-39 | inspiratory flow is (target minus alveolar pressure) over resistance, integrated into lung and breath volume; the pressure recorded is the target |
| PressureControl.TimeCycled | VentSimulator/PressureVentilator.py:29-34 | inspiration ends exactly when more than the inspiratory time has passed, into a pause (stamped now) exactly when a pause is set |
| PressureControl.PauseHolds | VentSimulator/PressureVentilator.py:40-46 | a pause records no flow and airway pressure equal to alveolar pressure, changes no volume, and ends exactly when its time has passed |
| PressureControl.Exhalation | VentSimulator/PressureVentilator.py:47-61 | exhalation is passive toward PEEP, records PEEP, and starts a new breath (volume 0, stamped now) exactly when the rate's period has elapsed |
| PressureControl.BreathVolume | VentSimulator/PressureVentilator.py:23-61 | apart from a breath start, the lung gains exactly what the breath volume gains |
| PressureControl.ApneaStaysExpiratory | VentSimulator/PressureVentilator.py:58-61 | with no rate, once exhaling the run exhales to its end |
| PressureControl.FirstBreathVolume | VentSimulator/PressureVentilator.py:14-61 | during the first breath the lung volume above its seed is the breath volume |
| PressureControl.PressureVentilator.constructor | VentSimulator/PressureVentilator.py:8-9 | a ventilator with the pressure-control defaults and no overrides |
| PressureControl.PressureVentilator.Advance | VentSimulator/PressureVentilator.py:20-61 | one iteration moves the loop variables and the patient as `Step` says and appends the sample to the table |
| PressureControl.PressureVentilator.Breathe | VentSimulator/PressureVentilator.py:23-61 | the phase's branch moves the loop variables and the patient, and yields the recorded values, exactly as `Step` says |
| PressureControl.PressureVentilator.Simulate | VentSimulator/PressureVentilator.py:11-62 | succeeds exactly when the run has rows, the settings are numbers and the lung is valid; it then leaves the patient and table that `Run` describes |
| PressureControl.PressureVentilator.RunSteps | VentSimulator/PressureVentilator.py:14-62 | the loop leaves the patient volume and the table of `Run` |
| PressureSupport.DefaultConfiguration | VentSimulator/PressureSupportVentilator.py:6-7 | with no overrides: target 20, PEEP 0, flow trigger 0.25, 10 breaths a minute |
| PressureSupport.Configure | VentSimulator/PressureSupportVentilator.py:27-55 | the settings a run reads resolve exactly when each of PEEP, target, flow trigger and rate reads as a number, and the configuration then holds those numbers |
| PressureSupport.Step | VentSimulator/PressureSupportVentilator.py:22-59 | one iteration: the lung gains exactly the recorded flow times `dt` |
| PressureSupport.Run | VentSimulator/PressureSupportVentilator.py:13-60 | a run records one sample per iteration of `while current_time < time_length`: as many as the loop's step count |
| PressureSupport.Trace | VentSimulator/PressureSupportVentilator.py:21-60 | `k` iterations record `k` samples |
| PressureSupport.TracePrefix | VentSimulator/PressureSupportVentilator.py:21-60 | unrolls one iteration: the state after `k` iterations is one `Step` from the state after `k - 1`, whose sample comes last, and the earlier samples are kept |
| PressureSupport.StepTime | VentSimulator/PressureSupportVentilator.py:23 | a sample is stamped with the current time and the clock advances by `dt` |
| PressureSupport.ClockTime | VentSimulator/PressureSupportVentilator.py:60 | after `k` iterations the clock reads `k` steps of `dt` |
| PressureSupport.InspiratoryStep | VentSimulator/PressureSupportVentilator.py:25-43 | inspiratory flow is (target plus PEEP minus alveolar pressure) over resistance; the pressure recorded is target plus PEEP |
| PressureSupport.FlowCycled | VentSimulator/PressureSupportVentilator.py:29-37 | the peak becomes the larger of peak and flow; inspiration ends exactly when flow is below trigger times peak, never into a pause |
| PressureSupport.Exhalation | VentSimulator/PressureSupportVentilator.py:44-59 | exhalation toward PEEP; a new breath (volume and peak reset) starts exactly when the rate's period has elapsed |
| PressureSupport.BreathVolume | VentSimulator/PressureSupportVentilator.py:25-59 | apart from a breath start, the lung gains exactly what the breath volume gains |
| PressureSupport.NeverPauses | VentSimulator/PressureSupportVentilator.py:25-59 | no state or sample of a run is an inspiratory pause |
| PressureSupport.PeakBoundsBreathFlows | VentSimulator/PressureSupportVentilator.py:29-30 | over an inspiratory stretch the peak never falls and bounds every flow delivered |
| PressureSupport.PeakFlowRecordRaises | VentSimulator/PressureSupportVentilator.py:39-43 | as written, the inspiratory record writes the four measurements and then fails on `peak_flow` |
| PressureSupport.MeasurementsWritten | VentSimulator/PressureSupportVentilator.py:39-42 | recording the four measurements writes exactly those cells of row 0 |
| PressureSupport.InspiratoryRecordSucceeds | VentSimulator/PressureSupportVentilator.py:39-42 | without `peak_flow` the record succeeds and writes all four measurements |
| PressureSupport.PressureSupportVentilator.constructor | VentSimulator/PressureSupportVentilator.py:9-10 | a ventilator with the pressure-support defaults and no overrides |
| PressureSupport.PressureSupportVentilator.Advance | VentSimulator/PressureSupportVentilator.py:22-59 | one iteration moves the loop variables and the patient as `Step` says and appends the sample |
| PressureSupport.PressureSupportVentilator.Breathe | VentSimulator/PressureSupportVentilator.py:25-59 | the phase's branch moves the loop variables and the patient, and yields the recorded values, exactly as `Step` says |
| PressureSupport.PressureSupportVentilator.Simulate | VentSimulator/PressureSupportVentilator.py:12-60 | succeeds exactly when the run has rows, the settings are numbers and the lung is valid; it then leaves the patient and table that `Run` describes |
| PressureSupport.PressureSupportVentilator.RunSteps | VentSimulator/PressureSupportVentilator.py:15-60 | the loop leaves the patient volume and the table of `Run` |
| VolumeControl.DefaultShape | VentSimulator/VolumeVentilator.py:8-10 | with no overrides a breath is square, 1 L/s, no rise time, aiming at 0.5 L |
| VolumeControl.DefaultConfiguration | VentSimulator/VolumeVentilator.py:8-10 | with no overrides: PEEP 0, the default breath, no pause, 10 breaths a minute |
| VolumeControl.ConfigureShape | VentSimulator/VolumeVentilator.py:16-27 | the breath shape resolves exactly when the flow pattern resolves and rise time, flow and volume target read as numbers, and then holds them |
| VolumeControl.Configure | VentSimulator/VolumeVentilator.py:54-83 | the settings a run reads resolve exactly when PEEP, the breath shape, pause and rate resolve, and the configuration then holds them |
| VolumeControl.InspiratoryFlow | VentSimulator/VolumeVentilator.py:15-28 | `setupInspiratoryFlow` fails only on a negative sample count or a zero flow; a square profile ends on the flow setting |
| VolumeControl.Profile | VentSimulator/VolumeVentilator.py:15-28 | a deliverable profile has a first entry |
| VolumeControl.RiseStepsAccepted | VentSimulator/VolumeVentilator.py:17 | the rise's step count is accepted by `linspace` exactly when the rise time exceeds `-dt` |
| VolumeControl.SquareProfile | VentSimulator/VolumeVentilator.py:26-28 | the square profile sets up exactly when the rise time exceeds `-dt`, and otherwise fails on the sample count; it is `ceil(rise_time / dt)` entries running evenly from 0 to the flow (steps of `flow / (r - 1)`), then the flow itself; just the flow without a rise |
| VolumeControl.SquareRamp | VentSimulator/VolumeVentilator.py:27-28 | a rise of `r` steps followed by the flow has `r + 1` entries: an even ramp from 0 to the flow, then the flow; just the flow when `r` is 0 |
| VolumeControl.ScaledLinspace | VentSimulator/VolumeVentilator.py:18 | `np.linspace(start, stop, n) * flow` runs evenly from `start * flow` to `stop * flow` |
| VolumeControl.LinspaceIsEven | VentSimulator/VolumeVentilator.py:18 | `np.linspace(start, stop, n)` starts at `start`, ends at `stop` and steps evenly |
| VolumeControl.ScaledRamp | VentSimulator/VolumeVentilator.py:18 | scaling an even ramp by the flow gives an even ramp between the scaled ends |
| VolumeControl.DeceleratingProfile | VentSimulator/VolumeVentilator.py:16-24 | the decelerating profile fails on the sample count when the rise time is at or below `-dt`, on a zero flow, and on the sample count when the planned time is at or below `-dt`, and sets up otherwise; it then has `r + ceil(planned / dt)` entries, where `r = ceil(rise_time / dt)`: `r` entries evenly from 0 to twice the flow (steps of `2 * flow / (r - 1)`), then the rest evenly from twice the flow to 0 (steps of `-2 * flow / (n - 1)`) |
| VolumeControl.DeceleratingRamps | VentSimulator/VolumeVentilator.py:18-24 | a rise of `r` entries from 0 to twice the flow appended to a fall of `n` entries back to 0 rises evenly for `r` entries, then falls evenly |
| VolumeControl.JoinRamps | VentSimulator/VolumeVentilator.py:24 | `np.append` of an even rise and an even fall keeps each part even |
| VolumeControl.FallingSum | VentSimulator/VolumeVentilator.py:24 | `linspace(2, 0, n)` sums to at least `n` |
| VolumeControl.FallCovers | VentSimulator/VolumeVentilator.py:21-22 | `ceil` sizes the fall so it covers the planned inspiratory time |
| VolumeControl.FallVolume | VentSimulator/VolumeVentilator.py:21-24 | the fall delivers at least the volume the rise left over |
| VolumeControl.DeceleratingDelivers | VentSimulator/VolumeVentilator.py:16-24 | with a positive flow the decelerating profile delivers at least the volume target |
| VolumeControl.DefaultProfile | VentSimulator/VolumeVentilator.py:26-28 | with the default settings every breath's profile is a flat 1 L/s, whatever the step |
| VolumeControl.Step | VentSimulator/VolumeVentilator.py:44-87 | an iteration never empties the remaining profile, and the lung gains exactly the recorded flow times `dt` |
| VolumeControl.Trace | VentSimulator/VolumeVentilator.py:39-88 | `k` iterations record `k` samples and keep a profile to draw from |
| VolumeControl.Run | VentSimulator/VolumeVentilator.py:31-88 | a run records one sample per iteration of `while current_time < time_length`: as many as the loop's step count |
| VolumeControl.TracePrefix | VentSimulator/VolumeVentilator.py:41-88 | unrolls one iteration: the state after `k` iterations is one `Step` from the state after `k - 1`, whose sample comes last, and the earlier samples are kept |
| VolumeControl.StepTime | VentSimulator/VolumeVentilator.py:41 | a sample is stamped with the current time and the clock advances by `dt` |
| VolumeControl.ClockTime | VentSimulator/VolumeVentilator.py:88 | after `k` iterations the clock reads `k` steps of `dt` |
| VolumeControl.InspiratoryStep | VentSimulator/VolumeVentilator.py:44-64 | inspiration takes the profile's head as the flow and drops it unless it is the last entry; the pressure recorded is flow times resistance plus alveolar pressure |
| VolumeControl.VolumeCycled | VentSimulator/VolumeVentilator.py:57-62 | inspiration ends exactly when the delivered volume is within `CLOSE_ENOUGH` of the target or past it, into a pause exactly when one is set |
| VolumeControl.PauseHolds | VentSimulator/VolumeVentilator.py:65-72 | a pause records no flow and airway pressure equal to alveolar pressure, changes only the phase and the clock, and ends exactly when its time has passed |
| VolumeControl.Exhalation | VentSimulator/VolumeVentilator.py:73-87 | exhalation toward PEEP; a new breath starts exactly when the rate's period has elapsed, with volume 0 and a fresh profile |
| VolumeControl.BreathVolume | VentSimulator/VolumeVentilator.py:44-87 | apart from a breath start, the lung gains exactly what the breath volume gains |
| VolumeControl.ProfileStep | VentSimulator/VolumeVentilator.py:46-48 | an iteration keeps the remaining profile a nonempty tail of the breath's profile |
| VolumeControl.ProfileRemainder | VentSimulator/VolumeVentilator.py:46-48 | along a run the remaining profile is always a nonempty tail of the breath's profile |
| VolumeControl.DeliverEntry | VentSimulator/VolumeVentilator.py:46-53 | the `i`-th inspiratory step of a breath delivers the profile's `i`-th entry and moves past it |
| VolumeControl.BreathDelivers | VentSimulator/VolumeVentilator.py:46-53 | while a breath stays inspiratory, its volume is the profile's first `i` flows integrated over `dt` |
| VolumeControl.CyclesWithinProfile | VentSimulator/VolumeVentilator.py:46-62 | a breath whose whole profile, integrated over `dt`, reaches the volume target ends within as many steps as the profile has entries |
| VolumeControl.DeceleratingBreathEnds | VentSimulator/VolumeVentilator.py:16-62 | a decelerating breath with a positive flow ends within as many steps as its profile has entries |
| VolumeControl.VolumeVentilator.constructor | VentSimulator/VolumeVentilator.py:12-13 | a ventilator with the volume-control defaults and no overrides |
| VolumeControl.VolumeVentilator.Advance | VentSimulator/VolumeVentilator.py:40-87 | one iteration moves the loop variables, the profile and the patient as `Step` says and appends the sample |
| VolumeControl.VolumeVentilator.Breathe | VentSimulator/VolumeVentilator.py:44-87 | the phase's branch moves the loop variables, the remaining profile and the patient, and yields the recorded values, exactly as `Step` says |
| VolumeControl.VolumeVentilator.Simulate | VentSimulator/VolumeVentilator.py:30-88 | succeeds exactly when the run has rows, the settings resolve, the profile sets up nonempty and the lung is valid; it then leaves the patient and table that `Run` describes |
| VolumeControl.VolumeVentilator.RunSteps | VentSimulator/VolumeVentilator.py:33-88 | the loop leaves the patient volume and the table of `Run` |

## Left out

- Plotting (`Ventilator.plot`) and the interactive widgets of pressure support (`interactive_shim`, `interact`) are not modelled: they only draw the table with matplotlib.
- Floating point: all arithmetic is on exact reals. NumPy's NaN fill is the cell value `Unset`. Rounding, and any value the source would compute as `inf` or `nan`, are not modelled.
- The `patient.veilator` assignment in the `Ventilator` constructor is left out: it stores a back-reference under a misspelt attribute that nothing reads.
- Settings are resolved once per run, before the loop; nothing writes a setting during a run.
- Volume control sets the inspiratory profile up once per run and restarts each breath from that same profile. The source calls `setupInspiratoryFlow` again at every breath start; with the settings fixed during a run it returns the same profile.
- In each loop iteration the model records the four measurements once, after the phase's branch (`Breathe`), where the source records them inside each branch. Nothing between the two points writes the table, so the rows are the same.
- A run's error cases are decided before the loop, from the settings as they stand when the run starts. The source raises an error at the first use of the bad value inside the loop, after writing part of the table, and some settings it reads only on some paths (below). The model's `Simulate` returns the error, and the table and patient after a failed run are left unspecified.
- PressureControl.PressureVentilator.Simulate: fails on an `inspiratory_pause` that is not a number even for a run whose inspiration never ends; the source reads it only when inspiration ends (`PressureVentilator.py:30`). It also fails on a `respiratory_rate` that is not a number even for a run that never reaches an expiratory step; the source reads it only there (`PressureVentilator.py:58`).
- PressureSupport.PressureSupportVentilator.Simulate: fails on a `respiratory_rate` that is not a number even for a run that never reaches an expiratory step; the source reads it only there (`PressureSupportVentilator.py:55`).
- VolumeControl.VolumeVentilator.Simulate: fails on an `inspiratory_pause` that is not a number even for a run whose inspiration never ends (read at `VolumeVentilator.py:55`), and on a `respiratory_rate` that is not a number even for a run that never exhales (read at `VolumeVentilator.py:83`). It also fails on a zero compliance or a zero resistance. The source raises nothing there: the profile's entries are NumPy floats, so the divisions at `VolumeVentilator.py:63` and `VolumeVentilator.py:73` give `inf` or `nan`, and the run completes with those values in the table.
- The `Simulate` methods (all three modes) require a positive time step, so these source behaviours are not modelled. A zero step raises `ZeroDivisionError` at `1/time_step` (`Ventilator.py:49`). A step in [-1, -0.5) sizes a table of zero rows, so writing row 0 raises `IndexError` (`Ventilator.py:46`). A step in [-0.5, 0) sizes a negative number of rows, which `np.full` refuses with `ValueError` (`Ventilator.py:45`). A step below -1 gives a table of `time_length` rows and a loop whose clock runs backwards, so it never ends.
- The `Simulate` methods take `time_length` as a `nat`, so these source behaviours are not modelled. A negative `time_length` sizes a negative number of rows, which `np.full` refuses with `ValueError` (`Ventilator.py:45`, via `Ventilator.py:49`). A `time_length` that is not an integer gives a float row count, which `np.full` refuses with `TypeError`. A `time_length` of 0 is modelled: the table has no rows and writing row 0 fails (`EmptyTable`). The defaults `time_length = 60` and `time_step = 0.02` are the default parameter values of each `Simulate`.
- Pressure control adds no PEEP to the pressure target during inspiration, following the code of `PressureVentilator.simulate`. A variant that adds PEEP, as pressure support does, is not modelled.
- The `CLOSE_ENOUGH` tolerance of volume control is proved as a lower bound: when inspiration ends, the delivered volume exceeds the target minus `CLOSE_ENOUGH` (`VolumeCycled`). It can overshoot by up to one step's flow times `dt`, so the delivered volume is not bounded above by the target plus `CLOSE_ENOUGH`.
- Termination of a pressure-support inspiration (the flow decaying below `flow_trigger` times the peak) is not proved: it needs the geometric decay of the Euler-integrated flow. A zero driving pressure (target plus PEEP equal to alveolar pressure) gives zero flow, which never falls below zero times the trigger.
- The end-to-end scenario (a 12-second pressure-control run at default settings) is not evaluated: proving it means unrolling hundreds of steps.

## Findings

| source | as written | input that shows it | evidently intended | confidence | as-written member | corrected member |
|---|---|---|---|---|---|---|
| VentSimulator/Ventilator.py:9-10 and VentSimulator/PressureSupportVentilator.py:7 | the `settings` enumeration lacks `flow_trigger`, yet pressure support's `mode_defaults` and `self['flow_trigger']` name it, so defining the class fails | importing `PressureSupportVentilator` (the name `settings.flow_trigger` is looked up at class definition) | `flow_trigger` is a setting like the others, with the mode default 0.25 | not executed | VentilatorBase.FlowTriggerUndeclared | PressureSupport.DefaultConfiguration |
| VentSimulator/PressureSupportVentilator.py:39-43 | the inspiratory `record` includes the key `peak_flow`, which is not a table column, so it raises after writing the four measurements | any run that reaches an inspiratory step: the first step of every run | record the four measurements only (peak flow is loop state, not a column) | not executed | PressureSupport.PeakFlowRecordRaises | PressureSupport.InspiratoryRecordSucceeds |
