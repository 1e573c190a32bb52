/**
 * The single-compartment linear lung (`Patient`): a gas volume above baseline,
 * a compliance and an airway resistance.
 */
module PatientModel {

  /** Alveolar pressure of a linear lung: the pressure at which `compliance` holds `volume`. */
  function AlveolarPressure(volume: real, compliance: real): (p: real)
    requires compliance != 0.0
    ensures p * compliance == volume
  {
    volume / compliance
  }

  /** The volume a linear lung of `compliance` holds at `pressure`: the seed `setPeepHint` computes. */
  function RestingVolume(compliance: real, pressure: real): real
  {
    compliance * pressure
  }

  class Patient {
    var volume: real
    var compliance: real
    var resistance: real

    /** A fresh patient: empty lung, compliance 0.05 L/cmH2O, resistance 10 cmH2O·s/L. */
    constructor ()
      ensures volume == 0.0 && compliance == 0.05 && resistance == 10.0
    {
      volume := 0.0;
      compliance := 0.05;
      resistance := 10.0;
    }

    /** Seeds the resting volume that the lung holds at pressure `peep`. */
    method SetPeepHint(peep: real)
      modifies this
      ensures volume == RestingVolume(compliance, peep)
      ensures compliance == old(compliance) && resistance == old(resistance)
    {
      volume := compliance * peep;
    }

    /** Adds `deltaVolume` to the lung with no bounds check: negative volumes are allowed. */
    method AddVolume(deltaVolume: real)
      modifies this
      ensures volume == old(volume) + deltaVolume
      ensures compliance == old(compliance) && resistance == old(resistance)
    {
      volume := volume + deltaVolume;
    }

    function GetPressure(): (p: real)
      reads this
      requires compliance != 0.0
      ensures p * compliance == volume
    {
      AlveolarPressure(volume, compliance)
    }
  }

  /** After seeding with a PEEP hint the lung reads back exactly that pressure. */
  lemma PeepHintPressure(compliance: real, peep: real)
    requires compliance != 0.0
    ensures AlveolarPressure(RestingVolume(compliance, peep), compliance) == peep
  {
  }

  /** A PEEP hint followed by a pressure reading returns the hint. */
  method SeedAndRead(patient: Patient, peep: real) returns (p: real)
    requires patient.compliance != 0.0
    modifies patient
    ensures p == peep && patient.volume == RestingVolume(patient.compliance, peep)
  {
    patient.SetPeepHint(peep);
    PeepHintPressure(patient.compliance, peep);
    p := patient.GetPressure();
  }

  /** Two additions leave the same volume as one addition of their sum. */
  method AddVolumeTwice(patient: Patient, d1: real, d2: real)
    modifies patient
    ensures patient.volume == old(patient.volume) + (d1 + d2)
    ensures patient.compliance == old(patient.compliance)
    ensures patient.resistance == old(patient.resistance)
  {
    patient.AddVolume(d1);
    patient.AddVolume(d2);
  }
}
