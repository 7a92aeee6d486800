/**
 * The fixed slot order shared by the sample-space builder and the vector
 * decoder: position `i` of a sample space and position `i` of a decoded
 * vector always describe the same rocket parameter.
 */
module Slots {

  const SlotCount: nat := 22

  const DryMass: nat := 0
  const ThrustMargin: nat := 1
  const Radius: nat := 2
  const DryCom: nat := 3
  const NoseLen: nat := 4
  const BodyLen: nat := 5
  const BoatLen: nat := 6
  const NoseShape: nat := 7
  const NoseTipDi: nat := 8
  const NosePower: nat := 9
  const FinCount: nat := 10
  const FinRootChord: nat := 11
  const FinSpan: nat := 12
  const FinTipChord: nat := 13
  const FinSweep: nat := 14
  const FinThickness: nat := 15
  const FinBaseSep: nat := 16
  const FinShape: nat := 17
  const FinLeRad: nat := 18
  const FinLeLen: nat := 19
  const FinTeLen: nat := 20
  const Ch4TubeRadius: nat := 21

  /** The parameter name of each slot, in slot order. */
  const SlotNames: seq<string> := [
    "dry_mass", "thrust_margin", "radius", "dry_com", "nose_len", "body_len",
    "boat_len", "nose_shape", "nose_tip_di", "nose_power", "fin_count",
    "fin_root_chord", "fin_span", "fin_tip_chord", "fin_sweep",
    "fin_thickness", "fin_base_sep", "fin_shape", "fin_le_rad", "fin_le_len",
    "fin_te_len", "ch4_tube_radius"
  ]

  /** Slots 0 and 1 are always fixed; every later slot may be learned. */
  predicate IsLearnable(slot: nat) {
    Radius <= slot < SlotCount
  }

  /** Slots whose sampled value is a fraction of a range the decoder computes. */
  const ProportionSlots: set<nat> := {DryCom, FinRootChord, FinSpan, FinTipChord, FinSweep, FinBaseSep}
}
