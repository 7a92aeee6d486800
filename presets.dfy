/** Facts about the four preset spaces. */
module Presets {
  import opened Wrappers
  import opened Slots
  import opened SampleSpace

  /** With no arguments, dry_mass and thrust_margin take 65 and 15 and every other slot is learned. */
  lemma SpaceAllIsDefault()
    ensures SpaceAll[DryMass] == Fixed(65.0) && SpaceAll[ThrustMargin] == Fixed(15.0)
    ensures forall slot: nat | IsLearnable(slot) :: SpaceAll[slot] == Sampled(DefaultDescriptor(slot))
  {
    forall slot: nat | IsLearnable(slot)
      ensures SpaceAll[slot] == Sampled(DefaultDescriptor(slot))
    {
      FixOrDefault(SpaceArgs(), slot);
    }
  }

  /**
   * Presets that pass 0 leave those slots learnable: nose_tip_di and
   * fin_base_sep in the "few" space, and nose_tip_di, nose_power and
   * fin_base_sep in the "body" space.
   */
  lemma ZeroArgumentsStayLearnable()
    ensures SpaceFew[NoseTipDi] == Sampled(Uniform("nose_tip_di", 0.0, 2.0))
    ensures SpaceFew[FinBaseSep] == Sampled(Uniform("fin_base_sep", 0.0, 1.0))
    ensures SpaceBody[NoseTipDi] == Sampled(Uniform("nose_tip_di", 0.0, 2.0))
    ensures SpaceBody[NosePower] == Sampled(Uniform("nose_power", 0.0, 0.99))
    ensures SpaceBody[FinBaseSep] == Sampled(Uniform("fin_base_sep", 0.0, 1.0))
  {
  }

  /** The values the presets fix, each in its own slot. */
  lemma PresetFixedValues()
    ensures forall space | space in {SpaceMost, SpaceFew, SpaceBody} ::
      && space[FinLeRad] == Fixed(0.5) && space[FinLeLen] == Fixed(1.5)
      && space[FinTeLen] == Fixed(1.5) && space[Ch4TubeRadius] == Fixed(8.0)
    ensures SpaceFew[FinThickness] == Fixed(1.0) && SpaceFew[NosePower] == Fixed(0.1)
    ensures && SpaceBody[NoseLen] == Fixed(15.0) && SpaceBody[NoseShape] == Fixed(1.0)
            && SpaceBody[FinCount] == Fixed(4.0) && SpaceBody[FinRootChord] == Fixed(1.0)
            && SpaceBody[FinSpan] == Fixed(1.0) && SpaceBody[FinTipChord] == Fixed(0.75)
            && SpaceBody[FinSweep] == Fixed(0.33) && SpaceBody[FinThickness] == Fixed(1.0)
            && SpaceBody[FinShape] == Fixed(7.0)
  {
  }

  /**
   * The slots each preset fixes. "few" passes eight arguments but fixes six
   * learnable slots; "body" passes sixteen but fixes thirteen.
   */
  lemma PresetFixedSlots()
    ensures FixedSlots(SpaceAll) == {DryMass, ThrustMargin}
    ensures FixedSlots(SpaceMost) == {DryMass, ThrustMargin, FinLeRad, FinLeLen, FinTeLen, Ch4TubeRadius}
    ensures FixedSlots(SpaceFew) == {DryMass, ThrustMargin, NosePower, FinThickness, FinLeRad, FinLeLen, FinTeLen, Ch4TubeRadius}
    ensures FixedSlots(SpaceBody) == {DryMass, ThrustMargin, NoseLen, NoseShape, FinCount, FinRootChord,
                                      FinSpan, FinTipChord, FinSweep, FinThickness, FinShape, FinLeRad,
                                      FinLeLen, FinTeLen, Ch4TubeRadius}
  {
  }
}
