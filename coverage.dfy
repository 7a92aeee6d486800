/**
 * The builder and the decoder fit together: every vector a sampler can draw
 * from a space whose entries stay within the default descriptors, such as
 * any of the four presets, decodes without raising.
 */
module Coverage {
  import opened Wrappers
  import opened Slots
  import opened Scaling
  import opened SampleSpace
  import opened Decoder
  import Presets

  /**
   * Any non-zero radius makes the tank-and-engine length exceed 10 inches,
   * so a body multiplier of at least 1.5 and a nose of at least 2 inches give
   * fins at least 8.5 inches of room, above the 2-inch minimum.
   */
  lemma DefaultRangesGiveFinRoom(radius: real, noseLen: real, bodyLenFrac: real)
    requires radius != 0.0
    requires 2.0 <= noseLen
    requires 1.5 <= bodyLenFrac
    ensures 2.0 <= HalfLen(radius, noseLen, bodyLenFrac)
  {
    var t := TankAndEngineLen(radius);
    assert bodyLenFrac * t >= 1.5 * t by {
      NonNegativeProduct(bodyLenFrac - 1.5, t);
    }
  }

  /** Every vector sampled from a space within the default descriptors decodes. */
  lemma SamplesDecode(space: seq<Entry>, v: seq<real>)
    requires WithinDefaults(space)
    requires Samples(space, v)
    ensures ParseArgs(v).Success?
  {
    forall slot: nat | IsLearnable(slot)
      ensures InSupport(v[slot], DefaultDescriptor(slot))
    {
      SampleWithinDefaults(space, v, slot);
    }
    assert InSupport(v[Radius], DefaultDescriptor(Radius));
    assert InSupport(v[NoseLen], DefaultDescriptor(NoseLen));
    assert InSupport(v[BodyLen], DefaultDescriptor(BodyLen));
    DefaultRangesGiveFinRoom(v[Radius], v[NoseLen], v[BodyLen]);
    assert InSupport(v[DryCom], DefaultDescriptor(DryCom));
    assert InSupport(v[FinRootChord], DefaultDescriptor(FinRootChord));
    assert InSupport(v[FinSpan], DefaultDescriptor(FinSpan));
    assert InSupport(v[FinTipChord], DefaultDescriptor(FinTipChord));
    assert InSupport(v[FinSweep], DefaultDescriptor(FinSweep));
    assert InSupport(v[FinBaseSep], DefaultDescriptor(FinBaseSep));
    DecodeSucceedsIff(v);
  }

  /** Every vector sampled from one of the four presets decodes. */
  lemma PresetSamplesDecode(v: seq<real>)
    requires Samples(SpaceAll, v) || Samples(SpaceMost, v) || Samples(SpaceFew, v) || Samples(SpaceBody, v)
    ensures ParseArgs(v).Success?
  {
    var a :| a in {AllArgs, MostArgs, FewArgs, BodyArgs} && Samples(GetSampleSpace(a), v);
    PresetArgsWithinDefaults(a);
    SpaceWithinDefaults(a);
    SamplesDecode(GetSampleSpace(a), v);
  }

  /** Each value a preset fixes lies within its slot's default descriptor. */
  lemma PresetArgsWithinDefaults(a: SpaceArgs)
    requires a in {AllArgs, MostArgs, FewArgs, BodyArgs}
    ensures ArgsWithinDefaults(a)
  {
    forall slot: nat | IsLearnable(slot) && Truthy(Supplied(a, slot))
      ensures InSupport(Supplied(a, slot).value, DefaultDescriptor(slot))
    {
      LearnableSlotCases(slot);
    }
  }
}
