/**
 * The sample-space builder `get_sample_space` and the four preset spaces.
 * A space is a 22-entry list: each entry is either a concrete number the
 * caller fixed, or a descriptor telling the (external) sampler how to draw
 * that slot.
 */
module SampleSpace {
  import opened Wrappers
  import opened Slots

  /** The four kinds of sampling request the builder emits. */
  datatype Descriptor =
    | Uniform(name: string, low: real, high: real)
      /** `offset + randint(name, upper)`: an integer in offset .. offset + upper - 1 */
    | ShiftedRandInt(offset: int, name: string, upper: nat)
    | Choice(name: string, options: seq<real>)
    | QUniform(name: string, low: real, high: real, q: real)

  /** One entry of a space: a number fixed by the caller, or a descriptor to sample. */
  datatype Entry = Fixed(value: real) | Sampled(descriptor: Descriptor)

  /**
   * The keyword arguments of `get_sample_space` with their defaults: the two
   * fixed parameters default to 65 and 15, every learnable one to None.
   */
  datatype SpaceArgs = SpaceArgs(
    dryMass: real := 65.0,
    thrustMargin: real := 15.0,
    radius: Option<real> := None,
    dryCom: Option<real> := None,
    noseLen: Option<real> := None,
    bodyLen: Option<real> := None,
    boatLen: Option<real> := None,
    noseShape: Option<real> := None,
    noseTipDi: Option<real> := None,
    nosePower: Option<real> := None,
    finCount: Option<real> := None,
    finRootChord: Option<real> := None,
    finSpan: Option<real> := None,
    finTipChord: Option<real> := None,
    finSweep: Option<real> := None,
    finThickness: Option<real> := None,
    finBaseSep: Option<real> := None,
    finShape: Option<real> := None,
    finLeRad: Option<real> := None,
    finLeLen: Option<real> := None,
    finTeLen: Option<real> := None,
    ch4TubeRadius: Option<real> := None
  )

  /** Python truthiness of an optional number: None and 0 are falsy. */
  predicate Truthy(x: Option<real>)
    ensures !Truthy(x) <==> x == None || x == Some(0.0)
  {
    x.Some? && x.value != 0.0
  }

  /** The argument that the caller supplied for a learnable slot. */
  function Supplied(a: SpaceArgs, slot: nat): Option<real>
    requires IsLearnable(slot)
  {
    if slot == Radius then a.radius
    else if slot == DryCom then a.dryCom
    else if slot == NoseLen then a.noseLen
    else if slot == BodyLen then a.bodyLen
    else if slot == BoatLen then a.boatLen
    else if slot == NoseShape then a.noseShape
    else if slot == NoseTipDi then a.noseTipDi
    else if slot == NosePower then a.nosePower
    else if slot == FinCount then a.finCount
    else if slot == FinRootChord then a.finRootChord
    else if slot == FinSpan then a.finSpan
    else if slot == FinTipChord then a.finTipChord
    else if slot == FinSweep then a.finSweep
    else if slot == FinThickness then a.finThickness
    else if slot == FinBaseSep then a.finBaseSep
    else if slot == FinShape then a.finShape
    else if slot == FinLeRad then a.finLeRad
    else if slot == FinLeLen then a.finLeLen
    else if slot == FinTeLen then a.finTeLen
    else a.ch4TubeRadius
  }

  /**
   * The descriptor a learnable slot falls back to. Its label is the slot's
   * parameter name, and every proportion slot is drawn uniformly from [0, 1].
   */
  function DefaultDescriptor(slot: nat): (d: Descriptor)
    requires IsLearnable(slot)
    ensures d.name == SlotNames[slot]
    ensures slot in ProportionSlots ==> d == Uniform(SlotNames[slot], 0.0, 1.0)
  {
    if slot == Radius then Uniform("radius", 2.0, 12.0)
    else if slot == DryCom then Uniform("dry_com", 0.0, 1.0)
    else if slot == NoseLen then Uniform("nose_len", 2.0, 30.0)
    else if slot == BodyLen then Uniform("body_len", 1.5, 4.0)
    else if slot == BoatLen then Uniform("boat_len", 0.0, 10.0)
    else if slot == NoseShape then ShiftedRandInt(1, "nose_shape", 7)
    else if slot == NoseTipDi then Uniform("nose_tip_di", 0.0, 2.0)
    else if slot == NosePower then Uniform("nose_power", 0.0, 0.99)
    else if slot == FinCount then Choice("fin_count", [3.0, 4.0])
    else if slot == FinRootChord then Uniform("fin_root_chord", 0.0, 1.0)
    else if slot == FinSpan then Uniform("fin_span", 0.0, 1.0)
    else if slot == FinTipChord then Uniform("fin_tip_chord", 0.0, 1.0)
    else if slot == FinSweep then Uniform("fin_sweep", 0.0, 1.0)
    else if slot == FinThickness then QUniform("fin_thickness", 1.0, 10.0, 1.0)
    else if slot == FinBaseSep then Uniform("fin_base_sep", 0.0, 1.0)
    else if slot == FinShape then ShiftedRandInt(1, "fin_shape", 9)
    else if slot == FinLeRad then Uniform("fin_le_rad", 0.1, 1.0)
    else if slot == FinLeLen then Uniform("fin_le_len", 0.1, 3.0)
    else if slot == FinTeLen then Uniform("fin_te_len", 0.1, 3.0)
    else QUniform("ch4_tube_radius", 1.0, 16.0, 1.0)
  }

  /**
   * Python's `x or descriptor` on an optional number: the entry is fixed
   * exactly when `x` is truthy, and then holds `x` itself.
   */
  function Learn(x: Option<real>, d: Descriptor): (e: Entry)
    ensures e.Fixed? <==> Truthy(x)
    ensures e.Fixed? ==> Some(e.value) == x
    ensures e.Sampled? ==> e.descriptor == d
  {
    if Truthy(x) then Fixed(x.value) else Sampled(d)
  }

  /**
   * The space for the given arguments: 22 entries in slot order; the two
   * fixed parameters verbatim; every learnable slot holds the caller's value
   * when that value is truthy and the slot's default descriptor otherwise.
   */
  function GetSampleSpace(a: SpaceArgs): (r: seq<Entry>)
    ensures |r| == SlotCount
    ensures r[DryMass] == Fixed(a.dryMass) && r[ThrustMargin] == Fixed(a.thrustMargin)
  {
    [
      Fixed(a.dryMass),
      Fixed(a.thrustMargin),
      Learn(a.radius, DefaultDescriptor(Radius)),
      Learn(a.dryCom, DefaultDescriptor(DryCom)),
      Learn(a.noseLen, DefaultDescriptor(NoseLen)),
      Learn(a.bodyLen, DefaultDescriptor(BodyLen)),
      Learn(a.boatLen, DefaultDescriptor(BoatLen)),
      Learn(a.noseShape, DefaultDescriptor(NoseShape)),
      Learn(a.noseTipDi, DefaultDescriptor(NoseTipDi)),
      Learn(a.nosePower, DefaultDescriptor(NosePower)),
      Learn(a.finCount, DefaultDescriptor(FinCount)),
      Learn(a.finRootChord, DefaultDescriptor(FinRootChord)),
      Learn(a.finSpan, DefaultDescriptor(FinSpan)),
      Learn(a.finTipChord, DefaultDescriptor(FinTipChord)),
      Learn(a.finSweep, DefaultDescriptor(FinSweep)),
      Learn(a.finThickness, DefaultDescriptor(FinThickness)),
      Learn(a.finBaseSep, DefaultDescriptor(FinBaseSep)),
      Learn(a.finShape, DefaultDescriptor(FinShape)),
      Learn(a.finLeRad, DefaultDescriptor(FinLeRad)),
      Learn(a.finLeLen, DefaultDescriptor(FinLeLen)),
      Learn(a.finTeLen, DefaultDescriptor(FinTeLen)),
      Learn(a.ch4TubeRadius, DefaultDescriptor(Ch4TubeRadius))
    ]
  }

  /**
   * Fix-or-default, slot by slot: a truthy supplied value appears verbatim,
   * a missing or zero one leaves the slot's default descriptor.
   */
  lemma FixOrDefault(a: SpaceArgs, slot: nat)
    requires IsLearnable(slot)
    ensures Truthy(Supplied(a, slot)) ==> GetSampleSpace(a)[slot] == Fixed(Supplied(a, slot).value)
    ensures !Truthy(Supplied(a, slot)) ==> GetSampleSpace(a)[slot] == Sampled(DefaultDescriptor(slot))
  {
    LearnableSlotCases(slot);
  }

  lemma LearnableSlotCases(slot: nat)
    requires IsLearnable(slot)
    ensures slot == 2 || slot == 3 || slot == 4 || slot == 5 || slot == 6 || slot == 7
         || slot == 8 || slot == 9 || slot == 10 || slot == 11 || slot == 12 || slot == 13
         || slot == 14 || slot == 15 || slot == 16 || slot == 17 || slot == 18 || slot == 19
         || slot == 20 || slot == 21
  {
  }

  // The preset spaces, and the arguments each is built from.

  /** Every parameter learnable. */
  const AllArgs: SpaceArgs := SpaceArgs()
  const SpaceAll: seq<Entry> := GetSampleSpace(AllArgs)

  /** The "unimportant" fin-edge and fuel-tube parameters fixed. */
  const MostArgs: SpaceArgs := SpaceArgs(
    finLeRad := Some(0.5),
    finLeLen := Some(1.5),
    finTeLen := Some(1.5),
    ch4TubeRadius := Some(8.0))
  const SpaceMost: seq<Entry> := GetSampleSpace(MostArgs)

  /** More parameters fixed; nose_tip_di and fin_base_sep are passed as 0. */
  const FewArgs: SpaceArgs := SpaceArgs(
    finLeRad := Some(0.5),
    finLeLen := Some(1.5),
    finTeLen := Some(1.5),
    ch4TubeRadius := Some(8.0),
    noseTipDi := Some(0.0),
    finThickness := Some(1.0),
    finBaseSep := Some(0.0),
    nosePower := Some(0.1))
  const SpaceFew: seq<Entry> := GetSampleSpace(FewArgs)

  /** Fin and nose parameters fixed; nose_tip_di, nose_power and fin_base_sep are passed as 0. */
  const BodyArgs: SpaceArgs := SpaceArgs(
    finLeRad := Some(0.5),
    finLeLen := Some(1.5),
    finTeLen := Some(1.5),
    ch4TubeRadius := Some(8.0),
    noseLen := Some(15.0),
    noseShape := Some(1.0),
    noseTipDi := Some(0.0),
    nosePower := Some(0.0),
    finCount := Some(4.0),
    finRootChord := Some(1.0),
    finSpan := Some(1.0),
    finTipChord := Some(0.75),
    finSweep := Some(0.33),
    finThickness := Some(1.0),
    finBaseSep := Some(0.0),
    finShape := Some(7.0))
  const SpaceBody: seq<Entry> := GetSampleSpace(BodyArgs)

  /** The slots of a space that hold a fixed number. */
  function FixedSlots(space: seq<Entry>): set<nat> {
    set i: nat | i < |space| && space[i].Fixed?
  }

  /**
   * Whatever subset of parameters the caller fixes, every learnable slot
   * holds either a fixed non-zero number or exactly that slot's descriptor.
   */
  lemma OrderStability(a: SpaceArgs)
    ensures forall slot: nat | IsLearnable(slot) ::
      || (GetSampleSpace(a)[slot].Fixed? && GetSampleSpace(a)[slot].value != 0.0)
      || GetSampleSpace(a)[slot] == Sampled(DefaultDescriptor(slot))
  {
    forall slot: nat | IsLearnable(slot)
      ensures || (GetSampleSpace(a)[slot].Fixed? && GetSampleSpace(a)[slot].value != 0.0)
              || GetSampleSpace(a)[slot] == Sampled(DefaultDescriptor(slot))
    {
      FixOrDefault(a, slot);
    }
  }

  // What a sampler may draw for an entry.

  /** The values a descriptor can yield when sampled. */
  predicate InSupport(v: real, d: Descriptor) {
    match d
    case Uniform(_, low, high) => low <= v <= high
    case ShiftedRandInt(offset, _, upper) => v == v.Floor as real && offset <= v.Floor < offset + upper
    case Choice(_, options) => v in options
    case QUniform(_, low, high, q) => low <= v <= high && q > 0.0 && v / q == (v / q).Floor as real
  }

  /** A fixed entry yields its own value; a sampled one any value in its support. */
  predicate Admits(e: Entry, v: real) {
    match e
    case Fixed(x) => v == x
    case Sampled(d) => InSupport(v, d)
  }

  /** `v` is a vector the sampler can draw from `space`. */
  predicate Samples(space: seq<Entry>, v: seq<real>) {
    |v| == |space| && forall i :: 0 <= i < |space| ==> Admits(space[i], v[i])
  }

  /**
   * Every learnable slot of `space` yields only values its default
   * descriptor could also yield.
   */
  ghost predicate WithinDefaults(space: seq<Entry>) {
    && |space| == SlotCount
    && forall slot: nat | IsLearnable(slot) ::
         || space[slot] == Sampled(DefaultDescriptor(slot))
         || (space[slot].Fixed? && InSupport(space[slot].value, DefaultDescriptor(slot)))
  }

  /** Every truthy supplied argument lies within its slot's default descriptor. */
  ghost predicate ArgsWithinDefaults(a: SpaceArgs) {
    forall slot: nat | IsLearnable(slot) && Truthy(Supplied(a, slot)) ::
      InSupport(Supplied(a, slot).value, DefaultDescriptor(slot))
  }

  lemma SpaceWithinDefaults(a: SpaceArgs)
    requires ArgsWithinDefaults(a)
    ensures WithinDefaults(GetSampleSpace(a))
  {
    forall slot: nat | IsLearnable(slot)
      ensures || GetSampleSpace(a)[slot] == Sampled(DefaultDescriptor(slot))
              || (GetSampleSpace(a)[slot].Fixed? && InSupport(GetSampleSpace(a)[slot].value, DefaultDescriptor(slot)))
    {
      FixOrDefault(a, slot);
    }
  }

  /**
   * From a space within the defaults, each learnable slot of a sampled
   * vector lies in its default descriptor's support.
   */
  lemma SampleWithinDefaults(space: seq<Entry>, v: seq<real>, slot: nat)
    requires WithinDefaults(space) && Samples(space, v)
    requires IsLearnable(slot)
    ensures InSupport(v[slot], DefaultDescriptor(slot))
  {
    assert Admits(space[slot], v[slot]);
  }
}
