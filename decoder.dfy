/**
 * The vector decoder `parse_args`: turns a sampled vector, indexed in slot
 * order, into the keyword arguments of the rocket scoring function, in
 * physical units. Python's exceptions become `Failure` values, raised in the
 * order the source evaluates its expressions.
 */
module Decoder {
  import opened Wrappers
  import opened Slots
  import opened Scaling

  /** The exceptions `parse_args` can raise. */
  datatype DecodeError =
    | IndexError(index: nat)       // args[index] read past the end of the vector
    | ZeroDivisionError            // radius 0 raised to the power -2
    | AssertionError(slot: nat)    // an assert of the `_scale` call that reads args[slot]

  /** The decoded dictionary; the three fin-edge entries may be None. */
  datatype Design = Design(
    dryMass: real,
    thrustMargin: real,
    radius: real,
    dryCoM: real,
    noseLen: real,
    bodyLen: real,
    boatLen: real,
    noseShape: real,
    noseTipDi: real,
    nosePower: real,
    finCount: real,
    finRootChord: real,
    finSpan: real,
    finTipChord: real,
    finSweep: real,
    finThickness: real,
    finBaseSep: real,
    finShape: real,
    finLeRad: Option<real>,
    finLeLen: Option<real>,
    finTeLen: Option<real>,
    ch4TubeRadius: real
  )

  /** Fin shapes that use a leading-edge radius, a leading-edge length, a trailing-edge length. */
  const LeRadShapes: seq<real> := [1.0, 3.0, 4.0, 5.0, 6.0, 7.0]
  const LeLenShapes: seq<real> := [1.0, 3.0, 6.0]
  const TeLenShapes: seq<real> := [1.0]

  /**
   * Combined tank and engine length, in inches, for a body radius in inches:
   * 0.00690077 * (radius * 0.0254) ** -2 * 39.3701 + 10. It always exceeds the
   * 10-inch offset, which is what keeps the dry centre-of-mass range ordered.
   */
  function TankAndEngineLen(radius: real): (t: real)
    requires radius != 0.0
    ensures t > 10.0
  {
    var meters := radius * 0.0254;
    assert meters * meters > 0.0 by { PositiveSquare(meters); }
    0.00690077 * (1.0 / (meters * meters)) * 39.3701 + 10.0
  }

  lemma PositiveSquare(m: real)
    requires m != 0.0
    ensures m * m > 0.0
  {
    if m < 0.0 {
      assert m * m == (-m) * (-m);
    }
  }

  /** args[i], or the IndexError Python raises for a short vector. */
  function At(args: seq<real>, i: nat): (r: Result<real, DecodeError>)
    ensures r.Success? <==> i < |args|
    ensures r.Success? ==> r.value == args[i]
    ensures r.Failure? ==> r.error == IndexError(i)
  {
    if i < |args| then Success(args[i]) else Failure(IndexError(i))
  }

  /** `args[i] if present else None`: args[i] is read only when the condition holds. */
  function AtIf(present: bool, args: seq<real>, i: nat): (r: Result<Option<real>, DecodeError>)
    ensures !present ==> r == Success(None)
    ensures present ==> (r.Success? <==> i < |args|)
    ensures present && r.Success? ==> r.value == Some(args[i])
    ensures r.Failure? ==> r.error == IndexError(i)
  {
    if !present then Success(None)
    else if i < |args| then Success(Some(args[i]))
    else Failure(IndexError(i))
  }

  /** body_len: the sampled multiplier times the tank-and-engine length. */
  function BodyLenOf(radius: real, bodyLenFrac: real): real
    requires radius != 0.0
  {
    bodyLenFrac * TankAndEngineLen(radius)
  }

  /** (body_len + nose_len) / 2, the upper bound of the fin lengths. */
  function HalfLen(radius: real, noseLen: real, bodyLenFrac: real): real
    requires radius != 0.0
  {
    (BodyLenOf(radius, bodyLenFrac) + noseLen) / 2.0
  }

  /** Decodes a sampled vector, or reports the exception `parse_args` raises on it. */
  function ParseArgs(args: seq<real>): (r: Result<Design, DecodeError>)
    ensures r.Success? ==> |args| >= SlotCount && args[Radius] != 0.0
    ensures r.Success? ==>
      var d := r.value;
      var t := TankAndEngineLen(args[Radius]);
      var half := (d.bodyLen + d.noseLen) / 2.0;
      && d.bodyLen == args[BodyLen] * t
      && d.noseLen + d.bodyLen - t / 2.0 <= d.dryCoM <= d.noseLen + d.bodyLen - t / 3.0
      && 2.0 <= d.finRootChord <= half
      && 2.0 <= d.finSpan <= half
      && 0.0 <= d.finTipChord <= d.finRootChord
      && 0.0 <= d.finSweep <= d.finRootChord
      && d.finRootChord <= d.finBaseSep <= half
  {
    var radius :- At(args, Radius);
    var noseLen :- At(args, NoseLen);
    var bodyLenFrac :- At(args, BodyLen);
    if radius == 0.0 then Failure(ZeroDivisionError) else
    var tankAndEngineLen := TankAndEngineLen(radius);
    var bodyLen := bodyLenFrac * tankAndEngineLen;
    var half := (bodyLen + noseLen) / 2.0;
    var rootFrac :- At(args, FinRootChord);
    if !IsProportion(rootFrac) || !(2.0 <= half) then Failure(AssertionError(FinRootChord)) else
    var finRootChord := Scale(rootFrac, 2.0, half);
    var finShape :- At(args, FinShape);
    // Every slot before FinShape is in range from here on.
    var dryMass := args[DryMass];
    var thrustMargin := args[ThrustMargin];
    var comFrac := args[DryCom];
    if !IsProportion(comFrac) then Failure(AssertionError(DryCom)) else
    // The bounds are ordered because tankAndEngineLen > 0.
    var dryCoM := Scale(comFrac, noseLen + bodyLen - tankAndEngineLen / 2.0,
                                 noseLen + bodyLen - tankAndEngineLen / 3.0);
    var boatLen := args[BoatLen];
    var noseShape := args[NoseShape];
    var noseTipDi := args[NoseTipDi];
    var nosePower := args[NosePower];
    var finCount := args[FinCount];
    var spanFrac := args[FinSpan];
    if !IsProportion(spanFrac) then Failure(AssertionError(FinSpan)) else
    // 2 <= half was established for fin_root_chord.
    var finSpan := Scale(spanFrac, 2.0, half);
    var tipFrac := args[FinTipChord];
    if !IsProportion(tipFrac) then Failure(AssertionError(FinTipChord)) else
    // fin_root_chord >= 2 > 0.
    var finTipChord := Scale(tipFrac, 0.0, finRootChord);
    var sweepFrac := args[FinSweep];
    if !IsProportion(sweepFrac) then Failure(AssertionError(FinSweep)) else
    var finSweep := Scale(sweepFrac, 0.0, finRootChord);
    var thicknessEighths := args[FinThickness];
    var baseFrac := args[FinBaseSep];
    if !IsProportion(baseFrac) then Failure(AssertionError(FinBaseSep)) else
    // fin_root_chord <= half, since it was scaled into [2, half].
    var finBaseSep := Scale(baseFrac, finRootChord, half);
    var finLeRad :- AtIf(finShape in LeRadShapes, args, FinLeRad);
    var finLeLen :- AtIf(finShape in LeLenShapes, args, FinLeLen);
    var finTeLen :- AtIf(finShape in TeLenShapes, args, FinTeLen);
    var ch4Eighths :- At(args, Ch4TubeRadius);
    Success(Design(
      dryMass := dryMass,
      thrustMargin := thrustMargin,
      radius := radius,
      dryCoM := dryCoM,
      noseLen := noseLen,
      bodyLen := bodyLen,
      boatLen := boatLen,
      noseShape := noseShape,
      noseTipDi := noseTipDi,
      nosePower := nosePower,
      finCount := finCount,
      finRootChord := finRootChord,
      finSpan := finSpan,
      finTipChord := finTipChord,
      finSweep := finSweep,
      finThickness := thicknessEighths / 8.0,
      finBaseSep := finBaseSep,
      finShape := finShape,
      finLeRad := finLeRad,
      finLeLen := finLeLen,
      finTeLen := finTeLen,
      ch4TubeRadius := ch4Eighths / 8.0))
  }

  /**
   * The inputs `parse_args` accepts: a vector of at least 22 numbers, a
   * non-zero radius, the six proportions in [0, 1], and a body-plus-nose
   * half-length of at least the 2-inch minimum fin length.
   */
  predicate Decodable(args: seq<real>) {
    && |args| >= SlotCount
    && args[Radius] != 0.0
    && (forall slot | slot in ProportionSlots :: IsProportion(args[slot]))
    && 2.0 <= HalfLen(args[Radius], args[NoseLen], args[BodyLen])
  }

  /** Decoding succeeds exactly on the decodable vectors. */
  lemma DecodeSucceedsIff(args: seq<real>)
    ensures ParseArgs(args).Success? <==> Decodable(args)
  {
  }

  /**
   * Which exception a bad vector raises: a zero radius raises
   * ZeroDivisionError as soon as radius, nose_len and body_len have been
   * read; a long enough vector with a non-zero radius can only fail an
   * assertion of a `_scale` call on a proportion slot.
   */
  lemma DecodeErrors(args: seq<real>)
    ensures |args| > BodyLen && args[Radius] == 0.0 ==> ParseArgs(args) == Failure(ZeroDivisionError)
    ensures |args| >= SlotCount && args[Radius] != 0.0 && ParseArgs(args).Failure? ==>
      ParseArgs(args).error.AssertionError? && ParseArgs(args).error.slot in ProportionSlots
    ensures |args| <= Radius ==> ParseArgs(args) == Failure(IndexError(Radius))
  {
  }

  /**
   * The fields that are not rescaled: nine copied verbatim, body_len the
   * multiplier times the tank-and-engine length, and the two eighth-inch
   * quantities converted to inches.
   */
  lemma DecodedCopies(args: seq<real>)
    ensures ParseArgs(args).Success? ==> var d := ParseArgs(args).value;
      && d.dryMass == args[DryMass] && d.thrustMargin == args[ThrustMargin]
      && d.radius == args[Radius] && d.noseLen == args[NoseLen]
      && d.boatLen == args[BoatLen] && d.noseShape == args[NoseShape]
      && d.noseTipDi == args[NoseTipDi] && d.nosePower == args[NosePower]
      && d.finCount == args[FinCount] && d.finShape == args[FinShape]
      && d.bodyLen == BodyLenOf(args[Radius], args[BodyLen])
      && 8.0 * d.finThickness == args[FinThickness]
      && 8.0 * d.ch4TubeRadius == args[Ch4TubeRadius]
  {
  }

  /**
   * The rescaled fields are the proportions mapped onto their ranges: each
   * one is `Scale` of its slot, so `Unscale` recovers the proportion. The
   * dry centre of mass is placed between T/2 and T/3 before the end of the
   * body, T being the tank-and-engine length.
   */
  lemma DecodedProportions(args: seq<real>)
    ensures ParseArgs(args).Success? ==> var d := ParseArgs(args).value;
      var t := TankAndEngineLen(args[Radius]);
      var half := (d.bodyLen + d.noseLen) / 2.0;
      && d.dryCoM == Scale(args[DryCom], d.noseLen + d.bodyLen - t / 2.0, d.noseLen + d.bodyLen - t / 3.0)
      && d.finRootChord == Scale(args[FinRootChord], 2.0, half)
      && d.finSpan == Scale(args[FinSpan], 2.0, half)
      && d.finTipChord == Scale(args[FinTipChord], 0.0, d.finRootChord)
      && d.finSweep == Scale(args[FinSweep], 0.0, d.finRootChord)
      && d.finBaseSep == Scale(args[FinBaseSep], d.finRootChord, half)
  {
  }

  /**
   * Fin-edge nulling: each edge field is present exactly for its fin
   * shapes, and then holds its slot's value.
   */
  lemma FinEdgeFields(args: seq<real>)
    ensures ParseArgs(args).Success? ==> var d := ParseArgs(args).value;
      && (d.finLeRad.Some? <==> args[FinShape] in {1.0, 3.0, 4.0, 5.0, 6.0, 7.0})
      && (d.finLeLen.Some? <==> args[FinShape] in {1.0, 3.0, 6.0})
      && (d.finTeLen.Some? <==> args[FinShape] == 1.0)
      && (d.finLeRad.Some? ==> d.finLeRad.value == args[FinLeRad])
      && (d.finLeLen.Some? ==> d.finLeLen.value == args[FinLeLen])
      && (d.finTeLen.Some? ==> d.finTeLen.value == args[FinTeLen])
  {
  }

  /** A trailing-edge length implies a leading-edge length, which implies a leading-edge radius. */
  lemma FinEdgeNesting(args: seq<real>)
    ensures ParseArgs(args).Success? ==> var d := ParseArgs(args).value;
      && (d.finTeLen.Some? ==> d.finLeLen.Some?)
      && (d.finLeLen.Some? ==> d.finLeRad.Some?)
  {
    FinEdgeFields(args);
  }
}
