/** Decoding concrete vectors: fin-edge nulling, unit conversion, a full example, a zero radius. */
module DecoderExamples {
  import opened Wrappers
  import opened Slots
  import opened Decoder

  /** A well-formed sample: radius 10, fin_count 3, fin_thickness 4, fin_shape 1, ch4_tube_radius 8. */
  const Example: seq<real> := [
    65.0, 15.0, 10.0, 0.5, 20.0, 2.0, 0.0, 1.0, 1.0, 0.5, 3.0,
    0.5, 0.5, 0.5, 0.5, 4.0, 0.5, 1.0, 0.5, 1.5, 1.5, 8.0
  ]

  /** The example with fin_shape replaced. */
  function WithFinShape(shape: real): (v: seq<real>)
    ensures |v| == SlotCount
  {
    Example[FinShape := shape]
  }

  lemma ExampleDecodes()
    ensures ParseArgs(Example).Success?
    ensures var d := ParseArgs(Example).value;
      && d.radius == 10.0 && d.finCount == 3.0 && d.finShape == 1.0
      && d.finThickness == 0.5 && d.ch4TubeRadius == 1.0
      && d.finLeRad == Some(0.5) && d.finLeLen == Some(1.5) && d.finTeLen == Some(1.5)
  {
    assert 2.0 <= HalfLen(10.0, 20.0, 2.0);
    DecodeSucceedsIff(Example);
  }

  /** Shape 2 drops all three fin-edge fields, shape 3 keeps the two leading-edge ones. */
  lemma FinShapeNulling()
    ensures ParseArgs(WithFinShape(2.0)).Success?
    ensures var d := ParseArgs(WithFinShape(2.0)).value;
      d.finLeRad == None && d.finLeLen == None && d.finTeLen == None
    ensures ParseArgs(WithFinShape(3.0)).Success?
    ensures var d := ParseArgs(WithFinShape(3.0)).value;
      d.finLeRad == Some(0.5) && d.finLeLen == Some(1.5) && d.finTeLen == None
  {
    assert 2.0 <= HalfLen(10.0, 20.0, 2.0);
    DecodeSucceedsIff(WithFinShape(2.0));
    DecodeSucceedsIff(WithFinShape(3.0));
  }

  /** A zero radius raises ZeroDivisionError instead of producing an infinite length. */
  lemma ZeroRadiusRaises()
    ensures ParseArgs(Example[Radius := 0.0]) == Failure(ZeroDivisionError)
  {
    DecodeErrors(Example[Radius := 0.0]);
  }

  /** A fin_root_chord proportion above 1 fails the first `_scale` assertion. */
  lemma ProportionOutOfRangeRaises()
    ensures ParseArgs(Example[FinRootChord := 1.5]) == Failure(AssertionError(FinRootChord))
  {
  }
}
