# Rocket-design sample space, modelled in Dafny

`sample_space.py` describes the search space of a rocket-design optimiser and
decodes a sampled vector into the keyword arguments of the rocket scoring
function. This project models its three parts and proves their contracts:

- **Sample-space builder** (`get_sample_space`, module `SampleSpace`). The
  builder's keyword arguments are the datatype `SpaceArgs`, with the source's
  defaults: `dry_mass` 65, `thrust_margin` 15, every learnable parameter None.
  The result is a 22-entry list in the fixed slot order of module `Slots`.
  Each entry is `Fixed(v)` or `Sampled(descriptor)`. Python's `x or
  descriptor` is spelled out: a supplied value is kept only when it is truthy
  (`Truthy`: present and non-zero). So a preset that passes 0 leaves that
  slot learnable. The four descriptor kinds are `Uniform`, `ShiftedRandInt`
  (`1 + randint`), `Choice` and `QUniform`. The presets `space_all`,
  `space_most`, `space_few` and `space_body` are constants built the way the
  source builds them.
- **Proportion scaler** (`_scale`, module `Scaling`). It is linear
  interpolation, and its two asserts are `requires` clauses. `Unscale` is its
  inverse.
- **Vector decoder** (`parse_args`, module `Decoder`). It works on `seq<real>`
  and returns `Result<Design, DecodeError>`. The exceptions Python would raise
  are `Failure` values, in the order the source evaluates its expressions:
  - `IndexError(i)` for a vector that is too short;
  - `ZeroDivisionError` for radius 0;
  - `AssertionError(slot)` for the `_scale` call that reads `args[slot]`.

  The decoder checks only the `_scale` assertions that can fail. Dafny proves
  that the others always hold: the `dry_CoM` bounds are ordered because the
  tank-and-engine length exceeds 10, and the fin bounds are ordered because
  `fin_root_chord` lies in [2, (body_len + nose_len) / 2].

Module `Coverage` connects the builder and the decoder. Every vector a
sampler can draw from a preset decodes without raising. The same holds for
any space whose fixed values lie inside their slots' default descriptors.
Module `DecoderExamples` decodes concrete vectors.

Arithmetic is exact `real` arithmetic. The empirical constants of the
tank-and-engine formula are exact decimals. `(radius * 0.0254) ** -2` is
written as `1 / (m * m)`.

The builder takes 22 keyword arguments: two fixed ones and twenty learnable
ones. The decoded dictionary has 22 keys. `space_body` passes sixteen
arguments, but only thirteen of its learnable slots end up fixed, because
three of the arguments are 0. The docstring gives radius as [2, 15], but the
descriptor draws from [2, 12]. The model follows the code.

## Model

| member | source | states |
|---|---|---|
| `Scaling.Scale` | sample_space.py:179-199 | For a proportion in [0, 1] and lo <= hi (the two asserts), the result lies in [lo, hi] |
| `Scaling.Unscale` | sample_space.py:185-195 | Every y in [lo, hi] is reached: some proportion in [0, 1] scales to exactly y |
| `Scaling.UnscaleScale` | sample_space.py:197-199 | On a non-degenerate range, unscaling a scaled proportion gives that proportion back (scale is injective) |
| `Scaling.ScaleEndpoints` | sample_space.py:187-190 | Proportion 0 maps to min_, proportion 1 maps to max_ |
| `Scaling.ScaleMonotone` | sample_space.py:197-199 | A larger proportion never yields a smaller value |
| `SampleSpace.Truthy` | sample_space.py:102-121 | The truthiness test of each `x or descriptor`: an optional number is falsy exactly when it is None or 0 |
| `SampleSpace.Learn` | sample_space.py:102-121 | One `x or descriptor` slot: the entry is fixed exactly when x is truthy and then holds x itself; otherwise it is the given descriptor |
| `SampleSpace.DefaultDescriptor` | sample_space.py:102-121 | The fallback descriptor of every learnable slot carries that slot's parameter name, and each proportion slot is uniform on [0, 1] |
| `SampleSpace.GetSampleSpace` | sample_space.py:99-101 | The space always has 22 entries, and entries 0 and 1 are dry_mass and thrust_margin verbatim |
| `SampleSpace.FixOrDefault` | sample_space.py:102-121 | For each learnable slot, a truthy supplied value appears verbatim; a missing or zero value leaves the slot's descriptor |
| `SampleSpace.OrderStability` | sample_space.py:93-122 | Whatever is fixed, each learnable slot holds a non-zero fixed number or exactly its own descriptor |
| `SampleSpace.SpaceWithinDefaults` | sample_space.py:99-122 | If every truthy argument lies inside its slot's descriptor, every entry of the space does too |
| `Presets.SpaceAllIsDefault` | sample_space.py:203 | With no arguments, dry_mass is 65, thrust_margin is 15, and all twenty other slots are learnable descriptors |
| `Presets.ZeroArgumentsStayLearnable` | sample_space.py:210-234 | The zeros that space_few and space_body pass (nose_tip_di, nose_power, fin_base_sep) leave those slots as descriptors |
| `Presets.PresetFixedValues` | sample_space.py:205-234 | The values the preset constants pass appear in their slots: 0.5, 1.5, 1.5 and 8 for the fin-edge and fuel-tube slots of space_most, space_few and space_body. space_few also fixes 1 and 0.1; space_body fixes nose_len 15 and the fin values it passes |
| `Presets.PresetFixedSlots` | sample_space.py:203-234 | The exact set of fixed slots in each of the four presets |
| `Decoder.TankAndEngineLen` | sample_space.py:145 | For a non-zero radius, the tank-and-engine length exceeds 10 inches |
| `Decoder.At` | sample_space.py:142-144 | Reading `args[i]` succeeds exactly when i is within the vector and yields `args[i]`; otherwise it raises IndexError(i) |
| `Decoder.AtIf` | sample_space.py:172-174 | `args[i] if c else None`: without the condition the result is None and nothing is read; with it the result is `args[i]`, or IndexError(i) past the end |
| `Decoder.ParseArgs` | sample_space.py:125-176 | On success the vector has 22 entries and a non-zero radius. body_len is the multiplier times the tank-and-engine length T. dry_CoM lies in [nose+body-T/2, nose+body-T/3]. fin_root_chord and fin_span lie in [2, (body+nose)/2]. fin_tip_chord and fin_sweep lie in [0, fin_root_chord]. fin_base_sep lies in [fin_root_chord, (body+nose)/2] |
| `Decoder.DecodeSucceedsIff` | sample_space.py:142-170 | Decoding succeeds exactly when the vector has 22 entries, the radius is non-zero, the six proportions are in [0, 1], and (body_len + nose_len) / 2 >= 2 |
| `Decoder.DecodeErrors` | sample_space.py:142-147 | A zero radius raises ZeroDivisionError once slots 2, 4 and 5 are read. A full vector with a non-zero radius can only fail a `_scale` assertion on a proportion slot. A vector of at most two entries fails reading index 2 |
| `Decoder.DecodedCopies` | sample_space.py:150-175 | Nine fields are copied from their slots. body_len is the multiplier times T. fin_thickness and CH4_tube_radius are eighth-inches converted to inches |
| `Decoder.DecodedProportions` | sample_space.py:154-170 | Each rescaled field is its slot's proportion scaled onto the range that depends on the earlier results. dry_CoM is scaled onto [nose+body-T/2, nose+body-T/3]; the fin fields onto the ranges built from 2, fin_root_chord and (body+nose)/2 |
| `Decoder.FinEdgeFields` | sample_space.py:172-174 | fin_le_rad is present iff fin_shape is in {1,3,4,5,6,7}. fin_le_len is present iff fin_shape is in {1,3,6}. fin_te_len is present iff fin_shape is 1. A present field holds its slot's value |
| `Decoder.FinEdgeNesting` | sample_space.py:172-174 | fin_te_len present implies fin_le_len present, and fin_le_len present implies fin_le_rad present |
| `Coverage.DefaultRangesGiveFinRoom` | sample_space.py:145-147 | Any non-zero radius, nose_len >= 2 and body multiplier >= 1.5 leave (body_len + nose_len) / 2 >= 2 |
| `Coverage.SamplesDecode` | sample_space.py:125-176 | Every vector sampled from a space whose entries lie within the default descriptors decodes without raising |
| `Coverage.PresetSamplesDecode` | sample_space.py:203-234 | Every vector sampled from any of the four presets decodes without raising |
| `Coverage.PresetArgsWithinDefaults` | sample_space.py:205-234 | Every value a preset fixes lies inside its slot's default descriptor |
| `DecoderExamples.ExampleDecodes` | sample_space.py:150-176 | A concrete vector decodes with radius 10, fin_count 3, fin_thickness 0.5, fin_shape 1, CH4_tube_radius 1 and all three fin-edge fields present |
| `DecoderExamples.FinShapeNulling` | sample_space.py:172-174 | fin_shape 2 drops all three fin-edge fields. fin_shape 3 keeps only the two leading-edge ones |
| `DecoderExamples.ZeroRadiusRaises` | sample_space.py:145 | A concrete vector with radius 0 raises ZeroDivisionError |
| `DecoderExamples.ProportionOutOfRangeRaises` | sample_space.py:147 | A fin_root_chord proportion of 1.5 fails the first `_scale` assertion |

## Left out

- Random sampling by hyperopt is not modelled; only the shape of the descriptors is. `InSupport` is this model's reading of which values a descriptor can yield: `quniform` is read as the multiples of q inside [low, high], which is exact for the integer bounds and step 1 used here; `choice` as one of its options, leaving out how hyperopt resolves choice indices.
- A hyperopt expression passed in place of a learnable value is not modelled, since its truthiness is opaque; learnable arguments are numbers or None.
- An explicit None for dry_mass or thrust_margin (which the source would place in the list unchanged) is not modelled; both are numbers.
- IEEE floating point (rounding, infinities, NaN) is not modelled; all arithmetic is exact over `real`, and Python's int/float distinction is dropped.
- Non-numeric entries in the decoded vector (booleans, strings) are not modelled; the vector is `seq<real>`.
- The scoring function that consumes the decoded dictionary is not part of the repository and is not part of this model.
- The `__main__` debugging block (an import only) is not modelled.
