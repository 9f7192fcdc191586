// Leaf normalizers of the scoring engine: each maps one raw, possibly
// missing attribute onto a strength in [0, 1], or onto `None` when the
// attribute is absent (`None` or NaN). Substituting defaults is the caller's
// job, never the normalizer's.

module Normalizers {
  import opened Values

  /** `clamp(x)` with its default bounds 0 and 1 (also `clamp01`). */
  function Clamp(x: real): (r: real)
    ensures 0.0 <= r <= 1.0
    ensures 0.0 <= x <= 1.0 ==> r == x
    ensures x <= 0.0 ==> r == 0.0
    ensures x >= 1.0 ==> r == 1.0
  {
    if x < 0.0 then 0.0 else if x > 1.0 then 1.0 else x
  }

  /** A normalizer's contract: absent exactly when the input is absent,
      otherwise a strength in [0, 1]. */
  predicate IsStrengthOf(o: Option<real>, v: Value) {
    (o.None? <==> Absent(v)) && (o.Some? ==> 0.0 <= o.value <= 1.0)
  }

  /** `norm_0_5`: a 0..5 rating scaled to 0..1. */
  function NormZeroFive(v: Value): (o: Option<real>)
    requires v.IsScalar()
    ensures IsStrengthOf(o, v)
    ensures o.Some? && 0.0 <= ToReal(v) <= 5.0 ==> o.value * 5.0 == ToReal(v)
  {
    if Absent(v) then None else Some(Clamp(ToReal(v) / 5.0))
  }

  /** `bool_norm`: Python truthiness of any present value, as 1.0 or 0.0. */
  function BoolNorm(v: Value): (o: Option<real>)
    ensures o.None? <==> Absent(v)
    ensures o.Some? ==> o.value == 0.0 || o.value == 1.0
    ensures v.Bool? ==> o == Some(if v.b then 1.0 else 0.0)
  {
    match v
    case Null => None
    case NaN => None
    case Bool(b) => Some(if b then 1.0 else 0.0)
    case Num(x) => Some(if x != 0.0 then 1.0 else 0.0)
    case List(items) => Some(if |items| > 0 then 1.0 else 0.0)
    case Dict(entries) => Some(if |entries| > 0 then 1.0 else 0.0)
  }

  /** `norm_seating`: 40 seats is full capacity. */
  function NormSeating(v: Value): (o: Option<real>)
    requires v.IsScalar()
    ensures IsStrengthOf(o, v)
    ensures o.Some? && 0.0 <= ToReal(v) <= 40.0 ==> o.value * 40.0 == ToReal(v)
    ensures o.Some? && ToReal(v) >= 40.0 ==> o.value == 1.0
  {
    if Absent(v) then None else Some(Clamp(ToReal(v) / 40.0))
  }

  /** `norm_price_index`: price index 1 (cheap) .. 4 (expensive) inverted
      into budget-friendliness. */
  function NormPriceIndex(v: Value): (o: Option<real>)
    requires v.IsScalar()
    ensures IsStrengthOf(o, v)
    ensures o.Some? && 1.0 <= ToReal(v) <= 4.0 ==> o.value * 3.0 == 4.0 - ToReal(v)
    ensures o.Some? && ToReal(v) <= 1.0 ==> o.value == 1.0
    ensures o.Some? && ToReal(v) >= 4.0 ==> o.value == 0.0
  {
    if Absent(v) then None else Some(Clamp(1.0 - (ToReal(v) - 1.0) / 3.0))
  }

  /** `norm_noise_inverse`: quieter is stronger; the complement of `norm_0_5`. */
  function NormNoiseInverse(v: Value): (o: Option<real>)
    requires v.IsScalar()
    ensures IsStrengthOf(o, v)
    ensures o.Some? ==> o.value + NormZeroFive(v).value == 1.0
  {
    var n := NormZeroFive(v);
    if n.None? then None else Some(Clamp(1.0 - n.value))
  }

  /** `norm_mid_noise_bonus`: peaks at a medium noise level. */
  function NormMidNoiseBonus(v: Value): (o: Option<real>)
    requires v.IsScalar()
    ensures IsStrengthOf(o, v)
    ensures o.Some? && 0.0 <= ToReal(v) <= 5.0 ==> o.value * 2.5 == 2.5 - Abs(ToReal(v) - 2.5)
    ensures o.Some? ==> (o.value == 1.0 <==> NormZeroFive(v).value == 0.5)
  {
    var n := NormZeroFive(v);
    if n.None? then None else Some(Clamp(1.0 - Abs(n.value - 0.5) * 2.0))
  }

  /** `norm_df_milks`: three dairy-free milks is the ceiling. */
  function NormDfMilks(v: Value): (o: Option<real>)
    requires v.IsScalar()
    ensures IsStrengthOf(o, v)
    ensures o.Some? && 0.0 <= ToReal(v) <= 3.0 ==> o.value * 3.0 == ToReal(v)
    ensures o.Some? && ToReal(v) >= 3.0 ==> o.value == 1.0
  {
    if Absent(v) then None else Some(Clamp(ToReal(v) / 3.0))
  }

  function Abs(x: real): real {
    if x < 0.0 then -x else x
  }

  /** Two present scalar values ordered by their numeric reading. */
  predicate NumericallyBelow(a: Value, b: Value) {
    a.IsScalar() && b.IsScalar() && !Absent(a) && !Absent(b) && ToReal(a) <= ToReal(b)
  }

  lemma NormZeroFiveMonotone(a: Value, b: Value)
    requires NumericallyBelow(a, b)
    ensures NormZeroFive(a).value <= NormZeroFive(b).value
  {
  }

  lemma NormSeatingMonotone(a: Value, b: Value)
    requires NumericallyBelow(a, b)
    ensures NormSeating(a).value <= NormSeating(b).value
  {
  }

  lemma NormDfMilksMonotone(a: Value, b: Value)
    requires NumericallyBelow(a, b)
    ensures NormDfMilks(a).value <= NormDfMilks(b).value
  {
  }

  lemma NormPriceIndexAntitone(a: Value, b: Value)
    requires NumericallyBelow(a, b)
    ensures NormPriceIndex(a).value >= NormPriceIndex(b).value
  {
  }

  /** The mid-noise bonus rises towards noise 2.5 and falls beyond it. */
  lemma MidNoiseBonusFallsOff(a: Value, b: Value)
    requires NumericallyBelow(a, b)
    ensures ToReal(b) <= 2.5 ==> NormMidNoiseBonus(a).value <= NormMidNoiseBonus(b).value
    ensures ToReal(a) >= 2.5 ==> NormMidNoiseBonus(a).value >= NormMidNoiseBonus(b).value
  {
  }
}
