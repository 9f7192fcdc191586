// `combine`: the missing-data-tolerant weighted average that every vibe
// scorer runs. Parts with a non-positive weight are ignored; absent parts do
// not move the blended strength but lower the reported coverage.

module Combining {
  import opened Values
  import opened Normalizers

  /** A (strength or absent, weight) pair. */
  type Part = (Option<real>, real)

  predicate Usable(p: Part) {
    p.0.Some? && p.1 > 0.0
  }

  /** `pres`: the (strength, weight) pairs whose strength is present and
      whose weight is positive, in order. */
  function PresentParts(parts: seq<Part>): seq<(real, real)>
  {
    if parts == [] then []
    else if Usable(parts[0]) then [(parts[0].0.value, parts[0].1)] + PresentParts(parts[1..])
    else PresentParts(parts[1..])
  }

  /** `tw`: the declared weight mass, present or not. */
  function TotalWeight(parts: seq<Part>): real {
    if parts == [] then 0.0
    else (if parts[0].1 > 0.0 then parts[0].1 else 0.0) + TotalWeight(parts[1..])
  }

  /** `den`: the sum of the weights of `pres`. */
  function WeightSum(pres: seq<(real, real)>): real {
    if pres == [] then 0.0 else pres[0].1 + WeightSum(pres[1..])
  }

  /** `num`: the sum of strength times weight over `pres`. */
  function Mass(pres: seq<(real, real)>): real {
    if pres == [] then 0.0 else pres[0].0 * pres[0].1 + Mass(pres[1..])
  }

  /** `combine(parts)`: the pair (blended strength, coverage). */
  function Combine(parts: seq<Part>): (r: (real, real))
    ensures 0.0 <= r.0 <= 1.0 && 0.0 <= r.1 <= 1.0
    ensures TotalWeight(parts) <= 0.0 || PresentParts(parts) == [] ==> r == (0.0, 0.0)
  {
    var pres := PresentParts(parts);
    var tw := TotalWeight(parts);
    if tw <= 0.0 || pres == [] then (0.0, 0.0)
    else
      PresentWeightPositive(parts);
      var den := WeightSum(pres);
      (Clamp(Mass(pres) / den), Clamp(den / tw))
  }

  /** The blended strength. */
  function Blend(parts: seq<Part>): real {
    Combine(parts).0
  }

  /** The coverage. */
  function Coverage(parts: seq<Part>): real {
    Combine(parts).1
  }

  // ---------------------------------------------------------------------
  // Sums over concatenations

  lemma {:induction false} PresentPartsAppend(a: seq<Part>, b: seq<Part>)
    ensures PresentParts(a + b) == PresentParts(a) + PresentParts(b)
  {
    if a == [] {
      assert a + b == b;
    } else {
      assert (a + b)[0] == a[0];
      assert (a + b)[1..] == a[1..] + b;
      PresentPartsAppend(a[1..], b);
    }
  }

  lemma {:induction false} TotalWeightAppend(a: seq<Part>, b: seq<Part>)
    ensures TotalWeight(a + b) == TotalWeight(a) + TotalWeight(b)
  {
    if a == [] {
      assert a + b == b;
    } else {
      assert (a + b)[0] == a[0];
      assert (a + b)[1..] == a[1..] + b;
      TotalWeightAppend(a[1..], b);
    }
  }

  /** `den` is positive as soon as one part is usable. */
  lemma {:induction false} PresentWeightPositive(parts: seq<Part>)
    ensures WeightSum(PresentParts(parts)) >= 0.0
    ensures PresentParts(parts) != [] ==> WeightSum(PresentParts(parts)) > 0.0
  {
    if parts != [] {
      PresentWeightPositive(parts[1..]);
    }
  }

  /** `den <= tw`: the usable weight is part of the declared mass. */
  lemma {:induction false} PresentWeightBounded(parts: seq<Part>)
    ensures WeightSum(PresentParts(parts)) <= TotalWeight(parts)
  {
    if parts != [] {
      PresentWeightBounded(parts[1..]);
    }
  }

  /** Strengths of at least `lo` keep `num` at least `lo * den`. */
  lemma {:induction false} MassAtLeast(parts: seq<Part>, lo: real)
    requires forall i :: 0 <= i < |parts| && Usable(parts[i]) ==> lo <= parts[i].0.value
    ensures lo * WeightSum(PresentParts(parts)) <= Mass(PresentParts(parts))
  {
    if parts != [] {
      MassAtLeast(parts[1..], lo);
    }
  }

  /** Strengths of at most `hi` keep `num` at most `hi * den`. */
  lemma {:induction false} MassAtMost(parts: seq<Part>, hi: real)
    requires forall i :: 0 <= i < |parts| && Usable(parts[i]) ==> parts[i].0.value <= hi
    ensures Mass(PresentParts(parts)) <= hi * WeightSum(PresentParts(parts))
  {
    if parts != [] {
      MassAtMost(parts[1..], hi);
    }
  }

  lemma QuotientOfItself(x: real)
    requires x > 0.0
    ensures x / x == 1.0
  {
  }

  /** Proof helper: `combine` once something is usable, with its sums named. */
  lemma CombineUnfold(parts: seq<Part>)
    requires TotalWeight(parts) > 0.0 && PresentParts(parts) != []
    ensures WeightSum(PresentParts(parts)) > 0.0
    ensures Blend(parts) == Clamp(Mass(PresentParts(parts)) / WeightSum(PresentParts(parts)))
    ensures Coverage(parts) == Clamp(WeightSum(PresentParts(parts)) / TotalWeight(parts))
  {
    PresentWeightPositive(parts);
  }

  lemma QuotientBetween(num: real, den: real, lo: real, hi: real)
    requires den > 0.0 && lo * den <= num <= hi * den
    ensures lo <= num / den <= hi
  {
    var q := num / den;
    assert q * den == num;
  }

  // ---------------------------------------------------------------------
  // Properties of combine

  /** The degenerate inputs: no parts, or only a zero-weight one, give
      (0, 0). */
  lemma CombineDegenerate(v: Option<real>)
    ensures Combine([]) == (0.0, 0.0)
    ensures Combine([(v, 0.0)]) == (0.0, 0.0)
  {
    assert PresentParts([(v, 0.0)]) == [];
  }

  /** When something is usable, the coverage is exactly the usable share of
      the declared weight: the clamp never cuts it. */
  lemma CoverageIsPresentShare(parts: seq<Part>)
    requires TotalWeight(parts) > 0.0 && PresentParts(parts) != []
    ensures Coverage(parts) == WeightSum(PresentParts(parts)) / TotalWeight(parts)
    ensures Coverage(parts) > 0.0
  {
    var den, tw := WeightSum(PresentParts(parts)), TotalWeight(parts);
    PresentWeightPositive(parts);
    PresentWeightBounded(parts);
    QuotientBetween(den, tw, 0.0, 1.0);
    CombineUnfold(parts);
  }

  /** Missing parts neither inflate nor deflate the blend: it lies between
      bounds on the usable strengths. */
  lemma BlendBetweenPresentStrengths(parts: seq<Part>, lo: real, hi: real)
    requires TotalWeight(parts) > 0.0 && PresentParts(parts) != []
    requires 0.0 <= lo <= hi <= 1.0
    requires forall i :: 0 <= i < |parts| && Usable(parts[i]) ==> lo <= parts[i].0.value <= hi
    ensures lo <= Blend(parts) <= hi
  {
    MassAtLeast(parts, lo);
    MassAtMost(parts, hi);
    BlendWithin(parts, lo, hi);
  }

  /** Bounds on the weighted mass bound the blend. */
  lemma BlendWithin(parts: seq<Part>, lo: real, hi: real)
    requires TotalWeight(parts) > 0.0 && PresentParts(parts) != []
    requires 0.0 <= lo <= hi <= 1.0
    requires lo * WeightSum(PresentParts(parts)) <= Mass(PresentParts(parts)) <= hi * WeightSum(PresentParts(parts))
    ensures lo <= Blend(parts) <= hi
  {
    var pres := PresentParts(parts);
    var num, den := Mass(pres), WeightSum(pres);
    PresentWeightPositive(parts);
    ClampedQuotient(num, den, lo, hi);
    CombineUnfold(parts);
  }

  lemma ClampedQuotient(num: real, den: real, lo: real, hi: real)
    requires den > 0.0 && lo * den <= num <= hi * den && 0.0 <= lo <= hi <= 1.0
    ensures lo <= Clamp(num / den) <= hi
  {
    QuotientBetween(num, den, lo, hi);
  }

  /** A part whose weight is not positive changes neither output, wherever
      it stands. */
  lemma NonPositiveWeightIgnored(a: seq<Part>, p: Part, b: seq<Part>)
    requires p.1 <= 0.0
    ensures Combine(a + [p] + b) == Combine(a + b)
  {
    assert PresentParts([p]) == [] by { assert [p][1..] == []; }
    assert TotalWeight([p]) == 0.0 by { assert [p][1..] == []; }
    calc {
      PresentParts(a + [p] + b);
      { PresentPartsAppend(a + [p], b); }
      PresentParts(a + [p]) + PresentParts(b);
      { PresentPartsAppend(a, [p]); }
      PresentParts(a) + [] + PresentParts(b);
      { assert PresentParts(a) + [] == PresentParts(a); }
      PresentParts(a) + PresentParts(b);
      { PresentPartsAppend(a, b); }
      PresentParts(a + b);
    }
    calc {
      TotalWeight(a + [p] + b);
      { TotalWeightAppend(a + [p], b); TotalWeightAppend(a, [p]); }
      TotalWeight(a) + TotalWeight(b);
      { TotalWeightAppend(a, b); }
      TotalWeight(a + b);
    }
  }

  lemma {:induction false} AllPresentWeight(parts: seq<Part>)
    requires forall i :: 0 <= i < |parts| && parts[i].1 > 0.0 ==> parts[i].0.Some?
    ensures WeightSum(PresentParts(parts)) == TotalWeight(parts)
  {
    if parts != [] {
      AllPresentWeight(parts[1..]);
    }
  }

  /** Every positive-weight part present: coverage is exactly 1. */
  lemma FullCoverage(parts: seq<Part>)
    requires TotalWeight(parts) > 0.0
    requires forall i :: 0 <= i < |parts| && parts[i].1 > 0.0 ==> parts[i].0.Some?
    ensures Coverage(parts) == 1.0
  {
    AllPresentWeight(parts);
    assert PresentParts(parts) != [];
    CoverageIsPresentShare(parts);
    QuotientOfItself(TotalWeight(parts));
  }

  /** Turning one present part into `None` takes exactly its weight (when
      positive) out of the usable weight and leaves the declared mass. */
  lemma {:induction false} DropWeight(parts: seq<Part>, i: nat)
    requires i < |parts| && parts[i].0.Some?
    ensures TotalWeight(parts[i := (None, parts[i].1)]) == TotalWeight(parts)
    ensures WeightSum(PresentParts(parts[i := (None, parts[i].1)])) ==
            WeightSum(PresentParts(parts)) - (if parts[i].1 > 0.0 then parts[i].1 else 0.0)
  {
    var q := parts[i := (None, parts[i].1)];
    if i == 0 {
      assert q[1..] == parts[1..];
    } else {
      assert q[1..] == parts[1..][i - 1 := (None, parts[i].1)];
      DropWeight(parts[1..], i - 1);
    }
  }

  /** Turning a present part into `None` never increases coverage. */
  lemma DropNeverIncreasesCoverage(parts: seq<Part>, i: nat)
    requires i < |parts| && parts[i].0.Some?
    ensures Coverage(parts[i := (None, parts[i].1)]) <= Coverage(parts)
  {
    var q := parts[i := (None, parts[i].1)];
    DropWeight(parts, i);
    var tw := TotalWeight(parts);
    if tw > 0.0 && PresentParts(q) != [] {
      var d, d' := WeightSum(PresentParts(parts)), WeightSum(PresentParts(q));
      PresentWeightPositive(q);
      assert d > 0.0;
      assert PresentParts(parts) != [];
      CoverageIsPresentShare(parts);
      CoverageIsPresentShare(q);
      QuotientBetween(d', tw, 0.0, d / tw);
    }
  }

  // ---------------------------------------------------------------------
  // The weight sums as sums over a weight list, for fixed weight tables

  /** The sum of the positive entries of `ws`. */
  function PositiveSum(ws: seq<real>): real {
    if ws == [] then 0.0 else (if ws[0] > 0.0 then ws[0] else 0.0) + PositiveSum(ws[1..])
  }

  /** The declared weight of each part. */
  function DeclaredWeights(parts: seq<Part>): seq<real> {
    seq(|parts|, i requires 0 <= i < |parts| => parts[i].1)
  }

  /** The weight each part brings to `den`: its weight when present, else 0. */
  function UsableWeights(parts: seq<Part>): seq<real> {
    seq(|parts|, i requires 0 <= i < |parts| => if parts[i].0.Some? then parts[i].1 else 0.0)
  }

  /** `tw` and `den` read off the weight lists. */
  lemma {:induction false} WeightsAsSums(parts: seq<Part>)
    ensures TotalWeight(parts) == PositiveSum(DeclaredWeights(parts))
    ensures WeightSum(PresentParts(parts)) == PositiveSum(UsableWeights(parts))
  {
    if parts != [] {
      WeightsAsSums(parts[1..]);
      assert DeclaredWeights(parts)[1..] == DeclaredWeights(parts[1..]);
      assert UsableWeights(parts)[1..] == UsableWeights(parts[1..]);
    }
  }
}
