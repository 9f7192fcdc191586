// The two hours normalizers: they walk a weekly {day: [open, close]} object
// with fractional 24-hour clock values, where a close before the open means
// the shop closes after midnight. Each returns the share of the week's open
// time that falls in its window (after 19:00 for "open late", before 07:30
// for "opens early"), or `None` when there is nothing to measure.

module Hours {
  import opened Values
  import opened Normalizers
  import opened Combining

  const LateStart: real := 19.0
  const EarlyEnd: real := 7.5

  /** An entry the loop uses: a two-element list with no `None` endpoint.
      Anything else is skipped. */
  predicate IsOpenClose(v: Value) {
    v.List? && |v.items| == 2 && !v.items[0].Null? && !v.items[1].Null?
  }

  predicate IsNumber(v: Value) {
    v.Num? || v.Bool?
  }

  /** Endpoints that Python's comparisons and arithmetic accept as numbers
      (NaN and non-numeric endpoints are not modelled). */
  predicate NumericEndpoints(v: Value) {
    IsOpenClose(v) ==> IsNumber(v.items[0]) && IsNumber(v.items[1])
  }

  predicate NumericDays(es: seq<(string, Value)>) {
    forall i :: 0 <= i < |es| ==> NumericEndpoints(es[i].1)
  }

  /** The hours argument as far as the normalizers can read it. */
  predicate WellFormedHours(h: Value) {
    h.Dict? ==> NumericDays(h.entries)
  }

  function OpenOf(v: Value): real
    requires IsOpenClose(v) && NumericEndpoints(v)
  {
    ToReal(v.items[0])
  }

  function CloseOf(v: Value): real
    requires IsOpenClose(v) && NumericEndpoints(v)
  {
    ToReal(v.items[1])
  }

  function Max(a: real, b: real): real {
    if a >= b then a else b
  }

  function Min(a: real, b: real): real {
    if a <= b then a else b
  }

  /** Hours from open to close, wrapping past midnight when close < open. */
  function DaySpan(o: real, c: real): real {
    if c >= o then c - o else 24.0 - o + c
  }

  /** The late hours of one day: only a close after 19:00 on the same day
      counts. */
  function LateHours(o: real, c: real): real {
    if c > LateStart then Max(c - Max(o, LateStart), 0.0) else 0.0
  }

  /** The early hours of one day: an open before 07:30 counts up to the
      close, wrapping when the close is not after the open. */
  function EarlyHours(o: real, c: real): real {
    if o < EarlyEnd then
      (if c > o then Min(EarlyEnd - o, DaySpan(o, c)) else Min(EarlyEnd - o, 24.0 - o + c))
    else 0.0
  }

  /** `t`: the week's total open span over the entries `es`. */
  function SpanTotal(es: seq<(string, Value)>): real
    requires NumericDays(es)
  {
    if es == [] then 0.0
    else
      var v := es[|es| - 1].1;
      SpanTotal(es[..|es| - 1]) + (if IsOpenClose(v) then Max(DaySpan(OpenOf(v), CloseOf(v)), 0.0) else 0.0)
  }

  /** `l`: the week's total late hours. */
  function LateTotal(es: seq<(string, Value)>): real
    requires NumericDays(es)
  {
    if es == [] then 0.0
    else
      var v := es[|es| - 1].1;
      LateTotal(es[..|es| - 1]) + (if IsOpenClose(v) then LateHours(OpenOf(v), CloseOf(v)) else 0.0)
  }

  /** `e`: the week's total early hours. */
  function EarlyTotal(es: seq<(string, Value)>): real
    requires NumericDays(es)
  {
    if es == [] then 0.0
    else
      var v := es[|es| - 1].1;
      EarlyTotal(es[..|es| - 1]) + (if IsOpenClose(v) then EarlyHours(OpenOf(v), CloseOf(v)) else 0.0)
  }

  /** The value of `norm_hours_late(h)`. */
  function LateShare(h: Value): Option<real>
    requires WellFormedHours(h)
  {
    if !h.Dict? || h.entries == [] then None
    else
      var t := SpanTotal(h.entries);
      if t <= 0.0 then None else Some(Clamp(LateTotal(h.entries) / t))
  }

  /** The value of `norm_hours_early(h)`. */
  function EarlyShare(h: Value): Option<real>
    requires WellFormedHours(h)
  {
    if !h.Dict? || h.entries == [] then None
    else
      var t := SpanTotal(h.entries);
      if t <= 0.0 then None else Some(Clamp(EarlyTotal(h.entries) / t))
  }

  /** `None` exactly for a non-dict, an empty dict or a week without open
      time. */
  predicate NoMeasurableWeek(h: Value)
    requires WellFormedHours(h)
  {
    !h.Dict? || h.entries == [] || SpanTotal(h.entries) <= 0.0
  }

  /** `norm_hours_late`: the loop of the source, accumulating `t` and `l`. */
  method NormHoursLate(h: Value) returns (r: Option<real>)
    requires WellFormedHours(h)
    ensures r == LateShare(h)
    ensures r.None? <==> NoMeasurableWeek(h)
    ensures r.Some? ==> 0.0 <= r.value <= 1.0
  {
    if !h.Dict? || |h.entries| == 0 {
      return None;
    }
    var es := h.entries;
    var t, l := 0.0, 0.0;
    for i := 0 to |es|
      invariant t == SpanTotal(es[..i])
      invariant l == LateTotal(es[..i])
    {
      assert es[..i + 1][..i] == es[..i];
      var v := es[i].1;
      if !(v.List? && |v.items| == 2) {
        continue;
      }
      var o, c := v.items[0], v.items[1];
      if o.Null? || c.Null? {
        continue;
      }
      var oh, ch := ToReal(o), ToReal(c);
      var span := if ch >= oh then ch - oh else 24.0 - oh + ch;
      t := t + Max(span, 0.0);
      if ch > 19.0 {
        l := l + Max(ch - Max(oh, 19.0), 0.0);
      }
    }
    assert es[..|es|] == es;
    if t <= 0.0 {
      return None;
    }
    return Some(Clamp(l / t));
  }

  /** `norm_hours_early`: the loop of the source, accumulating `t` and `e`. */
  method NormHoursEarly(h: Value) returns (r: Option<real>)
    requires WellFormedHours(h)
    ensures r == EarlyShare(h)
    ensures r.None? <==> NoMeasurableWeek(h)
    ensures r.Some? ==> 0.0 <= r.value <= 1.0
  {
    if !h.Dict? || |h.entries| == 0 {
      return None;
    }
    var es := h.entries;
    var t, e := 0.0, 0.0;
    for i := 0 to |es|
      invariant t == SpanTotal(es[..i])
      invariant e == EarlyTotal(es[..i])
    {
      assert es[..i + 1][..i] == es[..i];
      var v := es[i].1;
      if !(v.List? && |v.items| == 2) {
        continue;
      }
      var o, c := v.items[0], v.items[1];
      if o.Null? || c.Null? {
        continue;
      }
      var oh, ch := ToReal(o), ToReal(c);
      var span := if ch >= oh then ch - oh else 24.0 - oh + ch;
      t := t + Max(span, 0.0);
      if oh < 7.5 {
        e := e + (if ch > oh then Min(7.5 - oh, span) else Min(7.5 - oh, 24.0 - oh + ch));
      }
    }
    assert es[..|es|] == es;
    if t <= 0.0 {
      return None;
    }
    return Some(Clamp(e / t));
  }

  // ---------------------------------------------------------------------
  // Properties

  /** On clock values a day's span is between 0 and 24 hours. */
  lemma DaySpanWithinADay(o: real, c: real)
    requires 0.0 <= o <= 24.0 && 0.0 <= c <= 24.0
    ensures 0.0 <= DaySpan(o, c) <= 24.0
    ensures c < o ==> DaySpan(o, c) == (24.0 - o) + c
  {
  }

  /** A day never has more late hours than open hours. */
  lemma {:induction false} LateWithinSpan(es: seq<(string, Value)>)
    requires NumericDays(es)
    ensures 0.0 <= LateTotal(es) <= SpanTotal(es)
  {
    if es != [] {
      LateWithinSpan(es[..|es| - 1]);
    }
  }

  /** So the late share is already a fraction: the clamp never cuts it. */
  lemma LateShareIsFraction(h: Value)
    requires WellFormedHours(h) && LateShare(h).Some?
    ensures LateShare(h).value == LateTotal(h.entries) / SpanTotal(h.entries)
  {
    LateWithinSpan(h.entries);
    var l, t := LateTotal(h.entries), SpanTotal(h.entries);
    QuotientBetween(l, t, 0.0, 1.0);
  }

  /** Days that close after midnight (close < open) add no late hours: only
      the part of the day before midnight could, and the source does not
      count it. A week of such days measures 0. */
  lemma {:induction false} OvernightDaysAddNoLateHours(es: seq<(string, Value)>)
    requires NumericDays(es)
    requires forall i :: 0 <= i < |es| && IsOpenClose(es[i].1) ==> CloseOf(es[i].1) < OpenOf(es[i].1)
    ensures LateTotal(es) == 0.0
  {
    if es != [] {
      OvernightDaysAddNoLateHours(es[..|es| - 1]);
    }
  }

  /** Totals are additive over a split of the week. */
  lemma {:induction false} TotalsAppend(a: seq<(string, Value)>, b: seq<(string, Value)>)
    requires NumericDays(a) && NumericDays(b)
    ensures NumericDays(a + b)
    ensures SpanTotal(a + b) == SpanTotal(a) + SpanTotal(b)
    ensures LateTotal(a + b) == LateTotal(a) + LateTotal(b)
    ensures EarlyTotal(a + b) == EarlyTotal(a) + EarlyTotal(b)
  {
    if b == [] {
      assert a + b == a;
    } else {
      var b' := b[..|b| - 1];
      assert (a + b)[..|a + b| - 1] == a + b';
      assert (a + b)[|a + b| - 1] == b[|b| - 1];
      TotalsAppend(a, b');
    }
  }

  /** An entry that is not a two-element list, or that has a `None`
      endpoint, changes neither normalizer, wherever it stands. */
  lemma SkippedEntryIgnored(a: seq<(string, Value)>, e: (string, Value), b: seq<(string, Value)>)
    requires NumericDays(a) && NumericDays(b) && !IsOpenClose(e.1)
    ensures WellFormedHours(Dict(a + [e] + b)) && WellFormedHours(Dict(a + b))
    ensures LateShare(Dict(a + [e] + b)) == LateShare(Dict(a + b))
    ensures EarlyShare(Dict(a + [e] + b)) == EarlyShare(Dict(a + b))
  {
    assert NumericDays([e]);
    TotalsAppend(a, [e]);
    TotalsAppend(a + [e], b);
    TotalsAppend(a, b);
    assert [e][..0] == [];
  }

  /** On clock values, and when no day opens and closes at the same time,
      the early hours are part of the span and the early share is a
      fraction the clamp does not cut. */
  lemma {:induction false} EarlyWithinSpan(es: seq<(string, Value)>)
    requires NumericDays(es)
    requires forall i :: 0 <= i < |es| && IsOpenClose(es[i].1) ==>
               0.0 <= OpenOf(es[i].1) <= 24.0 && 0.0 <= CloseOf(es[i].1) <= 24.0 &&
               OpenOf(es[i].1) != CloseOf(es[i].1)
    ensures 0.0 <= EarlyTotal(es) <= SpanTotal(es)
  {
    if es != [] {
      EarlyWithinSpan(es[..|es| - 1]);
    }
  }

  /** Under those conditions the early share is exactly early hours over
      open hours. */
  lemma EarlyShareIsFraction(h: Value)
    requires WellFormedHours(h) && EarlyShare(h).Some?
    requires forall i :: 0 <= i < |h.entries| && IsOpenClose(h.entries[i].1) ==>
               0.0 <= OpenOf(h.entries[i].1) <= 24.0 && 0.0 <= CloseOf(h.entries[i].1) <= 24.0 &&
               OpenOf(h.entries[i].1) != CloseOf(h.entries[i].1)
    ensures EarlyShare(h).value == EarlyTotal(h.entries) / SpanTotal(h.entries)
  {
    EarlyWithinSpan(h.entries);
    QuotientBetween(EarlyTotal(h.entries), SpanTotal(h.entries), 0.0, 1.0);
  }

  /** A day that opens and closes at the same time before 07:30 has no span
      but is counted as open from its opening until 07:30, so a week can
      measure more early hours than open hours. */
  lemma ZeroLengthDayCountsEarly()
    ensures EarlyHours(5.0, 5.0) == 2.5 && DaySpan(5.0, 5.0) == 0.0
    ensures EarlyShare(Dict([("mon", List([Num(5.0), Num(5.0)])), ("tue", List([Num(8.0), Num(9.0)]))])) == Some(1.0)
  {
    var es := [("mon", List([Num(5.0), Num(5.0)])), ("tue", List([Num(8.0), Num(9.0)]))];
    assert es[..1] == [es[0]];
    assert es[..1][..0] == [];
    assert SpanTotal(es) == 1.0;
    assert EarlyTotal(es) == 2.5;
  }
}
