// Running every scorer over one shop, picking the best vibe, and writing the
// one-line narrative about it.

module Orchestration {
  import opened Values
  import opened Normalizers
  import opened Combining
  import opened Vibes

  type Entry = (string, VibeResult)

  // ---------------------------------------------------------------------
  // compute_all_vibes

  /** The result keys, in the order the results dict is built. */
  const VibeNames: seq<string> :=
    ["Work-Friendly", "Aesthetic", "Grab-and-Go", "Date-Night", "Dietary-Friendly", "Study-Spot", "Family-Friendly"]

  /** `nn(n)` applied to a proximity count when one is given: five places
      nearby is the ceiling. */
  function ProximityNorm(count: Option<int>): (o: Option<real>)
    ensures o.None? <==> count.None?
    ensures o.Some? ==> 0.0 <= o.value <= 1.0
    ensures o.Some? && count.value >= 5 ==> o.value == 1.0
    ensures o.Some? && 0 <= count.value <= 5 ==> o.value * 5.0 == count.value as real
  {
    match count
    case None => None
    case Some(n) => Some(Clamp(n as real / 5.0))
  }

  predicate AllInputs(r: Shop, walkCount: Option<int>, parksCount: Option<int>) {
    WorkInputs(r) && AestheticInputs(r) && GrabInputs(r) && DateInputs(r, ProximityNorm(walkCount)) &&
    DietaryInputs(r) && StudyInputs(r) && FamilyInputs(r, ProximityNorm(parksCount))
  }

  /** `compute_all_vibes(row, ...)`: every scorer's result under its name. */
  function ComputeAllVibes(r: Shop, walkCount: Option<int>, parksCount: Option<int>): seq<Entry>
    requires AllInputs(r, walkCount, parksCount)
  {
    [("Work-Friendly", WorkFriendlyResult(r)),
     ("Aesthetic", AestheticResult(r)),
     ("Grab-and-Go", GrabAndGoResult(r)),
     ("Date-Night", DateNightResult(r, ProximityNorm(walkCount))),
     ("Dietary-Friendly", DietaryFriendlyResult(r)),
     ("Study-Spot", StudySpotResult(r)),
     ("Family-Friendly", FamilyFriendlyResult(r, ProximityNorm(parksCount)))]
  }

  function Names(entries: seq<Entry>): seq<string> {
    seq(|entries|, i requires 0 <= i < |entries| => entries[i].0)
  }

  /** The results carry exactly the seven vibe names, once each, in order. */
  lemma AllVibesNamed(r: Shop, walkCount: Option<int>, parksCount: Option<int>)
    requires AllInputs(r, walkCount, parksCount)
    ensures Names(ComputeAllVibes(r, walkCount, parksCount)) == VibeNames
  {
    NamesOfSeven(WorkFriendlyResult(r), AestheticResult(r), GrabAndGoResult(r),
                 DateNightResult(r, ProximityNorm(walkCount)), DietaryFriendlyResult(r), StudySpotResult(r),
                 FamilyFriendlyResult(r, ProximityNorm(parksCount)));
  }

  /** The names of a results list built in the order of the dict literal. */
  lemma NamesOfSeven(a: VibeResult, b: VibeResult, c: VibeResult, d: VibeResult, e: VibeResult,
                     f: VibeResult, g: VibeResult)
    ensures Names([("Work-Friendly", a), ("Aesthetic", b), ("Grab-and-Go", c), ("Date-Night", d),
                   ("Dietary-Friendly", e), ("Study-Spot", f), ("Family-Friendly", g)]) == VibeNames
  {
  }

  /** The proximity counts reach only Date-Night (walkables) and
      Family-Friendly (parks): every other result is the same whatever
      the counts. */
  lemma ProximityReachesOnlyDateAndFamily(r: Shop, w: Option<int>, p: Option<int>, w': Option<int>, p': Option<int>)
    requires AllInputs(r, w, p) && AllInputs(r, w', p')
    ensures var a, b := ComputeAllVibes(r, w, p), ComputeAllVibes(r, w', p');
      && (forall i :: 0 <= i < 7 && i != 3 && i != 6 ==> a[i] == b[i])
      && (w == w' ==> a[3] == b[3])
      && (p == p' ==> a[6] == b[6])
  {
    SameOutsideDateAndFamily(WorkFriendlyResult(r), AestheticResult(r), GrabAndGoResult(r),
                             DateNightResult(r, ProximityNorm(w)), DateNightResult(r, ProximityNorm(w')),
                             DietaryFriendlyResult(r), StudySpotResult(r),
                             FamilyFriendlyResult(r, ProximityNorm(p)), FamilyFriendlyResult(r, ProximityNorm(p')));
  }

  /** Two results lists that share every result but Date-Night's and
      Family-Friendly's. */
  lemma SameOutsideDateAndFamily(a: VibeResult, b: VibeResult, c: VibeResult, d: VibeResult, d': VibeResult,
                                 e: VibeResult, f: VibeResult, g: VibeResult, g': VibeResult)
    ensures var x, y := [("Work-Friendly", a), ("Aesthetic", b), ("Grab-and-Go", c), ("Date-Night", d),
             ("Dietary-Friendly", e), ("Study-Spot", f), ("Family-Friendly", g)],
                        [("Work-Friendly", a), ("Aesthetic", b), ("Grab-and-Go", c), ("Date-Night", d'),
             ("Dietary-Friendly", e), ("Study-Spot", f), ("Family-Friendly", g')];
      && (forall i :: 0 <= i < 7 && i != 3 && i != 6 ==> x[i] == y[i])
      && (d == d' ==> x[3] == y[3])
      && (g == g' ==> x[6] == y[6])
  {
  }

  /** Each result, by position. */
  lemma AllVibesAt(r: Shop, walkCount: Option<int>, parksCount: Option<int>)
    requires AllInputs(r, walkCount, parksCount)
    ensures var res := ComputeAllVibes(r, walkCount, parksCount);
      && |res| == 7
      && res[0] == ("Work-Friendly", WorkFriendlyResult(r))
      && res[1] == ("Aesthetic", AestheticResult(r))
      && res[2] == ("Grab-and-Go", GrabAndGoResult(r))
      && res[3] == ("Date-Night", DateNightResult(r, ProximityNorm(walkCount)))
      && res[4] == ("Dietary-Friendly", DietaryFriendlyResult(r))
      && res[5] == ("Study-Spot", StudySpotResult(r))
      && res[6] == ("Family-Friendly", FamilyFriendlyResult(r, ProximityNorm(parksCount)))
  {
    SevenAt(("Work-Friendly", WorkFriendlyResult(r)), ("Aesthetic", AestheticResult(r)),
            ("Grab-and-Go", GrabAndGoResult(r)), ("Date-Night", DateNightResult(r, ProximityNorm(walkCount))),
            ("Dietary-Friendly", DietaryFriendlyResult(r)), ("Study-Spot", StudySpotResult(r)),
            ("Family-Friendly", FamilyFriendlyResult(r, ProximityNorm(parksCount))));
  }

  /** Indexing a seven-element display. */
  lemma SevenAt<T>(a: T, b: T, c: T, d: T, e: T, f: T, g: T)
    ensures var s := [a, b, c, d, e, f, g];
      |s| == 7 && s[0] == a && s[1] == b && s[2] == c && s[3] == d && s[4] == e && s[5] == f && s[6] == g
  {
  }

  /** Because every missing attribute but the proximity values is
      defaulted, no vibe's coverage drops below 0.88: every label is
      High. */
  lemma EveryVibeHighConfidence(r: Shop, walkCount: Option<int>, parksCount: Option<int>)
    requires AllInputs(r, walkCount, parksCount)
    ensures forall e :: e in ComputeAllVibes(r, walkCount, parksCount) ==> e.1.confidence == High
  {
    WorkAlwaysFullyCovered(r);
    AestheticAlwaysFullyCovered(r);
    GrabAlwaysFullyCovered(r);
    DateCoverage(r, ProximityNorm(walkCount));
    DietaryAlwaysFullyCovered(r);
    StudyAlwaysFullyCovered(r);
    FamilyCoverage(r, ProximityNorm(parksCount));
    AllHigh(WorkFriendlyResult(r), AestheticResult(r), GrabAndGoResult(r),
            DateNightResult(r, ProximityNorm(walkCount)), DietaryFriendlyResult(r), StudySpotResult(r),
            FamilyFriendlyResult(r, ProximityNorm(parksCount)));
  }

  /** A results list whose seven results are all labelled High. */
  lemma AllHigh(a: VibeResult, b: VibeResult, c: VibeResult, d: VibeResult, e: VibeResult, f: VibeResult,
                g: VibeResult)
    requires a.confidence == b.confidence == c.confidence == d.confidence == High
    requires e.confidence == f.confidence == g.confidence == High
    ensures var s := [("Work-Friendly", a), ("Aesthetic", b), ("Grab-and-Go", c), ("Date-Night", d),
                      ("Dietary-Friendly", e), ("Study-Spot", f), ("Family-Friendly", g)];
      forall x :: x in s ==> x.1.confidence == High
  {
  }

  /** A walkables count that is given makes Date-Night fully covered; a
      missing one leaves it at 0.88 unless the record has its own value. */
  lemma WalkCountCoversDateNight(r: Shop, walkCount: Option<int>, parksCount: Option<int>)
    requires AllInputs(r, walkCount, parksCount)
    ensures walkCount.Some? ==> ComputeAllVibes(r, walkCount, parksCount)[3].1.coverage == 1.0
    ensures walkCount.None? && Absent(Get(r, "nearby_walkables_norm")) ==>
              ComputeAllVibes(r, walkCount, parksCount)[3].1.coverage == 0.88
  {
    var walk := ProximityNorm(walkCount);
    DateCoverage(r, walk);
    AllVibesAt(r, walkCount, parksCount);
  }

  // ---------------------------------------------------------------------
  // best_vibes: a stable sort by descending score, then the first top_k

  predicate SortedDesc(s: seq<Entry>) {
    forall i, j :: 0 <= i < j < |s| ==> s[i].1.score >= s[j].1.score
  }

  /** Insert `x` after every entry scoring at least as much: later entries
      lose ties. */
  function Insert(x: Entry, s: seq<Entry>): seq<Entry> {
    if s == [] then [x]
    else if s[0].1.score >= x.1.score then [s[0]] + Insert(x, s[1..])
    else [x] + s
  }

  /** `sorted(items, key=score, reverse=True)`: entries inserted in their
      original order. */
  function SortDesc(xs: seq<Entry>): seq<Entry> {
    if xs == [] then [] else Insert(xs[|xs| - 1], SortDesc(xs[..|xs| - 1]))
  }

  /** A Python slice `s[:k]`. */
  function SliceTo(s: seq<Entry>, k: int): seq<Entry> {
    if k >= |s| then s
    else if k >= 0 then s[..k]
    else if |s| + k >= 0 then s[..|s| + k]
    else []
  }

  /** `best_vibes(results, top_k)`. */
  function BestVibes(results: seq<Entry>, topK: int): seq<Entry> {
    SliceTo(SortDesc(results), topK)
  }

  /** The reference for the winner: scan left to right and keep the first
      entry whose score is strictly higher than everything before it. */
  function FirstBest(xs: seq<Entry>): Entry
    requires xs != []
  {
    if |xs| == 1 then xs[0]
    else
      var b := FirstBest(xs[..|xs| - 1]);
      if xs[|xs| - 1].1.score > b.1.score then xs[|xs| - 1] else b
  }

  lemma {:induction false} InsertPermutation(x: Entry, s: seq<Entry>)
    ensures multiset(Insert(x, s)) == multiset(s) + multiset{x}
  {
    if s != [] && s[0].1.score >= x.1.score {
      InsertPermutation(x, s[1..]);
      assert s == [s[0]] + s[1..];
    }
  }

  lemma {:induction false} InsertSortedPermutation(x: Entry, s: seq<Entry>)
    requires SortedDesc(s)
    ensures SortedDesc(Insert(x, s))
    ensures multiset(Insert(x, s)) == multiset(s) + multiset{x}
  {
    InsertPermutation(x, s);
    if s != [] && s[0].1.score >= x.1.score {
      var t := Insert(x, s[1..]);
      InsertSortedPermutation(x, s[1..]);
      forall k | 0 <= k < |t|
        ensures s[0].1.score >= t[k].1.score
      {
        HeadBoundsInserted(x, s, t[k]);
      }
    }
  }

  lemma HeadBoundsInserted(x: Entry, s: seq<Entry>, y: Entry)
    requires SortedDesc(s) && s != [] && s[0].1.score >= x.1.score
    requires y in multiset(Insert(x, s[1..]))
    ensures s[0].1.score >= y.1.score
  {
    InsertPermutation(x, s[1..]);
    if y != x {
      assert y in multiset(s[1..]);
      var m :| 0 <= m < |s[1..]| && s[1..][m] == y;
      assert s[m + 1] == y;
    }
  }

  lemma {:induction false} SortDescSortedPermutation(xs: seq<Entry>)
    ensures SortedDesc(SortDesc(xs))
    ensures multiset(SortDesc(xs)) == multiset(xs)
  {
    SortDescSorted(xs);
    SortDescPermutation(xs);
  }

  lemma {:induction false} SortDescSorted(xs: seq<Entry>)
    ensures SortedDesc(SortDesc(xs))
  {
    if xs != [] {
      var p := xs[..|xs| - 1];
      SortDescSorted(p);
      InsertSortedPermutation(xs[|xs| - 1], SortDesc(p));
    }
  }

  lemma {:induction false} SortDescPermutation(xs: seq<Entry>)
    ensures multiset(SortDesc(xs)) == multiset(xs)
  {
    if xs != [] {
      var p, x := xs[..|xs| - 1], xs[|xs| - 1];
      SortDescPermutation(p);
      InsertPermutation(x, SortDesc(p));
      assert xs == p + [x];
      assert multiset(xs) == multiset(p) + multiset{x};
    }
  }

  lemma {:induction false} InsertHead(x: Entry, s: seq<Entry>)
    ensures Insert(x, s) != []
    ensures s != [] && s[0].1.score >= x.1.score ==> Insert(x, s)[0] == s[0]
    ensures s == [] || s[0].1.score < x.1.score ==> Insert(x, s)[0] == x
  {
  }

  /** The sort's head is the reference winner: on a tie the vibe that came
      first in the results wins. */
  lemma {:induction false} SortedHeadIsFirstBest(xs: seq<Entry>)
    requires xs != []
    ensures SortDesc(xs) != [] && SortDesc(xs)[0] == FirstBest(xs)
  {
    var p := xs[..|xs| - 1];
    InsertHead(xs[|xs| - 1], SortDesc(p));
    if |xs| > 1 {
      SortedHeadIsFirstBest(p);
    } else {
      assert p == [];
    }
  }

  /** The reference winner is one of the entries and scores at least as
      much as every entry. */
  lemma {:induction false} FirstBestIsMaximum(xs: seq<Entry>)
    requires xs != []
    ensures FirstBest(xs) in xs
    ensures forall k :: 0 <= k < |xs| ==> xs[k].1.score <= FirstBest(xs).1.score
  {
    if |xs| > 1 {
      var p := xs[..|xs| - 1];
      FirstBestIsMaximum(p);
      forall k | 0 <= k < |xs| - 1
        ensures xs[k].1.score <= FirstBest(xs).1.score
      {
        assert xs[k] == p[k];
      }
    }
  }

  /** The reference winner is the first entry with the maximum score. */
  lemma {:induction false} FirstBestIsFirstMaximum(xs: seq<Entry>, i: nat)
    requires i < |xs|
    requires forall k :: 0 <= k < |xs| ==> xs[k].1.score <= xs[i].1.score
    requires forall k :: 0 <= k < i ==> xs[k].1.score < xs[i].1.score
    ensures FirstBest(xs) == xs[i]
  {
    if |xs| > 1 {
      var p := xs[..|xs| - 1];
      if i == |xs| - 1 {
        FirstBestIsMaximum(p);
        var m :| 0 <= m < |p| && p[m] == FirstBest(p);
        assert xs[m] == p[m];
      } else {
        FirstBestIsFirstMaximum(p, i);
      }
    }
  }

  /** The entries of `s` scoring exactly `c`, in their order in `s`. */
  function WithScore(s: seq<Entry>, c: real): seq<Entry> {
    if s == [] then [] else (if s[0].1.score == c then [s[0]] else []) + WithScore(s[1..], c)
  }

  lemma {:induction false} WithScoreAppend(a: seq<Entry>, b: seq<Entry>, c: real)
    ensures WithScore(a + b, c) == WithScore(a, c) + WithScore(b, c)
  {
    if a == [] {
      assert a + b == b;
    } else {
      assert (a + b)[0] == a[0] && (a + b)[1..] == a[1..] + b;
      WithScoreAppend(a[1..], b, c);
    }
  }

  lemma {:induction false} WithScoreNone(s: seq<Entry>, c: real)
    requires forall k :: 0 <= k < |s| ==> s[k].1.score < c
    ensures WithScore(s, c) == []
  {
    if s != [] {
      WithScoreNone(s[1..], c);
    }
  }

  /** Inserting into a sorted list puts `x` after every entry of its own
      score. */
  lemma {:induction false} InsertStable(x: Entry, s: seq<Entry>, c: real)
    requires SortedDesc(s)
    ensures WithScore(Insert(x, s), c) == WithScore(s, c) + WithScore([x], c)
  {
    if s == [] {
    } else if s[0].1.score >= x.1.score {
      InsertStable(x, s[1..], c);
      WithScoreAppend([s[0]], Insert(x, s[1..]), c);
      WithScoreAppend([s[0]], s[1..], c);
      assert [s[0]] + s[1..] == s;
    } else {
      WithScoreAppend([x], s, c);
      if x.1.score == c {
        WithScoreNone(s, c);
      }
    }
  }

  /** The sort is stable: the entries of any one score come out in the
      order they went in. */
  lemma {:induction false} SortDescStable(xs: seq<Entry>, c: real)
    ensures WithScore(SortDesc(xs), c) == WithScore(xs, c)
  {
    if xs != [] {
      var p, x := xs[..|xs| - 1], xs[|xs| - 1];
      SortDescStable(p, c);
      SortDescSorted(p);
      InsertStable(x, SortDesc(p), c);
      assert xs == p + [x];
      WithScoreAppend(p, [x], c);
    }
  }

  /** Among entries of equal score, `best_vibes` keeps the earliest ones of
      the results. */
  lemma BestVibesKeepsTieOrder(results: seq<Entry>, topK: int, c: real)
    ensures var kept := WithScore(BestVibes(results, topK), c);
      |kept| <= |WithScore(results, c)| && WithScore(results, c)[..|kept|] == kept
  {
    var s := SortDesc(results);
    var b := BestVibes(results, topK);
    SortDescStable(results, c);
    assert s == b + s[|b|..];
    WithScoreAppend(b, s[|b|..], c);
  }

  /** A prefix of a sorted list holds its highest scores: nothing left
      behind scores more than anything kept. */
  lemma SortedPrefixKeepsHighest(s: seq<Entry>, n: nat)
    requires SortedDesc(s) && n <= |s|
    ensures forall e, i | e in multiset(s) - multiset(s[..n]) && 0 <= i < n :: e.1.score <= s[i].1.score
  {
    var b, rest := s[..n], s[n..];
    assert s == b + rest;
    assert multiset(s) == multiset(b) + multiset(rest);
    forall e, i | e in multiset(s) - multiset(b) && 0 <= i < n
      ensures e.1.score <= s[i].1.score
    {
      assert e in multiset(rest);
      var j :| 0 <= j < |rest| && rest[j] == e;
      assert s[n + j] == e;
    }
  }

  /** Whatever `best_vibes` leaves out scores no more than anything it
      keeps. */
  lemma BestVibesKeepsHighest(results: seq<Entry>, topK: int)
    ensures forall e, i | e in multiset(results) - multiset(BestVibes(results, topK)) && 0 <= i < |BestVibes(results, topK)| ::
              e.1.score <= BestVibes(results, topK)[i].1.score
  {
    var s := SortDesc(results);
    SortDescSortedPermutation(results);
    var b := BestVibes(results, topK);
    assert |b| <= |s| && b == s[..|b|];
    SortedPrefixKeepsHighest(s, |b|);
  }

  /** `best_vibes` returns the highest scores first, drawn from the results
      without loss or duplication, `top_k` of them (all when fewer), and
      its first entry is the first vibe with the top score. */
  lemma BestVibesSpec(results: seq<Entry>, topK: int)
    ensures SortedDesc(BestVibes(results, topK))
    ensures multiset(BestVibes(results, topK)) <= multiset(results)
    ensures 0 <= topK ==> |BestVibes(results, topK)| == if topK <= |results| then topK else |results|
    ensures topK == |results| ==> multiset(BestVibes(results, topK)) == multiset(results)
    ensures results != [] && topK >= 1 ==> BestVibes(results, topK)[0] == FirstBest(results)
    ensures forall e, i | e in multiset(results) - multiset(BestVibes(results, topK)) && 0 <= i < |BestVibes(results, topK)| ::
              e.1.score <= BestVibes(results, topK)[i].1.score
  {
    var s := SortDesc(results);
    SortDescSortedPermutation(results);
    var b := BestVibes(results, topK);
    assert |s| == |results| by {
      assert |multiset(s)| == |multiset(results)|;
    }
    if b != s {
      assert s == b + s[|b|..];
      assert multiset(s) == multiset(b) + multiset(s[|b|..]);
    }
    BestVibesKeepsHighest(results, topK);
    if results != [] && topK >= 1 {
      SortedHeadIsFirstBest(results);
    }
  }

  // ---------------------------------------------------------------------
  // Strings for the narrative

  /** `sep.join(parts)`. */
  function Join(sep: string, parts: seq<string>): string {
    if parts == [] then ""
    else if |parts| == 1 then parts[0]
    else parts[0] + sep + Join(sep, parts[1..])
  }

  lemma {:induction false} JoinStartsWithFirst(sep: string, parts: seq<string>)
    requires parts != []
    ensures parts[0] <= Join(sep, parts)
  {
  }

  lemma {:induction false} JoinEndsWithLast(sep: string, parts: seq<string>)
    requires parts != []
    ensures var j, l := Join(sep, parts), parts[|parts| - 1];
      |l| <= |j| && j[|j| - |l|..] == l
  {
    if |parts| > 1 {
      JoinEndsWithLast(sep, parts[1..]);
      var rest := Join(sep, parts[1..]);
      var l := parts[|parts| - 1];
      assert parts[1..][|parts[1..]| - 1] == l;
      var j := parts[0] + sep + rest;
      assert j[|j| - |l|..] == rest[|rest| - |l|..];
    }
  }

  function DigitChar(d: nat): char
    requires d < 10
  {
    "0123456789"[d]
  }

  predicate IsDigit(c: char) {
    '0' <= c <= '9'
  }

  /** Decimal digits of a natural number, most significant first. */
  function NatToString(n: nat): string {
    if n < 10 then [DigitChar(n)] else NatToString(n / 10) + [DigitChar(n % 10)]
  }

  /** `str(n)` of a Python int. */
  function IntToString(i: int): string {
    if i < 0 then "-" + NatToString(-i) else NatToString(i)
  }

  /** The number a string of decimal digits denotes. */
  function DigitsValue(s: string): int
    requires forall k :: 0 <= k < |s| ==> IsDigit(s[k])
  {
    if s == [] then 0 else DigitsValue(s[..|s| - 1]) * 10 + (s[|s| - 1] as int - '0' as int)
  }

  /** Printing a natural number gives digits that read back as the number,
      with no leading zero. */
  lemma {:induction false} NatToStringReadsBack(n: nat)
    ensures var s := NatToString(n);
      && 1 <= |s| && (forall k :: 0 <= k < |s| ==> IsDigit(s[k]))
      && DigitsValue(s) == n
      && (|s| > 1 ==> s[0] != '0')
  {
    if n < 10 {
      DigitCharValue(n);
    } else {
      NatToStringReadsBack(n / 10);
      DigitCharValue(n % 10);
      var s, t := NatToString(n), NatToString(n / 10);
      assert s == t + [DigitChar(n % 10)];
      assert s[..|s| - 1] == t;
      assert DigitsValue(s) == DigitsValue(t) * 10 + n % 10;
    }
  }

  lemma DigitCharValue(d: nat)
    requires d < 10
    ensures IsDigit(DigitChar(d)) && DigitChar(d) as int - '0' as int == d
    ensures d != 0 ==> DigitChar(d) != '0'
  {
  }

  // ---------------------------------------------------------------------
  // narrative_one_liner

  /** The driver phrase list, or "solid fundamentals" when there is none. */
  function DriverText(drivers: seq<string>): string {
    if |drivers| > 0 then Join(", ", drivers) else "solid fundamentals"
  }

  function Headline(shopName: string, vibe: string, drivers: seq<string>): string {
    "**" + shopName + "** is strong for **" + vibe + "** thanks to " + DriverText(drivers) + "."
  }

  /** `walk_time_min and poi_names`: a non-zero walk time and a non-empty
      list of places. */
  predicate WantsWalkSentence(walkTimeMin: Option<int>, poiNames: Option<seq<string>>) {
    walkTimeMin.Some? && walkTimeMin.value != 0 && poiNames.Some? && |poiNames.value| > 0
  }

  function FirstTwo(names: seq<string>): seq<string> {
    if |names| <= 2 then names else names[..2]
  }

  function WalkSentence(walkTimeMin: int, poiNames: seq<string>): string {
    "It\U{2019}s about a " + IntToString(walkTimeMin) + "-min walk to " + Join(" and ", FirstTwo(poiNames)) + "."
  }

  /** `late_days_str and 'open late' not in drivers`. */
  predicate WantsLateSentence(lateDays: Option<string>, drivers: seq<string>) {
    lateDays.Some? && |lateDays.value| > 0 && "open late" !in drivers
  }

  function ConfidenceSentence(c: Confidence): string {
    "Data confidence: " + c.Name() + "."
  }

  /** The sentences of the narrative about the top vibe `top`. */
  function NarrativeBits(shopName: string, top: Entry, walkTimeMin: Option<int>,
                         poiNames: Option<seq<string>>, lateDays: Option<string>): seq<string>
  {
    [Headline(shopName, top.0, top.1.drivers)]
    + (if WantsWalkSentence(walkTimeMin, poiNames) then [WalkSentence(walkTimeMin.value, poiNames.value)] else [])
    + (if WantsLateSentence(lateDays, top.1.drivers) then ["Open late " + lateDays.value + "."] else [])
    + [ConfidenceSentence(top.1.confidence)]
  }

  function Narrative(shopName: string, results: seq<Entry>, walkTimeMin: Option<int>,
                     poiNames: Option<seq<string>>, lateDays: Option<string>): string
    requires results != []
  {
    SortedHeadIsFirstBest(results);
    Join(" ", NarrativeBits(shopName, BestVibes(results, 1)[0], walkTimeMin, poiNames, lateDays))
  }

  /** `narrative_one_liner(...)`: the sentences appended one by one, then
      joined with spaces. */
  method NarrativeOneLiner(shopName: string, results: seq<Entry>, walkTimeMin: Option<int>,
                           poiNames: Option<seq<string>>, lateDays: Option<string>) returns (text: string)
    requires results != []
    ensures text == Narrative(shopName, results, walkTimeMin, poiNames, lateDays)
  {
    SortedHeadIsFirstBest(results);
    var top := BestVibes(results, 1)[0];
    var vibe, vr := top.0, top.1;
    var drivers := if |vr.drivers| > 0 then Join(", ", vr.drivers) else "solid fundamentals";
    var bits := ["**" + shopName + "** is strong for **" + vibe + "** thanks to " + drivers + "."];
    if walkTimeMin.Some? && walkTimeMin.value != 0 && poiNames.Some? && |poiNames.value| > 0 {
      bits := bits + ["It\U{2019}s about a " + IntToString(walkTimeMin.value) + "-min walk to "
                      + Join(" and ", FirstTwo(poiNames.value)) + "."];
    }
    if lateDays.Some? && |lateDays.value| > 0 && "open late" !in vr.drivers {
      bits := bits + ["Open late " + lateDays.value + "."];
    }
    bits := bits + ["Data confidence: " + vr.confidence.Name() + "."];
    assert bits == NarrativeBits(shopName, top, walkTimeMin, poiNames, lateDays);
    text := Join(" ", bits);
  }

  /** The narrative opens with the headline about the first top-scoring
      vibe and closes with the confidence sentence; between them stand the
      walk sentence and the late sentence, each exactly when wanted. */
  lemma NarrativeShape(shopName: string, results: seq<Entry>, walkTimeMin: Option<int>,
                       poiNames: Option<seq<string>>, lateDays: Option<string>)
    requires results != []
    ensures var top := FirstBest(results);
      var bits := NarrativeBits(shopName, top, walkTimeMin, poiNames, lateDays);
      var text := Narrative(shopName, results, walkTimeMin, poiNames, lateDays);
      && Headline(shopName, top.0, top.1.drivers) <= text
      && (var last := ConfidenceSentence(top.1.confidence);
          |last| <= |text| && text[|text| - |last|..] == last)
      && |bits| == 2 + (if WantsWalkSentence(walkTimeMin, poiNames) then 1 else 0)
                     + (if WantsLateSentence(lateDays, top.1.drivers) then 1 else 0)
      && (WantsWalkSentence(walkTimeMin, poiNames) ==> bits[1] == WalkSentence(walkTimeMin.value, poiNames.value))
      && (WantsLateSentence(lateDays, top.1.drivers) ==> bits[|bits| - 2] == "Open late " + lateDays.value + ".")
  {
    BestVibesSpec(results, 1);
    var top := FirstBest(results);
    var bits := NarrativeBits(shopName, top, walkTimeMin, poiNames, lateDays);
    JoinStartsWithFirst(" ", bits);
    JoinEndsWithLast(" ", bits);
  }

  /** The walk sentence names at most two places, the first two given. */
  lemma WalkSentenceNamesAtMostTwo(names: seq<string>)
    ensures |FirstTwo(names)| <= 2
    ensures FirstTwo(names) == names[..|FirstTwo(names)|]
    ensures |names| >= 2 ==> |FirstTwo(names)| == 2
  {
  }
}
