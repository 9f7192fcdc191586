// The "About Ratings" page: the published rubric of every vibe, the
// per-attribute strengths it shows for one shop, each attribute's weighted
// contribution, and the what-if comparison of two versions of a shop.
// The page re-derives the strengths itself instead of calling the scorers,
// so the lemmas here say where it agrees with them and where it does not.

module AboutRatings {
  import opened Values
  import opened Normalizers
  import opened Hours
  import opened Combining
  import opened Vibes
  import opened Orchestration

  /** A labelled column: attribute label to a number, in display order. */
  type Table = seq<(string, real)>

  function Labels<T>(t: seq<(string, T)>): seq<string> {
    seq(|t|, i requires 0 <= i < |t| => t[i].0)
  }

  function Figures(t: Table): seq<real> {
    seq(|t|, i requires 0 <= i < |t| => t[i].1)
  }

  // ---------------------------------------------------------------------
  // VIBE_WEIGHTS

  const WorkRubric: Table :=
    [("Wi-Fi quality", 0.22), ("Outlets availability", 0.18), ("Lower noise", 0.15),
     ("Seating capacity", 0.12), ("Restroom access", 0.10), ("Open late", 0.10),
     ("Cleanliness", 0.08), ("Parking", 0.05)]

  const AestheticRubric: Table :=
    [("Aesthetic score", 0.40), ("Natural light", 0.20), ("Latte art / presentation", 0.15),
     ("Cleanliness", 0.10), ("Unique decor", 0.10), ("Desserts", 0.05)]

  const GrabRubric: Table :=
    [("Speed (mobile/drive-thru/peak)", 0.35), ("Parking", 0.25), ("Opens early", 0.15),
     ("Mobile order", 0.15), ("Drive-through", 0.10)]

  const DateRubric: Table :=
    [("Ambience (lighting/comfort/mid-noise)", 0.25), ("Desserts", 0.20), ("Open late", 0.18),
     ("Aesthetic score", 0.15), ("Walkable things nearby", 0.12), ("Cleanliness", 0.10)]

  const DietaryRubric: Table :=
    [("Gluten-free options", 0.40), ("Dairy-free milks", 0.28), ("Nut-free choices", 0.12),
     ("Ingredient transparency", 0.10), ("Cleanliness", 0.10)]

  const StudyRubric: Table :=
    [("Outlets availability", 0.28), ("Seating capacity", 0.22), ("Wi-Fi quality", 0.18),
     ("Budget-friendliness", 0.12), ("Open late", 0.10), ("Lower noise", 0.10)]

  const FamilyRubric: Table :=
    [("Roomy layout / space", 0.30), ("Restroom access", 0.20), ("Parking", 0.18),
     ("Mid-noise tolerance", 0.15), ("Kids snacks / treats", 0.10), ("Park nearby", 0.07)]

  /** `VIBE_WEIGHTS`, in the page's order. */
  const VibeWeights: seq<(string, Table)> :=
    [("Work-Friendly", WorkRubric), ("Aesthetic", AestheticRubric), ("Grab-and-Go", GrabRubric),
     ("Date-Night", DateRubric), ("Dietary-Friendly", DietaryRubric), ("Study-Spot", StudyRubric),
     ("Family-Friendly", FamilyRubric)]

  /** A dict lookup: the value under the first entry with key `k`. */
  function Lookup<T>(t: seq<(string, T)>, k: string): Option<T> {
    if t == [] then None else if t[0].0 == k then Some(t[0].1) else Lookup(t[1..], k)
  }

  lemma {:induction false} LookupFound<T>(t: seq<(string, T)>, k: string)
    ensures Lookup(t, k).Some? ==> exists i | 0 <= i < |t| :: t[i] == (k, Lookup(t, k).value)
  {
    if t != [] && t[0].0 != k {
      LookupFound(t[1..], k);
      if Lookup(t, k).Some? {
        var i :| 0 <= i < |t[1..]| && t[1..][i] == (k, Lookup(t, k).value);
        assert t[i + 1] == (k, Lookup(t, k).value);
      }
    }
  }

  /** `VIBE_WEIGHTS.get(vibe)`. */
  function RubricOf(vibe: string): Option<Table> {
    Lookup(VibeWeights, vibe)
  }

  /** No label repeats. */
  predicate Distinct(xs: seq<string>) {
    xs == [] || (xs[0] !in xs[1..] && Distinct(xs[1..]))
  }

  /** Length and first character: strings that differ here differ. */
  function Key(x: string): (int, char) {
    (|x|, if x == [] then ' ' else x[0])
  }

  lemma {:induction false} DistinctByKey(xs: seq<string>)
    requires forall i, j | 0 <= i < j < |xs| :: Key(xs[i]) != Key(xs[j])
    ensures Distinct(xs)
  {
    if xs != [] {
      DistinctByKey(xs[1..]);
      forall k | 0 <= k < |xs| - 1 ensures xs[1..][k] != xs[0] {
        assert Key(xs[0]) != Key(xs[k + 1]);
      }
    }
  }

  predicate AllPositive(ws: seq<real>) {
    ws == [] || (ws[0] > 0.0 && AllPositive(ws[1..]))
  }

  /** A rubric is a distribution over distinct attributes, in whole
      tenths of a percent. */
  predicate IsDistribution(t: Table) {
    Distinct(Labels(t)) && AllPositive(Figures(t)) && TenthsOfPercent(Figures(t)) && PositiveSum(Figures(t)) == 1.0
  }

  /** Every published rubric has distinct labels and positive weights that
      add up to exactly one, and the page lists the vibes under the names
      and in the order the engine computes them. */
  lemma RubricsAreDistributions()
    ensures Labels(VibeWeights) == VibeNames
    ensures forall i | 0 <= i < |VibeWeights| :: IsDistribution(VibeWeights[i].1)
  {
    assert Labels(VibeWeights) == VibeNames;
    forall i | 0 <= i < |VibeWeights| ensures IsDistribution(VibeWeights[i].1) {
      if i == 0 { WorkRubricIsDistribution(); }
      else if i == 1 { AestheticRubricIsDistribution(); }
      else if i == 2 { GrabRubricIsDistribution(); }
      else if i == 3 { DateRubricIsDistribution(); }
      else if i == 4 { DietaryRubricIsDistribution(); }
      else if i == 5 { StudyRubricIsDistribution(); }
      else { FamilyRubricIsDistribution(); }
    }
  }

  lemma WorkRubricIsDistribution() ensures IsDistribution(WorkRubric) {
    WorkLabelsDistinct();
    assert Figures(WorkRubric) == [0.22, 0.18, 0.15, 0.12, 0.10, 0.10, 0.08, 0.05];
    assert PositiveSum([0.22, 0.18, 0.15, 0.12, 0.10, 0.10, 0.08, 0.05]) == 1.0;
    TenthsOfPercentOf([0.22, 0.18, 0.15, 0.12, 0.10, 0.10, 0.08, 0.05], [22, 18, 15, 12, 10, 10, 8, 5]);
  }

  lemma WorkLabelsDistinct() ensures Distinct(Labels(WorkRubric)) {
    var ls := ["Wi-Fi quality", "Outlets availability", "Lower noise", "Seating capacity", "Restroom access",
               "Open late", "Cleanliness", "Parking"];
    assert Labels(WorkRubric) == ls;
    DistinctByKey(ls);
  }

  lemma AestheticRubricIsDistribution() ensures IsDistribution(AestheticRubric) {
    AestheticLabelsDistinct();
    assert Figures(AestheticRubric) == [0.40, 0.20, 0.15, 0.10, 0.10, 0.05];
    assert PositiveSum([0.40, 0.20, 0.15, 0.10, 0.10, 0.05]) == 1.0;
    TenthsOfPercentOf([0.40, 0.20, 0.15, 0.10, 0.10, 0.05], [40, 20, 15, 10, 10, 5]);
  }

  lemma AestheticLabelsDistinct() ensures Distinct(Labels(AestheticRubric)) {
    var ls := ["Aesthetic score", "Natural light", "Latte art / presentation",
               "Cleanliness", "Unique decor", "Desserts"];
    assert Labels(AestheticRubric) == ls;
    DistinctByKey(ls);
  }

  lemma GrabRubricIsDistribution() ensures IsDistribution(GrabRubric) {
    GrabLabelsDistinct();
    assert Figures(GrabRubric) == [0.35, 0.25, 0.15, 0.15, 0.10];
    assert PositiveSum([0.35, 0.25, 0.15, 0.15, 0.10]) == 1.0;
    TenthsOfPercentOf([0.35, 0.25, 0.15, 0.15, 0.10], [35, 25, 15, 15, 10]);
  }

  lemma GrabLabelsDistinct() ensures Distinct(Labels(GrabRubric)) {
    var ls := ["Speed (mobile/drive-thru/peak)", "Parking", "Opens early", "Mobile order", "Drive-through"];
    assert Labels(GrabRubric) == ls;
    DistinctByKey(ls);
  }

  lemma DateRubricIsDistribution() ensures IsDistribution(DateRubric) {
    DateLabelsDistinct();
    assert Figures(DateRubric) == [0.25, 0.20, 0.18, 0.15, 0.12, 0.10];
    assert PositiveSum([0.25, 0.20, 0.18, 0.15, 0.12, 0.10]) == 1.0;
    TenthsOfPercentOf([0.25, 0.20, 0.18, 0.15, 0.12, 0.10], [25, 20, 18, 15, 12, 10]);
  }

  lemma DateLabelsDistinct() ensures Distinct(Labels(DateRubric)) {
    var ls := ["Ambience (lighting/comfort/mid-noise)", "Desserts", "Open late",
               "Aesthetic score", "Walkable things nearby", "Cleanliness"];
    assert Labels(DateRubric) == ls;
    DistinctByKey(ls);
  }

  lemma DietaryRubricIsDistribution() ensures IsDistribution(DietaryRubric) {
    DietaryLabelsDistinct();
    assert Figures(DietaryRubric) == [0.40, 0.28, 0.12, 0.10, 0.10];
    assert PositiveSum([0.40, 0.28, 0.12, 0.10, 0.10]) == 1.0;
    TenthsOfPercentOf([0.40, 0.28, 0.12, 0.10, 0.10], [40, 28, 12, 10, 10]);
  }

  lemma DietaryLabelsDistinct() ensures Distinct(Labels(DietaryRubric)) {
    var ls := ["Gluten-free options", "Dairy-free milks",
               "Nut-free choices", "Ingredient transparency", "Cleanliness"];
    assert Labels(DietaryRubric) == ls;
    DistinctByKey(ls);
  }

  lemma StudyRubricIsDistribution() ensures IsDistribution(StudyRubric) {
    StudyLabelsDistinct();
    assert Figures(StudyRubric) == [0.28, 0.22, 0.18, 0.12, 0.10, 0.10];
    assert PositiveSum([0.28, 0.22, 0.18, 0.12, 0.10, 0.10]) == 1.0;
    TenthsOfPercentOf([0.28, 0.22, 0.18, 0.12, 0.10, 0.10], [28, 22, 18, 12, 10, 10]);
  }

  lemma StudyLabelsDistinct() ensures Distinct(Labels(StudyRubric)) {
    var ls := ["Outlets availability", "Seating capacity", "Wi-Fi quality",
               "Budget-friendliness", "Open late", "Lower noise"];
    assert Labels(StudyRubric) == ls;
    DistinctByKey(ls);
  }

  lemma FamilyRubricIsDistribution() ensures IsDistribution(FamilyRubric) {
    FamilyLabelsDistinct();
    assert Figures(FamilyRubric) == [0.30, 0.20, 0.18, 0.15, 0.10, 0.07];
    assert PositiveSum([0.30, 0.20, 0.18, 0.15, 0.10, 0.07]) == 1.0;
    TenthsOfPercentOf([0.30, 0.20, 0.18, 0.15, 0.10, 0.07], [30, 20, 18, 15, 10, 7]);
  }

  lemma FamilyLabelsDistinct() ensures Distinct(Labels(FamilyRubric)) {
    var ls := ["Roomy layout / space", "Restroom access", "Parking",
               "Mid-noise tolerance", "Kids snacks / treats", "Park nearby"];
    assert Labels(FamilyRubric) == ls;
    DistinctByKey(ls);
  }

  // ---------------------------------------------------------------------
  // clamp01 and norm_nearby

  /** `norm_nearby(n, cap)`: a count over its cap, clamped; `None` when the
      count is missing or the division fails. */
  function NormNearby(n: Option<real>, cap: real): (o: Option<real>)
    ensures o.None? <==> n.None? || cap == 0.0
    ensures o.Some? ==> 0.0 <= o.value <= 1.0
    ensures o.Some? && 0.0 < cap <= n.value ==> o.value == 1.0
  {
    if n.None? || cap == 0.0 then None else Some(Clamp(n.value / cap))
  }

  /** With its default cap of 5 the page normalises a count exactly as the
      engine does before handing it to Date-Night and Family-Friendly. */
  lemma NormNearbyAgreesWithEngine(count: Option<int>)
    ensures NormNearby(if count.Some? then Some(count.value as real) else None, 5.0) == ProximityNorm(count)
  {
  }

  // ---------------------------------------------------------------------
  // attr_strengths

  /** The last step of `attr_strengths`: `None` shows as 0, anything else
      clamped to [0, 1]. */
  function Shown(o: Option<real>): (x: real)
    ensures 0.0 <= x <= 1.0
    ensures o.None? ==> x == 0.0
    ensures o.Some? && 0.0 <= o.value <= 1.0 ==> x == o.value
  {
    if o.None? then 0.0 else Clamp(o.value)
  }

  /** The hours-based strengths of the page: the share itself when the hours
      are a dict (possibly `None`), 0.4 for anything else. */
  function HoursShown(h: Value, share: Option<real>): Option<real> {
    if h.Dict? then share else Some(0.4)
  }

  /** The dairy-free strength as the page writes it: only `None` reads as
      missing, so a NaN cell goes through `clamp01`, where Python's `min`
      and `max` keep their first argument against NaN and yield 1.0. */
  function DairyShownAsWritten(v: Value): (x: real)
    requires v.IsScalar()
    ensures 0.0 <= x <= 1.0
    ensures v.NaN? ==> x == 1.0
  {
    if v.Null? then 0.0 else if v.NaN? then 1.0 else Clamp(ToReal(v) / 3.0)
  }

  /** The dairy-free strength with NaN read as missing, which is what the
      engine's dairy-free transform does. */
  function DairyShown(v: Value): (x: real)
    requires v.IsScalar()
    ensures x == Or(NormDfMilks(v), 0.0)
  {
    if Absent(v) then 0.0 else Clamp(ToReal(v) / 3.0)
  }

  /** The page's dairy-free strength as written and the corrected one
      differ on exactly one kind of cell, a NaN count: 1.0 against 0.0. */
  lemma DairyAsWrittenDiffersOnlyOnNaN(v: Value)
    requires v.IsScalar()
    ensures DairyShownAsWritten(v) == DairyShown(v) <==> !v.NaN?
    ensures v.NaN? ==> DairyShownAsWritten(v) == 1.0 && DairyShown(v) == 0.0
  {
  }

  /** A record with no dairy-free count (a NaN cell) shows dairy-free milks
      at full strength on the page while the engine scores it as none. */
  lemma MissingMilksShownAsFull()
    ensures var r: Shop := map["df_milks" := NaN];
      DairyShownAsWritten(Get(r, "df_milks")) == 1.0 && DairyFree(r) == 0.0 &&
      DairyShown(Get(r, "df_milks")) == DairyFree(r)
  {
  }

  /** The Date-Night ambience of the page: each ingredient defaults to 0.5
      and the three are mixed with fixed weights. */
  function AmbienceShown(r: Shop): real
    requires ScalarOr(r, "lighting_score", "aesthetic_score")
    requires ScalarOr(r, "seating_comfort_score", "aesthetic_score")
    requires ScalarAt(r, "noise_score")
  {
    Or(NormZeroFive(GetOr(r, "lighting_score", Get(r, "aesthetic_score"))), 0.5) * 0.35 +
    Or(NormZeroFive(GetOr(r, "seating_comfort_score", Get(r, "aesthetic_score"))), 0.5) * 0.35 +
    Or(NormMidNoiseBonus(Get(r, "noise_score")), 0.5) * 0.30
  }

  /** The Grab-and-Go speed of the page, with the peak penalty fixed at 0.2. */
  function SpeedShown(r: Shop): real {
    Clamp(0.4 + 0.3 * MobileOrder(r) + 0.3 * DriveThrough(r) - 0.2 * 0.2)
  }

  /** The dict `s` that `attr_strengths` builds before its last step. */
  type Raw = seq<(string, Option<real>)>

  function WorkRaw(r: Shop): Raw requires WorkInputs(r) {
    var h := Get(r, "hours_json");
    [("Wi-Fi quality", Some(Wifi(r))), ("Outlets availability", Some(Outlets(r))),
     ("Lower noise", Some(Quietness(r))), ("Seating capacity", Some(Seating(r))),
     ("Restroom access", Some(Restroom(r))), ("Open late", HoursShown(h, LateShare(h))),
     ("Cleanliness", Some(Cleanliness(r))), ("Parking", Some(Parking(r)))]
  }

  function AestheticRaw(r: Shop): Raw requires AestheticInputs(r) {
    [("Aesthetic score", Some(Aesthetics(r))), ("Natural light", Some(Light(r))),
     ("Latte art / presentation", Some(LatteArt(r))), ("Cleanliness", Some(Cleanliness(r))),
     ("Unique decor", Some(Decor(r))), ("Desserts", Some(Dessert(r)))]
  }

  predicate GrabShownInputs(r: Shop) {
    ScalarAt(r, "parking_score") && WellFormedHours(Get(r, "hours_json"))
  }

  function GrabRaw(r: Shop): Raw requires GrabShownInputs(r) {
    var h := Get(r, "hours_json");
    [("Speed (mobile/drive-thru/peak)", Some(SpeedShown(r))), ("Parking", Some(Parking(r))),
     ("Opens early", HoursShown(h, EarlyShare(h))), ("Mobile order", Some(MobileOrder(r))),
     ("Drive-through", Some(DriveThrough(r)))]
  }

  predicate DateShownInputs(r: Shop) {
    ScalarOr(r, "lighting_score", "aesthetic_score") && ScalarOr(r, "seating_comfort_score", "aesthetic_score") &&
    ScalarAt(r, "noise_score") && ScalarAt(r, "dessert_score") && ScalarAt(r, "aesthetic_score") &&
    ScalarAt(r, "cleanliness_score") && WellFormedHours(Get(r, "hours_json"))
  }

  function DateRaw(r: Shop, walkNorm: Option<real>): Raw requires DateShownInputs(r) {
    var h := Get(r, "hours_json");
    [("Ambience (lighting/comfort/mid-noise)", Some(AmbienceShown(r))), ("Desserts", Some(Dessert(r))),
     ("Open late", HoursShown(h, LateShare(h))), ("Aesthetic score", Some(Aesthetics(r))),
     ("Walkable things nearby", walkNorm), ("Cleanliness", Some(Cleanliness(r)))]
  }

  function DietaryRaw(r: Shop): Raw requires DietaryInputs(r) {
    [("Gluten-free options", Some(GlutenFree(r))), ("Dairy-free milks", Some(DairyShown(Get(r, "df_milks")))),
     ("Nut-free choices", Some(NutFree(r))), ("Ingredient transparency", Some(Labelling(r))),
     ("Cleanliness", Some(Cleanliness(r)))]
  }

  function StudyRaw(r: Shop): Raw requires StudyInputs(r) {
    var h := Get(r, "hours_json");
    [("Outlets availability", Some(Outlets(r))), ("Seating capacity", Some(Seating(r))),
     ("Wi-Fi quality", Some(Wifi(r))), ("Budget-friendliness", Some(Price(r))),
     ("Open late", HoursShown(h, LateShare(h))), ("Lower noise", Some(Quietness(r)))]
  }

  predicate FamilyShownInputs(r: Shop) {
    ScalarOr(r, "space_score", "seating_comfort_score") && ScalarAt(r, "parking_score") &&
    ScalarAt(r, "noise_score") && ScalarOr(r, "kids_snacks_score", "dessert_score")
  }

  function FamilyRaw(r: Shop, parksNorm: Option<real>): Raw requires FamilyShownInputs(r) {
    [("Roomy layout / space", Some(Space(r))), ("Restroom access", Some(Restroom(r))),
     ("Parking", Some(Parking(r))), ("Mid-noise tolerance", Some(NoiseTolerance(r))),
     ("Kids snacks / treats", Some(KidsSnacks(r))), ("Park nearby", parksNorm)]
  }

  /** What each branch of `attr_strengths` reads with `float()`. */
  predicate AboutInputs(vibe: string, r: Shop) {
    if vibe == "Work-Friendly" then WorkInputs(r)
    else if vibe == "Aesthetic" then AestheticInputs(r)
    else if vibe == "Grab-and-Go" then GrabShownInputs(r)
    else if vibe == "Date-Night" then DateShownInputs(r)
    else if vibe == "Dietary-Friendly" then DietaryInputs(r)
    else if vibe == "Study-Spot" then StudyInputs(r)
    else if vibe == "Family-Friendly" then FamilyShownInputs(r)
    else true
  }

  function RawStrengths(vibe: string, r: Shop, walkNorm: Option<real>, parksNorm: Option<real>): Raw
    requires AboutInputs(vibe, r)
  {
    if vibe == "Work-Friendly" then WorkRaw(r)
    else if vibe == "Aesthetic" then AestheticRaw(r)
    else if vibe == "Grab-and-Go" then GrabRaw(r)
    else if vibe == "Date-Night" then DateRaw(r, walkNorm)
    else if vibe == "Dietary-Friendly" then DietaryRaw(r)
    else if vibe == "Study-Spot" then StudyRaw(r)
    else if vibe == "Family-Friendly" then FamilyRaw(r, parksNorm)
    else []
  }

  /** The final comprehension of `attr_strengths`. */
  function Display(raw: Raw): Table {
    seq(|raw|, i requires 0 <= i < |raw| => (raw[i].0, Shown(raw[i].1)))
  }

  /** `attr_strengths(vibe, r, walk_norm, parks_norm)`: every strength it
      reports lies in [0, 1], whatever the record holds. */
  function AttrStrengths(vibe: string, r: Shop, walkNorm: Option<real>, parksNorm: Option<real>): (s: Table)
    requires AboutInputs(vibe, r)
    ensures forall i | 0 <= i < |s| :: 0.0 <= s[i].1 <= 1.0
  {
    Display(RawStrengths(vibe, r, walkNorm, parksNorm))
  }

  lemma RubricOfVibe(vibe: string)
    ensures RubricOf(vibe) ==
      if vibe == "Work-Friendly" then Some(WorkRubric)
      else if vibe == "Aesthetic" then Some(AestheticRubric)
      else if vibe == "Grab-and-Go" then Some(GrabRubric)
      else if vibe == "Date-Night" then Some(DateRubric)
      else if vibe == "Dietary-Friendly" then Some(DietaryRubric)
      else if vibe == "Study-Spot" then Some(StudyRubric)
      else if vibe == "Family-Friendly" then Some(FamilyRubric)
      else None
  {
    assert Lookup([("Family-Friendly", FamilyRubric)], vibe) ==
        if vibe == "Family-Friendly" then Some(FamilyRubric)
        else None;
    assert Lookup([("Study-Spot", StudyRubric), ("Family-Friendly", FamilyRubric)], vibe) ==
        if vibe == "Study-Spot" then Some(StudyRubric)
        else if vibe == "Family-Friendly" then Some(FamilyRubric)
        else None;
    assert Lookup([("Dietary-Friendly", DietaryRubric), ("Study-Spot", StudyRubric),
                   ("Family-Friendly", FamilyRubric)], vibe) ==
        if vibe == "Dietary-Friendly" then Some(DietaryRubric)
        else if vibe == "Study-Spot" then Some(StudyRubric)
        else if vibe == "Family-Friendly" then Some(FamilyRubric)
        else None;
    assert Lookup([("Date-Night", DateRubric), ("Dietary-Friendly", DietaryRubric),
                   ("Study-Spot", StudyRubric), ("Family-Friendly", FamilyRubric)], vibe) ==
        if vibe == "Date-Night" then Some(DateRubric)
        else if vibe == "Dietary-Friendly" then Some(DietaryRubric)
        else if vibe == "Study-Spot" then Some(StudyRubric)
        else if vibe == "Family-Friendly" then Some(FamilyRubric)
        else None;
    assert Lookup([("Grab-and-Go", GrabRubric), ("Date-Night", DateRubric),
                   ("Dietary-Friendly", DietaryRubric), ("Study-Spot", StudyRubric),
                   ("Family-Friendly", FamilyRubric)], vibe) ==
        if vibe == "Grab-and-Go" then Some(GrabRubric)
        else if vibe == "Date-Night" then Some(DateRubric)
        else if vibe == "Dietary-Friendly" then Some(DietaryRubric)
        else if vibe == "Study-Spot" then Some(StudyRubric)
        else if vibe == "Family-Friendly" then Some(FamilyRubric)
        else None;
    assert Lookup([("Aesthetic", AestheticRubric), ("Grab-and-Go", GrabRubric),
                   ("Date-Night", DateRubric), ("Dietary-Friendly", DietaryRubric),
                   ("Study-Spot", StudyRubric), ("Family-Friendly", FamilyRubric)], vibe) ==
        if vibe == "Aesthetic" then Some(AestheticRubric)
        else if vibe == "Grab-and-Go" then Some(GrabRubric)
        else if vibe == "Date-Night" then Some(DateRubric)
        else if vibe == "Dietary-Friendly" then Some(DietaryRubric)
        else if vibe == "Study-Spot" then Some(StudyRubric)
        else if vibe == "Family-Friendly" then Some(FamilyRubric)
        else None;
  }

  /** The strengths come one per rubric attribute, in the rubric's order,
      and there are none for a vibe the page has no rubric for. */
  lemma StrengthsFollowRubric(vibe: string, r: Shop, walkNorm: Option<real>, parksNorm: Option<real>)
    requires AboutInputs(vibe, r)
    ensures RubricOf(vibe).Some? ==> Labels(AttrStrengths(vibe, r, walkNorm, parksNorm)) == Labels(RubricOf(vibe).value)
    ensures RubricOf(vibe).None? ==> AttrStrengths(vibe, r, walkNorm, parksNorm) == []
  {
    RubricOfVibe(vibe);
    var raw := RawStrengths(vibe, r, walkNorm, parksNorm);
    DisplayKeepsLabels(raw);
    if vibe == "Work-Friendly" {
      WorkRawLabels(r);
    } else if vibe == "Aesthetic" {
      AestheticRawLabels(r);
    } else if vibe == "Grab-and-Go" {
      GrabRawLabels(r);
    } else if vibe == "Date-Night" {
      DateRawLabels(r, walkNorm);
    } else if vibe == "Dietary-Friendly" {
      DietaryRawLabels(r);
    } else if vibe == "Study-Spot" {
      StudyRawLabels(r);
    } else if vibe == "Family-Friendly" {
      FamilyRawLabels(r, parksNorm);
    }
  }

  lemma DisplayKeepsLabels(raw: Raw)
    ensures Labels(Display(raw)) == Labels(raw)
  {
  }

  lemma WorkRawLabels(r: Shop) requires WorkInputs(r) ensures Labels(WorkRaw(r)) == Labels(WorkRubric) {
  }

  lemma AestheticRawLabels(r: Shop) requires AestheticInputs(r)
    ensures Labels(AestheticRaw(r)) == Labels(AestheticRubric)
  {
  }

  lemma GrabRawLabels(r: Shop) requires GrabShownInputs(r) ensures Labels(GrabRaw(r)) == Labels(GrabRubric) {
  }

  lemma DateRawLabels(r: Shop, walkNorm: Option<real>) requires DateShownInputs(r)
    ensures Labels(DateRaw(r, walkNorm)) == Labels(DateRubric)
  {
  }

  lemma DietaryRawLabels(r: Shop) requires DietaryInputs(r) ensures Labels(DietaryRaw(r)) == Labels(DietaryRubric) {
  }

  lemma StudyRawLabels(r: Shop) requires StudyInputs(r) ensures Labels(StudyRaw(r)) == Labels(StudyRubric) {
  }

  lemma FamilyRawLabels(r: Shop, parksNorm: Option<real>) requires FamilyShownInputs(r)
    ensures Labels(FamilyRaw(r, parksNorm)) == Labels(FamilyRubric)
  {
  }

  /** The hours-based strengths the page shows: 0.4 when the hours are not
      a dict, 0.0 when they are a dict without a measurable week, and the
      engine's share otherwise. */
  lemma HoursShownValues(h: Value)
    requires WellFormedHours(h)
    ensures Shown(HoursShown(h, LateShare(h))) ==
      if !h.Dict? then 0.4 else if NoMeasurableWeek(h) then 0.0 else LateShare(h).value
    ensures Shown(HoursShown(h, EarlyShare(h))) ==
      if !h.Dict? then 0.4 else if NoMeasurableWeek(h) then 0.0 else EarlyShare(h).value
  {
  }

  /** With the peak penalty fixed at 0.2 the speed needs no clamp: it is
      0.36 plus 0.3 for mobile ordering and 0.3 for a drive-through. */
  lemma FixedPenaltySpeed(r: Shop)
    ensures SpeedShown(r) == 0.36 + 0.3 * MobileOrder(r) + 0.3 * DriveThrough(r)
    ensures 0.36 <= SpeedShown(r) <= 0.96
  {
    assert MobileOrder(r) == 0.0 || MobileOrder(r) == 1.0;
    assert DriveThrough(r) == 0.0 || DriveThrough(r) == 1.0;
  }

  /** The page's ambience lies in [0, 1], and is 0.5 when lighting, seating
      comfort and noise are all unknown. */
  lemma AmbienceShownRange(r: Shop)
    requires ScalarOr(r, "lighting_score", "aesthetic_score")
    requires ScalarOr(r, "seating_comfort_score", "aesthetic_score")
    requires ScalarAt(r, "noise_score")
    ensures 0.0 <= AmbienceShown(r) <= 1.0
    ensures (Absent(GetOr(r, "lighting_score", Get(r, "aesthetic_score"))) &&
             Absent(GetOr(r, "seating_comfort_score", Get(r, "aesthetic_score"))) &&
             Absent(Get(r, "noise_score"))) ==> AmbienceShown(r) == 0.5
  {
  }

  // ---------------------------------------------------------------------
  // Agreement of the page with the scorers

  /** The strengths shown where the raw entries carry the scorer's own
      in-range strengths. */
  lemma ShownMatches(raw: Raw, parts: seq<Part>, i: nat)
    requires i < |raw| && i < |parts| && raw[i].1 == parts[i].0
    requires parts[i].0.Some? && 0.0 <= parts[i].0.value <= 1.0
    ensures parts[i].0 == Some(Figures(Display(raw))[i])
  {
  }

  /** Work-Friendly: the page shows the scorer's own strengths under the
      scorer's own weights, except "Open late", which differs exactly when
      the hours are a dict with no measurable week (0.0 on the page, the
      0.4 default in the score). */
  lemma WorkStrengthsMirrorScorer(r: Shop, walkNorm: Option<real>, parksNorm: Option<real>)
    requires WorkInputs(r)
    ensures var s := Figures(AttrStrengths("Work-Friendly", r, walkNorm, parksNorm));
      var parts := WorkParts(r); var h := Get(r, "hours_json");
      && Figures(WorkRubric) == DeclaredWeights(parts) && |s| == |parts|
      && (forall i | 0 <= i < |s| && i != 5 :: parts[i].0 == Some(s[i]))
      && (s[5] == Late(r) <==> !(h.Dict? && NoMeasurableWeek(h)))
  {
    var raw, parts := WorkRaw(r), WorkParts(r);
    WorkRawStrengths(r, walkNorm, parksNorm);
    assert DeclaredWeights(parts) == [0.22, 0.18, 0.15, 0.12, 0.10, 0.10, 0.08, 0.05];
    forall i | 0 <= i < |raw| && i != 5 ensures parts[i].0 == Some(Figures(Display(raw))[i]) {
      ShownMatches(raw, parts, i);
    }
  }

  /** Aesthetic: every strength and weight on the page is the scorer's. */
  lemma AestheticStrengthsMirrorScorer(r: Shop, walkNorm: Option<real>, parksNorm: Option<real>)
    requires AestheticInputs(r)
    ensures var s := Figures(AttrStrengths("Aesthetic", r, walkNorm, parksNorm)); var parts := AestheticParts(r);
      && Figures(AestheticRubric) == DeclaredWeights(parts) && |s| == |parts|
      && (forall i | 0 <= i < |s| :: parts[i].0 == Some(s[i]))
  {
    var raw, parts := AestheticRaw(r), AestheticParts(r);
    AestheticRawStrengths(r, walkNorm, parksNorm);
    assert DeclaredWeights(parts) == [0.40, 0.20, 0.15, 0.10, 0.10, 0.05];
    forall i | 0 <= i < |raw| ensures parts[i].0 == Some(Figures(Display(raw))[i]) {
      ShownMatches(raw, parts, i);
    }
  }

  /** Grab-and-Go: the page's speed equals the scorer's exactly when the
      record's peak penalty is 0.2 (or missing), and "Opens early" differs
      exactly when the hours are a dict with no measurable week. */
  lemma GrabStrengthsMirrorScorer(r: Shop, walkNorm: Option<real>, parksNorm: Option<real>)
    requires GrabInputs(r)
    ensures var s := Figures(AttrStrengths("Grab-and-Go", r, walkNorm, parksNorm));
      var parts := GrabParts(r); var h := Get(r, "hours_json");
      && Figures(GrabRubric) == DeclaredWeights(parts) && |s| == |parts|
      && (forall i | 0 <= i < |s| && i != 0 && i != 2 :: parts[i].0 == Some(s[i]))
      && (s[0] == Speed(r) <==> PeakPenalty(r) == 0.2)
      && (s[2] == Early(r) <==> !(h.Dict? && NoMeasurableWeek(h)))
  {
    var raw, parts := GrabRaw(r), GrabParts(r);
    GrabRawStrengths(r, walkNorm, parksNorm);
    assert DeclaredWeights(parts) == [0.35, 0.25, 0.15, 0.15, 0.10];
    forall i | 0 <= i < |raw| && i != 0 && i != 2 ensures parts[i].0 == Some(Figures(Display(raw))[i]) {
      ShownMatches(raw, parts, i);
    }
    SpeedNeedsNoClamp(r);
  }

  /** Date-Night: desserts, aesthetic score and cleanliness are the
      scorer's; the page's ambience equals the scorer's when lighting,
      seating comfort and the mid-noise bonus are all present and nonzero;
      the walkability shown is the normalised count passed in, 0 when there
      is none; "Open late" differs exactly when the hours are a dict with
      no measurable week. */
  lemma DateStrengthsMirrorScorer(r: Shop, walkNorm: Option<real>, parksNorm: Option<real>)
    requires DateInputs(r, walkNorm)
    ensures var s := Figures(AttrStrengths("Date-Night", r, walkNorm, parksNorm));
      var parts := DateParts(r, walkNorm); var h := Get(r, "hours_json");
      && Figures(DateRubric) == DeclaredWeights(parts) && |s| == |parts|
      && parts[1].0 == Some(s[1]) && parts[3].0 == Some(s[3]) && parts[5].0 == Some(s[5])
      && (walkNorm.Some? && 0.0 <= walkNorm.value <= 1.0 ==> parts[4].0 == Some(s[4]))
      && (walkNorm.None? ==> s[4] == 0.0)
      && ((Truthy(NormZeroFive(GetOr(r, "lighting_score", Get(r, "aesthetic_score")))) &&
           Truthy(NormZeroFive(GetOr(r, "seating_comfort_score", Get(r, "aesthetic_score")))) &&
           Truthy(NormMidNoiseBonus(Get(r, "noise_score")))) ==> s[0] == Ambience(r))
      && (s[2] == Late(r) <==> !(h.Dict? && NoMeasurableWeek(h)))
  {
    var raw, parts := DateRaw(r, walkNorm), DateParts(r, walkNorm);
    DateRawStrengths(r, walkNorm, parksNorm);
    assert DeclaredWeights(parts) == [0.25, 0.20, 0.18, 0.15, 0.12, 0.10];
    ShownMatches(raw, parts, 1);
    ShownMatches(raw, parts, 3);
    ShownMatches(raw, parts, 5);
    var s, h := Figures(Display(raw)), Get(r, "hours_json");
    assert s[0] == Shown(Some(AmbienceShown(r)));
    assert s[2] == Shown(HoursShown(h, LateShare(h)));
    assert s[4] == Shown(walkNorm);
    AmbienceShownAgrees(r);
    LateShownAgrees(h);
  }

  /** `attr_strengths` for each vibe, with the rubric lookup resolved. */
  lemma WorkRawStrengths(r: Shop, walkNorm: Option<real>, parksNorm: Option<real>)
    requires WorkInputs(r)
    ensures AttrStrengths("Work-Friendly", r, walkNorm, parksNorm) == Display(WorkRaw(r))
  {
  }

  lemma AestheticRawStrengths(r: Shop, walkNorm: Option<real>, parksNorm: Option<real>)
    requires AestheticInputs(r)
    ensures AttrStrengths("Aesthetic", r, walkNorm, parksNorm) == Display(AestheticRaw(r))
  {
  }

  lemma GrabRawStrengths(r: Shop, walkNorm: Option<real>, parksNorm: Option<real>)
    requires GrabInputs(r)
    ensures AttrStrengths("Grab-and-Go", r, walkNorm, parksNorm) == Display(GrabRaw(r))
  {
  }

  lemma DietaryRawStrengths(r: Shop, walkNorm: Option<real>, parksNorm: Option<real>)
    requires DietaryInputs(r)
    ensures AttrStrengths("Dietary-Friendly", r, walkNorm, parksNorm) == Display(DietaryRaw(r))
  {
  }

  lemma StudyRawStrengths(r: Shop, walkNorm: Option<real>, parksNorm: Option<real>)
    requires StudyInputs(r)
    ensures AttrStrengths("Study-Spot", r, walkNorm, parksNorm) == Display(StudyRaw(r))
  {
  }

  lemma FamilyRawStrengths(r: Shop, walkNorm: Option<real>, parksNorm: Option<real>)
    requires FamilyInputs(r, parksNorm)
    ensures AttrStrengths("Family-Friendly", r, walkNorm, parksNorm) == Display(FamilyRaw(r, parksNorm))
  {
  }

  lemma DateRawStrengths(r: Shop, walkNorm: Option<real>, parksNorm: Option<real>)
    requires DateInputs(r, walkNorm)
    ensures AttrStrengths("Date-Night", r, walkNorm, parksNorm) == Display(DateRaw(r, walkNorm))
  {
  }

  /** The page's ambience is the scorer's when lighting, seating comfort and
      the mid-noise bonus are all present and nonzero. */
  lemma AmbienceShownAgrees(r: Shop)
    requires ScalarOr(r, "lighting_score", "aesthetic_score")
    requires ScalarOr(r, "seating_comfort_score", "aesthetic_score")
    requires ScalarAt(r, "noise_score")
    ensures (Truthy(NormZeroFive(GetOr(r, "lighting_score", Get(r, "aesthetic_score")))) &&
             Truthy(NormZeroFive(GetOr(r, "seating_comfort_score", Get(r, "aesthetic_score")))) &&
             Truthy(NormMidNoiseBonus(Get(r, "noise_score")))) ==> Shown(Some(AmbienceShown(r))) == Ambience(r)
  {
    var a := NormZeroFive(GetOr(r, "lighting_score", Get(r, "aesthetic_score")));
    var b := NormZeroFive(GetOr(r, "seating_comfort_score", Get(r, "aesthetic_score")));
    var c := NormMidNoiseBonus(Get(r, "noise_score"));
    if Truthy(a) && Truthy(b) && Truthy(c) {
      FixedBlend(a.value, b.value, c.value);
    }
  }

  /** The page's "Open late" is the scorer's unless the hours are a dict
      with no measurable week. */
  lemma LateShownAgrees(h: Value)
    requires WellFormedHours(h)
    ensures Shown(HoursShown(h, LateShare(h))) == Nz(LateShare(h), 0.4) <==> !(h.Dict? && NoMeasurableWeek(h))
  {
    HoursShownValues(h);
  }

  /** With all three ingredients present, the engine's ambience blend is the
      fixed mix the page uses. */
  lemma FixedBlend(a: real, b: real, c: real)
    requires 0.0 <= a <= 1.0 && 0.0 <= b <= 1.0 && 0.0 <= c <= 1.0
    ensures Combine([(Some(a), 0.35), (Some(b), 0.35), (Some(c), 0.30)]).0 == a * 0.35 + b * 0.35 + c * 0.30
  {
    var parts := [(Some(a), 0.35), (Some(b), 0.35), (Some(c), 0.30)];
    var pres := [(a, 0.35), (b, 0.35), (c, 0.30)];
    assert PresentParts([(Some(c), 0.30)]) == [(c, 0.30)];
    assert PresentParts([(Some(b), 0.35), (Some(c), 0.30)]) == [(b, 0.35), (c, 0.30)];
    assert PresentParts(parts) == pres;
    WeightsAsSums(parts);
    assert DeclaredWeights(parts) == [0.35, 0.35, 0.30];
    assert PositiveSum([0.35, 0.35, 0.30]) == 1.0;
    TenthsOfPercentOf([0.35, 0.35, 0.30], [35, 35, 30]);
    assert WeightSum([(c, 0.30)]) == 0.30 && Mass([(c, 0.30)]) == c * 0.30;
    assert WeightSum([(b, 0.35), (c, 0.30)]) == 0.65 && Mass([(b, 0.35), (c, 0.30)]) == b * 0.35 + c * 0.30;
    assert WeightSum(pres) == 1.0 && Mass(pres) == a * 0.35 + b * 0.35 + c * 0.30;
    CombineUnfold(parts);
  }

  /** Dietary-Friendly: every strength and weight on the page, with the
      corrected dairy-free row, is the scorer's; the dairy-free row as the
      page writes it agrees with the scorer exactly when the count is not
      NaN. */
  lemma DietaryStrengthsMirrorScorer(r: Shop, walkNorm: Option<real>, parksNorm: Option<real>)
    requires DietaryInputs(r)
    ensures var s := Figures(AttrStrengths("Dietary-Friendly", r, walkNorm, parksNorm)); var parts := DietaryParts(r);
      && Figures(DietaryRubric) == DeclaredWeights(parts) && |s| == |parts|
      && (forall i | 0 <= i < |s| :: parts[i].0 == Some(s[i]))
      && (parts[1].0 == Some(DairyShownAsWritten(Get(r, "df_milks"))) <==> !Get(r, "df_milks").NaN?)
  {
    var raw, parts := DietaryRaw(r), DietaryParts(r);
    DietaryRawStrengths(r, walkNorm, parksNorm);
    DairyAsWrittenDiffersOnlyOnNaN(Get(r, "df_milks"));
    assert DeclaredWeights(parts) == [0.40, 0.28, 0.12, 0.10, 0.10];
    forall i | 0 <= i < |raw| ensures parts[i].0 == Some(Figures(Display(raw))[i]) {
      ShownMatches(raw, parts, i);
    }
  }

  /** Study-Spot: the scorer's strengths, except "Open late" as for Work. */
  lemma StudyStrengthsMirrorScorer(r: Shop, walkNorm: Option<real>, parksNorm: Option<real>)
    requires StudyInputs(r)
    ensures var s := Figures(AttrStrengths("Study-Spot", r, walkNorm, parksNorm));
      var parts := StudyParts(r); var h := Get(r, "hours_json");
      && Figures(StudyRubric) == DeclaredWeights(parts) && |s| == |parts|
      && (forall i | 0 <= i < |s| && i != 4 :: parts[i].0 == Some(s[i]))
      && (s[4] == Late(r) <==> !(h.Dict? && NoMeasurableWeek(h)))
  {
    var raw, parts := StudyRaw(r), StudyParts(r);
    StudyRawStrengths(r, walkNorm, parksNorm);
    assert DeclaredWeights(parts) == [0.28, 0.22, 0.18, 0.12, 0.10, 0.10];
    forall i | 0 <= i < |raw| && i != 4 ensures parts[i].0 == Some(Figures(Display(raw))[i]) {
      ShownMatches(raw, parts, i);
    }
  }

  /** Family-Friendly: the scorer's strengths; the park value shown is the
      normalised count passed in, 0 when there is none. */
  lemma FamilyStrengthsMirrorScorer(r: Shop, walkNorm: Option<real>, parksNorm: Option<real>)
    requires FamilyInputs(r, parksNorm)
    ensures var s := Figures(AttrStrengths("Family-Friendly", r, walkNorm, parksNorm));
      var parts := FamilyParts(r, parksNorm);
      && Figures(FamilyRubric) == DeclaredWeights(parts) && |s| == |parts|
      && (forall i | 0 <= i < 5 :: parts[i].0 == Some(s[i]))
      && (parksNorm.Some? && 0.0 <= parksNorm.value <= 1.0 ==> parts[5].0 == Some(s[5]))
      && (parksNorm.None? ==> s[5] == 0.0)
  {
    var raw, parts := FamilyRaw(r, parksNorm), FamilyParts(r, parksNorm);
    FamilyRawStrengths(r, walkNorm, parksNorm);
    assert DeclaredWeights(parts) == [0.30, 0.20, 0.18, 0.15, 0.10, 0.07];
    forall i | 0 <= i < 5 ensures parts[i].0 == Some(Figures(Display(raw))[i]) {
      ShownMatches(raw, parts, i);
    }
  }

  // ---------------------------------------------------------------------
  // contribution_df

  datatype ContributionRow = ContributionRow(attribute: string, weightPct: real, strengthPct: real, contribution: real)

  /** `d.get(k, default)`. */
  function GetOrZero(t: Table, k: string): real {
    match Lookup(t, k)
    case Some(x) => x
    case None => 0.0
  }

  /** `contribution_df(vibe, weights, strengths)`: per rubric attribute, the
      weight and strength as percentages rounded to one decimal, and their
      product as a percentage of the score. */
  function ContributionDf(weights: Table, strengths: Table): seq<ContributionRow> {
    seq(|weights|, i requires 0 <= i < |weights| =>
      Contribution(weights[i].0, weights[i].1, GetOrZero(strengths, weights[i].0)))
  }

  /** One row of the contribution table. */
  function Contribution(attr: string, w: real, s: real): ContributionRow {
    var wp := Round1(w * 100.0);
    var sp := Round1(s * 100.0);
    ContributionRow(attr, wp, sp, (wp / 100.0) * (sp / 100.0) * 100.0)
  }

  function TotalContribution(rows: seq<ContributionRow>): real {
    if rows == [] then 0.0 else rows[0].contribution + TotalContribution(rows[1..])
  }

  /** Non-negative weights that, read as percents, have at most one
      decimal: whole tenths of a percent. Every published weight is a
      whole percent, so it is one. */
  predicate TenthsOfPercent(ws: seq<real>) {
    ws == [] || (0.0 <= ws[0] && OneDecimal(ws[0] * 100.0) && TenthsOfPercent(ws[1..]))
  }

  /** Weights that are whole percents `ns` are whole tenths of a percent. */
  lemma {:induction false} TenthsOfPercentOf(ws: seq<real>, ns: seq<nat>)
    requires |ws| == |ns| && forall i | 0 <= i < |ws| :: ws[i] * 100.0 == ns[i] as real
    ensures TenthsOfPercent(ws)
  {
    if ws != [] {
      TenthsOfPercentOf(ws[1..], ns[1..]);
      assert ws[0] * 100.0 * 10.0 == (ns[0] * 10) as real;
    }
  }

  predicate IsStrengthTable(strengths: Table) {
    forall i | 0 <= i < |strengths| :: 0.0 <= strengths[i].1 <= 1.0
  }

  lemma {:induction false} LookupInTable(t: Table, k: string)
    requires IsStrengthTable(t)
    ensures 0.0 <= GetOrZero(t, k) <= 1.0
  {
    if t != [] && t[0].0 != k {
      LookupInTable(t[1..], k);
    }
  }

  /** A row of the table for the rubric entry `weight`: its weight
      percentage is exact, and its contribution is the weight times the
      strength percentage, between 0 and the weight percentage. */
  predicate ContributesItsShare(row: ContributionRow, weight: (string, real)) {
    && row.attribute == weight.0
    && row.weightPct == weight.1 * 100.0
    && row.contribution == weight.1 * row.strengthPct
    && 0.0 <= row.contribution <= weight.1 * 100.0
  }

  /** One row of the table: the weight percentage is exact, and the
      contribution is the weight times the strength percentage, between
      0 and the weight percentage. */
  lemma RowContribution(attr: string, w: real, s: real)
    requires 0.0 <= w && OneDecimal(w * 100.0) && 0.0 <= s <= 1.0
    ensures ContributesItsShare(Contribution(attr, w, s), (attr, w))
  {
    var wp, sp := Round1(w * 100.0), Round1(s * 100.0);
    assert wp == w * 100.0;
    assert 0.0 <= sp <= 100.0;
    RowOfShare(attr, w, wp, sp);
    assert Contribution(attr, w, s) == ContributionRow(attr, wp, sp, (wp / 100.0) * (sp / 100.0) * 100.0);
  }

  /** The row arithmetic once the weight percentage is exact. */
  lemma RowOfShare(attr: string, w: real, wp: real, sp: real)
    requires 0.0 <= w && wp == w * 100.0 && 0.0 <= sp <= 100.0
    ensures ContributesItsShare(ContributionRow(attr, wp, sp, (wp / 100.0) * (sp / 100.0) * 100.0), (attr, w))
  {
    var c := (wp / 100.0) * (sp / 100.0) * 100.0;
    PercentProduct(w, wp, sp);
    ProductBelowWeight(w, sp);
    assert c == w * sp;
    var row := ContributionRow(attr, wp, sp, c);
    assert row.contribution == w * row.strengthPct;
  }

  lemma PercentProduct(w: real, wp: real, sp: real)
    requires wp == w * 100.0
    ensures (wp / 100.0) * (sp / 100.0) * 100.0 == w * sp
  {
    assert wp / 100.0 == w;
  }

  lemma ProductBelowWeight(w: real, sp: real)
    requires 0.0 <= w && 0.0 <= sp <= 100.0
    ensures 0.0 <= w * sp <= w * 100.0
  {
    assert w * (100.0 - sp) >= 0.0;
  }

  lemma {:induction false} TenthsOfPercentAt(ws: seq<real>, i: nat)
    requires TenthsOfPercent(ws) && i < |ws|
    ensures 0.0 <= ws[i] && OneDecimal(ws[i] * 100.0)
  {
    if i > 0 {
      TenthsOfPercentAt(ws[1..], i - 1);
    }
  }

  /** Each attribute contributes its weight times its rounded strength, so
      never more than its weight as a percentage. */
  lemma ContributionRows(weights: Table, strengths: Table)
    requires TenthsOfPercent(Figures(weights)) && IsStrengthTable(strengths)
    ensures var rows := ContributionDf(weights, strengths);
      |rows| == |weights| && forall i | 0 <= i < |rows| :: ContributesItsShare(rows[i], weights[i])
  {
    var rows := ContributionDf(weights, strengths);
    forall i | 0 <= i < |rows| ensures ContributesItsShare(rows[i], weights[i]) {
      var s := GetOrZero(strengths, weights[i].0);
      assert rows[i] == Contribution(weights[i].0, weights[i].1, s);
      assert Figures(weights)[i] == weights[i].1;
      TenthsOfPercentAt(Figures(weights), i);
      LookupInTable(strengths, weights[i].0);
      RowContribution(weights[i].0, weights[i].1, s);
    }
  }

  /** The contributions add up to at most the total weight as a
      percentage. */
  lemma {:induction false} ContributionTotal(weights: Table, strengths: Table)
    requires TenthsOfPercent(Figures(weights)) && IsStrengthTable(strengths)
    ensures 0.0 <= TotalContribution(ContributionDf(weights, strengths)) <= PositiveSum(Figures(weights)) * 100.0
  {
    if weights != [] {
      var rows := ContributionDf(weights, strengths);
      ContributionRows(weights, strengths);
      assert Figures(weights[1..]) == Figures(weights)[1..];
      ContributionTotal(weights[1..], strengths);
      assert ContributionDf(weights[1..], strengths) == rows[1..];
    }
  }

  /** The contribution table of a published rubric adds up to at most 100. */
  lemma PublishedContributionsAtMostHundred(vibe: string, strengths: Table)
    requires RubricOf(vibe).Some? && IsStrengthTable(strengths)
    ensures 0.0 <= TotalContribution(ContributionDf(RubricOf(vibe).value, strengths)) <= 100.0
  {
    RubricsAreDistributions();
    LookupFound(VibeWeights, vibe);
    ContributionTotal(RubricOf(vibe).value, strengths);
  }

  // ---------------------------------------------------------------------
  // The what-if comparison

  datatype ImpactRow = ImpactRow(attribute: string, weight: real, before: real, after: real,
                                 deltaStrength: real, deltaContribution: real)

  /** The what-if table: per rubric attribute, the strength before and after
      the tweak, its change, and that change times the weight as a
      percentage, rounded to one decimal. */
  function WhatIfImpact(weights: Table, base: Table, modified: Table): seq<ImpactRow> {
    seq(|weights|, i requires 0 <= i < |weights| =>
      Impact(weights[i].0, weights[i].1, GetOrZero(base, weights[i].0), GetOrZero(modified, weights[i].0)))
  }

  /** One row of the what-if table. */
  function Impact(attr: string, w: real, b: real, n: real): ImpactRow {
    ImpactRow(attr, w, b, n, n - b, Round1((n - b) * w * 100.0))
  }

  /** A what-if row whose contribution change follows its strength change
      in sign, is zero when the strength did not move, and is within 0.05
      of the change of the attribute's unrounded contribution. */
  predicate FollowsStrength(row: ImpactRow) {
    && row.deltaStrength == row.after - row.before
    && (row.after >= row.before ==> row.deltaContribution >= 0.0)
    && (row.after <= row.before ==> row.deltaContribution <= 0.0)
    && (row.after == row.before ==> row.deltaContribution == 0.0)
    && -0.05 <= row.deltaContribution - (row.weight * row.after * 100.0 - row.weight * row.before * 100.0) <= 0.05
  }

  /** Every row of the what-if table follows its strength change. */
  lemma ImpactFollowsStrength(weights: Table, base: Table, modified: Table)
    requires forall i | 0 <= i < |weights| :: weights[i].1 >= 0.0
    ensures var rows := WhatIfImpact(weights, base, modified);
      |rows| == |weights| && forall i | 0 <= i < |rows| :: rows[i].attribute == weights[i].0 && FollowsStrength(rows[i])
  {
    var rows := WhatIfImpact(weights, base, modified);
    forall i | 0 <= i < |rows| ensures rows[i].attribute == weights[i].0 && FollowsStrength(rows[i]) {
      var b, n, w := GetOrZero(base, weights[i].0), GetOrZero(modified, weights[i].0), weights[i].1;
      assert rows[i] == Impact(weights[i].0, w, b, n);
      ImpactRowFollows(weights[i].0, w, b, n);
    }
  }

  lemma ImpactRowFollows(attr: string, w: real, b: real, n: real)
    requires w >= 0.0
    ensures FollowsStrength(Impact(attr, w, b, n))
  {
    var x := (n - b) * w * 100.0;
    var r := Round1(x);
    var row := Impact(attr, w, b, n);
    assert row == ImpactRow(attr, w, b, n, n - b, r);
    RoundedScaledChange(n, b, w);
    assert n >= b ==> r >= 0.0;
    assert n <= b ==> r <= 0.0;
    assert -0.05 <= r - x <= 0.05;
    assert w * n * 100.0 - w * b * 100.0 == x;
    assert row.weight * row.after * 100.0 - row.weight * row.before * 100.0 == x;
  }

  /** A strength change scaled by a non-negative weight and rounded keeps
      the sign of the change. */
  lemma RoundedScaledChange(a: real, b: real, w: real)
    requires w >= 0.0
    ensures w * a * 100.0 - w * b * 100.0 == (a - b) * w * 100.0
    ensures a >= b ==> Round1((a - b) * w * 100.0) >= 0.0
    ensures a <= b ==> Round1((a - b) * w * 100.0) <= 0.0
  {
    var x := (a - b) * w * 100.0;
    ScaledDifference(a, b, w);
    assert Round1(0.0) == 0.0;
    if a >= b {
      Round1Monotone(0.0, x);
    }
    if a <= b {
      Round1Monotone(x, 0.0);
    }
  }

  lemma ScaledDifference(a: real, b: real, w: real)
    requires w >= 0.0
    ensures w * a * 100.0 - w * b * 100.0 == (a - b) * w * 100.0
    ensures a >= b ==> (a - b) * w * 100.0 >= 0.0
    ensures a <= b ==> (a - b) * w * 100.0 <= 0.0
  {
  }
}
