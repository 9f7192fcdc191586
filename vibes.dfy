// The seven vibe scorers. Each reads a shop record, turns the attributes it
// cares about into strengths (substituting a default for a missing one),
// blends them with `combine` under a fixed weight table, corrects the blend
// by `0.9 + 0.1 * coverage`, scales it to 0..100 rounded to one decimal, and
// names up to three "drivers" in a fixed priority order.

module Vibes {
  import opened Values
  import opened Normalizers
  import opened Hours
  import opened Combining

  // ---------------------------------------------------------------------
  // Result, confidence and rounding

  datatype Confidence = High | Medium | Low
  {
    /** The label the user sees. */
    function Name(): string {
      match this
      case High => "High"
      case Medium => "Medium"
      case Low => "Low"
    }

    function Rank(): nat {
      match this
      case High => 2
      case Medium => 1
      case Low => 0
    }
  }

  /** `_conf(c)`: coverage bands at 0.8 and 0.5. */
  function Conf(c: real): (k: Confidence)
    ensures k == High <==> c >= 0.8
    ensures k == Medium <==> 0.5 <= c < 0.8
    ensures k == Low <==> c < 0.5
  {
    if c >= 0.8 then High else if c >= 0.5 then Medium else Low
  }

  /** More coverage never means a lower confidence label. */
  lemma ConfMonotone(c: real, c': real)
    requires c <= c'
    ensures Conf(c).Rank() <= Conf(c').Rank()
  {
  }

  /** `VibeResult`: score 0..100, coverage 0..1, its label and the drivers. */
  datatype VibeResult = VibeResult(score: real, coverage: real, confidence: Confidence, drivers: seq<string>)

  /** `x * 10` is a whole number: `x` has at most one decimal. */
  predicate OneDecimal(x: real) {
    (x * 10.0).Floor as real == x * 10.0
  }

  /** `round(x, 1)` on the exact value: to the nearest tenth, ties to the
      even tenth. */
  function Round1(x: real): (r: real)
    ensures -0.05 <= r - x <= 0.05
    ensures OneDecimal(r)
    ensures OneDecimal(x) ==> r == x
    ensures 0.0 <= x <= 100.0 ==> 0.0 <= r <= 100.0
  {
    var y := x * 10.0;
    var n := y.Floor;
    var f := y - n as real;
    var m := if f > 0.5 || (f == 0.5 && n % 2 != 0) then n + 1 else n;
    assert (m as real / 10.0) * 10.0 == m as real;
    m as real / 10.0
  }

  /** Rounding twice is rounding once. */
  lemma Round1Idempotent(x: real)
    ensures Round1(Round1(x)) == Round1(x)
  {
  }

  /** `d[:3]`. */
  function FirstThree(d: seq<string>): seq<string> {
    if |d| <= 3 then d else d[..3]
  }

  /** The phrases whose condition holds, in the order they are tested. */
  function Fired(cues: seq<(bool, string)>): seq<string> {
    if cues == [] then [] else Fire(cues[0]) + Fired(cues[1..])
  }

  /** The phrase list of one cue: a singleton when it fires. */
  function Fire(c: (bool, string)): seq<string> {
    if c.0 then [c.1] else []
  }

  lemma FiredOfThree(a: (bool, string), b: (bool, string), c: (bool, string))
    ensures Fired([a, b, c]) == Fire(a) + Fire(b) + Fire(c)
  {
    assert [c][1..] == [];
    assert Fired([c]) == Fire(c);
    assert [b, c][1..] == [c];
    assert Fired([b, c]) == Fire(b) + Fire(c);
    assert [a, b, c][1..] == [b, c];
  }

  lemma FiredOfFour(a: (bool, string), b: (bool, string), c: (bool, string), e: (bool, string))
    ensures Fired([a, b, c, e]) == Fire(a) + Fire(b) + Fire(c) + Fire(e)
  {
    assert [a, b, c, e][1..] == [b, c, e];
    FiredOfThree(b, c, e);
  }

  function Phrases(cues: seq<(bool, string)>): seq<string> {
    if cues == [] then [] else [cues[0].1] + Phrases(cues[1..])
  }

  /** `xs` is `ys` with some elements left out, the rest in order. */
  predicate IsSubsequence(xs: seq<string>, ys: seq<string>) {
    if ys == [] then xs == []
    else (xs != [] && xs[0] == ys[0] && IsSubsequence(xs[1..], ys[1..])) || IsSubsequence(xs, ys[1..])
  }

  /** The shared tail of every scorer: combine, correct by coverage, scale,
      round, label and keep the first three drivers. */
  function Finish(sc: (real, real), d: seq<string>): VibeResult {
    var s := sc.0 * (0.9 + 0.1 * sc.1);
    VibeResult(Round1(100.0 * s), sc.1, Conf(sc.1), FirstThree(d))
  }

  function Scored(parts: seq<Part>, cues: seq<(bool, string)>): VibeResult {
    Finish(Combine(parts), Fired(cues))
  }

  // ---------------------------------------------------------------------
  // Attribute strengths as the scorers read them

  /** Keys whose value `float()` may read must hold a scalar. */
  predicate ScalarOr(r: Shop, k: string, fallback: string) {
    GetOr(r, k, Get(r, fallback)).IsScalar()
  }

  function Wifi(r: Shop): real requires ScalarAt(r, "wifi_score") {
    Or(NormZeroFive(Get(r, "wifi_score")), 0.6)
  }

  function Outlets(r: Shop): real requires ScalarAt(r, "outlets_score") {
    Or(NormZeroFive(Get(r, "outlets_score")), 0.5)
  }

  function Quietness(r: Shop): real requires ScalarAt(r, "noise_score") {
    Or(NormNoiseInverse(Get(r, "noise_score")), 0.5)
  }

  function Seating(r: Shop): real requires ScalarAt(r, "seating_count") {
    Or(NormSeating(Get(r, "seating_count")), 0.4)
  }

  function Restroom(r: Shop): real {
    Or(BoolNorm(Get(r, "restroom_access")), 0.5)
  }

  function Late(r: Shop): real requires WellFormedHours(Get(r, "hours_json")) {
    Nz(LateShare(Get(r, "hours_json")), 0.4)
  }

  function Early(r: Shop): real requires WellFormedHours(Get(r, "hours_json")) {
    Nz(EarlyShare(Get(r, "hours_json")), 0.4)
  }

  function Cleanliness(r: Shop): real requires ScalarAt(r, "cleanliness_score") {
    Or(NormZeroFive(Get(r, "cleanliness_score")), 0.6)
  }

  function Parking(r: Shop): real requires ScalarAt(r, "parking_score") {
    Or(NormZeroFive(Get(r, "parking_score")), 0.5)
  }

  function Aesthetics(r: Shop): real requires ScalarAt(r, "aesthetic_score") {
    Or(NormZeroFive(Get(r, "aesthetic_score")), 0.5)
  }

  /** Natural light, read from the aesthetic score when the key is absent. */
  function Light(r: Shop): real requires ScalarOr(r, "natural_light_score", "aesthetic_score") {
    Or(NormZeroFive(GetOr(r, "natural_light_score", Get(r, "aesthetic_score"))), 0.5)
  }

  function LatteArt(r: Shop): real requires ScalarAt(r, "latte_art_score") {
    Or(NormZeroFive(Get(r, "latte_art_score")), 0.4)
  }

  /** Decor, read from the aesthetic score when the key is absent. */
  function Decor(r: Shop): real requires ScalarOr(r, "unique_decor_score", "aesthetic_score") {
    Or(NormZeroFive(GetOr(r, "unique_decor_score", Get(r, "aesthetic_score"))), 0.5)
  }

  function Dessert(r: Shop): real requires ScalarAt(r, "dessert_score") {
    Or(NormZeroFive(Get(r, "dessert_score")), 0.5)
  }

  function MobileOrder(r: Shop): real {
    Or(BoolNorm(Get(r, "mobile_order")), 0.0)
  }

  function DriveThrough(r: Shop): real {
    Or(BoolNorm(Get(r, "has_drive_through")), 0.0)
  }

  /** The peak-hour penalty, 0.2 when missing, clamped to [0, 1]. */
  function PeakPenalty(r: Shop): real requires ScalarAt(r, "peak_busy_penalty") {
    var v := Get(r, "peak_busy_penalty");
    Clamp(if Absent(v) then 0.2 else ToReal(v))
  }

  /** Service speed from mobile order, drive-through and the peak penalty. */
  function Speed(r: Shop): real requires ScalarAt(r, "peak_busy_penalty") {
    Clamp(0.4 + 0.3 * MobileOrder(r) + 0.3 * DriveThrough(r) - 0.2 * PeakPenalty(r))
  }

  /** Date-Night ambience: lighting and seating comfort (each read from the
      aesthetic score when absent) and the mid-noise bonus, blended. */
  function Ambience(r: Shop): real
    requires ScalarOr(r, "lighting_score", "aesthetic_score")
    requires ScalarOr(r, "seating_comfort_score", "aesthetic_score")
    requires ScalarAt(r, "noise_score")
  {
    Combine([(NormZeroFive(GetOr(r, "lighting_score", Get(r, "aesthetic_score"))), 0.35),
             (NormZeroFive(GetOr(r, "seating_comfort_score", Get(r, "aesthetic_score"))), 0.35),
             (NormMidNoiseBonus(Get(r, "noise_score")), 0.30)]).0
  }

  /** The walkability value: the one passed in, else the record's
      `nearby_walkables_norm` as it is, else absent. */
  function Walk(r: Shop, walk: Option<real>): Option<real>
    requires walk.Some? || ScalarAt(r, "nearby_walkables_norm")
  {
    if walk.Some? then walk else Present(Get(r, "nearby_walkables_norm"))
  }

  function GlutenFree(r: Shop): real {
    Or(BoolNorm(Get(r, "gf_food")), 0.0)
  }

  function DairyFree(r: Shop): real requires ScalarAt(r, "df_milks") {
    Or(NormDfMilks(Get(r, "df_milks")), 0.0)
  }

  function NutFree(r: Shop): real {
    Or(BoolNorm(Get(r, "nut_free")), 0.0)
  }

  /** Ingredient labelling; an absent key reads as a 3.0 rating. */
  function Labelling(r: Shop): real requires ScalarAt(r, "ingredient_transparency_score") {
    Or(NormZeroFive(GetOr(r, "ingredient_transparency_score", Num(3.0))), 0.6)
  }

  function Price(r: Shop): real requires ScalarAt(r, "price_index") {
    Or(NormPriceIndex(Get(r, "price_index")), 0.5)
  }

  /** Room, read from seating comfort when the key is absent. */
  function Space(r: Shop): real requires ScalarOr(r, "space_score", "seating_comfort_score") {
    Or(NormZeroFive(GetOr(r, "space_score", Get(r, "seating_comfort_score"))), 0.5)
  }

  function NoiseTolerance(r: Shop): real requires ScalarAt(r, "noise_score") {
    Or(NormMidNoiseBonus(Get(r, "noise_score")), 0.5)
  }

  /** Kids' snacks, read from the dessert score when the key is absent. */
  function KidsSnacks(r: Shop): real requires ScalarOr(r, "kids_snacks_score", "dessert_score") {
    Or(NormZeroFive(GetOr(r, "kids_snacks_score", Get(r, "dessert_score"))), 0.5)
  }

  /** The park value: the one passed in, else the record's
      `nearby_parks_norm` as it is, else absent. */
  function Parks(r: Shop, parks: Option<real>): Option<real>
    requires parks.Some? || ScalarAt(r, "nearby_parks_norm")
  {
    if parks.Some? then parks else Present(Get(r, "nearby_parks_norm"))
  }

  // ---------------------------------------------------------------------
  // Work-Friendly

  const WorkWeights: seq<real> := [0.22, 0.18, 0.15, 0.12, 0.10, 0.10, 0.08, 0.05]

  predicate WorkInputs(r: Shop) {
    ScalarAt(r, "wifi_score") && ScalarAt(r, "outlets_score") && ScalarAt(r, "noise_score") &&
    ScalarAt(r, "seating_count") && ScalarAt(r, "cleanliness_score") && ScalarAt(r, "parking_score") &&
    WellFormedHours(Get(r, "hours_json"))
  }

  function WorkParts(r: Shop): seq<Part> requires WorkInputs(r) {
    [(Some(Wifi(r)), 0.22), (Some(Outlets(r)), 0.18), (Some(Quietness(r)), 0.15), (Some(Seating(r)), 0.12),
     (Some(Restroom(r)), 0.10), (Some(Late(r)), 0.10), (Some(Cleanliness(r)), 0.08), (Some(Parking(r)), 0.05)]
  }

  function WorkCues(r: Shop): seq<(bool, string)> requires WorkInputs(r) {
    [(Wifi(r) >= 0.7, "reliable Wi\U{2011}Fi"), (Outlets(r) >= 0.6, "many outlets"),
     (Quietness(r) >= 0.6, "lower noise"), (Late(r) >= 0.5, "open late")]
  }

  function WorkFriendlyResult(r: Shop): VibeResult requires WorkInputs(r) {
    Scored(WorkParts(r), WorkCues(r))
  }

  /** `work_friendly(r)`. */
  method WorkFriendly(r: Shop) returns (res: VibeResult)
    requires WorkInputs(r)
    ensures res == WorkFriendlyResult(r)
  {
    var wifi, outlets, noiseInv, seating := Wifi(r), Outlets(r), Quietness(r), Seating(r);
    var restroom, late, clean, parking := Restroom(r), Late(r), Cleanliness(r), Parking(r);
    var parts := [(Some(wifi), 0.22), (Some(outlets), 0.18), (Some(noiseInv), 0.15), (Some(seating), 0.12),
                  (Some(restroom), 0.10), (Some(late), 0.10), (Some(clean), 0.08), (Some(parking), 0.05)];
    assert parts == WorkParts(r);
    var sc := Combine(parts);
    var cues := WorkCues(r);
    var d := [];
    if wifi >= 0.7 { d := d + ["reliable Wi\U{2011}Fi"]; }
    assert d == Fire(cues[0]);
    if outlets >= 0.6 { d := d + ["many outlets"]; }
    assert d == Fire(cues[0]) + Fire(cues[1]);
    if noiseInv >= 0.6 { d := d + ["lower noise"]; }
    assert d == Fire(cues[0]) + Fire(cues[1]) + Fire(cues[2]);
    if late >= 0.5 { d := d + ["open late"]; }
    FiredOfFour(cues[0], cues[1], cues[2], cues[3]);
    assert d == Fired(cues);
    res := Finish(sc, d);
  }

  // ---------------------------------------------------------------------
  // Aesthetic

  const AestheticWeights: seq<real> := [0.40, 0.20, 0.15, 0.10, 0.10, 0.05]

  predicate AestheticInputs(r: Shop) {
    ScalarAt(r, "aesthetic_score") && ScalarOr(r, "natural_light_score", "aesthetic_score") &&
    ScalarAt(r, "latte_art_score") && ScalarAt(r, "cleanliness_score") &&
    ScalarOr(r, "unique_decor_score", "aesthetic_score") && ScalarAt(r, "dessert_score")
  }

  function AestheticParts(r: Shop): seq<Part> requires AestheticInputs(r) {
    [(Some(Aesthetics(r)), 0.40), (Some(Light(r)), 0.20), (Some(LatteArt(r)), 0.15),
     (Some(Cleanliness(r)), 0.10), (Some(Decor(r)), 0.10), (Some(Dessert(r)), 0.05)]
  }

  function AestheticCues(r: Shop): seq<(bool, string)> requires AestheticInputs(r) {
    [(Aesthetics(r) >= 0.7, "design-forward space"), (Light(r) >= 0.65, "great natural light"),
     (LatteArt(r) >= 0.6, "latte art")]
  }

  function AestheticResult(r: Shop): VibeResult requires AestheticInputs(r) {
    Scored(AestheticParts(r), AestheticCues(r))
  }

  /** `aesthetic(r)`. */
  method Aesthetic(r: Shop) returns (res: VibeResult)
    requires AestheticInputs(r)
    ensures res == AestheticResult(r)
  {
    var aest, light, latte := Aesthetics(r), Light(r), LatteArt(r);
    var clean, decor, dessert := Cleanliness(r), Decor(r), Dessert(r);
    var parts := [(Some(aest), 0.40), (Some(light), 0.20), (Some(latte), 0.15),
                  (Some(clean), 0.10), (Some(decor), 0.10), (Some(dessert), 0.05)];
    assert parts == AestheticParts(r);
    var sc := Combine(parts);
    var cues := AestheticCues(r);
    var d := [];
    if aest >= 0.7 { d := d + ["design-forward space"]; }
    assert d == Fire(cues[0]);
    if light >= 0.65 { d := d + ["great natural light"]; }
    assert d == Fire(cues[0]) + Fire(cues[1]);
    if latte >= 0.6 { d := d + ["latte art"]; }
    FiredOfThree(cues[0], cues[1], cues[2]);
    assert d == Fired(cues);
    res := Finish(sc, d);
  }

  // ---------------------------------------------------------------------
  // Grab-and-Go

  const GrabWeights: seq<real> := [0.35, 0.25, 0.15, 0.15, 0.10]

  predicate GrabInputs(r: Shop) {
    ScalarAt(r, "parking_score") && ScalarAt(r, "peak_busy_penalty") && WellFormedHours(Get(r, "hours_json"))
  }

  function GrabParts(r: Shop): seq<Part> requires GrabInputs(r) {
    [(Some(Speed(r)), 0.35), (Some(Parking(r)), 0.25), (Some(Early(r)), 0.15),
     (Some(MobileOrder(r)), 0.15), (Some(DriveThrough(r)), 0.10)]
  }

  function GrabCues(r: Shop): seq<(bool, string)> requires GrabInputs(r) {
    [(DriveThrough(r) >= 0.9, "drive-through"), (MobileOrder(r) >= 0.9, "mobile order"),
     (Early(r) >= 0.6, "opens early")]
  }

  function GrabAndGoResult(r: Shop): VibeResult requires GrabInputs(r) {
    Scored(GrabParts(r), GrabCues(r))
  }

  /** `grab_and_go(r)`. */
  method GrabAndGo(r: Shop) returns (res: VibeResult)
    requires GrabInputs(r)
    ensures res == GrabAndGoResult(r)
  {
    var parking, early, mobile, drive := Parking(r), Early(r), MobileOrder(r), DriveThrough(r);
    var peak := PeakPenalty(r);
    var speed := Clamp(0.4 + 0.3 * mobile + 0.3 * drive - 0.2 * peak);
    var parts := [(Some(speed), 0.35), (Some(parking), 0.25), (Some(early), 0.15),
                  (Some(mobile), 0.15), (Some(drive), 0.10)];
    assert parts == GrabParts(r);
    var sc := Combine(parts);
    var cues := GrabCues(r);
    var d := [];
    if drive >= 0.9 { d := d + ["drive-through"]; }
    assert d == Fire(cues[0]);
    if mobile >= 0.9 { d := d + ["mobile order"]; }
    assert d == Fire(cues[0]) + Fire(cues[1]);
    if early >= 0.6 { d := d + ["opens early"]; }
    FiredOfThree(cues[0], cues[1], cues[2]);
    assert d == Fired(cues);
    res := Finish(sc, d);
  }

  // ---------------------------------------------------------------------
  // Date-Night

  const DateWeights: seq<real> := [0.25, 0.20, 0.18, 0.15, 0.12, 0.10]

  predicate DateInputs(r: Shop, walk: Option<real>) {
    ScalarOr(r, "lighting_score", "aesthetic_score") && ScalarOr(r, "seating_comfort_score", "aesthetic_score") &&
    ScalarAt(r, "noise_score") && ScalarAt(r, "dessert_score") && ScalarAt(r, "aesthetic_score") &&
    ScalarAt(r, "cleanliness_score") && WellFormedHours(Get(r, "hours_json")) &&
    (walk.Some? || ScalarAt(r, "nearby_walkables_norm"))
  }

  function DateParts(r: Shop, walk: Option<real>): seq<Part> requires DateInputs(r, walk) {
    [(Some(Ambience(r)), 0.25), (Some(Dessert(r)), 0.20), (Some(Late(r)), 0.18),
     (Some(Aesthetics(r)), 0.15), (Walk(r, walk), 0.12), (Some(Cleanliness(r)), 0.10)]
  }

  function DateCues(r: Shop, walk: Option<real>): seq<(bool, string)> requires DateInputs(r, walk) {
    [(Truthy(Some(Ambience(r))) && Ambience(r) >= 0.65, "cozy ambience"),
     (Dessert(r) >= 0.65, "good desserts"), (Late(r) >= 0.6, "open late")]
  }

  function DateNightResult(r: Shop, walk: Option<real>): VibeResult requires DateInputs(r, walk) {
    Scored(DateParts(r, walk), DateCues(r, walk))
  }

  /** `date_night(r, walk)`. */
  method DateNight(r: Shop, walk: Option<real>) returns (res: VibeResult)
    requires DateInputs(r, walk)
    ensures res == DateNightResult(r, walk)
  {
    var amb, dessert, late, aest := Ambience(r), Dessert(r), Late(r), Aesthetics(r);
    var w, clean := Walk(r, walk), Cleanliness(r);
    var parts := [(Some(amb), 0.25), (Some(dessert), 0.20), (Some(late), 0.18),
                  (Some(aest), 0.15), (w, 0.12), (Some(clean), 0.10)];
    assert parts == DateParts(r, walk);
    var sc := Combine(parts);
    var cues := DateCues(r, walk);
    var d := [];
    if amb != 0.0 && amb >= 0.65 { d := d + ["cozy ambience"]; }
    assert d == Fire(cues[0]);
    if dessert >= 0.65 { d := d + ["good desserts"]; }
    assert d == Fire(cues[0]) + Fire(cues[1]);
    if late >= 0.6 { d := d + ["open late"]; }
    FiredOfThree(cues[0], cues[1], cues[2]);
    assert d == Fired(cues);
    res := Finish(sc, d);
  }

  // ---------------------------------------------------------------------
  // Dietary-Friendly

  const DietaryWeights: seq<real> := [0.40, 0.28, 0.12, 0.10, 0.10]

  predicate DietaryInputs(r: Shop) {
    ScalarAt(r, "df_milks") && ScalarAt(r, "ingredient_transparency_score") && ScalarAt(r, "cleanliness_score")
  }

  function DietaryParts(r: Shop): seq<Part> requires DietaryInputs(r) {
    [(Some(GlutenFree(r)), 0.40), (Some(DairyFree(r)), 0.28), (Some(NutFree(r)), 0.12),
     (Some(Labelling(r)), 0.10), (Some(Cleanliness(r)), 0.10)]
  }

  function DietaryCues(r: Shop): seq<(bool, string)> requires DietaryInputs(r) {
    [(GlutenFree(r) >= 0.9, "gluten-free options"), (DairyFree(r) >= 0.67, "dairy-free milks"),
     (NutFree(r) >= 0.9, "nut-free choices")]
  }

  function DietaryFriendlyResult(r: Shop): VibeResult requires DietaryInputs(r) {
    Scored(DietaryParts(r), DietaryCues(r))
  }

  /** `dietary_friendly(r)`. */
  method DietaryFriendly(r: Shop) returns (res: VibeResult)
    requires DietaryInputs(r)
    ensures res == DietaryFriendlyResult(r)
  {
    var gf, df, nut := GlutenFree(r), DairyFree(r), NutFree(r);
    var labels, clean := Labelling(r), Cleanliness(r);
    var parts := [(Some(gf), 0.40), (Some(df), 0.28), (Some(nut), 0.12),
                  (Some(labels), 0.10), (Some(clean), 0.10)];
    assert parts == DietaryParts(r);
    var sc := Combine(parts);
    var cues := DietaryCues(r);
    var d := [];
    if gf >= 0.9 { d := d + ["gluten-free options"]; }
    assert d == Fire(cues[0]);
    if df >= 0.67 { d := d + ["dairy-free milks"]; }
    assert d == Fire(cues[0]) + Fire(cues[1]);
    if nut >= 0.9 { d := d + ["nut-free choices"]; }
    FiredOfThree(cues[0], cues[1], cues[2]);
    assert d == Fired(cues);
    res := Finish(sc, d);
  }

  // ---------------------------------------------------------------------
  // Study-Spot

  const StudyWeights: seq<real> := [0.28, 0.22, 0.18, 0.12, 0.10, 0.10]

  predicate StudyInputs(r: Shop) {
    ScalarAt(r, "outlets_score") && ScalarAt(r, "seating_count") && ScalarAt(r, "wifi_score") &&
    ScalarAt(r, "price_index") && ScalarAt(r, "noise_score") && WellFormedHours(Get(r, "hours_json"))
  }

  function StudyParts(r: Shop): seq<Part> requires StudyInputs(r) {
    [(Some(Outlets(r)), 0.28), (Some(Seating(r)), 0.22), (Some(Wifi(r)), 0.18),
     (Some(Price(r)), 0.12), (Some(Late(r)), 0.10), (Some(Quietness(r)), 0.10)]
  }

  function StudyCues(r: Shop): seq<(bool, string)> requires StudyInputs(r) {
    [(Outlets(r) >= 0.6, "outlets available"), (Seating(r) >= 0.6, "ample seating"),
     (Price(r) >= 0.6, "budget-friendly")]
  }

  function StudySpotResult(r: Shop): VibeResult requires StudyInputs(r) {
    Scored(StudyParts(r), StudyCues(r))
  }

  /** `study_spot(r)`. */
  method StudySpot(r: Shop) returns (res: VibeResult)
    requires StudyInputs(r)
    ensures res == StudySpotResult(r)
  {
    var outlets, seating, wifi := Outlets(r), Seating(r), Wifi(r);
    var price, late, noiseInv := Price(r), Late(r), Quietness(r);
    var parts := [(Some(outlets), 0.28), (Some(seating), 0.22), (Some(wifi), 0.18),
                  (Some(price), 0.12), (Some(late), 0.10), (Some(noiseInv), 0.10)];
    assert parts == StudyParts(r);
    var sc := Combine(parts);
    var cues := StudyCues(r);
    var d := [];
    if outlets >= 0.6 { d := d + ["outlets available"]; }
    assert d == Fire(cues[0]);
    if seating >= 0.6 { d := d + ["ample seating"]; }
    assert d == Fire(cues[0]) + Fire(cues[1]);
    if price >= 0.6 { d := d + ["budget-friendly"]; }
    FiredOfThree(cues[0], cues[1], cues[2]);
    assert d == Fired(cues);
    res := Finish(sc, d);
  }

  // ---------------------------------------------------------------------
  // Family-Friendly

  const FamilyWeights: seq<real> := [0.30, 0.20, 0.18, 0.15, 0.10, 0.07]

  predicate FamilyInputs(r: Shop, parks: Option<real>) {
    ScalarOr(r, "space_score", "seating_comfort_score") && ScalarAt(r, "parking_score") &&
    ScalarAt(r, "noise_score") && ScalarOr(r, "kids_snacks_score", "dessert_score") &&
    (parks.Some? || ScalarAt(r, "nearby_parks_norm"))
  }

  function FamilyParts(r: Shop, parks: Option<real>): seq<Part> requires FamilyInputs(r, parks) {
    [(Some(Space(r)), 0.30), (Some(Restroom(r)), 0.20), (Some(Parking(r)), 0.18),
     (Some(NoiseTolerance(r)), 0.15), (Some(KidsSnacks(r)), 0.10), (Parks(r, parks), 0.07)]
  }

  function FamilyCues(r: Shop, parks: Option<real>): seq<(bool, string)> requires FamilyInputs(r, parks) {
    [(Space(r) >= 0.6, "roomy layout"), (Restroom(r) >= 0.9, "restroom access"),
     (Truthy(Parks(r, parks)) && Parks(r, parks).value >= 0.6, "park nearby")]
  }

  function FamilyFriendlyResult(r: Shop, parks: Option<real>): VibeResult requires FamilyInputs(r, parks) {
    Scored(FamilyParts(r, parks), FamilyCues(r, parks))
  }

  /** `family_friendly(r, parks)`. */
  method FamilyFriendly(r: Shop, parks: Option<real>) returns (res: VibeResult)
    requires FamilyInputs(r, parks)
    ensures res == FamilyFriendlyResult(r, parks)
  {
    var space, restroom, parking := Space(r), Restroom(r), Parking(r);
    var noiseTol, kids, p := NoiseTolerance(r), KidsSnacks(r), Parks(r, parks);
    var parts := [(Some(space), 0.30), (Some(restroom), 0.20), (Some(parking), 0.18),
                  (Some(noiseTol), 0.15), (Some(kids), 0.10), (p, 0.07)];
    assert parts == FamilyParts(r, parks);
    var sc := Combine(parts);
    var cues := FamilyCues(r, parks);
    var d := [];
    if space >= 0.6 { d := d + ["roomy layout"]; }
    assert d == Fire(cues[0]);
    if restroom >= 0.9 { d := d + ["restroom access"]; }
    assert d == Fire(cues[0]) + Fire(cues[1]);
    if p.Some? && p.value != 0.0 && p.value >= 0.6 { d := d + ["park nearby"]; }
    FiredOfThree(cues[0], cues[1], cues[2]);
    assert d == Fired(cues);
    res := Finish(sc, d);
  }

  // ---------------------------------------------------------------------
  // Properties shared by every scorer

  lemma UnitProduct(a: real, b: real)
    requires 0.0 <= a <= 1.0 && 0.0 <= b <= 1.0
    ensures 0.0 <= a * b <= a
  {
  }

  /** The score is the coverage-corrected blend on a 0..100 scale, rounded
      to one decimal: it never leaves [0, 100], it is within 0.05 of the
      unrounded value, and the label is the coverage band. */
  lemma ScoreInRange(parts: seq<Part>, cues: seq<(bool, string)>)
    ensures var res := Scored(parts, cues);
      && 0.0 <= res.score <= 100.0
      && OneDecimal(res.score)
      && -0.05 <= res.score - 100.0 * (Blend(parts) * (0.9 + 0.1 * Coverage(parts))) <= 0.05
      && res.coverage == Coverage(parts) && 0.0 <= res.coverage <= 1.0
      && res.confidence == Conf(res.coverage)
  {
    var sc := Combine(parts);
    assert sc == (Blend(parts), Coverage(parts));
    FinishInRange(sc, Fired(cues));
  }

  /** The same for any blend and coverage in [0, 1]. */
  lemma FinishInRange(sc: (real, real), d: seq<string>)
    requires 0.0 <= sc.0 <= 1.0 && 0.0 <= sc.1 <= 1.0
    ensures var res := Finish(sc, d);
      && 0.0 <= res.score <= 100.0
      && OneDecimal(res.score)
      && -0.05 <= res.score - 100.0 * (sc.0 * (0.9 + 0.1 * sc.1)) <= 0.05
      && res.coverage == sc.1
      && res.confidence == Conf(sc.1)
  {
    var m := 0.9 + 0.1 * sc.1;
    UnitProduct(sc.0, m);
    var x := 100.0 * (sc.0 * m);
    assert 0.0 <= x <= 100.0;
  }

  /** Rounding keeps the order of the values it rounds. */
  lemma Round1Monotone(x: real, y: real)
    requires x <= y
    ensures Round1(x) <= Round1(y)
  {
    var nx, ny := (x * 10.0).Floor, (y * 10.0).Floor;
    assert nx <= ny;
  }

  lemma {:induction false} FiredIsSubsequence(cues: seq<(bool, string)>)
    ensures IsSubsequence(Fired(cues), Phrases(cues))
  {
    if cues != [] {
      FiredIsSubsequence(cues[1..]);
      assert Phrases(cues)[0] == cues[0].1;
      assert Phrases(cues)[1..] == Phrases(cues[1..]);
      if cues[0].0 {
        assert Fired(cues)[0] == cues[0].1;
        assert Fired(cues)[1..] == Fired(cues[1..]);
      } else {
        assert Fired(cues) == Fired(cues[1..]);
      }
    }
  }

  lemma {:induction false} EmptyIsSubsequence(ys: seq<string>)
    ensures IsSubsequence([], ys)
  {
    if ys != [] {
      EmptyIsSubsequence(ys[1..]);
    }
  }

  lemma {:induction false} PrefixIsSubsequence(xs: seq<string>, ys: seq<string>, k: nat)
    requires k <= |xs| && IsSubsequence(xs, ys)
    ensures IsSubsequence(xs[..k], ys)
  {
    if k == 0 {
      EmptyIsSubsequence(ys);
    } else if xs[0] == ys[0] && IsSubsequence(xs[1..], ys[1..]) {
      assert xs[..k][0] == xs[0];
      assert xs[..k][1..] == xs[1..][..k - 1];
      PrefixIsSubsequence(xs[1..], ys[1..], k - 1);
    } else {
      PrefixIsSubsequence(xs, ys[1..], k);
    }
  }

  /** A phrase is among the fired ones exactly when one of its cues holds. */
  lemma {:induction false} FiredMembers(cues: seq<(bool, string)>, p: string)
    ensures p in Fired(cues) <==> exists j :: 0 <= j < |cues| && cues[j].0 && cues[j].1 == p
  {
    if cues != [] {
      FiredMembers(cues[1..], p);
      if exists j :: 0 <= j < |cues[1..]| && cues[1..][j].0 && cues[1..][j].1 == p {
        var j :| 0 <= j < |cues[1..]| && cues[1..][j].0 && cues[1..][j].1 == p;
        assert cues[j + 1] == cues[1..][j];
      }
      if exists j :: 0 <= j < |cues| && cues[j].0 && cues[j].1 == p {
        var j :| 0 <= j < |cues| && cues[j].0 && cues[j].1 == p;
        if j > 0 {
          assert cues[1..][j - 1] == cues[j];
        }
      }
    }
  }

  /** The drivers: at most three, taken in priority order from the phrases
      whose cue holds, all of them when no more than three hold. */
  lemma DriversArePriorityPrefix(parts: seq<Part>, cues: seq<(bool, string)>)
    ensures var d := Scored(parts, cues).drivers;
      && |d| <= 3
      && IsSubsequence(d, Phrases(cues))
      && d == Fired(cues)[..|d|]
      && (|Fired(cues)| <= 3 ==> d == Fired(cues))
      && (|Fired(cues)| >= 3 ==> |d| == 3)
      && (forall p :: p in d ==> exists j :: 0 <= j < |cues| && cues[j].0 && cues[j].1 == p)
  {
    var f := Fired(cues);
    var d := Scored(parts, cues).drivers;
    FiredIsSubsequence(cues);
    PrefixIsSubsequence(f, Phrases(cues), |d|);
    assert d == f[..|d|];
    forall p | p in d
      ensures exists j :: 0 <= j < |cues| && cues[j].0 && cues[j].1 == p
    {
      FiredMembers(cues, p);
    }
  }

  // ---------------------------------------------------------------------
  // Properties of the individual scorers

  /** Work-Friendly substitutes a default for every missing attribute, so
      every part is present: coverage is always 1 and the label High. */
  lemma WorkAlwaysFullyCovered(r: Shop)
    requires WorkInputs(r)
    ensures WorkFriendlyResult(r).coverage == 1.0 && WorkFriendlyResult(r).confidence == High
  {
    var parts := WorkParts(r);
    WorkWeightSum(r);
    FullCoverage(parts);
    assert WorkFriendlyResult(r).coverage == Coverage(parts);
  }

  lemma WorkWeightSum(r: Shop)
    requires WorkInputs(r)
    ensures TotalWeight(WorkParts(r)) == 1.0
  {
    var parts := WorkParts(r);
    WeightsAsSums(parts);
    assert DeclaredWeights(parts) == WorkWeights;
  }

  lemma AestheticAlwaysFullyCovered(r: Shop)
    requires AestheticInputs(r)
    ensures AestheticResult(r).coverage == 1.0 && AestheticResult(r).confidence == High
  {
    var parts := AestheticParts(r);
    WeightsAsSums(parts);
    assert DeclaredWeights(parts) == AestheticWeights;
    FullCoverage(parts);
  }

  lemma GrabAlwaysFullyCovered(r: Shop)
    requires GrabInputs(r)
    ensures GrabAndGoResult(r).coverage == 1.0 && GrabAndGoResult(r).confidence == High
  {
    var parts := GrabParts(r);
    WeightsAsSums(parts);
    assert DeclaredWeights(parts) == GrabWeights;
    FullCoverage(parts);
  }

  lemma DietaryAlwaysFullyCovered(r: Shop)
    requires DietaryInputs(r)
    ensures DietaryFriendlyResult(r).coverage == 1.0 && DietaryFriendlyResult(r).confidence == High
  {
    var parts := DietaryParts(r);
    WeightsAsSums(parts);
    assert DeclaredWeights(parts) == DietaryWeights;
    FullCoverage(parts);
  }

  lemma StudyAlwaysFullyCovered(r: Shop)
    requires StudyInputs(r)
    ensures StudySpotResult(r).coverage == 1.0 && StudySpotResult(r).confidence == High
  {
    var parts := StudyParts(r);
    WeightsAsSums(parts);
    assert DeclaredWeights(parts) == StudyWeights;
    FullCoverage(parts);
  }

  /** Date-Night loses exactly the walkability weight (0.12 of 1.0) when no
      walkability value is known, and is fully covered otherwise; either
      way the label is High. */
  lemma DateCoverage(r: Shop, walk: Option<real>)
    requires DateInputs(r, walk)
    ensures DateNightResult(r, walk).coverage == if Walk(r, walk).Some? then 1.0 else 0.88
    ensures DateNightResult(r, walk).confidence == High
  {
    DatePartsCoverage(r, walk);
  }

  lemma DatePartsCoverage(r: Shop, walk: Option<real>)
    requires DateInputs(r, walk)
    ensures Coverage(DateParts(r, walk)) == if Walk(r, walk).Some? then 1.0 else 0.88
  {
    var parts := DateParts(r, walk);
    DateWeightSums(r, walk);
    if Walk(r, walk).Some? {
      FullCoverage(parts);
    } else {
      assert PresentParts(parts) != [];
      CoverageIsPresentShare(parts);
    }
  }

  lemma DateWeightSums(r: Shop, walk: Option<real>)
    requires DateInputs(r, walk)
    ensures TotalWeight(DateParts(r, walk)) == 1.0
    ensures Walk(r, walk).None? ==> WeightSum(PresentParts(DateParts(r, walk))) == 0.88
  {
    var parts := DateParts(r, walk);
    WeightsAsSums(parts);
    assert DeclaredWeights(parts) == DateWeights;
    assert PositiveSum(DateWeights) == 1.0;
    if Walk(r, walk).None? {
      DateUsableWithoutWalk(r, walk);
    }
  }

  lemma DateUsableWithoutWalk(r: Shop, walk: Option<real>)
    requires DateInputs(r, walk) && Walk(r, walk).None?
    ensures WeightSum(PresentParts(DateParts(r, walk))) == 0.88
  {
    var parts := DateParts(r, walk);
    WeightsAsSums(parts);
    assert parts[4].0.None?;
    assert UsableWeights(parts) == [0.25, 0.20, 0.18, 0.15, 0.0, 0.10];
    assert PositiveSum([0.25, 0.20, 0.18, 0.15, 0.0, 0.10]) == 0.88;
  }


  /** Family-Friendly loses exactly the park weight (0.07 of 1.0) when no
      park value is known, and is fully covered otherwise. */
  lemma FamilyCoverage(r: Shop, parks: Option<real>)
    requires FamilyInputs(r, parks)
    ensures FamilyFriendlyResult(r, parks).coverage == if Parks(r, parks).Some? then 1.0 else 0.93
    ensures FamilyFriendlyResult(r, parks).confidence == High
  {
    FamilyPartsCoverage(r, parks);
  }

  lemma FamilyPartsCoverage(r: Shop, parks: Option<real>)
    requires FamilyInputs(r, parks)
    ensures Coverage(FamilyParts(r, parks)) == if Parks(r, parks).Some? then 1.0 else 0.93
  {
    var parts := FamilyParts(r, parks);
    FamilyWeightSums(r, parks);
    if Parks(r, parks).Some? {
      FullCoverage(parts);
    } else {
      assert PresentParts(parts) != [];
      CoverageIsPresentShare(parts);
    }
  }

  lemma FamilyWeightSums(r: Shop, parks: Option<real>)
    requires FamilyInputs(r, parks)
    ensures TotalWeight(FamilyParts(r, parks)) == 1.0
    ensures Parks(r, parks).None? ==> WeightSum(PresentParts(FamilyParts(r, parks))) == 0.93
  {
    var parts := FamilyParts(r, parks);
    WeightsAsSums(parts);
    assert DeclaredWeights(parts) == FamilyWeights;
    assert PositiveSum(FamilyWeights) == 1.0;
    if Parks(r, parks).None? {
      FamilyUsableWithoutParks(r, parks);
    }
  }

  lemma FamilyUsableWithoutParks(r: Shop, parks: Option<real>)
    requires FamilyInputs(r, parks) && Parks(r, parks).None?
    ensures WeightSum(PresentParts(FamilyParts(r, parks))) == 0.93
  {
    var parts := FamilyParts(r, parks);
    WeightsAsSums(parts);
    assert parts[5].0.None?;
    assert UsableWeights(parts) == [0.30, 0.20, 0.18, 0.15, 0.10, 0.0];
    assert PositiveSum([0.30, 0.20, 0.18, 0.15, 0.10, 0.0]) == 0.93;
  }


  /** Work-Friendly tests four cues but keeps three drivers: "open late" is
      named exactly when the late share reaches 0.5 and not all three
      earlier cues fire. */
  lemma WorkOpenLateCrowdedOut(r: Shop)
    requires WorkInputs(r)
    ensures var first3 := Wifi(r) >= 0.7 && Outlets(r) >= 0.6 && Quietness(r) >= 0.6;
      && (first3 ==> WorkFriendlyResult(r).drivers == ["reliable Wi\U{2011}Fi", "many outlets", "lower noise"])
      && ("open late" in WorkFriendlyResult(r).drivers <==> !first3 && Late(r) >= 0.5)
  {
    var c := WorkCues(r);
    FiredOfFour(c[0], c[1], c[2], c[3]);
  }

  /** The service speed never needs its clamp: mobile order and
      drive-through are 0 or 1 and the penalty is in [0, 1] (0.2 when
      missing), so the speed lies in [0.2, 1]. */
  lemma SpeedNeedsNoClamp(r: Shop)
    requires ScalarAt(r, "peak_busy_penalty")
    ensures MobileOrder(r) == 0.0 || MobileOrder(r) == 1.0
    ensures DriveThrough(r) == 0.0 || DriveThrough(r) == 1.0
    ensures 0.0 <= PeakPenalty(r) <= 1.0
    ensures Absent(Get(r, "peak_busy_penalty")) ==> PeakPenalty(r) == 0.2
    ensures Speed(r) == 0.4 + 0.3 * MobileOrder(r) + 0.3 * DriveThrough(r) - 0.2 * PeakPenalty(r)
    ensures 0.2 <= Speed(r) <= 1.0
  {
  }

  /** A present rating of 0 is read like a missing one, because the default
      is substituted with Python's `or`: Work-Friendly cannot tell a shop
      with Wi-Fi rated 0 from one with no Wi-Fi rating. */
  lemma ZeroWifiReadsAsMissing(r: Shop)
    requires WorkInputs(r)
    ensures WorkInputs(r["wifi_score" := Num(0.0)]) && WorkInputs(r - {"wifi_score"})
    ensures WorkFriendlyResult(r["wifi_score" := Num(0.0)]) == WorkFriendlyResult(r - {"wifi_score"})
    ensures Wifi(r["wifi_score" := Num(0.0)]) == 0.6
  {
    var z, m := r["wifi_score" := Num(0.0)], r - {"wifi_score"};
    forall k | k != "wifi_score" ensures Get(z, k) == Get(r, k) && Get(m, k) == Get(r, k) { }
    assert Get(z, "wifi_score") == Num(0.0) && Get(m, "wifi_score") == Null;
    assert Wifi(z) == 0.6 && Wifi(m) == 0.6;
    assert Outlets(z) == Outlets(m) && Quietness(z) == Quietness(m) && Seating(z) == Seating(m);
    assert Restroom(z) == Restroom(m) && Late(z) == Late(m);
    assert Cleanliness(z) == Cleanliness(m) && Parking(z) == Parking(m);
    assert WorkParts(z) == WorkParts(m);
    assert WorkCues(z) == WorkCues(m);
  }

  /** A shop with no gluten-free food, no dairy-free milk and no nut-free
      choices, and no other dietary data, still scores 12.0: labelling and
      cleanliness default to 0.6 and every part counts as present. */
  lemma DietaryWithoutOptionsScoresTwelve()
    ensures var r := map["gf_food" := Bool(false), "df_milks" := Num(0.0), "nut_free" := Bool(false)];
      DietaryInputs(r) && DietaryFriendlyResult(r) == VibeResult(12.0, 1.0, High, [])
  {
    var r := map["gf_food" := Bool(false), "df_milks" := Num(0.0), "nut_free" := Bool(false)];
    var parts := [(Some(0.0), 0.40), (Some(0.0), 0.28), (Some(0.0), 0.12), (Some(0.6), 0.10), (Some(0.6), 0.10)];
    assert DietaryParts(r) == parts;
    DefaultsOnlyBlend();
    var c := DietaryCues(r);
    FiredOfThree(c[0], c[1], c[2]);
    assert OneDecimal(12.0);
  }

  lemma DefaultsOnlyBlend()
    ensures Combine([(Some(0.0), 0.40), (Some(0.0), 0.28), (Some(0.0), 0.12), (Some(0.6), 0.10), (Some(0.6), 0.10)]) == (0.12, 1.0)
  {
    var parts := [(Some(0.0), 0.40), (Some(0.0), 0.28), (Some(0.0), 0.12), (Some(0.6), 0.10), (Some(0.6), 0.10)];
    assert PresentParts(parts) == [(0.0, 0.40), (0.0, 0.28), (0.0, 0.12), (0.6, 0.10), (0.6, 0.10)];
    assert TotalWeight(parts) == 1.0;
  }

}
