/** The footprint analyser page: the local footprint computation (emission breakdown,
    category totals, green score and trend), the custom-profile questionnaire and the
    page's session state. */
module Analyzer {
  import opened Common

  /** The form values the page computes on: a dictionary of numeric answers. */
  type Form = map<string, real>

  datatype Breakdown = Breakdown(
    electricity: real, naturalGas: real, car: real, bus: real, food: real, goods: real)

  datatype Totals = Totals(total: real, energy: real, travel: real, food: real, goods: real)

  datatype TrendPoint = TrendPoint(month: string, value: real)

  /** The result the page stores as `last_result`. */
  datatype Footprint = Footprint(totals: Totals, score: int, breakdown: Breakdown, trend: seq<TrendPoint>)

  // ---------------------------------------------------------------------------
  // Emission breakdown and totals
  // ---------------------------------------------------------------------------

  /** Every numeric answer is non-negative, as the page's sliders guarantee. */
  predicate NonNegativeForm(f: Form) {
    forall k :: k in f ==> f[k] >= 0.0
  }

  predicate NonNegativeBreakdown(b: Breakdown) {
    b.electricity >= 0.0 && b.naturalGas >= 0.0 && b.car >= 0.0 && b.bus >= 0.0
    && b.food >= 0.0 && b.goods >= 0.0
  }

  /** Per-activity emissions: each activity times its fixed factor, the daily food
      estimate times 30, goods taken as given. A missing key counts as 0, except the
      food estimate, which counts as 3.5 kg a day. */
  function ComputeBreakdown(f: Form): (b: Breakdown)
    ensures NonNegativeForm(f) ==> NonNegativeBreakdown(b)
    ensures "foodEmissions" !in f ==> b.food == 105.0
  {
    Breakdown(
      GetOr(f, "electricityKwh", 0.0) * ElectricityFactor,
      GetOr(f, "naturalGasTherms", 0.0) * NaturalGasFactor,
      GetOr(f, "carKm", 0.0) * CarFactor,
      GetOr(f, "busKm", 0.0) * BusFactor,
      GetOr(f, "foodEmissions", 3.5) * DaysPerMonth,
      GetOr(f, "goodsEmissions", 0.0))
  }

  /** Each breakdown field is linear in its own answer: scaling that answer by c
      scales the field by c and leaves the other fields alone. */
  lemma BreakdownLinear(f: Form, c: real)
    ensures var b, b' := ComputeBreakdown(f), ComputeBreakdown(f["electricityKwh" := c * GetOr(f, "electricityKwh", 0.0)]);
      b'.electricity == c * b.electricity && b' == b.(electricity := b'.electricity)
    ensures var b, b' := ComputeBreakdown(f), ComputeBreakdown(f["naturalGasTherms" := c * GetOr(f, "naturalGasTherms", 0.0)]);
      b'.naturalGas == c * b.naturalGas && b' == b.(naturalGas := b'.naturalGas)
    ensures var b, b' := ComputeBreakdown(f), ComputeBreakdown(f["carKm" := c * GetOr(f, "carKm", 0.0)]);
      b'.car == c * b.car && b' == b.(car := b'.car)
    ensures var b, b' := ComputeBreakdown(f), ComputeBreakdown(f["busKm" := c * GetOr(f, "busKm", 0.0)]);
      b'.bus == c * b.bus && b' == b.(bus := b'.bus)
    ensures var b, b' := ComputeBreakdown(f), ComputeBreakdown(f["foodEmissions" := c * GetOr(f, "foodEmissions", 3.5)]);
      b'.food == c * b.food && b' == b.(food := b'.food)
    ensures var b, b' := ComputeBreakdown(f), ComputeBreakdown(f["goodsEmissions" := c * GetOr(f, "goodsEmissions", 0.0)]);
      b'.goods == c * b.goods && b' == b.(goods := b'.goods)
  {
  }

  /** Category totals. The total is the sum of the six activities, in the order the
      page adds them. */
  function ComputeTotals(b: Breakdown): (t: Totals)
    ensures t.total == t.energy + t.travel + t.food + t.goods
    ensures t.energy == b.electricity + b.naturalGas && t.travel == b.car + b.bus
    ensures t.food == b.food && t.goods == b.goods
    ensures NonNegativeBreakdown(b) ==> t.total >= t.energy >= 0.0 && t.total >= t.travel >= 0.0
  {
    Totals(
      b.electricity + b.naturalGas + b.car + b.bus + b.food + b.goods,
      b.electricity + b.naturalGas,
      b.car + b.bus,
      b.food,
      b.goods)
  }

  // ---------------------------------------------------------------------------
  // Green score
  // ---------------------------------------------------------------------------

  /** Tiered points for one category: 25 at or under the first limit, then 20, 15
      and 10 for the next limits, and 5 above the last. */
  function BandPoints(usage: real, l1: real, l2: real, l3: real, l4: real): (p: int)
    ensures p in {5, 10, 15, 20, 25}
    ensures usage <= l1 <==> p == 25
  {
    if usage <= l1 then 25
    else if usage <= l2 then 20
    else if usage <= l3 then 15
    else if usage <= l4 then 10
    else 5
  }

  /** More usage never earns more points, whatever the limits. */
  lemma BandPointsMonotone(u: real, v: real, l1: real, l2: real, l3: real, l4: real)
    requires u <= v
    ensures BandPoints(v, l1, l2, l3, l4) <= BandPoints(u, l1, l2, l3, l4)
  {
  }

  function EnergyPoints(energyKg: real): int { BandPoints(energyKg, 200.0, 400.0, 600.0, 800.0) }

  /** Transport points look at car emissions only. */
  function TransportPoints(carKg: real): int { BandPoints(carKg, 50.0, 150.0, 300.0, 500.0) }

  function FoodPoints(foodKg: real): int { BandPoints(foodKg, 60.0, 90.0, 120.0, 150.0) }

  function GoodsPoints(goodsKg: real): int { BandPoints(goodsKg, 100.0, 200.0, 300.0, 400.0) }

  /** The sum of the four category points, before any profile adjustment. */
  function RawScore(b: Breakdown): (s: int)
    ensures 20 <= s <= 100 && s % 5 == 0
    ensures s == 100 <==>
      b.electricity + b.naturalGas <= 200.0 && b.car <= 50.0 && b.food <= 60.0 && b.goods <= 100.0
  {
    EnergyPoints(b.electricity + b.naturalGas) + TransportPoints(b.car) + FoodPoints(b.food)
    + GoodsPoints(b.goods)
  }

  /** Bus travel never moves the score. */
  lemma RawScoreIgnoresBus(b: Breakdown, busKg: real)
    ensures RawScore(b.(bus := busKg)) == RawScore(b)
  {
  }

  /** Growing one category's emissions, the others fixed, never raises the raw score. */
  lemma RawScoreMonotone(b: Breakdown, b': Breakdown)
    requires b'.electricity + b'.naturalGas >= b.electricity + b.naturalGas
    requires b'.car >= b.car && b'.food >= b.food && b'.goods >= b.goods
    ensures RawScore(b') <= RawScore(b)
  {
    BandPointsMonotone(b.electricity + b.naturalGas, b'.electricity + b'.naturalGas, 200.0, 400.0, 600.0, 800.0);
    BandPointsMonotone(b.car, b'.car, 50.0, 150.0, 300.0, 500.0);
    BandPointsMonotone(b.food, b'.food, 60.0, 90.0, 120.0, 150.0);
    BandPointsMonotone(b.goods, b'.goods, 100.0, 200.0, 300.0, 400.0);
  }

  /** The profile adjustments, tried in this order; the first that applies wins. */
  datatype Adjustment = EcoBonus | StudentBonus | TravelPenalty | NoAdjustment

  predicate IsEcoProfile(f: Form) {
    && GetOr(f, "electricityKwh", 0.0) <= 250.0
    && GetOr(f, "naturalGasTherms", 0.0) <= 40.0
    && GetOr(f, "carKm", 0.0) <= 150.0
    && GetOr(f, "foodEmissions", 3.5) <= 2.0
    && GetOr(f, "goodsEmissions", 0.0) <= 150.0
  }

  predicate IsStudentProfile(f: Form) {
    GetOr(f, "electricityKwh", 0.0) <= 200.0 && GetOr(f, "carKm", 0.0) <= 100.0
  }

  predicate IsHeavyTraveller(f: Form) {
    GetOr(f, "carKm", 0.0) >= 1000.0 || GetOr(f, "flights_per_year", 0.0) >= 8.0
  }

  function SelectAdjustment(f: Form): (a: Adjustment)
    ensures a == EcoBonus <==> IsEcoProfile(f)
    ensures a == StudentBonus <==> !IsEcoProfile(f) && IsStudentProfile(f)
    ensures a == TravelPenalty <==> !IsEcoProfile(f) && !IsStudentProfile(f) && IsHeavyTraveller(f)
  {
    if IsEcoProfile(f) then EcoBonus
    else if IsStudentProfile(f) then StudentBonus
    else if IsHeavyTraveller(f) then TravelPenalty
    else NoAdjustment
  }

  function Min(a: int, b: int): int { if a <= b then a else b }
  function Max(a: int, b: int): int { if a >= b then a else b }

  /** The adjusted score: a bonus is capped (95 for Eco, 90 for Student), the
      penalty is floored at 30. */
  function Adjust(a: Adjustment, s: int): (r: int)
    ensures a == EcoBonus ==> r <= 95 && r <= s + 15 && (r == 95 || r == s + 15)
    ensures a == StudentBonus ==> r <= 90 && r <= s + 10 && (r == 90 || r == s + 10)
    ensures a == TravelPenalty ==> r >= 30 && r >= s - 10 && (r == 30 || r == s - 10)
    ensures a == NoAdjustment ==> r == s
    ensures s % 5 == 0 ==> r % 5 == 0
  {
    match a
    case EcoBonus => Min(95, s + 15)
    case StudentBonus => Min(90, s + 10)
    case TravelPenalty => Max(30, s - 10)
    case NoAdjustment => s
  }

  function Clamp(lo: int, hi: int, s: int): (r: int)
    requires lo <= hi
    ensures lo <= r <= hi
    ensures lo <= s <= hi ==> r == s
    ensures s < lo ==> r == lo
    ensures s > hi ==> r == hi
  {
    Max(lo, Min(hi, s))
  }

  /** The green score of a form. */
  function GreenScore(f: Form): (s: int)
    ensures 10 <= s <= 95 && s % 5 == 0
  {
    var raw := RawScore(ComputeBreakdown(f));
    var adjusted := Adjust(SelectAdjustment(f), raw);
    assert adjusted % 5 == 0;
    Clamp(10, 95, adjusted)
  }

  /** What each branch of the cascade guarantees about the final score. */
  lemma GreenScoreByAdjustment(f: Form)
    ensures var raw, s := RawScore(ComputeBreakdown(f)), GreenScore(f);
      && (SelectAdjustment(f) == EcoBonus ==> s == Min(95, raw + 15) && s >= 35)
      && (SelectAdjustment(f) == StudentBonus ==> s == Min(90, raw + 10) && 30 <= s <= 90)
      && (SelectAdjustment(f) == TravelPenalty ==> s == Max(30, raw - 10) && 30 <= s <= 90)
      && (SelectAdjustment(f) == NoAdjustment ==> s == Min(95, raw))
  {
  }

  /** The Eco bonus and the absence of an adjustment never score below the raw
      points (capped at 95). */
  lemma BonusNeverLowersScore(f: Form)
    requires SelectAdjustment(f) in {EcoBonus, NoAdjustment}
    ensures GreenScore(f) >= Min(95, RawScore(ComputeBreakdown(f)))
  {
  }

  /** The Student bonus is not a bonus for every student: its cap of 90 lowers a raw
      95 to 90. */
  lemma StudentBonusCanLowerScore()
    ensures var f := map["naturalGasTherms" := 41.0, "foodEmissions" := 2.0];
      SelectAdjustment(f) == StudentBonus && RawScore(ComputeBreakdown(f)) == 95 && GreenScore(f) == 90
  {
    var f := map["naturalGasTherms" := 41.0, "foodEmissions" := 2.0];
    assert ComputeBreakdown(f) == Breakdown(0.0, 217.3, 0.0, 0.0, 60.0, 0.0);
  }

  // ---------------------------------------------------------------------------
  // Trend
  // ---------------------------------------------------------------------------

  const TrendLabels: seq<string> := ["Jan", "Feb", "Mar", "Apr", "May", "Jun"]
  const TrendMultipliers: seq<real> := [0.9, 0.95, 1.0, 1.05, 1.1, 1.05]

  /** The illustrative six-month trend around the total. */
  function Trend(total: real): (t: seq<TrendPoint>)
    ensures |t| == 6
    ensures forall i :: 0 <= i < 6 ==> t[i].month == TrendLabels[i] && t[i].value == total * TrendMultipliers[i]
    ensures t[2].value == total
    ensures total >= 0.0 ==> t[0].value <= t[1].value <= t[2].value <= t[3].value <= t[4].value
    ensures t[5].value == t[3].value
  {
    seq(6, i requires 0 <= i < 6 => TrendPoint(TrendLabels[i], total * TrendMultipliers[i]))
  }

  // ---------------------------------------------------------------------------
  // The whole local computation
  // ---------------------------------------------------------------------------

  /** The page's local footprint computation. */
  function ImprovedLocalCompute(f: Form): (r: Footprint)
    ensures r.breakdown == ComputeBreakdown(f)
    ensures r.totals.total == r.totals.energy + r.totals.travel + r.totals.food + r.totals.goods
    ensures r.totals.energy == r.breakdown.electricity + r.breakdown.naturalGas
    ensures r.totals.travel == r.breakdown.car + r.breakdown.bus
    ensures r.totals.food == r.breakdown.food && r.totals.goods == r.breakdown.goods
    ensures r.score == GreenScore(f) && 10 <= r.score <= 95 && r.score % 5 == 0
    ensures r.trend == Trend(r.totals.total) && r.trend[2].value == r.totals.total
    ensures NonNegativeForm(f) ==> r.totals.total >= 0.0
  {
    var b := ComputeBreakdown(f);
    Footprint(ComputeTotals(b), GreenScore(f), b, Trend(ComputeTotals(b).total))
  }

  /** An empty form: only the 3.5 kg a day food default contributes, and the
      Student bonus (no electricity, no car) caps the raw 90 at 90. */
  lemma EmptyFormFootprint()
    ensures ImprovedLocalCompute(map[]).totals == Totals(105.0, 0.0, 0.0, 105.0, 0.0)
    ensures SelectAdjustment(map[]) == StudentBonus && ImprovedLocalCompute(map[]).score == 90
  {
    var f: Form := map[];
    var b := ComputeBreakdown(f);
    assert b == Breakdown(0.0, 0.0, 0.0, 0.0, 105.0, 0.0);
    assert EnergyPoints(0.0) == 25 && TransportPoints(0.0) == 25 && GoodsPoints(0.0) == 25;
    assert FoodPoints(105.0) == 15;
    assert RawScore(b) == 90;
    assert !IsEcoProfile(f) && IsStudentProfile(f);
    assert GreenScore(f) == Clamp(10, 95, Adjust(StudentBonus, 90));
  }

  // ---------------------------------------------------------------------------
  // Demo profiles and the score ranges the dashboard announces for them
  // ---------------------------------------------------------------------------

  const UrbanCommuter: Form := map[
    "electricityKwh" := 350.0, "naturalGasTherms" := 60.0, "carKm" := 600.0, "busKm" := 100.0,
    "foodEmissions" := 3.5, "goodsEmissions" := 250.0, "residents" := 2.0, "flights_per_year" := 4.0]

  const StudentHostel: Form := map[
    "electricityKwh" := 150.0, "naturalGasTherms" := 20.0, "carKm" := 50.0, "busKm" := 200.0,
    "foodEmissions" := 2.0, "goodsEmissions" := 150.0, "residents" := 4.0, "flights_per_year" := 2.0]

  const FrequentFlyer: Form := map[
    "electricityKwh" := 400.0, "naturalGasTherms" := 80.0, "carKm" := 1200.0, "busKm" := 50.0,
    "foodEmissions" := 4.5, "goodsEmissions" := 300.0, "residents" := 3.0, "flights_per_year" := 12.0]

  const EcoWarrior: Form := map[
    "electricityKwh" := 200.0, "naturalGasTherms" := 30.0, "carKm" := 100.0, "busKm" := 150.0,
    "foodEmissions" := 1.5, "goodsEmissions" := 100.0, "residents" := 2.0, "flights_per_year" := 1.0]

  const DemoProfiles: map<string, Form> := map[
    "Urban Commuter" := UrbanCommuter, "Student Hostel" := StudentHostel,
    "Frequent Flyer" := FrequentFlyer, "Eco Warrior" := EcoWarrior]

  /** The "Expected Score Range" the dashboard shows for each demo profile. */
  const ExpectedRanges: map<string, (int, int)> := map[
    "Eco Warrior" := (85, 95), "Student Hostel" := (75, 85),
    "Urban Commuter" := (55, 65), "Frequent Flyer" := (35, 45)]

  predicate InExpectedRange(name: string, score: int)
    requires name in ExpectedRanges
  {
    ExpectedRanges[name].0 <= score <= ExpectedRanges[name].1
  }

  /** Urban Commuter: no adjustment applies, and the raw 60 stands. */
  lemma UrbanCommuterScore()
    ensures GreenScore(UrbanCommuter) == 60 && InExpectedRange("Urban Commuter", 60)
  {
    var b := ComputeBreakdown(UrbanCommuter);
    assert b == Breakdown(287.0, 318.0, 126.0, 9.0, 105.0, 250.0);
    assert RawScore(b) == 10 + 20 + 15 + 15;
    assert SelectAdjustment(UrbanCommuter) == NoAdjustment;
  }

  /** Frequent Flyer: the raw 50 loses the 10-point travel penalty. */
  lemma FrequentFlyerScore()
    ensures GreenScore(FrequentFlyer) == 40 && InExpectedRange("Frequent Flyer", 40)
  {
    var b := ComputeBreakdown(FrequentFlyer);
    assert b == Breakdown(328.0, 424.0, 252.0, 4.5, 135.0, 300.0);
    assert RawScore(b) == 10 + 15 + 10 + 15;
    assert SelectAdjustment(FrequentFlyer) == TravelPenalty;
  }

  /** Eco Warrior: the raw 95 gains the Eco bonus, capped at 95. */
  lemma EcoWarriorScore()
    ensures GreenScore(EcoWarrior) == 95 && InExpectedRange("Eco Warrior", 95)
  {
    var b := ComputeBreakdown(EcoWarrior);
    assert b == Breakdown(164.0, 159.0, 21.0, 13.5, 45.0, 100.0);
    assert RawScore(b) == 20 + 25 + 25 + 25;
    assert SelectAdjustment(EcoWarrior) == EcoBonus;
  }

  /** Three demo profiles score inside their announced ranges. */
  lemma DemoScoresInRange()
    ensures GreenScore(UrbanCommuter) == 60 && InExpectedRange("Urban Commuter", 60)
    ensures GreenScore(FrequentFlyer) == 40 && InExpectedRange("Frequent Flyer", 40)
    ensures GreenScore(EcoWarrior) == 95 && InExpectedRange("Eco Warrior", 95)
  {
    UrbanCommuterScore();
    FrequentFlyerScore();
    EcoWarriorScore();
  }

  /** The Student Hostel demo qualifies for the Eco bonus (its food estimate is
      exactly 2.0) and scores 95, outside the 75-85 the dashboard announces for it. */
  lemma StudentHostelOutsideExpectedRange()
    ensures SelectAdjustment(StudentHostel) == EcoBonus
    ensures GreenScore(StudentHostel) == 95 && !InExpectedRange("Student Hostel", 95)
  {
    assert ComputeBreakdown(StudentHostel) == Breakdown(123.0, 106.0, 10.5, 18.0, 60.0, 150.0);
  }

  // ---------------------------------------------------------------------------
  // Custom profile questionnaire
  // ---------------------------------------------------------------------------

  /** The questionnaire's answers: numbers from sliders and number inputs, text from
      select boxes. */
  datatype Answers = Answers(numbers: map<string, real>, texts: map<string, string>)

  /** The dictionary `process_custom_profile` builds. */
  datatype CustomProfile = CustomProfile(
    electricityKwh: real, naturalGasTherms: real, carKm: real, busKm: real,
    foodEmissions: real, goodsEmissions: real, housingType: Option<string>,
    residents: real, flightsPerYear: real, foodOrganic: real, shoppingFrequency: string)

  /** Daily food estimate for the selected diet; an unknown diet counts as 3.5. */
  function DietEmissions(dietType: string): (kg: real)
    ensures 1.5 <= kg <= 4.5
  {
    if dietType == "Vegan" then 1.5
    else if dietType == "Vegetarian" then 2.0
    else if dietType == "Pescatarian" then 2.5
    else if dietType == "Flexitarian" then 3.0
    else if dietType == "Omnivore (balanced)" then 3.5
    else if dietType == "Omnivore (meat-heavy)" then 4.5
    else 3.5
  }

  /** `v` is the answer recorded under `k`, or `default` when there is none. */
  predicate AnsweredOr<T(==)>(answers: map<string, T>, k: string, v: T, default: T) {
    (k in answers ==> v == answers[k]) && (k !in answers ==> v == default)
  }

  /** Questionnaire answers to calculation inputs: every answer kept, every
      unanswered field given its default. */
  function ProcessCustomProfile(data: Answers): (p: CustomProfile)
    ensures AnsweredOr(data.numbers, "electricityKwh", p.electricityKwh, 300.0)
    ensures AnsweredOr(data.numbers, "naturalGasTherms", p.naturalGasTherms, 50.0)
    ensures AnsweredOr(data.numbers, "carKm", p.carKm, 0.0)
    ensures AnsweredOr(data.numbers, "busKm", p.busKm, 0.0)
    ensures AnsweredOr(data.numbers, "foodEmissions", p.foodEmissions, 3.5)
    ensures AnsweredOr(data.numbers, "goodsEmissions", p.goodsEmissions, 200.0)
    ensures AnsweredOr(data.numbers, "residents", p.residents, 2.0)
    ensures AnsweredOr(data.numbers, "flights_per_year", p.flightsPerYear, 0.0)
    ensures AnsweredOr(data.numbers, "food_organic", p.foodOrganic, 20.0)
    ensures AnsweredOr(data.texts, "shopping_frequency", p.shoppingFrequency, "Moderate")
    ensures "housing_type" in data.texts ==> p.housingType == Some(data.texts["housing_type"])
    ensures "housing_type" !in data.texts ==> p.housingType == None
  {
    CustomProfile(
      GetOr(data.numbers, "electricityKwh", 300.0),
      GetOr(data.numbers, "naturalGasTherms", 50.0),
      GetOr(data.numbers, "carKm", 0.0),
      GetOr(data.numbers, "busKm", 0.0),
      GetOr(data.numbers, "foodEmissions", 3.5),
      GetOr(data.numbers, "goodsEmissions", 200.0),
      if "housing_type" in data.texts then Some(data.texts["housing_type"]) else None,
      GetOr(data.numbers, "residents", 2.0),
      GetOr(data.numbers, "flights_per_year", 0.0),
      GetOr(data.numbers, "food_organic", 20.0),
      if "shopping_frequency" in data.texts then data.texts["shopping_frequency"] else "Moderate")
  }

  /** The numeric entries of the processed profile, as the analyser reads them. */
  function ProfileForm(p: CustomProfile): (f: Form)
    ensures |f| == 9
  {
    map[
      "electricityKwh" := p.electricityKwh, "naturalGasTherms" := p.naturalGasTherms,
      "carKm" := p.carKm, "busKm" := p.busKm, "foodEmissions" := p.foodEmissions,
      "goodsEmissions" := p.goodsEmissions, "residents" := p.residents,
      "flights_per_year" := p.flightsPerYear, "food_organic" := p.foodOrganic]
  }

  /** The processed profile read back as questionnaire answers. */
  function ProfileAnswers(p: CustomProfile): Answers {
    Answers(
      ProfileForm(p),
      (if p.housingType.Some? then map["housing_type" := p.housingType.value] else map[])
        + map["shopping_frequency" := p.shoppingFrequency])
  }

  /** A processed profile, read back as answers, processes to itself: every field
      it holds is an answer, so no default applies. */
  lemma ProfileAnswersRoundTrip(p: CustomProfile)
    ensures ProcessCustomProfile(ProfileAnswers(p)) == p
  {
    var a := ProfileAnswers(p);
    var q := ProcessCustomProfile(a);
    assert a.numbers == ProfileForm(p);
    assert "housing_type" in a.texts <==> p.housingType.Some?;
    assert a.texts["shopping_frequency"] == p.shoppingFrequency;
    assert q.housingType == p.housingType;
  }

  /** Processing an already processed profile changes nothing. */
  lemma ProcessCustomProfileIdempotent(data: Answers)
    ensures ProcessCustomProfile(ProfileAnswers(ProcessCustomProfile(data))) == ProcessCustomProfile(data)
  {
    ProfileAnswersRoundTrip(ProcessCustomProfile(data));
  }

  /** `process_custom_profile` with no answers at all scores 75. The questionnaire
      never produces that input: every step writes its widgets' values. */
  lemma DefaultCustomProfileScore()
    ensures GreenScore(ProfileForm(ProcessCustomProfile(Answers(map[], map[])))) == 75
  {
    var f := ProfileForm(ProcessCustomProfile(Answers(map[], map[])));
    assert ComputeBreakdown(f) == Breakdown(246.0, 265.0, 0.0, 0.0, 105.0, 200.0);
    assert SelectAdjustment(f) == NoAdjustment;
  }

  /** What the questionnaire has collected when "Complete" is pressed without any
      widget being touched: each of the first four steps writes its widgets'
      starting values (the first option of every select box and select slider), and
      the Omnivore (balanced) diet becomes 3.5 kg a day. The last step's multiselect
      holds a list and is not an Answers entry. */
  const UntouchedAnswers: Answers := Answers(
    map["residents" := 2.0, "electricityKwh" := 300.0, "naturalGasTherms" := 50.0,
        "carKm" := 300.0, "busKm" := 50.0, "commute_days" := 5.0, "flights_per_year" := 2.0,
        "food_organic" := 20.0, "foodEmissions" := 3.5,
        "shopping_online" := 30.0, "goodsEmissions" := 200.0],
    map["housing_type" := "Apartment/Condo", "home_size" := "Small (< 100m²)", "heating_type" := "Natural Gas",
        "commute_method" := "Car (driver)", "car_type" := "Don't own a car",
        "diet_type" := "Omnivore (balanced)", "food_waste" := "Minimal",
        "shopping_frequency" := "Minimalist", "willingness_change" := "Not willing"])

  /** The processed profile of an untouched questionnaire: the widgets' starting
      values, and "Minimalist" rather than the "Moderate" default for shopping. */
  const UntouchedProfile: CustomProfile :=
    CustomProfile(300.0, 50.0, 300.0, 50.0, 3.5, 200.0, Some("Apartment/Condo"), 2.0, 2.0, 20.0, "Minimalist")

  /** The food figure the untouched questionnaire records is the one its diet gives. */
  lemma UntouchedDietEmissions()
    ensures DietEmissions(UntouchedAnswers.texts["diet_type"]) == UntouchedAnswers.numbers["foodEmissions"]
  {
    assert UntouchedAnswers.texts["diet_type"] == "Omnivore (balanced)";
  }

  lemma UntouchedAnswersProcess()
    ensures ProcessCustomProfile(UntouchedAnswers) == UntouchedProfile
  {
    var n := UntouchedAnswers.numbers;
    assert n["electricityKwh"] == 300.0 && n["naturalGasTherms"] == 50.0;
    assert n["carKm"] == 300.0 && n["busKm"] == 50.0 && n["flights_per_year"] == 2.0;
    assert n["residents"] == 2.0 && n["food_organic"] == 20.0;
    assert n["foodEmissions"] == 3.5 && n["goodsEmissions"] == 200.0;
  }

  /** An untouched questionnaire scores 70: energy 511 kg (15 points), car 63 kg
      (20), food 105 kg (15) and goods 200 kg (20), and no adjustment applies, since
      electricity 300 exceeds both the Eco and the Student limit and 300 km and 2
      flights stay below the travel thresholds. */
  lemma UntouchedQuestionnaireScore()
    ensures GreenScore(ProfileForm(ProcessCustomProfile(UntouchedAnswers))) == 70
  {
    UntouchedAnswersProcess();
    UntouchedProfileScore();
  }

  lemma UntouchedProfileScore()
    ensures GreenScore(ProfileForm(UntouchedProfile)) == 70
  {
    var f := ProfileForm(UntouchedProfile);
    var b := ComputeBreakdown(f);
    assert b == Breakdown(246.0, 265.0, 63.0, 4.5, 105.0, 200.0);
    assert RawScore(b) == 15 + 20 + 15 + 20;
    assert SelectAdjustment(f) == NoAdjustment;
  }

  // ---------------------------------------------------------------------------
  // Page session state
  // ---------------------------------------------------------------------------

  /** Index of the last questionnaire step (Sustainability Practices); there are five. */
  const LastStep: int := 4

  /** Whether the backend's answer is kept: it must exist, and an Eco Warrior score
      under 50 is rejected as unrealistic. */
  predicate KeepsBackend(backend: Option<Footprint>, selected: Option<string>) {
    backend.Some? && !(backend.value.score < 50 && selected == Some("Eco Warrior"))
  }

  /** The result a computation stores: the backend's answer when it is kept, the
      local computation of the form otherwise. Whatever is stored for the Eco Warrior
      scores at least 50 or is the local computation. */
  function ChooseResult(backend: Option<Footprint>, selected: Option<string>, f: Form): (r: Footprint)
    ensures KeepsBackend(backend, selected) ==> r == backend.value
    ensures !KeepsBackend(backend, selected) ==> r == ImprovedLocalCompute(f)
    ensures backend.None? ==> !KeepsBackend(backend, selected)
    ensures backend.Some? && selected != Some("Eco Warrior") ==> KeepsBackend(backend, selected)
  {
    if KeepsBackend(backend, selected) then backend.value else ImprovedLocalCompute(f)
  }

  /** The analyser page's session state. */
  class AnalyzerSession {
    var selectedProfile: Option<string>
    var demoData: Option<Form>
    var lastResult: Option<Footprint>
    var runComputation: bool
    var showQuestionnaire: bool
    var questionnaireStep: int
    var customProfileData: Answers
    var customProfileProcessed: Option<CustomProfile>

    ghost predicate Valid()
      reads this
    {
      0 <= questionnaireStep <= LastStep
    }

    /** The page's first visit fills in every missing session key. */
    constructor ()
      ensures Valid()
      ensures selectedProfile == None && demoData == None && lastResult == None
      ensures !runComputation && !showQuestionnaire && questionnaireStep == 0
      ensures customProfileData == Answers(map[], map[]) && customProfileProcessed == None
    {
      selectedProfile := None;
      demoData := None;
      lastResult := None;
      runComputation := false;
      showQuestionnaire := false;
      questionnaireStep := 0;
      customProfileData := Answers(map[], map[]);
      customProfileProcessed := None;
    }

    /** "Create Custom Profile" opens the questionnaire. */
    method OpenQuestionnaire()
      requires Valid()
      modifies this`showQuestionnaire
      ensures Valid() && showQuestionnaire
    {
      showQuestionnaire := true;
    }

    /** A step's widgets merge their answers into the collected data. */
    method RecordAnswers(answers: Answers)
      requires Valid()
      modifies this`customProfileData
      ensures Valid()
      ensures customProfileData ==
        Answers(old(customProfileData).numbers + answers.numbers, old(customProfileData).texts + answers.texts)
    {
      customProfileData := Answers(customProfileData.numbers + answers.numbers,
                                   customProfileData.texts + answers.texts);
    }

    /** "Next" is offered only before the last step and advances by one. */
    method Next() returns (offered: bool)
      requires Valid()
      modifies this`questionnaireStep
      ensures Valid()
      ensures offered == (old(questionnaireStep) < LastStep)
      ensures questionnaireStep == if offered then old(questionnaireStep) + 1 else old(questionnaireStep)
    {
      offered := questionnaireStep < LastStep;
      if offered {
        questionnaireStep := questionnaireStep + 1;
      }
    }

    /** "Previous" is offered only after the first step and goes back by one. */
    method Previous() returns (offered: bool)
      requires Valid()
      modifies this`questionnaireStep
      ensures Valid()
      ensures offered == (old(questionnaireStep) > 0)
      ensures questionnaireStep == if offered then old(questionnaireStep) - 1 else old(questionnaireStep)
    {
      offered := questionnaireStep > 0;
      if offered {
        questionnaireStep := questionnaireStep - 1;
      }
    }

    /** Either "Close" button hides the questionnaire and rewinds it. */
    method Close()
      requires Valid()
      modifies this`showQuestionnaire, this`questionnaireStep
      ensures Valid() && !showQuestionnaire && questionnaireStep == 0
    {
      showQuestionnaire := false;
      questionnaireStep := 0;
    }

    /** "Complete Profile", offered on the last step in place of "Next": processes
        the answers, selects the custom profile and closes the questionnaire. */
    method Complete() returns (offered: bool)
      requires Valid()
      modifies this`customProfileProcessed, this`showQuestionnaire, this`selectedProfile,
        this`questionnaireStep
      ensures Valid()
      ensures offered == (old(questionnaireStep) == LastStep)
      ensures offered ==>
        && customProfileProcessed == Some(ProcessCustomProfile(customProfileData))
        && !showQuestionnaire && selectedProfile == Some("Custom") && questionnaireStep == 0
      ensures !offered ==>
        && customProfileProcessed == old(customProfileProcessed) && showQuestionnaire == old(showQuestionnaire)
        && selectedProfile == old(selectedProfile) && questionnaireStep == old(questionnaireStep)
    {
      offered := questionnaireStep == LastStep;
      if offered {
        customProfileProcessed := Some(ProcessCustomProfile(customProfileData));
        showQuestionnaire := false;
        selectedProfile := Some("Custom");
        questionnaireStep := 0;
      }
    }

    /** "Select <profile>" on a demo card. */
    method SelectProfile(name: string)
      requires Valid() && name in DemoProfiles
      modifies this`selectedProfile, this`demoData, this`lastResult, this`runComputation
      ensures Valid()
      ensures selectedProfile == Some(name) && demoData == Some(DemoProfiles[name])
      ensures lastResult == None && !runComputation
    {
      selectedProfile := Some(name);
      demoData := Some(DemoProfiles[name]);
      lastResult := None;
      runComputation := false;
    }

    /** "Compute My Carbon Footprint". */
    method RequestComputation()
      requires Valid()
      modifies this`runComputation
      ensures Valid() && runComputation
    {
      runComputation := true;
    }

    /** The answers the assessment tab works on: the processed custom profile when
        that is selected, else the selected demo profile, else nothing. */
    function FormValues(): (f: Form)
      reads this`selectedProfile, this`customProfileProcessed, this`demoData
      ensures selectedProfile == Some("Custom") && customProfileProcessed.Some? ==>
        f == ProfileForm(customProfileProcessed.value)
      ensures !(selectedProfile == Some("Custom") && customProfileProcessed.Some?) ==>
        f == (if demoData.Some? then demoData.value else map[])
    {
      if selectedProfile == Some("Custom") && customProfileProcessed.Some? then
        ProfileForm(customProfileProcessed.value)
      else if demoData.Some? && demoData.value != map[] then demoData.value
      else map[]
    }

    /** The pending computation, run when it was requested, the questionnaire is
        hidden and the form is not empty: it stores ChooseResult's pick and clears the
        request. */
    method RunComputation(backend: Option<Footprint>)
      requires Valid()
      modifies this`lastResult, this`runComputation
      ensures Valid()
      ensures var f := FormValues();
        if old(runComputation) && !showQuestionnaire && f != map[] then
          !runComputation && lastResult == Some(ChooseResult(backend, selectedProfile, f))
        else runComputation == old(runComputation) && lastResult == old(lastResult)
    {
      var f := FormValues();
      if runComputation && !showQuestionnaire && f != map[] {
        var chosen := ChooseResult(backend, selectedProfile, f);
        lastResult := Some(chosen);
        runComputation := false;
      }
      assert FormValues() == f;
    }
  }
}
