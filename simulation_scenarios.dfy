/** The what-if simulator page: the activity estimates recovered from a stored
    analyser result, the percentage reductions applied per category, the estimated
    score after them, and the scenario presets that set the six sliders. */
module Simulation {
  import opened Common
  import Analyzer

  /** The keys of the activity dictionary the simulator works on. */
  const InputKeys: set<string> :=
    {"electricityKwh", "naturalGasTherms", "carKm", "busKm", "foodEmissions", "goodsEmissions"}

  /** What the page finds under `last_result` when it is a dictionary: its raw
      `inputs` (None when absent or not a dictionary), `breakdown`, `totals` and
      `score`. */
  datatype StoredResult = StoredResult(
    inputs: Option<map<string, real>>, breakdown: map<string, real>, totals: map<string, real>,
    score: Option<real>)

  /** The dictionary the analyser stores, seen from this page. */
  function Stored(r: Analyzer.Footprint): (s: StoredResult)
    ensures s.inputs == None && s.score == Some(r.score as real)
  {
    StoredResult(
      None,
      map["electricity" := r.breakdown.electricity, "natural_gas" := r.breakdown.naturalGas,
          "car" := r.breakdown.car, "bus" := r.breakdown.bus, "food" := r.breakdown.food,
          "goods" := r.breakdown.goods],
      map["total" := r.totals.total, "energy" := r.totals.energy, "travel" := r.totals.travel,
          "food" := r.totals.food, "goods" := r.totals.goods],
      Some(r.score as real))
  }

  // ---------------------------------------------------------------------------
  // Recovering activity numbers
  // ---------------------------------------------------------------------------

  /** The six activity numbers of a form, with the analyser's defaults. */
  function ActivityInputs(f: map<string, real>, goodsDefault: real): (m: map<string, real>)
    ensures m.Keys == InputKeys
    ensures forall k :: k in InputKeys && k in f ==> m[k] == f[k]
    ensures forall k :: k in InputKeys && k !in f ==>
      m[k] == (if k == "foodEmissions" then 3.5 else if k == "goodsEmissions" then goodsDefault else 0.0)
  {
    map["electricityKwh" := GetOr(f, "electricityKwh", 0.0),
        "naturalGasTherms" := GetOr(f, "naturalGasTherms", 0.0),
        "carKm" := GetOr(f, "carKm", 0.0),
        "busKm" := GetOr(f, "busKm", 0.0),
        "foodEmissions" := GetOr(f, "foodEmissions", 3.5),
        "goodsEmissions" := GetOr(f, "goodsEmissions", goodsDefault)]
  }

  /** kg divided back by its factor; zero kg gives zero activity. */
  function Invert(kg: real, factor: real): (est: real)
    requires factor > 0.0
    ensures est * factor == kg
  {
    if kg != 0.0 then kg / factor else 0.0
  }

  /** The activity numbers behind a stored result: its raw inputs when it kept a
      non-empty dictionary of them, otherwise estimates that divide each breakdown
      entry by its emission factor. */
  function DeriveInputs(r: StoredResult): (m: map<string, real>)
    ensures m.Keys == InputKeys
    ensures r.inputs.Some? && |r.inputs.value| > 0 ==> m == ActivityInputs(r.inputs.value, GetOr(r.totals, "goods", 0.0))
    ensures !(r.inputs.Some? && |r.inputs.value| > 0) ==>
      && m["electricityKwh"] * ElectricityFactor
         == NonZeroOr(r.breakdown, "electricity", NonZeroOr(r.breakdown, "electricity_kwh", GetOr(r.breakdown, "energy", 0.0) * 0.5))
      && m["naturalGasTherms"] * NaturalGasFactor
         == NonZeroOr(r.breakdown, "natural_gas", NonZeroOr(r.breakdown, "naturalGas", 0.0))
      && m["carKm"] * CarFactor == NonZeroOr(r.breakdown, "car", 0.0)
      && m["busKm"] * BusFactor == NonZeroOr(r.breakdown, "bus", 0.0)
      && m["goodsEmissions"] == NonZeroOr(r.breakdown, "goods", NonZeroOr(r.totals, "goods", 0.0))
      && var foodKg := NonZeroOr(r.breakdown, "food", NonZeroOr(r.totals, "food", 0.0));
         m["foodEmissions"] == if foodKg != 0.0 then foodKg / DaysPerMonth else 3.5
  {
    if r.inputs.Some? && |r.inputs.value| > 0 then
      ActivityInputs(r.inputs.value, GetOr(r.totals, "goods", 0.0))
    else
      var b, t := r.breakdown, r.totals;
      var elecKg := NonZeroOr(b, "electricity", NonZeroOr(b, "electricity_kwh", GetOr(b, "energy", 0.0) * 0.5));
      var gasKg := NonZeroOr(b, "natural_gas", NonZeroOr(b, "naturalGas", 0.0));
      var carKg := NonZeroOr(b, "car", 0.0);
      var busKg := NonZeroOr(b, "bus", 0.0);
      var foodKg := NonZeroOr(b, "food", NonZeroOr(t, "food", 0.0));
      var goodsKg := NonZeroOr(b, "goods", NonZeroOr(t, "goods", 0.0));
      map["electricityKwh" := Invert(elecKg, ElectricityFactor),
          "naturalGasTherms" := Invert(gasKg, NaturalGasFactor),
          "carKm" := Invert(carKg, CarFactor),
          "busKm" := Invert(busKg, BusFactor),
          "foodEmissions" := if foodKg != 0.0 then foodKg / DaysPerMonth else 3.5,
          "goodsEmissions" := goodsKg]
  }

  /** The result the analyser would store for form f, whatever its score. */
  predicate StoredFromForm(r: StoredResult, f: map<string, real>) {
    var b := Analyzer.ComputeBreakdown(f);
    && r.inputs == None
    && r.breakdown == map["electricity" := b.electricity, "natural_gas" := b.naturalGas,
                          "car" := b.car, "bus" := b.bus, "food" := b.food, "goods" := b.goods]
    && r.totals == map["total" := b.electricity + b.naturalGas + b.car + b.bus + b.food + b.goods,
                       "energy" := b.electricity + b.naturalGas, "travel" := b.car + b.bus,
                       "food" := b.food, "goods" := b.goods]
  }

  /** The four activities estimated through an emission factor come back exactly. */
  lemma DeriveInputsFactorFields(r: StoredResult, f: map<string, real>)
    requires StoredFromForm(r, f)
    ensures DeriveInputs(r)["electricityKwh"] == GetOr(f, "electricityKwh", 0.0)
    ensures DeriveInputs(r)["naturalGasTherms"] == GetOr(f, "naturalGasTherms", 0.0)
    ensures DeriveInputs(r)["carKm"] == GetOr(f, "carKm", 0.0)
    ensures DeriveInputs(r)["busKm"] == GetOr(f, "busKm", 0.0)
  {
    InvertProduct(GetOr(f, "electricityKwh", 0.0), ElectricityFactor);
    InvertProduct(GetOr(f, "naturalGasTherms", 0.0), NaturalGasFactor);
    InvertProduct(GetOr(f, "carKm", 0.0), CarFactor);
    InvertProduct(GetOr(f, "busKm", 0.0), BusFactor);
  }

  lemma {:induction false} DeriveInputsFromForm(r: StoredResult, f: map<string, real>)
    requires StoredFromForm(r, f)
    requires GetOr(f, "foodEmissions", 3.5) != 0.0
    ensures DeriveInputs(r) == ActivityInputs(f, 0.0)
  {
    var m := DeriveInputs(r);
    DeriveInputsFactorFields(r, f);
    assert m["foodEmissions"] == GetOr(f, "foodEmissions", 3.5);
    assert m["goodsEmissions"] == GetOr(f, "goodsEmissions", 0.0);
  }

  /** Estimating from the analyser's own breakdown gives back the activity numbers
      it was computed from, whenever the food estimate is not zero. */
  lemma {:induction false} DeriveInputsRoundTrip(f: map<string, real>)
    requires GetOr(f, "foodEmissions", 3.5) != 0.0
    ensures DeriveInputs(Stored(Analyzer.ImprovedLocalCompute(f))) == ActivityInputs(f, 0.0)
  {
    DeriveInputsFromForm(Stored(Analyzer.ImprovedLocalCompute(f)), f);
  }

  /** Multiplying by a positive factor and dividing back restores the activity. */
  lemma InvertProduct(x: real, factor: real)
    requires factor > 0.0
    ensures Invert(x * factor, factor) == x
  {
    if x != 0.0 {
      assert x * factor != 0.0;
    }
  }

  /** A zero food estimate does not survive the round trip: it comes back as the
      3.5 kg a day default. */
  lemma ZeroFoodComesBackAsDefault(f: map<string, real>)
    requires GetOr(f, "foodEmissions", 3.5) == 0.0
    ensures DeriveInputs(Stored(Analyzer.ImprovedLocalCompute(f)))["foodEmissions"] == 3.5
  {
  }

  // ---------------------------------------------------------------------------
  // The simulation
  // ---------------------------------------------------------------------------

  /** Slider positions, each a percentage from 0 to 100. */
  datatype Percentages = Percentages(car: real, elec: real, diet: real, renew: real, waste: real, shop: real)

  predicate ValidPercentages(p: Percentages) {
    && 0.0 <= p.car <= 100.0 && 0.0 <= p.elec <= 100.0 && 0.0 <= p.diet <= 100.0
    && 0.0 <= p.renew <= 100.0 && 0.0 <= p.waste <= 100.0 && 0.0 <= p.shop <= 100.0
  }

  const NoChange: Percentages := Percentages(0.0, 0.0, 0.0, 0.0, 0.0, 0.0)

  /** Monthly kg per category, as the pie charts show them. */
  datatype Categories = Categories(energy: real, travel: real, food: real, goods: real)

  predicate NonNegative(c: Categories) {
    c.energy >= 0.0 && c.travel >= 0.0 && c.food >= 0.0 && c.goods >= 0.0
  }

  function Sum(c: Categories): real { c.energy + c.travel + c.food + c.goods }

  /** The categories before any change, with the analyser's factors and defaults. */
  function Before(base: map<string, real>): (c: Categories)
    ensures var t := Analyzer.ComputeTotals(Analyzer.ComputeBreakdown(base));
      c == Categories(t.energy, t.travel, t.food, t.goods) && Sum(c) == t.total
  {
    Categories(
      GetOr(base, "electricityKwh", 0.0) * ElectricityFactor + GetOr(base, "naturalGasTherms", 0.0) * NaturalGasFactor,
      GetOr(base, "carKm", 0.0) * CarFactor + GetOr(base, "busKm", 0.0) * BusFactor,
      GetOr(base, "foodEmissions", 3.5) * DaysPerMonth,
      GetOr(base, "goodsEmissions", 0.0))
  }

  /** x scaled by the factor a; a fraction of a non-negative amount stays between
      zero and that amount. */
  function Scale(x: real, a: real): (r: real)
    ensures r == x * a
    ensures 0.0 <= x && 0.0 <= a <= 1.0 ==> 0.0 <= r <= x
  {
    x * a
  }

  /** The categories after the reductions. Energy is cut by the electricity
      percentage and then by half the renewables percentage, food by the diet
      percentage and then by half the waste percentage. */
  function After(before: Categories, p: Percentages): (c: Categories)
    ensures p == NoChange ==> c == before
    ensures ValidPercentages(p) && NonNegative(before) ==>
      && 0.0 <= c.energy <= before.energy && 0.0 <= c.travel <= before.travel
      && 0.0 <= c.food <= before.food && 0.0 <= c.goods <= before.goods
  {
    Categories(
      Scale(Scale(before.energy, 1.0 - p.elec / 100.0), 1.0 - p.renew / 200.0),
      Scale(before.travel, 1.0 - p.car / 100.0),
      Scale(Scale(before.food, 1.0 - p.diet / 100.0), 1.0 - p.waste / 200.0),
      Scale(before.goods, 1.0 - p.shop / 100.0))
  }

  /** Halving a slider's percentage cuts at most half of the amount. */
  lemma HalfCutAtMostHalf(x: real, pct: real)
    requires 0.0 <= x && 0.0 <= pct <= 100.0
    ensures Scale(x, 1.0 - pct / 200.0) >= x / 2.0
  {
    assert x * (1.0 - pct / 200.0) == x / 2.0 + x * ((100.0 - pct) / 200.0);
    assert x * ((100.0 - pct) / 200.0) >= 0.0;
  }

  /** The renewables and waste sliders cut at most half of what the other slider
      leaves. */
  lemma HalvingSlidersCutAtMostHalf(before: Categories, p: Percentages)
    requires ValidPercentages(p) && NonNegative(before)
    ensures After(before, p).energy >= before.energy * (1.0 - p.elec / 100.0) / 2.0
    ensures After(before, p).food >= before.food * (1.0 - p.diet / 100.0) / 2.0
  {
    HalfCutAtMostHalf(Scale(before.energy, 1.0 - p.elec / 100.0), p.renew);
    HalfCutAtMostHalf(Scale(before.food, 1.0 - p.diet / 100.0), p.waste);
  }

  function MaxReal(a: real, b: real): real { if a >= b then a else b }
  function MinReal(a: real, b: real): real { if a <= b then a else b }

  /** The score the simulator starts from: the stored score, or else a heuristic
      that falls with the monthly total and stays within [10, 95]. */
  function BaselineScore(stored: Option<real>, totalBefore: real): (s: real)
    ensures stored.Some? ==> s == stored.value
    ensures stored.None? ==> 10.0 <= s <= 95.0
    ensures stored.None? ==> s == MaxReal(10.0, MinReal(95.0, 100.0 - totalBefore / 6.0))
  {
    if stored.Some? then stored.value
    else MaxReal(10.0, MinReal(95.0, 100.0 - (totalBefore / 600.0) * 100.0))
  }

  /** Fraction of the monthly total the changes remove. */
  function Improvement(totalBefore: real, totalAfter: real): (i: real)
    ensures totalBefore <= 0.0 ==> i == 0.0
    ensures 0.0 <= totalAfter <= totalBefore ==> 0.0 <= i <= 1.0
  {
    if totalBefore > 0.0 then (totalBefore - totalAfter) / totalBefore else 0.0
  }

  datatype Outcome = Outcome(before: Categories, after: Categories, estimatedScore: real)

  /** One simulation run. */
  function Simulate(base: map<string, real>, p: Percentages, stored: Option<real>): (o: Outcome)
    ensures o.before == Before(base) && o.after == After(o.before, p)
    ensures 0.0 <= o.estimatedScore <= 100.0
  {
    var before := Before(base);
    var after := After(before, p);
    var totalBefore := Sum(before);
    var totalAfter := MaxReal(0.0, Sum(after));
    var baseline := BaselineScore(stored, totalBefore);
    var improvement := Improvement(totalBefore, totalAfter);
    Outcome(before, after, MinReal(100.0, MaxReal(0.0, baseline + improvement * 40.0)))
  }

  /** The total after the changes, never negative. */
  function TotalAfter(o: Outcome): (t: real)
    ensures t >= 0.0
    ensures NonNegative(o.after) ==> t == Sum(o.after)
  {
    MaxReal(0.0, Sum(o.after))
  }

  /** Leaving every slider at zero changes nothing: each category stays as it was
      and the estimate is the baseline, clipped to [0, 100]. */
  lemma NoChangeKeepsEverything(base: map<string, real>, stored: Option<real>)
    requires forall k :: k in base ==> base[k] >= 0.0
    ensures var o := Simulate(base, NoChange, stored);
      o.after == o.before
      && o.estimatedScore == MinReal(100.0, MaxReal(0.0, BaselineScore(stored, Sum(o.before))))
  {
    var before := Before(base);
    assert NonNegative(before);
    assert After(before, NoChange) == before;
    assert Improvement(Sum(before), MaxReal(0.0, Sum(before))) == 0.0;
  }

  /** With valid sliders and non-negative activity numbers, the estimate never falls
      below the clipped baseline and rises at most 40 points above it. */
  lemma EstimateAtLeastBaseline(base: map<string, real>, p: Percentages, stored: Option<real>)
    requires forall k :: k in base ==> base[k] >= 0.0
    requires ValidPercentages(p)
    ensures var o := Simulate(base, p, stored);
      var b := BaselineScore(stored, Sum(o.before));
      MinReal(100.0, MaxReal(0.0, b)) <= o.estimatedScore <= MaxReal(0.0, b + 40.0)
  {
    var before := Before(base);
    assert NonNegative(before);
    var after := After(before, p);
    assert 0.0 <= Sum(after) <= Sum(before);
    var i := Improvement(Sum(before), MaxReal(0.0, Sum(after)));
    assert 0.0 <= i <= 1.0;
  }

  // ---------------------------------------------------------------------------
  // Where the baseline score comes from
  // ---------------------------------------------------------------------------

  /** The session's `last_result` slot: never set, set to None (the analyser does
      this on its first visit and whenever a demo profile is selected), or a stored
      result. */
  datatype ResultSlot = Unset | StoredNone | Holds(result: StoredResult)

  /** The baseline lookup as written, `session.get("last_result", {}).get("score")`:
      a stored None has no `get`, and the page stops with an AttributeError. */
  function BaselineLookupAsWritten(slot: ResultSlot): (r: Result<Option<real>>)
    ensures r.Fail? <==> slot == StoredNone
  {
    match slot
    case Unset => Ok(None)
    case StoredNone => Fail("'NoneType' object has no attribute 'get'")
    case Holds(result) => Ok(result.score)
  }

  /** Selecting a demo profile on the analyser stores None as `last_result`; the
      simulator then stops instead of simulating. */
  method BaselineLookupFailsAfterProfileSelection(s: Analyzer.AnalyzerSession, name: string)
    requires s.Valid() && name in Analyzer.DemoProfiles
    modifies s
    ensures s.lastResult == None
    ensures BaselineLookupAsWritten(if s.lastResult.Some? then Holds(Stored(s.lastResult.value)) else StoredNone).Fail?
  {
    s.SelectProfile(name);
  }

  /** The baseline lookup that treats a stored None like a missing result,
      `(session.get("last_result") or {}).get("score")`. */
  function BaselineLookup(slot: ResultSlot): (score: Option<real>)
    ensures BaselineLookupAsWritten(slot).Ok? ==> score == BaselineLookupAsWritten(slot).value
    ensures slot == StoredNone ==> score == None
  {
    if slot.Holds? then slot.result.score else None
  }

  /** The activity numbers the page simulates on: those behind the stored result,
      or the page's default household when there is none. */
  function PageInputs(slot: ResultSlot): (m: map<string, real>)
    ensures m.Keys == InputKeys
    ensures slot.Holds? ==> m == DeriveInputs(slot.result)
    ensures !slot.Holds? ==> m == ActivityInputs(Analyzer.UrbanCommuter, 0.0)
  {
    if slot.Holds? then DeriveInputs(slot.result)
    else map["electricityKwh" := 350.0, "naturalGasTherms" := 60.0, "carKm" := 600.0, "busKm" := 100.0,
             "foodEmissions" := 3.5, "goodsEmissions" := 250.0]
  }

  /** The page's simulation with the corrected lookup: it yields an estimate in
      [0, 100] whatever the session holds, including right after a profile was
      selected. */
  function SimulatePage(slot: ResultSlot, p: Percentages): (o: Outcome)
    ensures 0.0 <= o.estimatedScore <= 100.0
    ensures o.before == Before(PageInputs(slot))
  {
    Simulate(PageInputs(slot), p, BaselineLookup(slot))
  }

  // ---------------------------------------------------------------------------
  // Scenario presets
  // ---------------------------------------------------------------------------

  const Scenarios: map<string, Percentages> := map[
    "Eco Beginner" := Percentages(20.0, 15.0, 12.0, 10.0, 12.0, 10.0),
    "Green Warrior" := Percentages(50.0, 50.0, 50.0, 40.0, 30.0, 40.0),
    "Minimalist" := Percentages(75.0, 75.0, 75.0, 80.0, 60.0, 80.0)]

  /** Every preset is a valid slider setting. */
  lemma ScenariosValid()
    ensures forall name :: name in Scenarios ==> ValidPercentages(Scenarios[name])
  {
  }

  /** The six slider values and the applied scenario, kept in the session. */
  class SimulatorSession {
    var simCar: real
    var simElec: real
    var simDiet: real
    var simRenew: real
    var simWaste: real
    var simShop: real
    var appliedScenario: Option<string>

    function Sliders(): Percentages
      reads this
    {
      Percentages(simCar, simElec, simDiet, simRenew, simWaste, simShop)
    }

    /** The page's first visit sets every slider to zero. */
    constructor ()
      ensures Sliders() == NoChange && appliedScenario == None
    {
      simCar, simElec, simDiet, simRenew, simWaste, simShop := 0.0, 0.0, 0.0, 0.0, 0.0, 0.0;
      appliedScenario := None;
    }

    /** "Apply <scenario>": the six sliders take the preset's percentages and the
        scenario's name is recorded. */
    method ApplyScenario(name: string)
      requires name in Scenarios
      modifies this
      ensures Sliders() == Scenarios[name] && appliedScenario == Some(name)
    {
      var ch := Scenarios[name];
      simCar := ch.car;
      simElec := ch.elec;
      simDiet := ch.diet;
      simRenew := ch.renew;
      simWaste := ch.waste;
      simShop := ch.shop;
      appliedScenario := Some(name);
    }
  }
}
