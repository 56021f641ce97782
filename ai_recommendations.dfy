/** The AI recommendations page: the totals it works from, the category with the
    largest footprint, the shaping of the recommender's answer into cards (record
    normalisation, fallback cards, de-duplication by title, moving the highest
    category to the front) and the badge each card gets. */
module Recommendations {
  import opened Common
  import Analyzer

  // ---------------------------------------------------------------------------
  // Totals
  // ---------------------------------------------------------------------------

  const TotalsKeys: set<string> := {"total", "energy", "travel", "food", "goods"}

  /** Monthly food kg from a custom profile's `foodEmissions`: a non-zero value
      below 1000 is read as kg a day and multiplied by 30, anything else is taken
      as monthly kg already. */
  function CustomFoodKg(v: real): (kg: real)
    ensures v != 0.0 && v < 1000.0 ==> kg == v * DaysPerMonth
    ensures !(v != 0.0 && v < 1000.0) ==> kg == v
  {
    if v != 0.0 && v < 1000.0 then v * 30.0 else v
  }

  /** Totals of a custom profile, every missing key counting as zero. */
  function ComputeTotalsFromCustom(f: map<string, real>): (t: map<string, real>)
    ensures t.Keys == TotalsKeys
    ensures t["energy"] == GetOr(f, "electricityKwh", 0.0) * ElectricityFactor + GetOr(f, "naturalGasTherms", 0.0) * NaturalGasFactor
    ensures t["travel"] == GetOr(f, "carKm", 0.0) * CarFactor + GetOr(f, "busKm", 0.0) * BusFactor
    ensures t["food"] == CustomFoodKg(GetOr(f, "foodEmissions", 0.0))
    ensures t["goods"] == GetOr(f, "goodsEmissions", 0.0)
    ensures t["total"] == t["energy"] + t["travel"] + t["food"] + t["goods"]
  {
    var electricity := GetOr(f, "electricityKwh", 0.0) * ElectricityFactor;
    var gas := GetOr(f, "naturalGasTherms", 0.0) * NaturalGasFactor;
    var car := GetOr(f, "carKm", 0.0) * CarFactor;
    var bus := GetOr(f, "busKm", 0.0) * BusFactor;
    var food := CustomFoodKg(GetOr(f, "foodEmissions", 0.0));
    var goods := GetOr(f, "goodsEmissions", 0.0);
    map["total" := electricity + gas + car + bus + food + goods,
        "energy" := electricity + gas, "travel" := car + bus, "food" := food, "goods" := goods]
  }

  /** Where the daily food figure is present and below 1000, these totals are the
      analyser's own. */
  lemma CustomTotalsAgreeWithAnalyzer(f: map<string, real>)
    requires "foodEmissions" in f && 0.0 < f["foodEmissions"] < 1000.0
    ensures var a := Analyzer.ComputeTotals(Analyzer.ComputeBreakdown(f));
      var t := ComputeTotalsFromCustom(f);
      t["total"] == a.total && t["energy"] == a.energy && t["travel"] == a.travel
      && t["food"] == a.food && t["goods"] == a.goods
  {
  }

  /** Without a food figure the page counts no food at all, where the analyser
      assumes 3.5 kg a day. */
  lemma CustomTotalsMissingFood(f: map<string, real>)
    requires "foodEmissions" !in f
    ensures ComputeTotalsFromCustom(f)["food"] == 0.0
    ensures Analyzer.ComputeTotals(Analyzer.ComputeBreakdown(f)).food == 105.0
  {
  }

  /** The totals the page works from: those of the stored result, replaced by the
      custom profile's when the profile is "Custom" and the stored total is not
      positive. */
  function PageTotals(stored: map<string, real>, selectedProfile: Option<string>, custom: map<string, real>)
    : (t: map<string, real>)
    ensures selectedProfile == Some("Custom") && GetOr(stored, "total", 0.0) <= 0.0 ==> t == ComputeTotalsFromCustom(custom)
    ensures !(selectedProfile == Some("Custom") && GetOr(stored, "total", 0.0) <= 0.0) ==> t == stored
  {
    if selectedProfile == Some("Custom") && GetOr(stored, "total", 0.0) <= 0.0 then ComputeTotalsFromCustom(custom)
    else stored
  }

  // ---------------------------------------------------------------------------
  // Highest category
  // ---------------------------------------------------------------------------

  const CategoryOrder: seq<string> := ["energy", "travel", "food", "goods"]

  /** Position in CategoryOrder[..n] of the first largest value among the keys
      the totals hold, or None when they hold none of them. */
  function BestPresent(totals: map<string, real>, n: nat): (b: Option<nat>)
    requires n <= |CategoryOrder|
    ensures b.None? <==> forall j :: 0 <= j < n ==> CategoryOrder[j] !in totals
    ensures b.Some? ==> b.value < n && CategoryOrder[b.value] in totals
    ensures b.Some? ==> forall j :: 0 <= j < n && CategoryOrder[j] in totals ==>
      totals[CategoryOrder[j]] <= totals[CategoryOrder[b.value]]
    ensures b.Some? ==> forall j :: 0 <= j < b.value && CategoryOrder[j] in totals ==>
      totals[CategoryOrder[j]] < totals[CategoryOrder[b.value]]
  {
    if n == 0 then None
    else
      var b := BestPresent(totals, n - 1);
      var k := CategoryOrder[n - 1];
      if k !in totals then b
      else if b.None? || totals[k] > totals[CategoryOrder[b.value]] then Some(n - 1)
      else b
  }

  /** The page's highest-impact category: `max` over the present keys, which keeps
      the first of equal values. */
  function HighestCategory(totals: map<string, real>): (h: Option<string>)
    ensures h.None? <==> forall k :: k in CategoryOrder ==> k !in totals
    ensures h.Some? ==> h.value in CategoryOrder && h.value in totals
    ensures h.Some? ==> forall k :: k in CategoryOrder && k in totals ==> totals[k] <= totals[h.value]
  {
    var b := BestPresent(totals, |CategoryOrder|);
    if b.Some? then Some(CategoryOrder[b.value]) else None
  }

  /** Ties go to the category listed first. */
  lemma HighestCategoryTieBreak(totals: map<string, real>, j: nat)
    requires HighestCategory(totals).Some?
    requires j < |CategoryOrder| && CategoryOrder[j] in totals
    requires totals[CategoryOrder[j]] == totals[HighestCategory(totals).value]
    ensures CategoryOrder[j] == HighestCategory(totals).value
      || exists i :: 0 <= i < j && CategoryOrder[i] == HighestCategory(totals).value
  {
    var b := BestPresent(totals, |CategoryOrder|);
    assert b.value <= j;
    if b.value < j {
      assert CategoryOrder[b.value] == HighestCategory(totals).value;
    }
  }

  // ---------------------------------------------------------------------------
  // Recommendation records
  // ---------------------------------------------------------------------------

  /** A normalised recommendation card. Its random id is not modelled. */
  datatype Rec = Rec(title: string, text: Json, impact: int, confidence: real, steps: seq<Json>, category: string)

  /** Python's `float(v)` on a JSON value; strings are read by `parse`, which
      stands for Python's own number syntax. */
  function ToFloat(v: Json, parse: string -> Option<real>): (r: Option<real>)
    ensures v.JNum? ==> r == Some(v.n)
    ensures v.JNull? || v.JArr? || v.JObj? ==> r == None
  {
    match v
    case JNum(n) => Some(n)
    case JBool(b) => Some(if b then 1.0 else 0.0)
    case JStr(s) => parse(s)
    case _ => None
  }

  /** The default step lists a card without steps receives. */
  datatype StepPlan = EnergyPlan | TravelPlan | FoodPlan | GenericPlan

  const EnergySteps: seq<Json> := [
    JStr("Check thermostat settings and program a 1–2°C setback."),
    JStr("Replace incandescent bulbs with LED bulbs across the home."),
    JStr("Unplug rarely-used devices or use smart power strips.")]
  const TravelSteps: seq<Json> := [
    JStr("Track weekly driving distance for one week."),
    JStr("Identify 1–2 trips per week you can combine or use transit for."),
    JStr("Explore carpool options and a monthly transit pass.")]
  const FoodSteps: seq<Json> := [
    JStr("List your weekly meals and highlight red-meat dishes."),
    JStr("Look up 3 plant-based swaps and try them this week."),
    JStr("Gradually increase plant-based meals to 3 per week.")]
  const GenericSteps: seq<Json> := [
    JStr("Run a quick assessment of your home and behavior patterns."),
    JStr("Pick one small change this week and measure its impact."),
    JStr("Re-evaluate after 2–4 weeks and scale what works.")]

  function PlanSteps(plan: StepPlan): (steps: seq<Json>)
    ensures |steps| == 3
  {
    match plan
    case EnergyPlan => EnergySteps
    case TravelPlan => TravelSteps
    case FoodPlan => FoodSteps
    case GenericPlan => GenericSteps
  }

  /** The default plan: energy by category or title first, then travel by category
      or "car" in the title, then food by category, then the generic plan. */
  function ChoosePlan(category: string, title: string): (p: StepPlan)
    ensures p == EnergyPlan <==> Contains(Lower(category), "energy") || Contains(Lower(title), "energy")
    ensures p == TravelPlan <==>
      !(Contains(Lower(category), "energy") || Contains(Lower(title), "energy"))
      && (Contains(Lower(category), "travel") || Contains(Lower(title), "car"))
    ensures p == FoodPlan <==>
      !(Contains(Lower(category), "energy") || Contains(Lower(title), "energy"))
      && !(Contains(Lower(category), "travel") || Contains(Lower(title), "car"))
      && Contains(Lower(category), "food")
  {
    if Contains(Lower(category), "energy") || Contains(Lower(title), "energy") then EnergyPlan
    else if Contains(Lower(category), "travel") || Contains(Lower(title), "car") then TravelPlan
    else if Contains(Lower(category), "food") then FoodPlan
    else GenericPlan
  }

  /** The title a record falls back to: title, then text, then area, then
      "Recommendation <position + 1>". */
  function TitleOf(item: map<string, Json>, i: nat): (t: Json)
    ensures Truthy(t)
    ensures Truthy(Field(item, "title")) ==> t == Field(item, "title")
    ensures !Truthy(Field(item, "title")) && Truthy(Field(item, "text")) ==> t == Field(item, "text")
    ensures !Truthy(Field(item, "title")) && !Truthy(Field(item, "text")) && Truthy(Field(item, "area"))
      ==> t == Field(item, "area")
    ensures !Truthy(Field(item, "title")) && !Truthy(Field(item, "text")) && !Truthy(Field(item, "area"))
      ==> t == JStr("Recommendation " + NatToString(i + 1))
  {
    Or(Or(Or(Field(item, "title"), Field(item, "text")), Field(item, "area")),
       JStr("Recommendation " + NatToString(i + 1)))
  }

  /** The category a record falls back to: category, then area, then "General". */
  function CategoryOf(item: map<string, Json>): (c: Json)
    ensures Truthy(c)
    ensures Truthy(Field(item, "category")) ==> c == Field(item, "category")
    ensures !Truthy(Field(item, "category")) && Truthy(Field(item, "area")) ==> c == Field(item, "area")
    ensures !Truthy(Field(item, "category")) && !Truthy(Field(item, "area")) ==> c == JStr("General")
  {
    Or(Or(Field(item, "category"), Field(item, "area")), JStr("General"))
  }

  /** The steps a record lists, or the default plan for its category and title
      when it lists none. */
  function StepsOf(item: map<string, Json>, category: string, title: string): (steps: seq<Json>)
    ensures |steps| > 0
    ensures Field(item, "steps").JArr? && Field(item, "steps").items != [] ==> steps == Field(item, "steps").items
    ensures !(Field(item, "steps").JArr? && Field(item, "steps").items != []) ==>
      steps == PlanSteps(ChoosePlan(category, title))
  {
    var given := if Field(item, "steps").JArr? then Field(item, "steps").items else [];
    if given != [] then given else PlanSteps(ChoosePlan(category, title))
  }

  /** `int(float(impact))` of the first truthy impact field, or 0 when it has no
      number. */
  function ImpactOf(item: map<string, Json>, parse: string -> Option<real>): (impact: int)
    ensures (!Truthy(Field(item, "impact_kg_month")) && !Truthy(Field(item, "potential_savings"))
             && !Truthy(Field(item, "impact"))) ==> impact == 0
    ensures Field(item, "impact_kg_month").JNum? && Truthy(Field(item, "impact_kg_month"))
      ==> impact == Trunc(Field(item, "impact_kg_month").n)
    ensures Truthy(Field(item, "impact_kg_month"))
      ==> impact == TruncOrZero(ToFloat(Field(item, "impact_kg_month"), parse))
    ensures !Truthy(Field(item, "impact_kg_month")) && Truthy(Field(item, "potential_savings"))
      ==> impact == TruncOrZero(ToFloat(Field(item, "potential_savings"), parse))
    ensures !Truthy(Field(item, "impact_kg_month")) && !Truthy(Field(item, "potential_savings"))
            && Truthy(Field(item, "impact"))
      ==> impact == TruncOrZero(ToFloat(Field(item, "impact"), parse))
  {
    var v := Or(Or(Or(Field(item, "impact_kg_month"), Field(item, "potential_savings")), Field(item, "impact")), JNum(0.0));
    TruncOrZero(ToFloat(v, parse))
  }

  /** `int(x)` of a converted number, 0 when the conversion raised. */
  function TruncOrZero(x: Option<real>): (i: int)
    ensures x.None? ==> i == 0
    ensures x.Some? ==> i == Trunc(x.value)
  {
    match x
    case Some(v) => Trunc(v)
    case None => 0
  }

  /** `float(item.get("confidence", 0.75))`, 0.75 when that raises. */
  function ConfidenceOf(item: map<string, Json>, parse: string -> Option<real>): (c: real)
    ensures "confidence" !in item ==> c == 0.75
    ensures Field(item, "confidence").JNum? ==> c == Field(item, "confidence").n
  {
    match ToFloat(FieldOr(item, "confidence", JNum(0.75)), parse)
    case Some(x) => x
    case None => 0.75
  }

  /** The card built from the record at position i of the recommender's list. A
      title or category that is not a string makes the page raise (its `strip`,
      `lower` and escaping need a string), which is the failure here. */
  function NormalizeItem(item: map<string, Json>, i: nat, parse: string -> Option<real>): (r: Result<Rec>)
    ensures r.Ok? <==> TitleOf(item, i).JStr? && CategoryOf(item).JStr?
    ensures r.Ok? ==> r.value == Rec(TitleOf(item, i).s, Or(Or(Field(item, "text"), Field(item, "description")), JStr("")),
      ImpactOf(item, parse), ConfidenceOf(item, parse), StepsOf(item, CategoryOf(item).s, TitleOf(item, i).s), CategoryOf(item).s)
    ensures r.Ok? ==> r.value.title != "" && r.value.category != "" && |r.value.steps| > 0
  {
    var title := TitleOf(item, i);
    var category := CategoryOf(item);
    if !title.JStr? || !category.JStr? then Fail("title and category must be strings")
    else
      var text := Or(Or(Field(item, "text"), Field(item, "description")), JStr(""));
      Ok(Rec(title.s, text, ImpactOf(item, parse), ConfidenceOf(item, parse), StepsOf(item, category.s, title.s), category.s))
  }

  /** The cards built from a list of records, position by position: entries that
      are not objects are skipped, and the first record that fails fails the list. */
  function NormalizeList(raw: seq<Json>, parse: string -> Option<real>): (r: Result<seq<Rec>>)
    ensures r.Ok? ==> |r.value| <= |raw|
    ensures r.Ok? ==> forall k :: 0 <= k < |r.value| ==> |r.value[k].steps| > 0 && r.value[k].category != ""
  {
    if raw == [] then Ok([])
    else
      match NormalizeList(raw[..|raw| - 1], parse)
      case Fail(e) => Fail(e)
      case Ok(done) =>
        var item := raw[|raw| - 1];
        if !item.JObj? then Ok(done)
        else
          match NormalizeItem(item.fields, |raw| - 1, parse)
          case Fail(e) => Fail(e)
          case Ok(rec) => Ok(done + [rec])
  }

  /** Every object entry yields exactly one card, and nothing else does. */
  lemma {:induction false} NormalizeListKeepsObjects(raw: seq<Json>, parse: string -> Option<real>)
    requires NormalizeList(raw, parse).Ok?
    ensures |NormalizeList(raw, parse).value| == CountObjects(raw)
  {
    if raw != [] {
      NormalizeListKeepsObjects(raw[..|raw| - 1], parse);
    }
  }

  /** Once a prefix of the list fails, the whole list fails. */
  lemma {:induction false} NormalizeListFailureSticks(raw: seq<Json>, n: nat, parse: string -> Option<real>)
    requires n <= |raw| && NormalizeList(raw[..n], parse).Fail?
    ensures NormalizeList(raw, parse).Fail?
    decreases |raw| - n
  {
    if n < |raw| {
      assert raw[..n + 1][..n] == raw[..n];
      NormalizeListFailureSticks(raw, n + 1, parse);
    } else {
      assert raw[..n] == raw;
    }
  }

  /** The normalisation loop: walks the records in order and appends a card for
      each object among them. */
  method Normalize(raw: seq<Json>, parse: string -> Option<real>) returns (r: Result<seq<Rec>>)
    ensures r.Fail? <==> NormalizeList(raw, parse).Fail?
    ensures r.Ok? ==> r == NormalizeList(raw, parse)
  {
    var normalized: seq<Rec> := [];
    var i := 0;
    while i < |raw|
      invariant 0 <= i <= |raw|
      invariant NormalizeList(raw[..i], parse) == Ok(normalized)
    {
      assert raw[..i + 1][..i] == raw[..i];
      var item := raw[i];
      if item.JObj? {
        var rec := NormalizeItem(item.fields, i, parse);
        if rec.Fail? {
          NormalizeListFailureSticks(raw, i + 1, parse);
          return Fail(rec.error);
        }
        normalized := normalized + [rec.value];
      }
      i := i + 1;
    }
    assert raw[..i] == raw;
    return Ok(normalized);
  }

  /** The list under the recommender's answer: `recommendations` (or an empty
      list), unwrapped from a `tips` and then a `recommendations` key. Iterating an
      object's keys or a string's characters yields no object, so nothing is kept
      from those; any other non-list makes `enumerate` raise. */
  function RawItems(recommendations: Json): (r: Result<seq<Json>>)
    ensures recommendations.JArr? ==> r == Ok(recommendations.items)
    ensures !Truthy(recommendations) || recommendations.JStr? ==> r == Ok([])
    ensures Truthy(recommendations) && (recommendations.JNum? || recommendations.JBool?) ==> r.Fail?
    ensures recommendations.JObj? && "tips" in recommendations.fields ==>
      var tips := recommendations.fields["tips"];
      && (tips.JArr? ==> r == Ok(tips.items))
      && (tips.JObj? && "recommendations" in tips.fields && tips.fields["recommendations"].JArr? ==>
           r == Ok(tips.fields["recommendations"].items))
      && (tips.JStr? || (tips.JObj? && "recommendations" !in tips.fields) ==> r == Ok([]))
      && (tips.JNull? || tips.JNum? || tips.JBool? ==> r.Fail?)
    ensures recommendations.JObj? && "tips" !in recommendations.fields ==>
      && ("recommendations" in recommendations.fields && recommendations.fields["recommendations"].JArr? ==>
           r == Ok(recommendations.fields["recommendations"].items))
      && ("recommendations" !in recommendations.fields ==> r == Ok([]))
  {
    var raw := Or(recommendations, JArr([]));
    var raw := if raw.JObj? && "tips" in raw.fields then raw.fields["tips"] else raw;
    var raw := if raw.JObj? && "recommendations" in raw.fields then raw.fields["recommendations"] else raw;
    match raw
    case JArr(items) => Ok(items)
    case JObj(_) => Ok([])
    case JStr(_) => Ok([])
    case _ => Fail("object is not iterable")
  }

  const MealSwapTitle: string := "Replace two red meat meals per week with plant-based alternatives"
  const MealSwapText: Json :=
    JStr("Swap two red-meat meals weekly for plant-based alternatives to cut food-related emissions.")
  const MealSwapSteps: seq<Json> := [
    JStr("Identify two red-meat meals to replace this week."),
    JStr("Find 3 simple plant-based recipes to try (e.g., lentil curry, chickpea tacos)."),
    JStr("Plan meals and grocery list for the week; repeat for 4 weeks.")]
  const AuditTitle: string := "Conduct a home energy audit to identify hidden energy drains"
  const AuditText: Json :=
    JStr("A home energy audit surfaces leaks, inefficient appliances and helps prioritize actions.")
  const AuditSteps: seq<Json> := [
    JStr("Walk every room to identify drafts around doors/windows."),
    JStr("List major appliances older than 8 years for replacement consideration."),
    JStr("Measure standby loads (smart plugs) and reduce phantom power.")]

  /** The two cards used when the recommender fails or yields no card. */
  function FallbackRecs(totals: map<string, real>): (recs: seq<Rec>)
    ensures |recs| == 2
    ensures recs[0].category == "Food" && recs[1].category == "General"
    ensures recs[0].impact == FlooredImpact(GetOr(totals, "food", 0.0), 0.12, 10)
    ensures recs[1].impact == FlooredImpact(GetOr(totals, "energy", 0.0), 0.08, 8)
    ensures recs[0].confidence == 0.75 && recs[1].confidence == 0.80
    ensures |recs[0].steps| == 3 && |recs[1].steps| == 3
  {
    [Rec(MealSwapTitle, MealSwapText, FlooredImpact(GetOr(totals, "food", 0.0), 0.12, 10), 0.75, MealSwapSteps, "Food"),
     Rec(AuditTitle, AuditText, FlooredImpact(GetOr(totals, "energy", 0.0), 0.08, 8), 0.80, AuditSteps, "General")]
  }

  /** The fallback impacts grow with the totals they are drawn from. */
  lemma FallbackImpactsMonotone(t1: map<string, real>, t2: map<string, real>)
    requires GetOr(t1, "food", 0.0) <= GetOr(t2, "food", 0.0)
    requires GetOr(t1, "energy", 0.0) <= GetOr(t2, "energy", 0.0)
    ensures FallbackRecs(t1)[0].impact <= FallbackRecs(t2)[0].impact
    ensures FallbackRecs(t1)[1].impact <= FallbackRecs(t2)[1].impact
  {
    TruncMonotone(GetOr(t1, "food", 0.0) * 0.12, GetOr(t2, "food", 0.0) * 0.12);
    TruncMonotone(GetOr(t1, "energy", 0.0) * 0.08, GetOr(t2, "energy", 0.0) * 0.08);
  }

  /** The recommender's reply as the page sees it. */
  datatype RecoResponse = RecoFailed | RecoOk(recommendations: Json)

  /** The cards before de-duplication: the normalised records, or the fallback
      cards when the recommender failed or no record became a card. */
  function RecList(resp: RecoResponse, totals: map<string, real>, parse: string -> Option<real>): (r: Result<seq<Rec>>)
    ensures r.Ok? ==> |r.value| > 0
    ensures resp.RecoFailed? ==> r == Ok(FallbackRecs(totals))
    ensures resp.RecoOk? ==>
      (r.Fail? <==> (RawItems(resp.recommendations).Fail?
                     || NormalizeList(RawItems(resp.recommendations).value, parse).Fail?))
    ensures resp.RecoOk? && RawItems(resp.recommendations).Ok? ==>
      var normalized := NormalizeList(RawItems(resp.recommendations).value, parse);
      && (normalized.Ok? && normalized.value != [] ==> r == normalized)
      && (normalized == Ok([]) ==> r == Ok(FallbackRecs(totals)))
  {
    match resp
    case RecoFailed => Ok(FallbackRecs(totals))
    case RecoOk(recommendations) =>
      match RawItems(recommendations)
      case Fail(e) => Fail(e)
      case Ok(raw) =>
        match NormalizeList(raw, parse)
        case Fail(e) => Fail(e)
        case Ok(normalized) => Ok(if normalized == [] then FallbackRecs(totals) else normalized)
  }

  /** An answer whose list holds no object falls back to exactly the two cards. */
  lemma NoObjectsMeansFallback(items: seq<Json>, totals: map<string, real>, parse: string -> Option<real>)
    requires forall k :: 0 <= k < |items| ==> !items[k].JObj?
    ensures RecList(RecoOk(JArr(items)), totals, parse) == Ok(FallbackRecs(totals))
  {
    NoObjectsNormalizeEmpty(items, parse);
  }

  lemma {:induction false} NoObjectsNormalizeEmpty(items: seq<Json>, parse: string -> Option<real>)
    requires forall k :: 0 <= k < |items| ==> !items[k].JObj?
    ensures NormalizeList(items, parse) == Ok([])
  {
    if items != [] {
      NoObjectsNormalizeEmpty(items[..|items| - 1], parse);
    }
  }

  // ---------------------------------------------------------------------------
  // De-duplication by title
  // ---------------------------------------------------------------------------

  /** Titles are compared stripped and lower-cased. */
  function TitleKey(r: Rec): string {
    Lower(Strip(r.title))
  }

  /** The keys of a list of cards. */
  function KeysOf(recs: seq<Rec>, key: Rec -> string): set<string> {
    set r | r in recs :: key(r)
  }

  lemma KeysOfAppend(recs: seq<Rec>, r: Rec, key: Rec -> string)
    ensures KeysOf(recs + [r], key) == KeysOf(recs, key) + {key(r)}
  {
    assert forall x :: x in recs + [r] <==> x in recs || x == r;
  }

  /** The de-duplicated list: each card is kept unless an earlier kept card has the
      same key. The page uses TitleKey. */
  function Dedup(recs: seq<Rec>, key: Rec -> string): (out: seq<Rec>)
    ensures |out| <= |recs|
    ensures forall x :: x in out ==> x in recs
  {
    if recs == [] then []
    else
      var done := Dedup(recs[..|recs| - 1], key);
      var r := recs[|recs| - 1];
      if key(r) in KeysOf(done, key) then done else done + [r]
  }

  /** The de-duplication loop, with its set of title keys already seen. */
  method DedupeByTitle(recs: seq<Rec>) returns (deduped: seq<Rec>)
    ensures deduped == Dedup(recs, TitleKey)
  {
    var seen: set<string> := {};
    deduped := [];
    var i := 0;
    while i < |recs|
      invariant 0 <= i <= |recs|
      invariant deduped == Dedup(recs[..i], TitleKey)
      invariant seen == KeysOf(deduped, TitleKey)
    {
      assert recs[..i + 1][..i] == recs[..i];
      var t := TitleKey(recs[i]);
      if t !in seen {
        KeysOfAppend(deduped, recs[i], TitleKey);
        seen := seen + {t};
        deduped := deduped + [recs[i]];
      }
      i := i + 1;
    }
    assert recs[..i] == recs;
  }

  predicate DistinctKeys(recs: seq<Rec>, key: Rec -> string) {
    forall i, j :: 0 <= i < j < |recs| ==> key(recs[i]) != key(recs[j])
  }

  /** No two kept cards share a key. */
  lemma {:induction false} DedupDistinctKeys(recs: seq<Rec>, key: Rec -> string)
    ensures DistinctKeys(Dedup(recs, key), key)
  {
    if recs != [] {
      var done := Dedup(recs[..|recs| - 1], key);
      DedupDistinctKeys(recs[..|recs| - 1], key);
      var r := recs[|recs| - 1];
      if key(r) !in KeysOf(done, key) {
        var out := done + [r];
        assert Dedup(recs, key) == out;
        forall i, j | 0 <= i < j < |out|
          ensures key(out[i]) != key(out[j])
        {
          assert out[i] == done[i];
          if j == |out| - 1 {
            assert done[i] in done;
            assert key(done[i]) in KeysOf(done, key);
            assert out[j] == r;
            assert key(out[i]) != key(out[j]);
          } else {
            assert out[j] == done[j];
            assert key(done[i]) != key(done[j]);
          }
        }
      }
    }
  }

  /** Every key of the input survives. */
  lemma {:induction false} DedupKeepsEveryKey(recs: seq<Rec>, key: Rec -> string)
    ensures KeysOf(Dedup(recs, key), key) == KeysOf(recs, key)
  {
    if recs != [] {
      var prefix := recs[..|recs| - 1];
      var r := recs[|recs| - 1];
      DedupKeepsEveryKey(prefix, key);
      assert recs == prefix + [r];
      KeysOfAppend(prefix, r, key);
      if key(r) !in KeysOf(Dedup(prefix, key), key) {
        KeysOfAppend(Dedup(prefix, key), r, key);
      }
    }
  }

  /** A card whose key does not occur earlier in the input is kept. */
  lemma {:induction false} DedupKeepsFirst(recs: seq<Rec>, key: Rec -> string, j: nat)
    requires j < |recs|
    requires forall i :: 0 <= i < j ==> key(recs[i]) != key(recs[j])
    ensures recs[j] in Dedup(recs, key)
  {
    var prefix := recs[..|recs| - 1];
    if j == |recs| - 1 {
      forall x | x in Dedup(prefix, key)
        ensures key(x) != key(recs[j])
      {
        assert x in prefix;
        var i :| 0 <= i < |prefix| && prefix[i] == x;
        assert key(recs[i]) != key(recs[j]);
      }
    } else {
      DedupKeepsFirst(prefix, key, j);
    }
  }

  /** `a` is `b` with some elements removed, order kept. */
  predicate SubsequenceOf(a: seq<Rec>, b: seq<Rec>)
    decreases |b|
  {
    if a == [] then true
    else if b == [] then false
    else
      (a[|a| - 1] == b[|b| - 1] && SubsequenceOf(a[..|a| - 1], b[..|b| - 1]))
      || SubsequenceOf(a, b[..|b| - 1])
  }

  /** The kept cards appear in their input order. */
  lemma {:induction false} DedupKeepsOrder(recs: seq<Rec>, key: Rec -> string)
    ensures SubsequenceOf(Dedup(recs, key), recs)
  {
    if recs != [] {
      var prefix := recs[..|recs| - 1];
      var done := Dedup(prefix, key);
      DedupKeepsOrder(prefix, key);
      var out := Dedup(recs, key);
      if out != done {
        assert out[..|out| - 1] == done;
      }
    }
  }

  // ---------------------------------------------------------------------------
  // Highest category first
  // ---------------------------------------------------------------------------

  /** The card belongs to the highest category: its category contains it, ignoring
      case. */
  predicate Matches(r: Rec, highest: string) {
    Contains(Lower(r.category), Lower(highest))
  }

  /** `[r for r in recs if matches]` */
  function Matching(recs: seq<Rec>, highest: string): (out: seq<Rec>)
    ensures forall x :: x in out <==> x in recs && Matches(x, highest)
  {
    if recs == [] then []
    else Matching(recs[..|recs| - 1], highest) + if Matches(recs[|recs| - 1], highest) then [recs[|recs| - 1]] else []
  }

  /** `[r for r in recs if not matches]` */
  function NotMatching(recs: seq<Rec>, highest: string): (out: seq<Rec>)
    ensures forall x :: x in out <==> x in recs && !Matches(x, highest)
  {
    if recs == [] then []
    else NotMatching(recs[..|recs| - 1], highest) + if !Matches(recs[|recs| - 1], highest) then [recs[|recs| - 1]] else []
  }

  /** `[r for r in recs if r not in excluded]` */
  function NotIn(recs: seq<Rec>, excluded: seq<Rec>): seq<Rec> {
    if recs == [] then []
    else NotIn(recs[..|recs| - 1], excluded) + if recs[|recs| - 1] !in excluded then [recs[|recs| - 1]] else []
  }

  /** The page's partition: the matching cards, then every card not among them. */
  function Prioritize(recs: seq<Rec>, highest: Option<string>): (out: seq<Rec>)
    ensures highest.None? ==> out == recs
  {
    if highest.None? then recs
    else
      var prioritized := Matching(recs, highest.value);
      prioritized + NotIn(recs, prioritized)
  }

  /** Dropping the cards that are among the matching ones keeps exactly those that
      do not match. */
  lemma {:induction false} NotInMatchingIsNotMatching(recs: seq<Rec>, excluded: seq<Rec>, highest: string)
    requires forall x :: x in recs ==> (x in excluded <==> Matches(x, highest))
    ensures NotIn(recs, excluded) == NotMatching(recs, highest)
  {
    if recs != [] {
      NotInMatchingIsNotMatching(recs[..|recs| - 1], excluded, highest);
      assert recs[|recs| - 1] in recs;
    }
  }

  lemma PartitionMultiset(recs: seq<Rec>, highest: string)
    ensures multiset(Matching(recs, highest)) + multiset(NotMatching(recs, highest)) == multiset(recs)
  {
    var keep := r => Matches(r, highest);
    FilterMatching(recs, highest, keep);
    FilterPartition(recs, keep);
  }

  /** The cards whose `keep` verdict is `want`, in order: a filter with the
      predicate left abstract, so that reasoning about it never unfolds Matches. */
  function Filter<T>(recs: seq<T>, keep: T -> bool, want: bool): seq<T> {
    if recs == [] then []
    else Filter(recs[..|recs| - 1], keep, want) + if keep(recs[|recs| - 1]) == want then [recs[|recs| - 1]] else []
  }

  /** Matching and NotMatching are the two filters by Matches. */
  lemma {:induction false} FilterMatching(recs: seq<Rec>, highest: string, keep: Rec -> bool)
    requires forall r :: keep(r) == Matches(r, highest)
    ensures Matching(recs, highest) == Filter(recs, keep, true)
    ensures NotMatching(recs, highest) == Filter(recs, keep, false)
  {
    if recs != [] {
      FilterMatching(recs[..|recs| - 1], highest, keep);
    }
  }

  /** A filter and its complement together are the input, counted with multiplicity. */
  lemma {:induction false} FilterPartition<T>(recs: seq<T>, keep: T -> bool)
    ensures multiset(Filter(recs, keep, true)) + multiset(Filter(recs, keep, false)) == multiset(recs)
  {
    if recs != [] {
      var init, last := recs[..|recs| - 1], recs[|recs| - 1];
      FilterPartition(init, keep);
      var a, b := Filter(init, keep, true), Filter(init, keep, false);
      assert recs == init + [last];
      assert multiset(recs) == multiset(init) + multiset([last]);
      if keep(last) {
        assert Filter(recs, keep, true) == a + [last];
        assert Filter(recs, keep, false) == b;
        assert multiset(a + [last]) == multiset(a) + multiset([last]);
      } else {
        assert Filter(recs, keep, true) == a;
        assert Filter(recs, keep, false) == b + [last];
        assert multiset(b + [last]) == multiset(b) + multiset([last]);
      }
    }
  }

  /** Prioritising is a stable partition: the matching cards in order, then the
      others in order; no card is lost or added. */
  lemma PrioritizeIsStablePartition(recs: seq<Rec>, highest: string)
    ensures Prioritize(recs, Some(highest)) == Matching(recs, highest) + NotMatching(recs, highest)
    ensures multiset(Prioritize(recs, Some(highest))) == multiset(recs)
  {
    NotInMatchingIsNotMatching(recs, Matching(recs, highest), highest);
    PartitionMultiset(recs, highest);
  }

  /** After prioritising, no matching card comes after one that does not match. */
  lemma PrioritizedComeFirst(recs: seq<Rec>, highest: string, i: nat, j: nat)
    requires var out := Prioritize(recs, Some(highest)); i < j < |out| && Matches(out[j], highest)
    ensures Matches(Prioritize(recs, Some(highest))[i], highest)
  {
    PrioritizeIsStablePartition(recs, highest);
    var m := Matching(recs, highest);
    var out := Prioritize(recs, Some(highest));
    assert forall k :: |m| <= k < |out| ==> out[k] in NotMatching(recs, highest);
    assert out[i] in m;
  }

  /** The page's list of cards: built, de-duplicated, then prioritised by the
      highest category of the totals. */
  function PageRecommendations(resp: RecoResponse, totals: map<string, real>, parse: string -> Option<real>)
    : (r: Result<seq<Rec>>)
    ensures r.Ok? <==> RecList(resp, totals, parse).Ok?
    ensures r.Ok? ==> |r.value| > 0
    ensures r.Ok? ==> multiset(r.value) == multiset(Dedup(RecList(resp, totals, parse).value, TitleKey))
    ensures r.Ok? ==> r.value == Prioritize(Dedup(RecList(resp, totals, parse).value, TitleKey), HighestCategory(totals))
  {
    match RecList(resp, totals, parse)
    case Fail(e) => Fail(e)
    case Ok(recs) =>
      var deduped := Dedup(recs, TitleKey);
      DedupKeepsFirst(recs, TitleKey, 0);
      var h := HighestCategory(totals);
      if h.Some? then PrioritizeIsStablePartition(deduped, h.value); Ok(Prioritize(deduped, h))
      else Ok(Prioritize(deduped, h))
  }

  // ---------------------------------------------------------------------------
  // Badges
  // ---------------------------------------------------------------------------

  /** The badge style of a card: food before energy before travel or transport,
      otherwise general; an empty category counts as "General". */
  function BadgeClass(category: string): (b: string)
    ensures var c := Lower(if category == "" then "General" else category);
      && (b == "badge badge-food" <==> Contains(c, "food"))
      && (b == "badge badge-energy" <==> !Contains(c, "food") && Contains(c, "energy"))
      && (b == "badge badge-travel" <==>
           !Contains(c, "food") && !Contains(c, "energy") && (Contains(c, "travel") || Contains(c, "transport")))
      && (b == "badge badge-general" <==>
           !Contains(c, "food") && !Contains(c, "energy") && !Contains(c, "travel") && !Contains(c, "transport"))
  {
    var c := Lower(if category == "" then "General" else category);
    if Contains(c, "food") then "badge badge-food"
    else if Contains(c, "energy") then "badge badge-energy"
    else if Contains(c, "travel") || Contains(c, "transport") then "badge badge-travel"
    else "badge badge-general"
  }

  lemma FoodBadge()
    ensures BadgeClass("Food") == "badge badge-food"
  {
    assert Lower("Food") == "food";
    assert Contains("food", "food");
  }

  /** "general" does not contain "energy", although both start with its letters. */
  lemma GeneralLacksEnergy()
    ensures !Contains("general", "energy")
  {
    assert "eneral"[..6][4] != "energy"[4];
    assert !Contains("neral", "energy");
    assert !Contains("eneral", "energy");
  }

  /** "general" contains none of the badge keywords. */
  lemma GeneralLacksKeywords()
    ensures !Contains("general", "food") && !Contains("general", "energy")
    ensures !Contains("general", "travel") && !Contains("general", "transport")
  {
    GeneralLacksEnergy();
    NotContainsWithoutFirstChar("general", "food");
    NotContainsWithoutFirstChar("general", "travel");
    NotContainsWithoutFirstChar("general", "transport");
  }

  lemma GeneralBadge()
    ensures BadgeClass("General") == "badge badge-general"
  {
    assert Lower("General") == "general";
    GeneralLacksKeywords();
  }

  /** The fallback cards get the food and the general badge. */
  lemma FallbackBadges(totals: map<string, real>)
    ensures BadgeClass(FallbackRecs(totals)[0].category) == "badge badge-food"
    ensures BadgeClass(FallbackRecs(totals)[1].category) == "badge badge-general"
  {
    FoodBadge();
    GeneralBadge();
  }
}
