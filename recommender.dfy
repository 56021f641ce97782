/** The backend recommender service: the totals it reads from a request, the
    highest-impact category, the three fallback tips, the normalisation of the
    language model's list into tips, and the message list and failure reply of the
    chat assistant. The model call itself and the JSON extraction from its text are
    inputs. */
module Recommender {
  import opened Common
  import Analyzer

  // ---------------------------------------------------------------------------
  // Totals and the highest category
  // ---------------------------------------------------------------------------

  /** `payload.get(key) or payload.get(key + "_kg") or 0` */
  function TotalField(payload: map<string, real>, key: string): (v: real)
    ensures key in payload && payload[key] != 0.0 ==> v == payload[key]
    ensures !(key in payload && payload[key] != 0.0) && key + "_kg" in payload ==> v == payload[key + "_kg"]
    ensures !(key in payload && payload[key] != 0.0) && key + "_kg" !in payload ==> v == 0.0
  {
    NonZeroOr(payload, key, NonZeroOr(payload, key + "_kg", 0.0))
  }

  /** The totals of a tips request. */
  function ExtractTotals(payload: map<string, real>): (t: Analyzer.Totals)
    ensures t == Analyzer.Totals(TotalField(payload, "total"), TotalField(payload, "energy"),
      TotalField(payload, "travel"), TotalField(payload, "food"), TotalField(payload, "goods"))
  {
    Analyzer.Totals(TotalField(payload, "total"), TotalField(payload, "energy"),
      TotalField(payload, "travel"), TotalField(payload, "food"), TotalField(payload, "goods"))
  }

  /** The request the recommendations page sends for a set of totals. */
  function PayloadOf(t: Analyzer.Totals): map<string, real> {
    map["total" := t.total, "energy" := t.energy, "travel" := t.travel, "food" := t.food, "goods" := t.goods]
  }

  /** The service reads back exactly the totals the page sends: a zero falls through
      to an absent `_kg` key and so to 0 again. */
  lemma ExtractTotalsRoundTrip(t: Analyzer.Totals)
    ensures ExtractTotals(PayloadOf(t)) == t
  {
    var p := PayloadOf(t);
    assert "total_kg" !in p && "energy_kg" !in p && "travel_kg" !in p;
    assert "food_kg" !in p && "goods_kg" !in p;
  }

  /** The chat request's totals: `totals.get(key, 0)` for each key. */
  function ChatTotals(totals: map<string, real>): (t: Analyzer.Totals)
    ensures t.energy == GetOr(totals, "energy", 0.0) && t.travel == GetOr(totals, "travel", 0.0)
    ensures t.food == GetOr(totals, "food", 0.0) && t.goods == GetOr(totals, "goods", 0.0)
    ensures t.total == GetOr(totals, "total", 0.0)
  {
    Analyzer.Totals(GetOr(totals, "total", 0.0), GetOr(totals, "energy", 0.0), GetOr(totals, "travel", 0.0),
      GetOr(totals, "food", 0.0), GetOr(totals, "goods", 0.0))
  }

  const CategoryNames: seq<string> := ["energy", "travel", "food", "goods"]

  function CategoryValues(t: Analyzer.Totals): (vs: seq<real>)
    ensures |vs| == 4
  {
    [t.energy, t.travel, t.food, t.goods]
  }

  /** The highest-impact category: `max` over the four pairs by value, which keeps
      the first of equal values. */
  function Highest(t: Analyzer.Totals): (h: string)
    ensures exists k :: (0 <= k < 4 && h == CategoryNames[k]
      && (forall j :: 0 <= j < 4 ==> CategoryValues(t)[j] <= CategoryValues(t)[k])
      && (forall j :: 0 <= j < k ==> CategoryValues(t)[j] < CategoryValues(t)[k]))
  {
    CategoryNames[FirstMaxIndex(CategoryValues(t))]
  }

  /** Energy wins every tie it takes part in; goods wins only when strictly above
      the other three. */
  lemma HighestTies(t: Analyzer.Totals)
    ensures t.energy >= t.travel && t.energy >= t.food && t.energy >= t.goods ==> Highest(t) == "energy"
    ensures Highest(t) == "goods" <==> t.goods > t.energy && t.goods > t.travel && t.goods > t.food
  {
    var vs := CategoryValues(t);
    var k := FirstMaxIndex(vs);
    if t.energy >= t.travel && t.energy >= t.food && t.energy >= t.goods {
      FirstMaxIndexUnique(vs, 0);
    }
    if t.goods > t.energy && t.goods > t.travel && t.goods > t.food {
      FirstMaxIndexUnique(vs, 3);
    }
    if Highest(t) == "goods" {
      assert CategoryNames[k] == "goods";
      assert CategoryNames[0][0] != 'g' && CategoryNames[1][0] != 'g' && CategoryNames[2][0] != 'g';
      assert k == 3;
      assert vs[0] < vs[3] && vs[1] < vs[3] && vs[2] < vs[3];
    }
  }

  // ---------------------------------------------------------------------------
  // Tips
  // ---------------------------------------------------------------------------

  /** A tip as the service returns it. Fields copied from the model's item keep
      whatever JSON value it gave. */
  datatype Tip = Tip(title: Json, text: Json, impact: int, confidence: real, steps: seq<Json>, category: Json)

  const EnergyTipLead: string := "Your energy emissions are "
  const EnergyTipTail: string :=
    " kg/month. Start with simple high-impact fixes like sealing drafts, reducing AC load, and switching to LED lighting."
  const EnergyTipSteps: seq<Json> := [
    JStr("Seal gaps around doors/windows using weather strips."),
    JStr("Replace 5–10 bulbs with LEDs."),
    JStr("Increase AC temperature by 1–2°C.")]
  const TravelTipLead: string := "Travel emissions are "
  const TravelTipTail: string := " kg/month. Short trips waste the most fuel — combining errands helps reduce this."
  const TravelTipSteps: seq<Json> := [
    JStr("List all weekly short trips."),
    JStr("Group 2–3 trips into a single outing."),
    JStr("Try public transport at least once per week.")]
  const FoodTipLead: string := "Food-related CO₂ is "
  const FoodTipTail: string :=
    " kg/month. Reducing high-emission meals (red meat, dairy-heavy dishes) makes a big difference."
  const FoodTipSteps: seq<Json> := [
    JStr("Replace 2 red-meat meals with plant-based options."),
    JStr("Try legume-based proteins like chickpeas or lentils."),
    JStr("Shift 1–2 weekly meals to vegetarian.")]

  /** The three tips returned whenever the model gives nothing usable. `show` is
      Python's formatting of a number inside an f-string. */
  function FallbackTips(t: Analyzer.Totals, show: real -> string): (tips: seq<Tip>)
    ensures |tips| == 3
    ensures tips[0].category == JStr("Energy") && tips[1].category == JStr("Travel") && tips[2].category == JStr("Food")
    ensures tips[0].impact == FlooredImpact(t.energy, 0.10, 5)
    ensures tips[1].impact == FlooredImpact(t.travel, 0.15, 3)
    ensures tips[2].impact == FlooredImpact(t.food, 0.12, 4)
    ensures tips[0].confidence == 0.85 && tips[1].confidence == 0.75 && tips[2].confidence == 0.80
  {
    [Tip(JStr("Improve home energy efficiency"), JStr(EnergyTipLead + show(t.energy) + EnergyTipTail),
         FlooredImpact(t.energy, 0.10, 5), 0.85, EnergyTipSteps, JStr("Energy")),
     Tip(JStr("Reduce short car trips"), JStr(TravelTipLead + show(t.travel) + TravelTipTail),
         FlooredImpact(t.travel, 0.15, 3), 0.75, TravelTipSteps, JStr("Travel")),
     Tip(JStr("Lower food-based emissions"), JStr(FoodTipLead + show(t.food) + FoodTipTail),
         FlooredImpact(t.food, 0.12, 4), 0.80, FoodTipSteps, JStr("Food"))]
  }

  /** Each fallback tip quotes its category's figure. */
  lemma FallbackTipsQuoteTotals(t: Analyzer.Totals, show: real -> string)
    ensures var tips := FallbackTips(t, show);
      Contains(tips[0].text.s, show(t.energy)) && Contains(tips[1].text.s, show(t.travel))
      && Contains(tips[2].text.s, show(t.food))
  {
    ContainsMiddle(EnergyTipLead, show(t.energy), EnergyTipTail);
    ContainsMiddle(TravelTipLead, show(t.travel), TravelTipTail);
    ContainsMiddle(FoodTipLead, show(t.food), FoodTipTail);
  }

  /** For non-negative totals each fallback impact is its floor, or the truncated
      share of its category, and grows with that category. */
  lemma FallbackTipsImpactBounds(t: Analyzer.Totals, u: Analyzer.Totals, show: real -> string)
    requires 0.0 <= t.energy <= u.energy && 0.0 <= t.travel <= u.travel && 0.0 <= t.food <= u.food
    ensures var tips := FallbackTips(t, show);
      (tips[0].impact == 5 || tips[0].impact as real <= t.energy * 0.10)
      && (tips[1].impact == 3 || tips[1].impact as real <= t.travel * 0.15)
      && (tips[2].impact == 4 || tips[2].impact as real <= t.food * 0.12)
    ensures FallbackTips(t, show)[0].impact <= FallbackTips(u, show)[0].impact
    ensures FallbackTips(t, show)[1].impact <= FallbackTips(u, show)[1].impact
    ensures FallbackTips(t, show)[2].impact <= FallbackTips(u, show)[2].impact
  {
    TruncMonotone(t.energy * 0.10, u.energy * 0.10);
    TruncMonotone(t.travel * 0.15, u.travel * 0.15);
    TruncMonotone(t.food * 0.12, u.food * 0.12);
  }

  /** Python's `int(v)` on a JSON value: numbers are truncated, booleans count as
      0 or 1, strings are read by `parseInt` (None where Python raises); lists and
      objects raise. */
  function ToInt(v: Json, parseInt: string -> Option<int>): (r: Result<int>)
    ensures v.JNum? ==> r == Ok(Trunc(v.n))
    ensures v.JArr? || v.JObj? || v.JNull? ==> r.Fail?
  {
    match v
    case JNum(n) => Ok(Trunc(n))
    case JBool(b) => Ok(if b then 1 else 0)
    case JStr(s) => (match parseInt(s) case Some(i) => Ok(i) case None => Fail("invalid literal for int()"))
    case _ => Fail("int() argument must be a string or a number")
  }

  /** Python's `float(v)`, with `parseFloat` reading strings. */
  function ToReal(v: Json, parseFloat: string -> Option<real>): (r: Result<real>)
    ensures v.JNum? ==> r == Ok(v.n)
    ensures v.JArr? || v.JObj? || v.JNull? ==> r.Fail?
  {
    match v
    case JNum(n) => Ok(n)
    case JBool(b) => Ok(if b then 1.0 else 0.0)
    case JStr(s) => (match parseFloat(s) case Some(x) => Ok(x) case None => Fail("could not convert string to float"))
    case _ => Fail("float() argument must be a string or a number")
  }

  /** The tip built from the object at position i of the model's list. A value
      `int()` or `float()` cannot convert makes the service raise. */
  function NormalizeTip(item: map<string, Json>, i: nat, parseInt: string -> Option<int>, parseFloat: string -> Option<real>)
    : (r: Result<Tip>)
    ensures r.Ok? <==>
      && (Truthy(Field(item, "impact_kg_month")) ==> ToInt(Field(item, "impact_kg_month"), parseInt).Ok?)
      && (Truthy(Field(item, "confidence")) ==> ToReal(Field(item, "confidence"), parseFloat).Ok?)
    ensures r.Ok? && Truthy(Field(item, "impact_kg_month")) ==>
      r.value.impact == ToInt(Field(item, "impact_kg_month"), parseInt).value
    ensures r.Ok? && Field(item, "impact_kg_month").JNum? ==> r.value.impact == Trunc(Field(item, "impact_kg_month").n)
    ensures r.Ok? && Truthy(Field(item, "confidence")) ==>
      r.value.confidence == ToReal(Field(item, "confidence"), parseFloat).value
    ensures r.Ok? && Field(item, "confidence").JNum? && Truthy(Field(item, "confidence")) ==>
      r.value.confidence == Field(item, "confidence").n
    ensures r.Ok? ==> r.value.title == FieldOr(item, "title", JStr("Recommendation " + NatToString(i + 1)))
    ensures r.Ok? ==> r.value.text == FieldOr(item, "text", JStr(""))
    ensures r.Ok? ==> r.value.category == FieldOr(item, "category", JStr("General"))
    ensures r.Ok? && !Truthy(Field(item, "impact_kg_month")) ==> r.value.impact == 0
    ensures r.Ok? && !Truthy(Field(item, "confidence")) ==> r.value.confidence == 0.7
    ensures r.Ok? ==> r.value.steps == if Field(item, "steps").JArr? then Field(item, "steps").items else []
  {
    match ToInt(Or(Field(item, "impact_kg_month"), JNum(0.0)), parseInt)
    case Fail(e) => Fail(e)
    case Ok(impact) =>
      match ToReal(Or(Field(item, "confidence"), JNum(0.7)), parseFloat)
      case Fail(e) => Fail(e)
      case Ok(confidence) =>
        Ok(Tip(
          FieldOr(item, "title", JStr("Recommendation " + NatToString(i + 1))),
          FieldOr(item, "text", JStr("")),
          impact,
          confidence,
          if Field(item, "steps").JArr? then Field(item, "steps").items else [],
          FieldOr(item, "category", JStr("General"))))
  }

  /** Untitled tips at different positions get different default titles. */
  lemma DefaultTitlesDistinct(a: map<string, Json>, i: nat, b: map<string, Json>, j: nat,
                              parseInt: string -> Option<int>, parseFloat: string -> Option<real>)
    requires "title" !in a && "title" !in b && i != j
    requires NormalizeTip(a, i, parseInt, parseFloat).Ok? && NormalizeTip(b, j, parseInt, parseFloat).Ok?
    ensures NormalizeTip(a, i, parseInt, parseFloat).value.title != NormalizeTip(b, j, parseInt, parseFloat).value.title
  {
    var p := "Recommendation ";
    if p + NatToString(i + 1) == p + NatToString(j + 1) {
      assert NatToString(i + 1) == (p + NatToString(i + 1))[|p|..];
      assert NatToString(j + 1) == (p + NatToString(j + 1))[|p|..];
      NatToStringInjective(i + 1, j + 1);
    }
  }

  /** The tips built from the model's list, position by position: entries that
      are not objects are skipped, and the first that raises fails the list. */
  function TipsFrom(parsed: seq<Json>, parseInt: string -> Option<int>, parseFloat: string -> Option<real>)
    : (r: Result<seq<Tip>>)
  {
    if parsed == [] then Ok([])
    else
      match TipsFrom(parsed[..|parsed| - 1], parseInt, parseFloat)
      case Fail(e) => Fail(e)
      case Ok(done) =>
        var item := parsed[|parsed| - 1];
        if !item.JObj? then Ok(done)
        else
          match NormalizeTip(item.fields, |parsed| - 1, parseInt, parseFloat)
          case Fail(e) => Fail(e)
          case Ok(tip) => Ok(done + [tip])
  }

  /** Every object of the model's list yields exactly one tip. */
  lemma {:induction false} TipsFromCountsObjects(parsed: seq<Json>, parseInt: string -> Option<int>,
                                                 parseFloat: string -> Option<real>)
    requires TipsFrom(parsed, parseInt, parseFloat).Ok?
    ensures |TipsFrom(parsed, parseInt, parseFloat).value| == CountObjects(parsed)
  {
    if parsed != [] {
      TipsFromCountsObjects(parsed[..|parsed| - 1], parseInt, parseFloat);
    }
  }

  lemma {:induction false} TipsFromFailureSticks(parsed: seq<Json>, n: nat, parseInt: string -> Option<int>,
                                                 parseFloat: string -> Option<real>)
    requires n <= |parsed| && TipsFrom(parsed[..n], parseInt, parseFloat).Fail?
    ensures TipsFrom(parsed, parseInt, parseFloat).Fail?
    decreases |parsed| - n
  {
    if n < |parsed| {
      assert parsed[..n + 1][..n] == parsed[..n];
      TipsFromFailureSticks(parsed, n + 1, parseInt, parseFloat);
    } else {
      assert parsed[..n] == parsed;
    }
  }

  /** The normalisation loop of the tips service. */
  method NormalizeTips(parsed: seq<Json>, parseInt: string -> Option<int>, parseFloat: string -> Option<real>)
    returns (r: Result<seq<Tip>>)
    ensures r.Fail? <==> TipsFrom(parsed, parseInt, parseFloat).Fail?
    ensures r.Ok? ==> r == TipsFrom(parsed, parseInt, parseFloat)
  {
    var recommendations: seq<Tip> := [];
    var i := 0;
    while i < |parsed|
      invariant 0 <= i <= |parsed|
      invariant TipsFrom(parsed[..i], parseInt, parseFloat) == Ok(recommendations)
    {
      assert parsed[..i + 1][..i] == parsed[..i];
      var item := parsed[i];
      if item.JObj? {
        var tip := NormalizeTip(item.fields, i, parseInt, parseFloat);
        if tip.Fail? {
          TipsFromFailureSticks(parsed, i + 1, parseInt, parseFloat);
          return Fail(tip.error);
        }
        recommendations := recommendations + [tip.value];
      }
      i := i + 1;
    }
    assert parsed[..i] == parsed;
    return Ok(recommendations);
  }

  /** What the language model call produced: it raised, or its text was parsed
      (JSON null when no JSON could be extracted). */
  datatype LlmOutcome = LlmRaised | LlmParsed(parsed: Json)

  /** The tips service's answer. */
  function GenerateTips(payload: map<string, real>, outcome: LlmOutcome, show: real -> string,
                        parseInt: string -> Option<int>, parseFloat: string -> Option<real>)
    : (r: Result<seq<Tip>>)
    ensures r.Ok? ==> |r.value| > 0
    ensures outcome.LlmRaised? ==> r == Ok(FallbackTips(ExtractTotals(payload), show))
    ensures outcome.LlmParsed? && !(outcome.parsed.JArr? && outcome.parsed.items != []) ==>
      r == Ok(FallbackTips(ExtractTotals(payload), show))
    ensures outcome.LlmParsed? && outcome.parsed.JArr? ==>
      var tips := TipsFrom(outcome.parsed.items, parseInt, parseFloat);
      && (tips.Fail? <==> r.Fail?)
      && (tips == Ok([]) ==> r == Ok(FallbackTips(ExtractTotals(payload), show)))
      && (tips.Ok? && tips.value != [] ==> r == tips)
  {
    var fallback := FallbackTips(ExtractTotals(payload), show);
    match outcome
    case LlmRaised => Ok(fallback)
    case LlmParsed(parsed) =>
      if !Truthy(parsed) || !parsed.JArr? then Ok(fallback)
      else
        match TipsFrom(parsed.items, parseInt, parseFloat)
        case Fail(e) => Fail(e)
        case Ok(tips) => Ok(if tips == [] then fallback else tips)
  }

  /** A list with an object among it yields the model's own tips, one per object,
      unless one of them raises. */
  lemma GenerateTipsUsesModelTips(payload: map<string, real>, items: seq<Json>, show: real -> string,
                                  parseInt: string -> Option<int>, parseFloat: string -> Option<real>)
    requires CountObjects(items) > 0
    requires TipsFrom(items, parseInt, parseFloat).Ok?
    ensures GenerateTips(payload, LlmParsed(JArr(items)), show, parseInt, parseFloat) == TipsFrom(items, parseInt, parseFloat)
  {
    TipsFromCountsObjects(items, parseInt, parseFloat);
  }

  /** A list with no object among it yields no tips. */
  lemma {:induction false} NoObjectsTipsEmpty(items: seq<Json>, parseInt: string -> Option<int>,
                                              parseFloat: string -> Option<real>)
    requires forall k :: 0 <= k < |items| ==> !items[k].JObj?
    ensures TipsFrom(items, parseInt, parseFloat) == Ok([])
  {
    if items != [] {
      NoObjectsTipsEmpty(items[..|items| - 1], parseInt, parseFloat);
    }
  }

  /** A non-empty list in which no item is an object falls back to the three tips. */
  lemma GenerateTipsNoObjectsFallback(payload: map<string, real>, items: seq<Json>, show: real -> string,
                                      parseInt: string -> Option<int>, parseFloat: string -> Option<real>)
    requires items != [] && forall k :: 0 <= k < |items| ==> !items[k].JObj?
    ensures GenerateTips(payload, LlmParsed(JArr(items)), show, parseInt, parseFloat)
      == Ok(FallbackTips(ExtractTotals(payload), show))
  {
    NoObjectsTipsEmpty(items, parseInt, parseFloat);
  }

  // ---------------------------------------------------------------------------
  // Chat
  // ---------------------------------------------------------------------------

  datatype Message = Message(role: string, content: Json)

  /** A history entry the chat loop can read: an object with a role and a content. */
  predicate ReadableEntry(msg: Json) {
    msg.JObj? && "role" in msg.fields && "content" in msg.fields
  }

  /** The role a history entry is sent with: "user" stays, anything else becomes
      "assistant". */
  function RoleOf(msg: Json): string
    requires ReadableEntry(msg)
  {
    if msg.fields["role"] == JStr("user") then "user" else "assistant"
  }

  /** The chat history as it is iterated: a list gives its entries, an empty string
      or object gives none, and anything else makes the loop raise. */
  function HistoryEntries(history: Json): (r: Result<seq<Json>>)
    ensures history.JArr? ==> r == Ok(history.items)
  {
    match history
    case JArr(items) => Ok(items)
    case JStr(s) => if s == "" then Ok([]) else Fail("string indices must be integers")
    case JObj(m) => if |m| == 0 then Ok([]) else Fail("string indices must be integers")
    case _ => Fail("object is not iterable")
  }

  /** The messages sent to the model: the system prompt, the history with its roles
      mapped and its contents unchanged, and the new question. An entry that is not
      an object with both keys makes the loop raise. */
  method BuildMessages(systemPrompt: string, history: seq<Json>, question: Json) returns (r: Result<seq<Message>>)
    ensures r.Ok? <==> forall k :: 0 <= k < |history| ==> ReadableEntry(history[k])
    ensures r.Ok? ==> |r.value| == |history| + 2
    ensures r.Ok? ==> r.value[0] == Message("system", JStr(systemPrompt))
    ensures r.Ok? ==> r.value[|history| + 1] == Message("user", question)
    ensures r.Ok? ==> forall k :: 0 <= k < |history| ==>
      r.value[k + 1] == Message(RoleOf(history[k]), history[k].fields["content"])
  {
    var formatted: seq<Message> := [];
    var i := 0;
    while i < |history|
      invariant 0 <= i <= |history|
      invariant forall k :: 0 <= k < i ==> ReadableEntry(history[k])
      invariant |formatted| == i
      invariant forall k :: 0 <= k < i ==> formatted[k] == Message(RoleOf(history[k]), history[k].fields["content"])
    {
      var msg := history[i];
      if !ReadableEntry(msg) {
        return Fail("history entry without role or content");
      }
      if msg.fields["role"] == JStr("user") {
        formatted := formatted + [Message("user", msg.fields["content"])];
      } else {
        formatted := formatted + [Message("assistant", msg.fields["content"])];
      }
      i := i + 1;
    }
    var messages := [Message("system", JStr(systemPrompt))] + formatted + [Message("user", question)];
    assert messages[1..|history| + 1] == formatted;
    return Ok(messages);
  }

  /** The message list of a chat request: its history read and converted, between
      the system prompt and the question. */
  method ChatMessages(systemPrompt: string, history: Json, question: Json) returns (r: Result<seq<Message>>)
    ensures r.Ok? <==> HistoryReadable(history)
    ensures r.Ok? ==> |r.value| == |HistoryEntries(history).value| + 2
    ensures r.Ok? ==> r.value[0] == Message("system", JStr(systemPrompt)) && r.value[|r.value| - 1] == Message("user", question)
  {
    var entries := HistoryEntries(history);
    if entries.Fail? {
      return Fail(entries.error);
    }
    r := BuildMessages(systemPrompt, entries.value, question);
  }

  const UnavailableLead: string := "AI unavailable — based on your analyzer, your highest-impact area is **"

  /** The reply when the model call raises. */
  function UnavailableReply(highest: string): (reply: string)
    ensures Contains(reply, highest)
  {
    ContainsMiddle(UnavailableLead, highest, "**.");
    UnavailableLead + highest + "**."
  }

  /** A history the chat loop reads to the end without raising. */
  predicate HistoryReadable(history: Json) {
    HistoryEntries(history).Ok?
    && forall k :: 0 <= k < |HistoryEntries(history).value| ==> ReadableEntry(HistoryEntries(history).value[k])
  }

  /** What the chat model call produced: it raised, or it returned a content. */
  datatype ChatOutcome = ChatRaised | ChatReplied(content: Json)

  /** The chat service's answer. A history it cannot read raises before the model
      is called; otherwise the answer is the model's content, or on failure a reply
      naming the highest-impact category of the request's totals. */
  function ChatResponse(totals: map<string, real>, history: Json, outcome: ChatOutcome): (r: Result<Json>)
    ensures r.Fail? <==> !HistoryReadable(history)
    ensures r.Ok? && outcome.ChatReplied? ==> r.value == outcome.content
    ensures r.Ok? && outcome.ChatRaised? ==> r.value.JStr? && Contains(r.value.s, Highest(ChatTotals(totals)))
  {
    if !HistoryReadable(history) then Fail("malformed chat history")
    else
      match outcome
      case ChatReplied(content) => Ok(content)
      case ChatRaised => Ok(JStr(UnavailableReply(Highest(ChatTotals(totals)))))
  }

  /** A missing or empty history always reads; a list reads exactly when every
      entry is an object with a role and a content. */
  lemma HistoryReadableCases(history: Json)
    ensures history == JArr([]) || history == JStr("") || history == JObj(map[]) ==> HistoryReadable(history)
    ensures history.JArr? ==> (HistoryReadable(history) <==>
      forall k :: 0 <= k < |history.items| ==> ReadableEntry(history.items[k]))
    ensures history.JNull? || history.JNum? || history.JBool? ==> !HistoryReadable(history)
  {
  }
}
