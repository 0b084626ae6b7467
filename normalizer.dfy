/** The response normaliser: pull the JSON object out of the model's reply text, require a
    `food_items` array, and coerce every item and the record's totals to numbers with defaults. */
module Normalizer {
  import opened Js

  /** The one error every failure of the normaliser is reported as. */
  const ParseFailure := "Failed to parse AI response"

  // ---------------------------------------------------------------------------------
  // Extraction: the match of /\{[\s\S]*\}/

  /** Position of the first `c` in `s`. */
  function FindFirst(s: string, c: char): (r: Option<nat>)
    ensures r.Some? ==> r.value < |s| && s[r.value] == c
    ensures r.Some? ==> forall k :: 0 <= k < r.value ==> s[k] != c
    ensures r.None? <==> forall k :: 0 <= k < |s| ==> s[k] != c
  {
    if |s| == 0 then None
    else if s[0] == c then Some(0)
    else
      match FindFirst(s[1..], c)
      case None => None
      case Some(i) => Some(i + 1)
  }

  /** Position of the last `c` in `s`. */
  function FindLast(s: string, c: char): (r: Option<nat>)
    ensures r.Some? ==> r.value < |s| && s[r.value] == c
    ensures r.Some? ==> forall k :: r.value < k < |s| ==> s[k] != c
    ensures r.None? <==> forall k :: 0 <= k < |s| ==> s[k] != c
  {
    if |s| == 0 then None
    else if s[|s| - 1] == c then Some(|s| - 1)
    else FindLast(s[..|s| - 1], c)
  }

  /** `s` holds a `{` strictly before a `}`. */
  predicate HasBracePair(s: string)
  {
    exists i, j :: 0 <= i < j < |s| && s[i] == '{' && s[j] == '}'
  }

  /** Where the greedy match of `{`, anything, `}` lies: it starts at the leftmost `{` that
      some `}` follows, which is the first `{` of all, and runs to the last `}`. */
  function BraceSpan(s: string): (r: Option<(nat, nat)>)
    ensures r.Some? ==> r.value.0 < r.value.1 < |s| && s[r.value.0] == '{' && s[r.value.1] == '}'
    ensures r.Some? ==> forall i, j :: 0 <= i < j < |s| && s[i] == '{' && s[j] == '}' ==>
                          r.value.0 <= i && j <= r.value.1
    ensures r.None? <==> !HasBracePair(s)
  {
    match (FindFirst(s, '{'), FindLast(s, '}'))
    case (Some(i), Some(j)) =>
      if i < j then Some((i, j))
      else
        assert !HasBracePair(s) by {
          forall a, b | 0 <= a < b < |s| && s[a] == '{'
            ensures s[b] != '}'
          {
            assert j < b;
          }
        }
        None
    case (Some(i), None) => None
    case (None, _) => None
  }

  /** `jsonMatch ? jsonMatch[0] : response`: the matched span, or the whole text when nothing matches. */
  function JsonText(s: string): (t: string)
    ensures !HasBracePair(s) ==> t == s
    ensures HasBracePair(s) ==> |t| >= 2 && t[0] == '{' && t[|t| - 1] == '}'
    ensures HasBracePair(s) ==> BraceSpan(s).Some? && t == s[BraceSpan(s).value.0 .. BraceSpan(s).value.1 + 1]
  {
    match BraceSpan(s)
    case None => s
    case Some((i, j)) => s[i..j + 1]
  }

  /** Text before and after a single object: the span is the object itself, whatever the
      surrounding text is, as long as that text holds no braces. */
  lemma JsonTextSkipsProse(before: string, obj: string, after: string)
    requires |obj| >= 2 && obj[0] == '{' && obj[|obj| - 1] == '}'
    requires forall k :: 0 <= k < |before| ==> before[k] != '{' && before[k] != '}'
    requires forall k :: 0 <= k < |after| ==> after[k] != '{' && after[k] != '}'
    ensures JsonText(before + obj + after) == obj
  {
    var s := before + obj + after;
    var i, j := |before|, |before| + |obj| - 1;
    assert s[i] == '{' && s[j] == '}';
    assert HasBracePair(s);
    var span := BraceSpan(s).value;
    assert span.0 <= i && j <= span.1;
    assert s[span.0] == '{' && s[span.1] == '}';
    assert forall k :: 0 <= k < |before| ==> s[k] == before[k];
    assert forall k :: j < k < |s| ==> s[k] == after[k - |before| - |obj|];
    assert s[i..j + 1] == obj;
  }

  // ---------------------------------------------------------------------------------
  // Coercion of the parsed reply

  /** One food item as the service returns it: `name` and `quantity` keep whatever truthy
      value the model gave. */
  datatype FoodItem = FoodItem(
    name: Json, calories: real, protein: real, carbs: real, fat: real,
    quantity: Json, confidence: real)

  /** The normalised nutrition record; `mealType` is `None` when the caller's value is undefined. */
  datatype Nutrition = Nutrition(
    foodItems: seq<FoodItem>, totalCalories: real, healthScore: real, aiConfidence: real,
    suggestions: seq<Json>, mealType: Option<Json>, autoDetected: bool)

  /** The `map` callback; `None` when the item is null, where reading `item.name` throws. */
  function CoerceItem(rt: Runtime, item: Json): (r: Option<FoodItem>)
    ensures r.None? <==> item.Null?
  {
    if item.Null? then None
    else
      Some(FoodItem(
        OrElse(Member(item, "name"), Str("Unknown Food")),
        NumberOr(rt, Member(item, "calories"), 0.0),
        NumberOr(rt, Member(item, "protein"), 0.0),
        NumberOr(rt, Member(item, "carbs"), 0.0),
        NumberOr(rt, Member(item, "fat"), 0.0),
        OrElse(Member(item, "quantity"), Str("Unknown")),
        NumberOr(rt, Member(item, "confidence"), 0.5)))
  }

  /** What a coerced item holds: each field is the item's own value when that value is
      usable (truthy for the texts, a non-zero number for the numbers) and the default
      otherwise; so the name and quantity are always truthy and the confidence is never 0. */
  lemma CoercedItemFields(rt: Runtime, item: Json)
    requires !item.Null?
    ensures var it := CoerceItem(rt, item).value;
      && (Truthy(Member(item, "name")) ==> Some(it.name) == Member(item, "name"))
      && (!Truthy(Member(item, "name")) ==> it.name == Str("Unknown Food"))
      && (Truthy(Member(item, "quantity")) ==> Some(it.quantity) == Member(item, "quantity"))
      && (!Truthy(Member(item, "quantity")) ==> it.quantity == Str("Unknown"))
      && Truthy(Some(it.name)) && Truthy(Some(it.quantity))
      && (Usable(rt, Member(item, "calories")) ==> it.calories == ToNumber(rt, Member(item, "calories")).value)
      && (!Usable(rt, Member(item, "calories")) ==> it.calories == 0.0)
      && (Usable(rt, Member(item, "protein")) ==> it.protein == ToNumber(rt, Member(item, "protein")).value)
      && (!Usable(rt, Member(item, "protein")) ==> it.protein == 0.0)
      && (Usable(rt, Member(item, "carbs")) ==> it.carbs == ToNumber(rt, Member(item, "carbs")).value)
      && (!Usable(rt, Member(item, "carbs")) ==> it.carbs == 0.0)
      && (Usable(rt, Member(item, "fat")) ==> it.fat == ToNumber(rt, Member(item, "fat")).value)
      && (!Usable(rt, Member(item, "fat")) ==> it.fat == 0.0)
      && (Usable(rt, Member(item, "confidence")) ==> it.confidence == ToNumber(rt, Member(item, "confidence")).value)
      && (!Usable(rt, Member(item, "confidence")) ==> it.confidence == 0.5)
      && it.confidence != 0.0
  {
  }

  /** `Number(v)` is neither NaN nor zero, so `Number(v) || d` keeps it. */
  predicate Usable(rt: Runtime, v: Option<Json>)
  {
    ToNumber(rt, v).Finite? && ToNumber(rt, v).value != 0.0
  }

  /** `food_items.map(...)`: fails exactly when some item is null; otherwise one coerced
      item per input item, in the same order. */
  function CoerceItems(rt: Runtime, items: seq<Json>): (r: Option<seq<FoodItem>>)
    ensures r.Some? <==> forall k :: 0 <= k < |items| ==> !items[k].Null?
    ensures r.Some? ==> |r.value| == |items|
    ensures r.Some? ==> forall k :: 0 <= k < |items| ==> CoerceItem(rt, items[k]) == Some(r.value[k])
  {
    if |items| == 0 then Some([])
    else
      match (CoerceItem(rt, items[0]), CoerceItems(rt, items[1..]))
      case (Some(it), Some(rest)) =>
        assert forall k :: 1 <= k < |items| ==> items[k] == items[1..][k - 1];
        Some([it] + rest)
      case (None, _) => None
      case (Some(_), None) =>
        assert forall k :: 0 <= k < |items| - 1 ==> items[1..][k] == items[k + 1];
        None
  }

  /** `reduce((sum, item) => sum + item.calories, 0)`, adding from the left. */
  function SumCalories(items: seq<FoodItem>): real
  {
    if |items| == 0 then 0.0 else SumCalories(items[..|items| - 1]) + items[|items| - 1].calories
  }

  /** The sum over a concatenation is the sum of the parts. */
  lemma {:induction false} SumCaloriesAppend(a: seq<FoodItem>, b: seq<FoodItem>)
    ensures SumCalories(a + b) == SumCalories(a) + SumCalories(b)
    decreases |b|
  {
    if |b| == 0 {
      assert a + b == a;
    } else {
      var b' := b[..|b| - 1];
      assert (a + b)[..|a + b| - 1] == a + b';
      SumCaloriesAppend(a, b');
    }
  }

  /** The sum of items whose calories are all non-negative is non-negative and at least
      each item's calories. */
  lemma {:induction false} SumCaloriesBounds(items: seq<FoodItem>)
    requires forall k :: 0 <= k < |items| ==> items[k].calories >= 0.0
    ensures SumCalories(items) >= 0.0
    ensures forall k :: 0 <= k < |items| ==> items[k].calories <= SumCalories(items)
    decreases |items|
  {
    if |items| > 0 {
      var init := items[..|items| - 1];
      SumCaloriesBounds(init);
      assert forall k :: 0 <= k < |init| ==> init[k] == items[k];
    }
  }

  /** The record built from a parsed reply whose `food_items` coerced to `items`. */
  function Record(rt: Runtime, parsed: Json, items: seq<FoodItem>, mealType: Option<Json>): Nutrition
  {
    Nutrition(
      items,
      NumberOr(rt, Member(parsed, "total_calories"), SumCalories(items)),
      NumberOr(rt, Member(parsed, "health_score"), 70.0),
      NumberOr(rt, Member(parsed, "ai_confidence"), 0.7),
      match Member(parsed, "suggestions")
      case Some(Arr(ys)) => ys
      case _ => [Str("Analysis completed")],
      mealType,
      true)
  }

  /** parseOpenRouterResponse. `content` is the model's reply (`message.content`); a value
      that is not a string has no `match` method, which throws like every other failure. */
  function Normalize(rt: Runtime, content: Json, mealType: Option<Json>): (r: Result<Nutrition, string>)
    ensures r.Fail? ==> r.error == ParseFailure
  {
    if !content.Str? then Fail(ParseFailure)
    else
      match rt.parse(JsonText(content.s))
      case None => Fail(ParseFailure)
      case Some(parsed) =>
        match Member(parsed, "food_items")
        case Some(Arr(xs)) =>
          (match CoerceItems(rt, xs)
           case Some(items) => Ok(Record(rt, parsed, items, mealType))
           case None => Fail(ParseFailure))
        case _ => Fail(ParseFailure)
  }

  /** The reply is accepted exactly when it is a string whose JSON text parses to a value
      with an array `food_items` none of whose items is null; an empty array is accepted. */
  predicate Acceptable(rt: Runtime, content: Json)
  {
    && content.Str?
    && rt.parse(JsonText(content.s)).Some?
    && var parsed := rt.parse(JsonText(content.s)).value;
    && Member(parsed, "food_items").Some?
    && Member(parsed, "food_items").value.Arr?
    && forall k :: 0 <= k < |Member(parsed, "food_items").value.items| ==>
         !Member(parsed, "food_items").value.items[k].Null?
  }

  lemma NormalizeAcceptsIff(rt: Runtime, content: Json, mealType: Option<Json>)
    ensures Normalize(rt, content, mealType).Ok? <==> Acceptable(rt, content)
  {
  }

  /** What an accepted reply normalises to, field by field. */
  lemma NormalizedRecord(rt: Runtime, content: Json, mealType: Option<Json>)
    requires Acceptable(rt, content)
    ensures var parsed := rt.parse(JsonText(content.s)).value;
      var xs := Member(parsed, "food_items").value.items;
      var n := Normalize(rt, content, mealType).value;
      && |n.foodItems| == |xs|
      && (forall k :: 0 <= k < |xs| ==> CoerceItem(rt, xs[k]) == Some(n.foodItems[k]))
      && (Usable(rt, Member(parsed, "total_calories")) ==>
            n.totalCalories == ToNumber(rt, Member(parsed, "total_calories")).value)
      && (!Usable(rt, Member(parsed, "total_calories")) ==> n.totalCalories == SumCalories(n.foodItems))
      && (Usable(rt, Member(parsed, "health_score")) ==>
            n.healthScore == ToNumber(rt, Member(parsed, "health_score")).value)
      && (!Usable(rt, Member(parsed, "health_score")) ==> n.healthScore == 70.0)
      && (Usable(rt, Member(parsed, "ai_confidence")) ==>
            n.aiConfidence == ToNumber(rt, Member(parsed, "ai_confidence")).value)
      && (!Usable(rt, Member(parsed, "ai_confidence")) ==> n.aiConfidence == 0.7)
      && (Member(parsed, "suggestions").Some? && Member(parsed, "suggestions").value.Arr? <==>
            Some(Arr(n.suggestions)) == Member(parsed, "suggestions"))
      && (!(Member(parsed, "suggestions").Some? && Member(parsed, "suggestions").value.Arr?) ==>
            n.suggestions == [Str("Analysis completed")])
      && n.mealType == mealType
      && n.autoDetected
  {
    var parsed := rt.parse(JsonText(content.s)).value;
    var xs := Member(parsed, "food_items").value.items;
    var items := CoerceItems(rt, xs).value;
    assert Normalize(rt, content, mealType) == Ok(Record(rt, parsed, items, mealType));
  }

  /** An empty `food_items` array is not a failure: it gives no items and, unless the
      reply supplies a usable total, zero total calories. */
  lemma EmptyFoodItemsAccepted(rt: Runtime, content: string, mealType: Option<Json>)
    requires rt.parse(JsonText(content)).Some?
    requires Member(rt.parse(JsonText(content)).value, "food_items") == Some(Arr([]))
    ensures Normalize(rt, Str(content), mealType).Ok?
    ensures Normalize(rt, Str(content), mealType).value.foodItems == []
    ensures !Usable(rt, Member(rt.parse(JsonText(content)).value, "total_calories")) ==>
              Normalize(rt, Str(content), mealType).value.totalCalories == 0.0
  {
  }

  /** The failures: a reply that is not a string, a text that does not parse, a missing or
      non-array `food_items`, and a null item all end in `ParseFailure`. */
  lemma NormalizeFailures(rt: Runtime, content: Json, mealType: Option<Json>)
    ensures !content.Str? ==> Normalize(rt, content, mealType) == Fail(ParseFailure)
    ensures content.Str? && rt.parse(JsonText(content.s)).None? ==>
              Normalize(rt, content, mealType) == Fail(ParseFailure)
    ensures content.Str? && rt.parse(JsonText(content.s)).Some? &&
            !(Member(rt.parse(JsonText(content.s)).value, "food_items").Some? &&
              Member(rt.parse(JsonText(content.s)).value, "food_items").value.Arr?) ==>
              Normalize(rt, content, mealType) == Fail(ParseFailure)
  {
  }

  lemma NullItemFails(rt: Runtime, content: string, mealType: Option<Json>, xs: seq<Json>, k: nat)
    requires rt.parse(JsonText(content)).Some?
    requires Member(rt.parse(JsonText(content)).value, "food_items") == Some(Arr(xs))
    requires k < |xs| && xs[k].Null?
    ensures Normalize(rt, Str(content), mealType) == Fail(ParseFailure)
  {
  }

  // ---------------------------------------------------------------------------------
  // The record as JSON

  function ItemJson(it: FoodItem): Json
  {
    Obj(map[
      "name" := it.name, "calories" := Num(it.calories), "protein" := Num(it.protein),
      "carbs" := Num(it.carbs), "fat" := Num(it.fat), "quantity" := it.quantity,
      "confidence" := Num(it.confidence)])
  }

  function ItemsJson(items: seq<FoodItem>): (r: seq<Json>)
    ensures |r| == |items| && forall k :: 0 <= k < |items| ==> r[k] == ItemJson(items[k])
  {
    if |items| == 0 then [] else [ItemJson(items[0])] + ItemsJson(items[1..])
  }

  /** The record's properties as `res.json` writes them; an undefined meal type is omitted. */
  function NutritionFields(n: Nutrition): (m: map<string, Json>)
    ensures m.Keys == {"foodItems", "totalCalories", "healthScore", "aiConfidence", "suggestions", "autoDetected"}
                      + (if n.mealType.Some? then {"mealType"} else {})
    ensures m["foodItems"] == Arr(ItemsJson(n.foodItems)) && m["totalCalories"] == Num(n.totalCalories)
    ensures m["healthScore"] == Num(n.healthScore) && m["aiConfidence"] == Num(n.aiConfidence)
    ensures m["suggestions"] == Arr(n.suggestions) && m["autoDetected"] == Bool(n.autoDetected)
    ensures n.mealType.Some? ==> m["mealType"] == n.mealType.value
  {
    var base := map[
      "foodItems" := Arr(ItemsJson(n.foodItems)), "totalCalories" := Num(n.totalCalories),
      "healthScore" := Num(n.healthScore), "aiConfidence" := Num(n.aiConfidence),
      "suggestions" := Arr(n.suggestions), "autoDetected" := Bool(n.autoDetected)];
    match n.mealType
    case None => base
    case Some(m) => base["mealType" := m]
  }
}
