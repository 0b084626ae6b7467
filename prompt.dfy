/** The prompt builder: two fixed instruction templates (Chinese and English) with the
    meal type spliced in after the opening sentence, followed by a description of the
    JSON shape the model is asked to reply with. */
module Prompt {

  datatype Language = Zh | En

  /** `prompts[language] || prompts.en`: only the key "zh" selects the Chinese template. */
  function TemplateFor(languageKey: string): (l: Language)
    ensures l == Zh <==> languageKey == "zh"
  {
    if languageKey == "zh" then Zh else En
  }

  // ---------------------------------------------------------------------------------
  // Substring search used to state what the prompt mentions

  /** `k` occurs in `s` at some position. */
  predicate Contains(s: string, k: string)
  {
    exists i :: 0 <= i <= |s| && k <= s[i..]
  }

  lemma ContainsAt(s: string, k: string, i: nat)
    requires i <= |s| && k <= s[i..]
    ensures Contains(s, k)
  {
  }

  // ---------------------------------------------------------------------------------
  // The reply schema shown to the model

  /** What each template prints in place of a value. */
  datatype Placeholders = Placeholders(
    name: string, calories: string, protein: string, carbs: string, fat: string,
    quantity: string, confidence: string, total: string, health: string,
    aiConfidence: string, suggestions: string)

  /** One piece of a template: fixed text, the interpolated meal type, or a schema line
      `"key": value` at an indent that ends in a comma unless it is the last of its block. */
  datatype Line =
    | Text(text: string)
    | MealTypeHole
    | KeyValue(indent: string, key: string, value: string, last: bool)

  function LineText(l: Line, mealType: string): (t: string)
    ensures l.KeyValue? ==> Contains(t, l.key)
    ensures l.MealTypeHole? ==> t == mealType
  {
    match l
    case Text(text) => text
    case MealTypeHole => mealType
    case KeyValue(indent, key, value, last) =>
      var t := indent + "\"" + key + "\": " + value + (if last then "" else ",") + "\n";
      assert t[|indent| + 1..] == key + ("\": " + value + (if last then "" else ",") + "\n");
      ContainsAt(t, key, |indent| + 1);
      t
  }

  /** The text of a list of pieces with the meal type filled in. */
  function Concat(lines: seq<Line>, mealType: string): string
  {
    if |lines| == 0 then "" else LineText(lines[0], mealType) + Concat(lines[1..], mealType)
  }

  lemma {:induction false} ConcatContains(lines: seq<Line>, mealType: string, j: nat, k: string)
    requires j < |lines| && Contains(LineText(lines[j], mealType), k)
    ensures Contains(Concat(lines, mealType), k)
    decreases |lines|
  {
    var head := LineText(lines[0], mealType);
    var tail := Concat(lines[1..], mealType);
    assert Concat(lines, mealType) == head + tail;
    if j == 0 {
      ContainsLeft(head, tail, k);
    } else {
      assert lines[1..][j - 1] == lines[j];
      ConcatContains(lines[1..], mealType, j - 1, k);
      ContainsRight(head, tail, k);
    }
  }

  lemma ContainsLeft(a: string, b: string, k: string)
    requires Contains(a, k)
    ensures Contains(a + b, k)
  {
    var i :| 0 <= i <= |a| && k <= a[i..];
    assert (a + b)[i..] == a[i..] + b;
    ContainsAt(a + b, k, i);
  }

  lemma ContainsRight(a: string, b: string, k: string)
    requires Contains(b, k)
    ensures Contains(a + b, k)
  {
    var i :| 0 <= i <= |b| && k <= b[i..];
    assert (a + b)[|a| + i..] == b[i..];
    ContainsAt(a + b, k, |a| + i);
  }

  const ItemIndent := "      "
  const TopIndent := "  "

  /** The schema's lines: the object and array openers, the seven item fields, the
      closers, the four top-level fields and the final brace. */
  function SchemaLines(ph: Placeholders): (lines: seq<Line>)
  {
    [Text("{\n"),
     Text("  \"food_items\": [\n"),
     Text("    {\n"),
     KeyValue(ItemIndent, "name", ph.name, false),
     KeyValue(ItemIndent, "calories", ph.calories, false),
     KeyValue(ItemIndent, "protein", ph.protein, false),
     KeyValue(ItemIndent, "carbs", ph.carbs, false),
     KeyValue(ItemIndent, "fat", ph.fat, false),
     KeyValue(ItemIndent, "quantity", ph.quantity, false),
     KeyValue(ItemIndent, "confidence", ph.confidence, true),
     Text("    }\n"),
     Text("  ],\n"),
     KeyValue(TopIndent, "total_calories", ph.total, false),
     KeyValue(TopIndent, "health_score", ph.health, false),
     KeyValue(TopIndent, "ai_confidence", ph.aiConfidence, false),
     KeyValue(TopIndent, "suggestions", ph.suggestions, true),
     Text("}")]
  }

  /** The field names the schema asks for, each at its line of `SchemaLines`. */
  const SchemaKeys: seq<string> :=
    ["name", "calories", "protein", "carbs", "fat", "quantity", "confidence",
     "total_calories", "health_score", "ai_confidence", "suggestions"]

  function KeyLine(j: nat): nat
    requires j < |SchemaKeys|
  {
    if j < 7 then j + 3 else j + 5
  }

  const ZhPlaceholders := Placeholders(
    "\"食物名稱\"", "卡路里數值", "蛋白質克數", "碳水化合物克數", "脂肪克數",
    "\"份量描述\"", "信心度(0-1)", "總卡路里", "健康分數(0-100)",
    "整體分析信心度(0-1)", "[\"建議1\", \"建議2\"]")

  const EnPlaceholders := Placeholders(
    "\"Food name\"", "calorie_value", "protein_grams", "carbs_grams", "fat_grams",
    "\"portion description\"", "confidence_score(0-1)", "total_calories", "health_score(0-100)",
    "overall_confidence(0-1)", "[\"suggestion1\", \"suggestion2\"]")

  // ---------------------------------------------------------------------------------
  // The two templates

  /** A template: the opening sentence the meal type follows, the sentence introducing
      the schema, the schema's placeholders, and the closing instructions. */
  datatype Template = Template(opening: string, intro: string, ph: Placeholders, closing: string)

  const ZhTemplate := Template(
    "請分析這張食物照片，並以JSON格式回覆營養資訊。餐次類型是：",
    "\n\n請回覆以下格式的JSON：\n",
    ZhPlaceholders,
    "\n\n請準確識別食物並提供營養資訊。如果無法清楚識別某些食物，請在confidence中反映較低的信心度。")

  // The opening's first word is a literal of its own so that the verifier sees its first
  // character (a long literal is not unfolded character by character); the text is unchanged.
  const EnTemplate := Template(
    "Please " + "analyze this food image and respond with nutritional information in JSON format. Meal type: ",
    "\n\nPlease respond with JSON in this format:\n",
    EnPlaceholders,
    "\n\nPlease accurately identify foods and provide nutritional information. If you cannot clearly identify certain foods, reflect lower confidence in the confidence score.")

  function TemplateOf(l: Language): Template
  {
    match l
    case Zh => ZhTemplate
    case En => EnTemplate
  }

  /** The template literal as pieces: opening sentence, the meal type, the schema's
      introduction, the schema, the closing instructions. */
  function Pieces(t: Template): (ps: seq<Line>)
    ensures |ps| == 21
  {
    [Text(t.opening), MealTypeHole, Text(t.intro)] + SchemaLines(t.ph) + [Text(t.closing)]
  }

  /** The template text with the meal type interpolated. */
  function Render(t: Template, mealType: string): string
  {
    Concat(Pieces(t), mealType)
  }

  /** Unfolds the first two pieces: the opening sentence, then the meal type. */
  lemma RenderOpening(t: Template, mealType: string)
    ensures Render(t, mealType) == t.opening + (mealType + Concat(Pieces(t)[2..], mealType))
  {
    var ps := Pieces(t);
    assert ps[0] == Text(t.opening) && ps[1] == MealTypeHole;
    assert Concat(ps, mealType) == t.opening + Concat(ps[1..], mealType);
    assert ps[1..][0] == MealTypeHole && ps[1..][1..] == ps[2..];
    assert Concat(ps[1..], mealType) == mealType + Concat(ps[2..], mealType);
  }

  /** Any rendered template holds the meal type right after its opening sentence and
      names every field of the reply schema. */
  lemma RenderMentions(t: Template, mealType: string)
    ensures mealType <= Render(t, mealType)[|t.opening|..]
    ensures Contains(Render(t, mealType), mealType)
    ensures forall j :: 0 <= j < |SchemaKeys| ==> Contains(Render(t, mealType), SchemaKeys[j])
  {
    var ps := Pieces(t);
    var p := Render(t, mealType);
    RenderOpening(t, mealType);
    var rest := mealType + Concat(ps[2..], mealType);
    assert p[|t.opening|..] == rest;
    ContainsAt(p, mealType, |t.opening|);
    forall j | 0 <= j < |SchemaKeys|
      ensures Contains(p, SchemaKeys[j])
    {
      var line := ps[3 + KeyLine(j)];
      assert line == SchemaLines(t.ph)[KeyLine(j)];
      assert line.KeyValue? && line.key == SchemaKeys[j];
      ConcatContains(ps, mealType, 3 + KeyLine(j), SchemaKeys[j]);
    }
  }

  /** createFoodAnalysisPrompt: the selected template with the meal type interpolated. The
      prompt opens with the template's first sentence (Chinese exactly for "zh"), continues
      with the meal type verbatim, and names every field of the expected JSON reply. */
  function BuildPrompt(mealType: string, languageKey: string): (p: string)
    ensures var opening := (if languageKey == "zh" then ZhTemplate else EnTemplate).opening;
      opening <= p && mealType <= p[|opening|..]
    ensures Contains(p, mealType)
    ensures forall j :: 0 <= j < |SchemaKeys| ==> Contains(p, SchemaKeys[j])
  {
    var t := TemplateOf(TemplateFor(languageKey));
    RenderOpening(t, mealType);
    RenderMentions(t, mealType);
    Render(t, mealType)
  }

  /** A rendered template begins with the first character of its opening sentence. */
  lemma RenderFirstChar(t: Template, mealType: string)
    requires |t.opening| > 0
    ensures |Render(t, mealType)| > 0 && Render(t, mealType)[0] == t.opening[0]
  {
    RenderOpening(t, mealType);
  }

  lemma OpeningsDiffer()
    ensures |ZhTemplate.opening| > 0 && |EnTemplate.opening| > 0
    ensures ZhTemplate.opening[0] != EnTemplate.opening[0]
  {
    assert ZhTemplate.opening[0] == '請';
    assert EnTemplate.opening[0] == 'P';
  }

  /** The Chinese template is used exactly when the language key is "zh", the English one
      for every other key; the two rendered texts already differ in their first character. */
  lemma ChineseTemplateExactlyForZh(mealType: string, languageKey: string)
    ensures BuildPrompt(mealType, languageKey) == Render(ZhTemplate, mealType) <==> languageKey == "zh"
    ensures BuildPrompt(mealType, languageKey) == Render(EnTemplate, mealType) <==> languageKey != "zh"
  {
    OpeningsDiffer();
    RenderFirstChar(ZhTemplate, mealType);
    RenderFirstChar(EnTemplate, mealType);
  }
}
