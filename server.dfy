/** The all-in-one development server's analysis route: it requires only the image, posts a
    fixed prompt to the primary model, and when the model's reply holds no parsable JSON
    object it answers with a fixed fallback record instead of failing. Whatever record it
    answers with gets a `metadata` property before it is sent. */
module Server {
  import opened Js
  import opened Http
  import Normalizer
  import Analyze

  const Endpoint := "https://openrouter.ai/api/v1/chat/completions"
  const PrimaryModel := "anthropic/claude-3.5-sonnet"
  const MaxTokens := 1000
  const Temperature := 0.3

  /** The prompt: one fixed Chinese instruction text, whatever the body says. */
  const FixedPrompt :=
    "分析这张食物图片，提供详细的营养信息。请返回JSON格式，包含以下字段：\n" +
    "    - foodItems: 食物数组，每个包含 name(中文名称), calories, protein, carbs, fat, quantity, confidence\n" +
    "    - totalCalories: 总卡路里\n" +
    "    - healthScore: 健康评分(0-100)\n" +
    "    - aiConfidence: AI识别置信度(0-1)\n" +
    "    - suggestions: 建议数组(中文)\n" +
    "    - mealType: 餐型\n" +
    "    - autoDetected: 是否自动检测\n" +
    "    \n" +
    "    请确保返回有效的JSON格式。"

  /** What `response.json()` gave: the parsed body, or the message of the error it threw. */
  datatype Body = Unparseable(message: string) | Parsed(data: Json)

  /** What the awaited `fetch` gave: the message of the error it threw, or a response. */
  datatype FetchResult = NetworkError(message: string) | HttpReply(status: int, body: Body)

  /** `response.ok`. */
  predicate IsOk(status: int)
  {
    200 <= status <= 299
  }

  /** The one error response of the route: `details` is the caught error's message. */
  function Failure(details: string): (r: Reply)
    ensures r.status == 500 && r.body.Obj? && r.body.fields.Keys == {"error", "details"}
    ensures r.body.fields["error"] == Str("Analysis failed") && r.body.fields["details"] == Str(details)
  {
    Reply(500, Obj(map["error" := Str("Analysis failed"), "details" := Str(details)]))
  }

  const ImageRequired := Reply(400, Obj(map["error" := Str("Image is required")]))

  /** The request the route posts: the key is interpolated as it is, so a missing key is
      sent as "Bearer undefined". */
  function OutboundFor(rt: Runtime, apiKey: Option<string>, image: Option<Json>): (out: Analyze.Outbound)
    ensures out.model == PrimaryModel && out.maxTokens == MaxTokens && out.temperature == Temperature
    ensures out.prompt == FixedPrompt && out.url == Endpoint
    ensures apiKey.Some? ==> out.authorization == "Bearer " + apiKey.value
    ensures apiKey.None? ==> out.authorization == "Bearer undefined"
    ensures out.imageUrl == "data:image/jpeg;base64," + ToStringOpt(rt, image)
  {
    Analyze.Outbound(
      Endpoint, "Bearer " + (match apiKey case Some(k) => k case None => "undefined"),
      PrimaryModel, FixedPrompt, "data:image/jpeg;base64," + ToStringOpt(rt, image),
      MaxTokens, Temperature)
  }

  /** `data.choices[0].message.content` without optional chaining: reading through an
      undefined or null link throws a TypeError. */
  function ContentOf(rt: Runtime, data: Json): (r: Result<Option<Json>, string>)
    ensures r.Ok? ==>
              r.value == Analyze.Chain(Analyze.Chain(Analyze.Chain(Member(data, "choices"), "0"), "message"), "content")
    ensures var choices := Member(data, "choices");
            var first := Analyze.Chain(choices, "0");
            var message := Analyze.Chain(first, "message");
            r.Fail? <==> data.Null? || choices.None? || choices == Some(Null) || first.None? || first == Some(Null) ||
                         message.None? || message == Some(Null)
  {
    match Read(rt, Some(data), "choices")
    case Fail(e) => Fail(e)
    case Ok(choices) =>
      match Read(rt, choices, "0")
      case Fail(e) => Fail(e)
      case Ok(first) =>
        match Read(rt, first, "message")
        case Fail(e) => Fail(e)
        case Ok(message) => Read(rt, message, "content")
  }

  /** The inner try block: the reply's object when the reply is a string holding a brace
      span that JSON.parse accepts; `None` where that block throws (no `match` method, no
      span, a SyntaxError). The parsed span starts with `{`, so it is an object. */
  function Extracted(rt: Runtime, aiResponse: Option<Json>): (r: Option<map<string, Json>>)
    ensures r.Some? <==> aiResponse.Some? && aiResponse.value.Str? &&
                         Normalizer.HasBracePair(aiResponse.value.s) &&
                         rt.parse(Normalizer.JsonText(aiResponse.value.s)).Some?
    ensures r.Some? ==> rt.parse(Normalizer.JsonText(aiResponse.value.s)) == Some(Obj(r.value))
  {
    match aiResponse
    case Some(Str(s)) =>
      if !Normalizer.HasBracePair(s) then None
      else
        var text := Normalizer.JsonText(s);
        (match rt.parse(text)
         case Some(p) =>
           assert BraceTextsParseToObjects(rt.parse) && |text| > 0 && text[0] == '{';
           Some(p.fields)
         case None => None)
    case _ => None
  }

  const FallbackItem := Normalizer.FoodItem(Str("识别的食物"), 350.0, 15.0, 45.0, 12.0, Str("1份"), 0.85)

  /** The catch block's record; its meal type is the request's when truthy, else lunch. */
  function Fallback(mealType: Option<Json>): (n: Normalizer.Nutrition)
    ensures n.foodItems == [FallbackItem] && n.autoDetected
    ensures n.mealType == Some(OrElse(mealType, Str("午餐")))
  {
    Normalizer.Nutrition([FallbackItem], 350.0, 75.0, 0.85, [Str("营养均衡"), Str("适量食用")],
                         Some(OrElse(mealType, Str("午餐"))), true)
  }

  /** The fallback's total is the sum of its items' calories, as a normalised record's
      would be. */
  lemma FallbackTotalIsItemSum(mealType: Option<Json>)
    ensures Fallback(mealType).totalCalories == Normalizer.SumCalories(Fallback(mealType).foodItems)
  {
    var items := Fallback(mealType).foodItems;
    assert items[..|items| - 1] == [];
  }

  /** The fallback's meal type: the request's own when truthy, "午餐" otherwise. */
  lemma FallbackMealType(mealType: Option<Json>)
    ensures Truthy(mealType) ==> Normalizer.NutritionFields(Fallback(mealType))["mealType"] == mealType.value
    ensures !Truthy(mealType) ==> Normalizer.NutritionFields(Fallback(mealType))["mealType"] == Str("午餐")
  {
  }

  /** The record before its metadata is attached. */
  function AnalysisResult(rt: Runtime, aiResponse: Option<Json>, mealType: Option<Json>): map<string, Json>
  {
    match Extracted(rt, aiResponse)
    case Some(fields) => fields
    case None => Normalizer.NutritionFields(Fallback(mealType))
  }

  /** What follows the post: the status check, the body, the content read, extraction with
      fallback and the metadata. */
  function AfterFetch(rt: Runtime, response: FetchResult, mealType: Option<Json>, clock: Analyze.Clock,
                      startTime: Option<int>): Reply
  {
    match response
    case NetworkError(message) => Failure(message)
    case HttpReply(status, body) =>
      if !IsOk(status) then Failure("OpenRouter API error: " + IntToString(status))
      else
        match body
        case Unparseable(message) => Failure(message)
        case Parsed(data) =>
          match ContentOf(rt, data)
          case Fail(message) => Failure(message)
          case Ok(aiResponse) =>
            Reply(200, Obj(AnalysisResult(rt, aiResponse, mealType)
                           ["metadata" := Analyze.Metadata(PrimaryModel, clock, startTime)]))
  }

  /** The route as a whole. A null body makes the destructuring throw; only the image is
      required; `language` is read with its default and never used. */
  function Handle(rt: Runtime, apiKey: Option<string>, body: Json, fetch: Analyze.Outbound -> FetchResult,
                  clock: Analyze.Clock, startTime: Option<int>): Analyze.Run
  {
    if body.Null? then Analyze.Run(Failure(rt.readError("null", "image")), None)
    else if !Truthy(Member(body, "image")) then Analyze.Run(ImageRequired, None)
    else
      var out := OutboundFor(rt, apiKey, Member(body, "image"));
      Analyze.Run(AfterFetch(rt, fetch(out), Member(body, "mealType"), clock, startTime), Some(out))
  }

  /** A request is posted exactly when the body has a truthy image; the meal type is not
      required and no API key is checked. Without an image the answer is 400. */
  lemma PostHappensIff(rt: Runtime, apiKey: Option<string>, body: Json, fetch: Analyze.Outbound -> FetchResult,
                       clock: Analyze.Clock, startTime: Option<int>)
    ensures Handle(rt, apiKey, body, fetch, clock, startTime).call.Some? <==> !body.Null? && Truthy(Member(body, "image"))
    ensures !body.Null? && !Truthy(Member(body, "image")) ==>
              Handle(rt, apiKey, body, fetch, clock, startTime).reply == ImageRequired
    ensures ImageRequired.status == 400
  {
  }

  /** The posted request depends on the image and the key only: two bodies with the same
      image post the same request, whatever their meal type and language. */
  lemma PromptIgnoresBody(rt: Runtime, apiKey: Option<string>, b1: Json, b2: Json,
                          fetch: Analyze.Outbound -> FetchResult, clock: Analyze.Clock, startTime: Option<int>)
    requires !b1.Null? && !b2.Null? && Member(b1, "image") == Member(b2, "image")
    ensures Handle(rt, apiKey, b1, fetch, clock, startTime).call == Handle(rt, apiKey, b2, fetch, clock, startTime).call
    ensures Handle(rt, apiKey, b1, fetch, clock, startTime).call.Some? ==>
              Handle(rt, apiKey, b1, fetch, clock, startTime).call.value.prompt == FixedPrompt
  {
  }

  /** A response outside 200-299 is a 500 naming the status. */
  lemma UpstreamStatusError(rt: Runtime, status: int, body: Body, mealType: Option<Json>,
                            clock: Analyze.Clock, startTime: Option<int>)
    requires !IsOk(status)
    ensures AfterFetch(rt, HttpReply(status, body), mealType, clock, startTime) ==
              Failure("OpenRouter API error: " + IntToString(status))
  {
  }

  /** Once the content could be read the route always succeeds: a reply without a parsable
      object gives the fallback record, never an error. */
  lemma ReadableContentSucceeds(rt: Runtime, status: int, data: Json, mealType: Option<Json>,
                                clock: Analyze.Clock, startTime: Option<int>)
    requires IsOk(status) && ContentOf(rt, data).Ok?
    ensures var r := AfterFetch(rt, HttpReply(status, Parsed(data)), mealType, clock, startTime);
      r.status == 200 && r.body.Obj? &&
      (Extracted(rt, ContentOf(rt, data).value).None? ==>
         r.body.fields == Normalizer.NutritionFields(Fallback(mealType))
                            ["metadata" := Analyze.Metadata(PrimaryModel, clock, startTime)])
  {
  }

  /** A parsed object is answered as the model wrote it: no field is coerced, every field
      but `metadata` is kept, and `metadata` is replaced by the server's own. */
  lemma ParsedObjectKeptAsIs(rt: Runtime, status: int, data: Json, mealType: Option<Json>,
                             clock: Analyze.Clock, startTime: Option<int>)
    requires IsOk(status) && ContentOf(rt, data).Ok?
    requires Extracted(rt, ContentOf(rt, data).value).Some?
    ensures var parsed := Extracted(rt, ContentOf(rt, data).value).value;
      var r := AfterFetch(rt, HttpReply(status, Parsed(data)), mealType, clock, startTime);
      && r.status == 200 && r.body.Obj?
      && r.body.fields.Keys == parsed.Keys + {"metadata"}
      && (forall k :: k in parsed && k != "metadata" ==> r.body.fields[k] == parsed[k])
      && r.body.fields["metadata"] == Analyze.Metadata(PrimaryModel, clock, startTime)
      && r.body.fields["metadata"].fields["model"] == Str(PrimaryModel)
      && r.body.fields["metadata"].fields["version"] == Str("1.0.0")
  {
  }

  /** After the post the route answers 200 exactly when the response is ok, its body
      parses and the content can be read; every other outcome is the 500 error body. */
  lemma SuccessIff(rt: Runtime, response: FetchResult, mealType: Option<Json>,
                   clock: Analyze.Clock, startTime: Option<int>)
    ensures var r := AfterFetch(rt, response, mealType, clock, startTime);
      r.status == 200 <==> response.HttpReply? && IsOk(response.status) && response.body.Parsed? &&
                           ContentOf(rt, response.body.data).Ok?
    ensures var r := AfterFetch(rt, response, mealType, clock, startTime);
      r.status != 200 ==> r.status == 500 && r.body.Obj? && r.body.fields.Keys == {"error", "details"} &&
                          r.body.fields["error"] == Str("Analysis failed")
  {
  }

  /** Every success carries the server's metadata, built from the given start time. */
  lemma SuccessCarriesMetadata(rt: Runtime, response: FetchResult, mealType: Option<Json>,
                               clock: Analyze.Clock, startTime: Option<int>)
    ensures var r := AfterFetch(rt, response, mealType, clock, startTime);
      r.status == 200 ==> r.body.Obj? && "metadata" in r.body.fields &&
                          r.body.fields["metadata"] == Analyze.Metadata(PrimaryModel, clock, startTime)
  {
    if response.HttpReply? && IsOk(response.status) && response.body.Parsed? {
      var content := ContentOf(rt, response.body.data);
      if content.Ok? {
        var m := AnalysisResult(rt, content.value, mealType)["metadata" := Analyze.Metadata(PrimaryModel, clock, startTime)];
        assert AfterFetch(rt, response, mealType, clock, startTime) == Reply(200, Obj(m));
      }
    }
  }

  /** The metadata of a route's success, whatever the request. */
  lemma HandleSuccessMetadata(rt: Runtime, apiKey: Option<string>, body: Json,
                              fetch: Analyze.Outbound -> FetchResult, clock: Analyze.Clock, startTime: Option<int>)
    ensures var r := Handle(rt, apiKey, body, fetch, clock, startTime).reply;
      r.status == 200 ==> r.body.Obj? && "metadata" in r.body.fields &&
                          r.body.fields["metadata"] == Analyze.Metadata(PrimaryModel, clock, startTime)
  {
    if !body.Null? && Truthy(Member(body, "image")) {
      var out := OutboundFor(rt, apiKey, Member(body, "image"));
      SuccessCarriesMetadata(rt, fetch(out), Member(body, "mealType"), clock, startTime);
    }
  }

  /** The route never sets `req.startTime` and no middleware before it does, so every
      success reports a null processing time. */
  lemma UnstampedProcessingTimeIsNull(rt: Runtime, apiKey: Option<string>, body: Json,
                                      fetch: Analyze.Outbound -> FetchResult, clock: Analyze.Clock)
    ensures var r := Handle(rt, apiKey, body, fetch, clock, None).reply;
      r.status == 200 ==> r.body.Obj? && "metadata" in r.body.fields && r.body.fields["metadata"] == Analyze.Metadata(PrimaryModel, clock, None) &&
                          r.body.fields["metadata"].fields["processingTime"] == Null
  {
    HandleSuccessMetadata(rt, apiKey, body, fetch, clock, None);
  }

  /** The metadata of a request stamped at `start` reports the time elapsed since. */
  lemma ElapsedSinceStamp(clock: Analyze.Clock, start: int)
    ensures Analyze.Metadata(PrimaryModel, clock, Some(start)).fields["processingTime"] == Num((clock.now - start) as real)
  {
  }

  /** A request stamped on arrival reports the elapsed time. */
  lemma StampedProcessingTime(rt: Runtime, apiKey: Option<string>, body: Json,
                              fetch: Analyze.Outbound -> FetchResult, clock: Analyze.Clock, start: int)
    ensures var r := Handle(rt, apiKey, body, fetch, clock, Some(start)).reply;
      r.status == 200 ==> r.body.Obj? && "metadata" in r.body.fields &&
                          r.body.fields["metadata"] == Analyze.Metadata(PrimaryModel, clock, Some(start)) &&
                          r.body.fields["metadata"].fields["processingTime"] == Num((clock.now - start) as real)
  {
    ElapsedSinceStamp(clock, start);
    HandleSuccessMetadata(rt, apiKey, body, fetch, clock, Some(start));
  }

  /** The route handler as written. */
  method AnalyzeRoute(req: Request, res: Response, rt: Runtime, apiKey: Option<string>,
                      fetch: Analyze.Outbound -> FetchResult, clock: Analyze.Clock) returns (call: Option<Analyze.Outbound>)
    requires res.statusCode == 200
    modifies res
    ensures res.sent == old(res.sent) + [Handle(rt, apiKey, req.body, fetch, clock, old(req.startTime)).reply]
    ensures call == Handle(rt, apiKey, req.body, fetch, clock, old(req.startTime)).call
  {
    call := None;
    if req.body.Null? {
      res.Send(Failure(rt.readError("null", "image")));
      return;
    }
    var image := req.Field("image");
    var mealType := req.Field("mealType");
    if !Truthy(image) {
      res.Send(ImageRequired);
      return;
    }
    var out := OutboundFor(rt, apiKey, image);
    call := Some(out);
    var response := fetch(out);
    Respond(res, rt, response, mealType, clock, req.startTime);
  }

  /** From the awaited response on: each throw lands in the outer catch; the inner try
      assigns the parsed object or the fallback to `analysisResult`, whose `metadata`
      property is then set before it is sent. */
  method Respond(res: Response, rt: Runtime, response: FetchResult, mealType: Option<Json>,
                 clock: Analyze.Clock, startTime: Option<int>)
    requires res.statusCode == 200
    modifies res
    ensures res.sent == old(res.sent) + [AfterFetch(rt, response, mealType, clock, startTime)]
  {
    if response.NetworkError? {
      res.Send(Failure(response.message));
      return;
    }
    if !IsOk(response.status) {
      res.Send(Failure("OpenRouter API error: " + IntToString(response.status)));
      return;
    }
    if response.body.Unparseable? {
      res.Send(Failure(response.body.message));
      return;
    }
    var aiResponse := ContentOf(rt, response.body.data);
    if aiResponse.Fail? {
      res.Send(Failure(aiResponse.error));
      return;
    }
    var analysisResult: map<string, Json>;
    var extracted := Extracted(rt, aiResponse.value);
    if extracted.Some? {
      analysisResult := extracted.value;
    } else {
      analysisResult := Normalizer.NutritionFields(Fallback(mealType));
    }
    analysisResult := analysisResult["metadata" := Analyze.Metadata(PrimaryModel, clock, startTime)];
    res.Json(Obj(analysisResult));
  }

  /** The route behind a start-time stamp, as the middleware of the other entry points
      provides: the reply is the route's with the stamp as start time. */
  method AnalyzeRouteTimed(req: Request, res: Response, rt: Runtime, apiKey: Option<string>,
                           fetch: Analyze.Outbound -> FetchResult, clock: Analyze.Clock, now: int)
    returns (call: Option<Analyze.Outbound>)
    requires res.statusCode == 200
    modifies req, res
    ensures req.startTime == Some(now)
    ensures res.sent == old(res.sent) + [Handle(rt, apiKey, req.body, fetch, clock, Some(now)).reply]
    ensures call == Handle(rt, apiKey, req.body, fetch, clock, Some(now)).call
  {
    req.startTime := Some(now);
    call := AnalyzeRoute(req, res, rt, apiKey, fetch, clock);
  }
}
