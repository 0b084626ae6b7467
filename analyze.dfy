/** The food-analysis handler: read the request body, pick a model profile and a prompt,
    post one chat-completion request, normalise the model's reply, and answer with the
    record plus metadata; any failure is mapped to a status by an ordered classifier.
    The stand-alone handler checks the two required fields itself; the copy inside the
    all-in-one server relies on the validation middleware instead. */
module Analyze {
  import opened Js
  import opened Http
  import Profiles
  import Prompt
  import opened Normalizer
  import opened ErrorHandler
  import Validation
  import Base64

  const DefaultBaseUrl := "https://openrouter.ai/api/v1"
  const Version := "1.0.0"

  /** The environment variables the handler reads. */
  datatype Env = Env(apiKey: Option<string>, baseUrl: Option<string>)

  /** The clock at the time of the reply: Date.now() and new Date().toISOString(). */
  datatype Clock = Clock(now: int, timestamp: string)

  /** The chat-completion request as it is posted. */
  datatype Outbound = Outbound(
    url: string, authorization: string, model: string, prompt: string, imageUrl: string,
    maxTokens: nat, temperature: real)

  /** What the awaited post gave: the response's `data`, or the error it threw. */
  datatype Upstream = Replied(data: Json) | Threw(err: ErrorInfo)

  /** What a run did: the reply it sent and the request it posted, if any. */
  datatype Run = Run(reply: Reply, call: Option<Outbound>)

  /** `!apiKey` is false: the key is set and not empty. */
  predicate KeyPresent(env: Env)
  {
    env.apiKey.Some? && env.apiKey.value != ""
  }

  function BaseUrl(env: Env): (u: string)
    ensures env.baseUrl.Some? && env.baseUrl.value != "" ==> u == env.baseUrl.value
    ensures env.baseUrl.None? || env.baseUrl == Some("") ==> u == DefaultBaseUrl
  {
    if env.baseUrl.Some? && env.baseUrl.value != "" then env.baseUrl.value else DefaultBaseUrl
  }

  /** The request callOpenRouterAPI posts, once it has found an API key. */
  function OutboundFor(rt: Runtime, env: Env, profile: Profiles.ModelProfile, prompt: string, image: Option<Json>): Outbound
    requires KeyPresent(env)
  {
    Outbound(
      BaseUrl(env) + "/chat/completions", "Bearer " + env.apiKey.value, profile.name, prompt,
      "data:image/jpeg;base64," + ToStringOpt(rt, image), profile.maxTokens, profile.temperature)
  }

  /** Optional chaining `v?.key`: a missing or null value gives undefined. */
  function Chain(v: Option<Json>, key: string): (r: Option<Json>)
    ensures v.None? || v == Some(Null) ==> r.None?
    ensures v.Some? ==> r == (if key == "0" then Index0(v.value) else Member(v.value, key))
    ensures key != "0" ==> (r.Some? <==> v.Some? && v.value.Obj? && key in v.value.fields)
    ensures key == "0" && v.Some? && v.value.Arr? ==>
              (r.Some? <==> |v.value.items| > 0) && (r.Some? ==> r.value == v.value.items[0])
  {
    match v
    case None => None
    case Some(j) => if key == "0" then Index0(j) else Member(j, key)
  }

  /** `data.choices?.[0]?.message?.content`, kept only when truthy. (Reading `choices` off a
      null `data` throws instead; both end in the same 500.) */
  function MessageContent(data: Json): (c: Option<Json>)
    ensures c.Some? <==> Truthy(Chain(Chain(Chain(Member(data, "choices"), "0"), "message"), "content"))
    ensures c.Some? ==> Truthy(c)
    ensures c.Some? ==> c == Chain(Chain(Chain(Member(data, "choices"), "0"), "message"), "content")
  {
    var content := Chain(Chain(Chain(Member(data, "choices"), "0"), "message"), "content");
    if Truthy(content) then content else None
  }

  /** `error.response?.status`. */
  function ResponseStatus(err: ErrorInfo): Option<Json>
  {
    Chain(err.response, "status")
  }

  /** The catch block: authentication failures upstream become 503, rate limits stay 429,
      timeouts become 504, and everything else (including the service's own errors) 500. */
  function FailureReply(err: ErrorInfo): (r: Reply)
    ensures r.status == 503 <==> ResponseStatus(err) == Some(Num(401.0))
    ensures r.status == 429 <==> ResponseStatus(err) == Some(Num(429.0))
    ensures r.status == 504 <==> ResponseStatus(err) !in {Some(Num(401.0)), Some(Num(429.0))} &&
                                 err.code == Some(Str("ECONNABORTED"))
    ensures r.status in {503, 429, 504, 500}
  {
    if ResponseStatus(err) == Some(Num(401.0)) then
      Reply(503, ErrorBody("Service temporarily unavailable", "AI service authentication failed"))
    else if ResponseStatus(err) == Some(Num(429.0)) then
      Reply(429, ErrorBody("Rate limit exceeded", "Too many requests, please try again later"))
    else if err.code == Some(Str("ECONNABORTED")) then
      Reply(504, ErrorBody("Request timeout", "AI service took too long to respond"))
    else
      Reply(500, ErrorBody("Analysis failed", "Unable to analyze food image at this time"))
  }

  /** An error without a response and without the timeout code is the generic 500. */
  lemma NoResponseIsInternal(err: ErrorInfo)
    requires err.response.None? && err.code != Some(Str("ECONNABORTED"))
    ensures FailureReply(err) == Reply(500, ErrorBody("Analysis failed", "Unable to analyze food image at this time"))
  {
  }

  /** An error the service raises itself carries no response and no code, so it is a 500. */
  lemma OwnErrorsAreInternal(message: string)
    ensures FailureReply(PlainError(message)).status == 500
  {
    NoResponseIsInternal(PlainError(message));
  }

  /** The reply's metadata; `processingTime` is null (NaN serialised) when the request was
      never stamped with a start time. */
  function Metadata(modelName: string, clock: Clock, startTime: Option<int>): (m: Json)
    ensures m.Obj? && m.fields.Keys == {"model", "timestamp", "processingTime", "version"}
    ensures m.fields["model"] == Str(modelName) && m.fields["version"] == Str(Version)
    ensures m.fields["processingTime"] == (if startTime.Some? then Num((clock.now - startTime.value) as real) else Null)
  {
    Obj(map[
      "model" := Str(modelName),
      "timestamp" := Str(clock.timestamp),
      "processingTime" := (match startTime
                           case Some(t) => Num((clock.now - t) as real)
                           case None => Null),
      "version" := Str(Version)])
  }

  /** `{ ...foodData, metadata }`. */
  function SuccessBody(n: Nutrition, metadata: Json): (b: Json)
    ensures b.Obj? && "metadata" in b.fields && b.fields["metadata"] == metadata
    ensures b.fields.Keys == NutritionFields(n).Keys + {"metadata"}
    ensures forall k :: k in NutritionFields(n) ==> k in b.fields && b.fields[k] == NutritionFields(n)[k]
  {
    Obj(NutritionFields(n)["metadata" := metadata])
  }

  const TypeErrorInfo := ErrorInfo(Some(Str("TypeError")), None, None, None, None, None, None)

  const MissingFieldsReply := Reply(400, ErrorBody("Missing required fields", "Both image and mealType are required"))

  /** The profile the body asks for (`useModel`, default 'primary'). */
  function ProfileFor(rt: Runtime, body: Json): Profiles.ModelProfile
  {
    Profiles.Lookup(ToString(rt, Defaulted(Member(body, "useModel"), Str("primary"))))
  }

  /** The prompt for the body (`language`, default 'zh'). */
  function PromptFor(rt: Runtime, body: Json): string
  {
    Prompt.BuildPrompt(ToStringOpt(rt, Member(body, "mealType")),
                       ToString(rt, Defaulted(Member(body, "language"), Str("zh"))))
  }

  /** The request posted for a body (callOpenRouterAPI once it has found a key). */
  function Posted(rt: Runtime, env: Env, body: Json): Outbound
    requires KeyPresent(env)
  {
    OutboundFor(rt, env, ProfileFor(rt, body), PromptFor(rt, body), Member(body, "image"))
  }

  /** What follows the post: the content check, normalisation and the response. */
  function AfterPost(rt: Runtime, up: Upstream, mealType: Option<Json>, modelName: string,
                     clock: Clock, startTime: Option<int>): Reply
  {
    match up
    case Threw(err) => FailureReply(err)
    case Replied(data) =>
      match MessageContent(data)
      case None => FailureReply(PlainError("Invalid response from AI service"))
      case Some(content) =>
        match Normalize(rt, content, mealType)
        case Fail(msg) => FailureReply(PlainError(msg))
        case Ok(n) => Reply(200, SuccessBody(n, Metadata(modelName, clock, startTime)))
  }

  /** Everything after the body is read: profile, prompt, the post, the reply's content,
      normalisation, and the response. This is the all-in-one server's handler as it is. */
  function Pipeline(rt: Runtime, env: Env, body: Json, network: Outbound -> Upstream,
                    clock: Clock, startTime: Option<int>): Run
  {
    if body.Null? then Run(FailureReply(TypeErrorInfo), None)
    else if !KeyPresent(env) then Run(FailureReply(PlainError("OpenRouter API key not configured")), None)
    else
      var out := Posted(rt, env, body);
      Run(AfterPost(rt, network(out), Member(body, "mealType"), out.model, clock, startTime), Some(out))
  }

  /** The stand-alone handler: the same pipeline behind its own required-field check. */
  function AnalyzeStandalone(rt: Runtime, env: Env, body: Json, network: Outbound -> Upstream,
                             clock: Clock, startTime: Option<int>): Run
  {
    if !body.Null? && (!Truthy(Member(body, "image")) || !Truthy(Member(body, "mealType"))) then
      Run(MissingFieldsReply, None)
    else Pipeline(rt, env, body, network, clock, startTime)
  }

  /** A missing image or meal type is refused with 400 before anything is posted. */
  lemma MissingFieldsRejectedBeforeCall(rt: Runtime, env: Env, body: Json, network: Outbound -> Upstream,
                                        clock: Clock, startTime: Option<int>)
    requires !body.Null?
    requires !Truthy(Member(body, "image")) || !Truthy(Member(body, "mealType"))
    ensures AnalyzeStandalone(rt, env, body, network, clock, startTime) == Run(MissingFieldsReply, None)
    ensures MissingFieldsReply.status == 400
  {
  }

  /** A null body makes the destructuring throw: a 500 and no post. */
  lemma NullBodyRun(rt: Runtime, env: Env, body: Json, network: Outbound -> Upstream,
                    clock: Clock, startTime: Option<int>)
    requires body.Null?
    ensures Pipeline(rt, env, body, network, clock, startTime) == Run(FailureReply(TypeErrorInfo), None)
    ensures AnalyzeStandalone(rt, env, body, network, clock, startTime) == Run(FailureReply(TypeErrorInfo), None)
  {
  }

  /** Without an API key nothing is posted and the answer is the generic 500. */
  lemma NoKeyRun(rt: Runtime, env: Env, body: Json, network: Outbound -> Upstream,
                 clock: Clock, startTime: Option<int>)
    requires !body.Null? && !KeyPresent(env)
    ensures Pipeline(rt, env, body, network, clock, startTime) ==
              Run(FailureReply(PlainError("OpenRouter API key not configured")), None)
  {
  }

  /** One request is posted exactly when the body could be read and a key is configured;
      without a key the answer is the generic 500. */
  lemma PostHappensIff(rt: Runtime, env: Env, body: Json, network: Outbound -> Upstream,
                       clock: Clock, startTime: Option<int>)
    ensures var run := Pipeline(rt, env, body, network, clock, startTime);
      run.call.Some? <==> !body.Null? && KeyPresent(env)
    ensures var run := Pipeline(rt, env, body, network, clock, startTime);
      !KeyPresent(env) ==> run.reply.status == 500
  {
    if body.Null? {
      NullBodyRun(rt, env, body, network, clock, startTime);
      NoResponseIsInternal(TypeErrorInfo);
    } else if !KeyPresent(env) {
      NoKeyRun(rt, env, body, network, clock, startTime);
      NoResponseIsInternal(PlainError("OpenRouter API key not configured"));
    } else {
      RunFollowsPost(rt, env, body, network, clock, startTime);
    }
  }

  /** The stand-alone handler posts exactly when the body could be read, both fields are
      present and a key is configured. */
  lemma StandalonePostHappensIff(rt: Runtime, env: Env, body: Json, network: Outbound -> Upstream,
                                 clock: Clock, startTime: Option<int>)
    ensures var run := AnalyzeStandalone(rt, env, body, network, clock, startTime);
      run.call.Some? <==>
        !body.Null? && KeyPresent(env) && Truthy(Member(body, "image")) && Truthy(Member(body, "mealType"))
  {
    PostHappensIff(rt, env, body, network, clock, startTime);
  }

  lemma RunFollowsPost(rt: Runtime, env: Env, body: Json, network: Outbound -> Upstream,
                       clock: Clock, startTime: Option<int>)
    requires !body.Null? && KeyPresent(env)
    ensures var run := Pipeline(rt, env, body, network, clock, startTime);
      && run.call == Some(Posted(rt, env, body))
      && run.reply == AfterPost(rt, network(Posted(rt, env, body)), Member(body, "mealType"),
                                ProfileFor(rt, body).name, clock, startTime)
  {
    PostedRequest(rt, env, body);
  }

  /** The posted request carries the selected profile's name and limits, the body's prompt,
      the image as a data URL and the bearer key; an absent `useModel` selects the primary
      profile and an absent `language` the Chinese template. */
  lemma PostedRequest(rt: Runtime, env: Env, body: Json)
    requires KeyPresent(env)
    ensures var out := Posted(rt, env, body);
      && out.url == BaseUrl(env) + "/chat/completions"
      && out.authorization == "Bearer " + env.apiKey.value
      && out.model == ProfileFor(rt, body).name
      && out.maxTokens == ProfileFor(rt, body).maxTokens
      && out.temperature == ProfileFor(rt, body).temperature
      && out.prompt == PromptFor(rt, body)
      && out.imageUrl == "data:image/jpeg;base64," + ToStringOpt(rt, Member(body, "image"))
  {
  }

  lemma DefaultProfile(rt: Runtime, body: Json)
    ensures Member(body, "useModel").None? ==> ProfileFor(rt, body) == Profiles.Primary
  {
  }

  lemma DefaultLanguage(rt: Runtime, body: Json)
    ensures Member(body, "language").None? ==>
              PromptFor(rt, body) == Prompt.Render(Prompt.ZhTemplate, ToStringOpt(rt, Member(body, "mealType")))
  {
    if Member(body, "language").None? {
      var key := ToString(rt, Defaulted(Member(body, "language"), Str("zh")));
      assert key == "zh";
      Prompt.ChineseTemplateExactlyForZh(ToStringOpt(rt, Member(body, "mealType")), key);
    }
  }

  /** After the post the run succeeds exactly when the post returned, its content is truthy
      and normalises; the answer is then the record with the profile's name and the version. */
  lemma SuccessIff(rt: Runtime, up: Upstream, mealType: Option<Json>, modelName: string,
                   clock: Clock, startTime: Option<int>)
    ensures var r := AfterPost(rt, up, mealType, modelName, clock, startTime);
      r.status == 200 <==>
        && up.Replied?
        && MessageContent(up.data).Some?
        && Normalize(rt, MessageContent(up.data).value, mealType).Ok?
    ensures var r := AfterPost(rt, up, mealType, modelName, clock, startTime);
      r.status == 200 ==>
        && r.body.Obj? && "metadata" in r.body.fields
        && r.body.fields["metadata"] == Metadata(modelName, clock, startTime)
        && r.body.fields["metadata"].fields["model"] == Str(modelName)
        && r.body.fields["metadata"].fields["version"] == Str("1.0.0")
  {
  }

  /** An error thrown by the post is answered by the classifier, in its order: a 401 from
      upstream is a 503 even when the error also carries the timeout code. */
  lemma UpstreamErrorClassified(rt: Runtime, err: ErrorInfo, mealType: Option<Json>, modelName: string,
                                clock: Clock, startTime: Option<int>)
    ensures AfterPost(rt, Threw(err), mealType, modelName, clock, startTime) == FailureReply(err)
    ensures ResponseStatus(err) == Some(Num(401.0)) ==>
              AfterPost(rt, Threw(err), mealType, modelName, clock, startTime).status == 503
  {
  }

  /** A reply the normaliser refuses (an empty `food_items` array is not refused) ends in 500. */
  lemma UnparseableReplyIs500(rt: Runtime, data: Json, mealType: Option<Json>, modelName: string,
                              clock: Clock, startTime: Option<int>)
    requires MessageContent(data).None? || !Acceptable(rt, MessageContent(data).value)
    ensures AfterPost(rt, Replied(data), mealType, modelName, clock, startTime).status == 500
  {
    if MessageContent(data).Some? {
      NormalizeAcceptsIff(rt, MessageContent(data).value, mealType);
    }
  }

  /** With both required fields present the two handlers behave identically. */
  lemma HandlersAgreeOnCompleteBodies(rt: Runtime, env: Env, body: Json, network: Outbound -> Upstream,
                                      clock: Clock, startTime: Option<int>)
    requires Truthy(Member(body, "image")) && Truthy(Member(body, "mealType"))
    ensures AnalyzeStandalone(rt, env, body, network, clock, startTime) == Pipeline(rt, env, body, network, clock, startTime)
  {
  }

  /** Behind the validation middleware the all-in-one server's handler is the stand-alone
      one, and what it posts carries a canonical base64 image and a meal type that is one of
      the eight labels, named in the prompt. */
  lemma ValidatedRequestsReachThePost(rt: Runtime, env: Env, i: Validation.Input)
    requires Validation.AnalyzePost(i) && Validation.Validate(rt, i).Pass?
    requires KeyPresent(env)
    ensures Truthy(Member(i.body, "image")) && Truthy(Member(i.body, "mealType"))
    ensures var out := Posted(rt, env, i.body);
      && Member(i.body, "image").value.Str?
      && out.imageUrl == "data:image/jpeg;base64," + Member(i.body, "image").value.s
      && Base64.IsValidBase64(Member(i.body, "image").value.s)
      && Member(i.body, "mealType").value.Str?
      && Member(i.body, "mealType").value.s in Validation.MealTypes
      && Prompt.Contains(out.prompt, Member(i.body, "mealType").value.s)
  {
    Validation.PassedRequestIsWellFormed(rt, i);
  }

  /** analyzeFood as it runs: reads the body, answers early on the required-field check
      (stand-alone handler only) and on each failure, and otherwise posts and replies with
      the record. `network` is the upstream service; the response has its default status. */
  method AnalyzeFood(req: Request, res: Response, rt: Runtime, env: Env, network: Outbound -> Upstream,
                     clock: Clock, checkFields: bool) returns (call: Option<Outbound>)
    requires res.statusCode == 200
    modifies res
    ensures checkFields ==> res.sent == old(res.sent) + [AnalyzeStandalone(rt, env, req.body, network, clock, old(req.startTime)).reply]
    ensures checkFields ==> call == AnalyzeStandalone(rt, env, req.body, network, clock, old(req.startTime)).call
    ensures !checkFields ==> res.sent == old(res.sent) + [Pipeline(rt, env, req.body, network, clock, old(req.startTime)).reply]
    ensures !checkFields ==> call == Pipeline(rt, env, req.body, network, clock, old(req.startTime)).call
  {
    call := None;
    ghost var startTime := req.startTime;
    ghost var run := if checkFields then AnalyzeStandalone(rt, env, req.body, network, clock, startTime)
                     else Pipeline(rt, env, req.body, network, clock, startTime);
    if req.body.Null? {
      NullBodyRun(rt, env, req.body, network, clock, startTime);
      res.Send(FailureReply(TypeErrorInfo));
      return;
    }
    var image := req.Field("image");
    var mealType := req.Field("mealType");
    var language := Defaulted(req.Field("language"), Str("zh"));
    var useModel := Defaulted(req.Field("useModel"), Str("primary"));
    if checkFields && (!Truthy(image) || !Truthy(mealType)) {
      MissingFieldsRejectedBeforeCall(rt, env, req.body, network, clock, startTime);
      res.Send(MissingFieldsReply);
      return;
    }
    if checkFields {
      HandlersAgreeOnCompleteBodies(rt, env, req.body, network, clock, startTime);
    }
    assert run == Pipeline(rt, env, req.body, network, clock, startTime);
    var selectedModel := Profiles.Lookup(ToString(rt, useModel));
    var prompt := Prompt.BuildPrompt(ToStringOpt(rt, mealType), ToString(rt, language));
    if !KeyPresent(env) {
      NoKeyRun(rt, env, req.body, network, clock, startTime);
      res.Send(FailureReply(PlainError("OpenRouter API key not configured")));
      return;
    }
    var out := OutboundFor(rt, env, selectedModel, prompt, image);
    assert out == Posted(rt, env, req.body);
    RunFollowsPost(rt, env, req.body, network, clock, startTime);
    call := Some(out);
    var upstream := network(out);
    assert mealType == Member(req.body, "mealType");
    assert selectedModel == ProfileFor(rt, req.body);
    assert upstream == network(Posted(rt, env, req.body));
    assert run.reply == AfterPost(rt, upstream, mealType, selectedModel.name, clock, startTime);
    Respond(res, rt, upstream, mealType, selectedModel.name, clock, req.startTime);
  }

  /** The rest of the try block once the post has settled: the content check,
      normalisation and the success response, or the catch block's reply. */
  method Respond(res: Response, rt: Runtime, upstream: Upstream, mealType: Option<Json>,
                 modelName: string, clock: Clock, startTime: Option<int>)
    requires res.statusCode == 200
    modifies res
    ensures res.sent == old(res.sent) + [AfterPost(rt, upstream, mealType, modelName, clock, startTime)]
  {
    if upstream.Threw? {
      res.Send(FailureReply(upstream.err));
      return;
    }
    var content := MessageContent(upstream.data);
    if content.None? {
      res.Send(FailureReply(PlainError("Invalid response from AI service")));
      return;
    }
    var foodData := Normalize(rt, content.value, mealType);
    if foodData.Fail? {
      res.Send(FailureReply(PlainError(foodData.error)));
      return;
    }
    var response := SuccessBody(foodData.value, Metadata(modelName, clock, startTime));
    res.Json(response);
  }
}
