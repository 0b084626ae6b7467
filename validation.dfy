/** The request validation middleware: stamps the request with its arrival time, then runs
    an ordered chain of rejections; the first that applies is sent and `next` is not called. */
module Validation {
  import opened Js
  import opened Http
  import Base64
  import ErrorHandler

  /** The eight meal-type labels, Chinese and English. */
  const MealTypes: seq<string> := ["早餐", "午餐", "晚餐", "點心", "breakfast", "lunch", "dinner", "snack"]

  const Languages: seq<string> := ["zh", "en"]
  const ModelKeys: seq<string> := ["primary", "backup", "budget"]

  /** 10 MiB, the size limit when none is configured. */
  const DefaultMaxBytes: real := (10 * 1024 * 1024) as real

  /** `parseInt(process.env.MAX_FILE_SIZE) || 10 * 1024 * 1024`; `setting` is parseInt's
      result, NaN when the variable is unset or not numeric. */
  function MaxImageBytes(setting: Number): (m: real)
    ensures setting.Finite? && setting.value != 0.0 ==> m == setting.value
    ensures setting.NaN? || setting == Finite(0.0) ==> m == DefaultMaxBytes
    ensures m != 0.0
  {
    match setting
    case NaN => DefaultMaxBytes
    case Finite(x) => if x != 0.0 then x else DefaultMaxBytes
  }

  /** What the middleware looks at. */
  datatype Input = Input(httpMethod: string, url: string, isJson: bool, body: Json, maxSetting: Number)

  function InputOf(req: Request, maxSetting: Number): Input
  {
    Input(req.httpMethod, req.url, req.isJson, req.body, maxSetting)
  }

  /** The body checks apply only to `POST /api/analyze`. */
  predicate AnalyzePost(i: Input)
  {
    i.url == "/api/analyze" && i.httpMethod == "POST"
  }

  /** `s.includes(v)` for a list of strings: only a string equal to one of them is included. */
  predicate OneOf(v: Option<Json>, labels: seq<string>)
  {
    v.Some? && v.value.Str? && v.value.s in labels
  }

  /** The rejections, in the order the middleware tries them. */
  datatype Check =
    | UnsupportedMediaType
    | MissingFields
    | InvalidImage
    | ImageTooLarge
    | InvalidMealType
    | InvalidLanguage
    | InvalidModel

  function Rank(c: Check): nat
  {
    match c
    case UnsupportedMediaType => 0
    case MissingFields => 1
    case InvalidImage => 2
    case ImageTooLarge => 3
    case InvalidMealType => 4
    case InvalidLanguage => 5
    case InvalidModel => 6
  }

  /** Each rejection's own condition, independent of the others. The size check is stated
      in integer form: `3 * length > 4 * max` exactly when `length * 3 / 4 > max`. */
  predicate Violates(i: Input, c: Check)
  {
    var image := Member(i.body, "image");
    match c
    case UnsupportedMediaType => i.httpMethod == "POST" && !i.isJson
    case MissingFields =>
      AnalyzePost(i) && (!Truthy(image) || !Truthy(Member(i.body, "mealType")))
    case InvalidImage =>
      AnalyzePost(i) && !(image.Some? && image.value.Str? && Base64.IsValidBase64(image.value.s))
    case ImageTooLarge =>
      AnalyzePost(i) && image.Some? && image.value.Str? &&
      3.0 * (|image.value.s| as real) > 4.0 * MaxImageBytes(i.maxSetting)
    case InvalidMealType =>
      AnalyzePost(i) && !OneOf(Member(i.body, "mealType"), MealTypes)
    case InvalidLanguage =>
      AnalyzePost(i) && Truthy(Member(i.body, "language")) && !OneOf(Member(i.body, "language"), Languages)
    case InvalidModel =>
      AnalyzePost(i) && Truthy(Member(i.body, "useModel")) && !OneOf(Member(i.body, "useModel"), ModelKeys)
  }

  /** The middleware's chain of early returns, test by test as the source writes them. */
  function FirstFailure(i: Input): Option<Check>
  {
    if i.httpMethod == "POST" && !i.isJson then Some(UnsupportedMediaType)
    else if !AnalyzePost(i) then None
    else
      var image := Member(i.body, "image");
      var mealType := Member(i.body, "mealType");
      if !Truthy(image) || !Truthy(mealType) then Some(MissingFields)
      else if !image.value.Str? || !Base64.IsValidBase64(image.value.s) then Some(InvalidImage)
      else if ((|image.value.s| as real) * 3.0) / 4.0 > MaxImageBytes(i.maxSetting) then Some(ImageTooLarge)
      else LaterFailure(i)
  }

  /** The chain's tests after the image tests: the meal type, then the optional fields. */
  function LaterFailure(i: Input): Option<Check>
  {
    if !OneOf(Member(i.body, "mealType"), MealTypes) then Some(InvalidMealType)
    else
      var language := Member(i.body, "language");
      var useModel := Member(i.body, "useModel");
      if Truthy(language) && !OneOf(language, Languages) then Some(InvalidLanguage)
      else if Truthy(useModel) && !OneOf(useModel, ModelKeys) then Some(InvalidModel)
      else None
  }

  /** The source's size test `length * 3 / 4 > max` and the integer form agree. */
  lemma SizeTestForms(i: Input)
    ensures var image := Member(i.body, "image");
      image.Some? && image.value.Str? ==>
        (((|image.value.s| as real) * 3.0) / 4.0 > MaxImageBytes(i.maxSetting) <==>
         3.0 * (|image.value.s| as real) > 4.0 * MaxImageBytes(i.maxSetting))
  {
  }

  /** The check the chain reports is violated, and no earlier one is. */
  lemma ChainSound(i: Input, c: Check)
    requires FirstFailure(i) == Some(c)
    ensures Violates(i, c)
    ensures forall d :: Rank(d) < Rank(c) ==> !Violates(i, d)
  {
    SizeTestForms(i);
    forall d | Rank(d) < Rank(c)
      ensures !Violates(i, d)
    {
      match d
      case UnsupportedMediaType =>
      case MissingFields =>
      case InvalidImage =>
      case ImageTooLarge =>
      case InvalidMealType =>
      case InvalidLanguage =>
      case InvalidModel =>
    }
  }

  /** A violated check with no violated check before it is the one the chain reports. */
  lemma ChainComplete(i: Input, c: Check)
    requires Violates(i, c)
    requires forall d :: Rank(d) < Rank(c) ==> !Violates(i, d)
    ensures FirstFailure(i) == Some(c)
  {
    assert Rank(c) > 0 ==> !Violates(i, UnsupportedMediaType);
    assert Rank(c) > 1 ==> !Violates(i, MissingFields);
    assert Rank(c) > 2 ==> !Violates(i, InvalidImage);
    assert Rank(c) > 3 ==> !Violates(i, ImageTooLarge);
    assert Rank(c) > 4 ==> !Violates(i, InvalidMealType);
    assert Rank(c) > 5 ==> !Violates(i, InvalidLanguage);
    if Rank(c) < 4 {
      ChainCompleteHead(i, c);
    } else {
      ChainCompleteTail(i, c);
    }
  }

  lemma ChainCompleteHead(i: Input, c: Check)
    requires Rank(c) < 4 && Violates(i, c)
    requires Rank(c) > 0 ==> !Violates(i, UnsupportedMediaType)
    requires Rank(c) > 1 ==> !Violates(i, MissingFields)
    requires Rank(c) > 2 ==> !Violates(i, InvalidImage)
    ensures FirstFailure(i) == Some(c)
  {
    SizeTestForms(i);
  }

  lemma ChainCompleteTail(i: Input, c: Check)
    requires Rank(c) >= 4 && Violates(i, c)
    requires !Violates(i, UnsupportedMediaType) && !Violates(i, MissingFields)
    requires !Violates(i, InvalidImage) && !Violates(i, ImageTooLarge)
    requires Rank(c) > 4 ==> !Violates(i, InvalidMealType)
    requires Rank(c) > 5 ==> !Violates(i, InvalidLanguage)
    ensures FirstFailure(i) == Some(c)
  {
    var image := Member(i.body, "image");
    assert AnalyzePost(i) && !(i.httpMethod == "POST" && !i.isJson);
    assert Truthy(image) && Truthy(Member(i.body, "mealType"));
    assert image.value.Str? && Base64.IsValidBase64(image.value.s);
    SizeTestForms(i);
    assert FirstFailure(i) == LaterFailure(i);
    LaterFailureComplete(i, c);
  }

  lemma LaterFailureComplete(i: Input, c: Check)
    requires Rank(c) >= 4 && Violates(i, c)
    requires Rank(c) > 4 ==> !Violates(i, InvalidMealType)
    requires Rank(c) > 5 ==> !Violates(i, InvalidLanguage)
    ensures LaterFailure(i) == Some(c)
  {
  }

  /** A request the chain passes violates no check. */
  lemma ChainPassesOnlyClean(i: Input, c: Check)
    requires FirstFailure(i).None?
    ensures !Violates(i, c)
  {
    SizeTestForms(i);
  }

  /** The first rule that applies wins: the chain reports a check exactly when that check's
      condition holds and no earlier check's does, and passes exactly when none holds. */
  lemma FirstFailureIsEarliest(i: Input)
    ensures FirstFailure(i).None? <==> forall c :: !Violates(i, c)
    ensures forall c :: FirstFailure(i) == Some(c) <==>
              Violates(i, c) && forall d :: Rank(d) < Rank(c) ==> !Violates(i, d)
  {
    forall c
      ensures FirstFailure(i) == Some(c) <==>
              Violates(i, c) && forall d :: Rank(d) < Rank(c) ==> !Violates(i, d)
    {
      if FirstFailure(i) == Some(c) {
        ChainSound(i, c);
      }
      if Violates(i, c) && forall d :: Rank(d) < Rank(c) ==> !Violates(i, d) {
        ChainComplete(i, c);
      }
    }
    if FirstFailure(i).None? {
      forall c
        ensures !Violates(i, c)
      {
        ChainPassesOnlyClean(i, c);
      }
    } else {
      ChainSound(i, FirstFailure(i).value);
    }
  }

  /** Math.round(max / (1024 * 1024)): the nearest integer, halves rounded up. */
  function RoundedMiB(max: real): int
  {
    (max / 1048576.0 + 0.5).Floor
  }

  function JoinWith(xs: seq<string>, sep: string): string
  {
    if |xs| == 0 then "" else if |xs| == 1 then xs[0] else xs[0] + sep + JoinWith(xs[1..], sep)
  }

  /** The response each rejection sends. */
  function RejectionReply(c: Check, max: real): (r: Reply)
    ensures r.status == (match c
                         case UnsupportedMediaType => 415
                         case ImageTooLarge => 413
                         case _ => 400)
    ensures r.body.Obj? && "error" in r.body.fields && "message" in r.body.fields
  {
    match c
    case UnsupportedMediaType =>
      Reply(415, ErrorBody("Unsupported Media Type", "Content-Type must be application/json"))
    case MissingFields =>
      Reply(400, Obj(map[
        "error" := Str("Missing required fields"),
        "message" := Str("Both image and mealType are required"),
        "required" := Arr([Str("image"), Str("mealType")])]))
    case InvalidImage =>
      Reply(400, ErrorBody("Invalid image format", "Image must be a valid base64 string"))
    case ImageTooLarge =>
      Reply(413, ErrorBody("Image too large", "Image size must be less than " + IntToString(RoundedMiB(max)) + "MB"))
    case InvalidMealType =>
      Reply(400, ErrorBody("Invalid meal type", "Meal type must be one of: " + JoinWith(MealTypes, ", ")))
    case InvalidLanguage =>
      Reply(400, ErrorBody("Invalid language", "Language must be either \"zh\" or \"en\""))
    case InvalidModel =>
      Reply(400, ErrorBody("Invalid model selection", "Model must be one of: primary, backup, budget"))
  }

  /** Past the content-type test, `const { image, mealType } = req.body` on
      `POST /api/analyze` throws when the body is null, before any rejection is tried. */
  predicate BodyThrows(i: Input)
  {
    AnalyzePost(i) && i.isJson && i.body.Null?
  }

  /** The TypeError that destructuring a null body raises; the engine gives its message. */
  function BodyReadError(rt: Runtime): (e: ErrorHandler.ErrorInfo)
    ensures e.name == Some(Str("TypeError")) && e.message == Some(Str(rt.readError("null", "image")))
    ensures forall r :: !ErrorHandler.Matches(e, r)
  {
    var e := ErrorHandler.ErrorInfo(Some(Str("TypeError")), Some(Str(rt.readError("null", "image"))),
                                    None, None, None, None, None);
    e
  }

  /** What the middleware does with a request: `next()`, a rejection sent, or an exception
      that Express hands to the error middleware. */
  datatype Verdict = Pass | Reject(reply: Reply) | Throw(err: ErrorHandler.ErrorInfo)

  /** The decision. The chain of rejections is tried only when reading the body did not throw. */
  function Validate(rt: Runtime, i: Input): (v: Verdict)
    ensures v.Throw? <==> BodyThrows(i)
    ensures v.Throw? ==> v.err == BodyReadError(rt)
    ensures v.Pass? <==> !BodyThrows(i) && forall c :: !Violates(i, c)
    ensures v.Reject? ==> exists c :: && Violates(i, c)
                                      && (forall d :: Rank(d) < Rank(c) ==> !Violates(i, d))
                                      && v.reply == RejectionReply(c, MaxImageBytes(i.maxSetting))
  {
    FirstFailureIsEarliest(i);
    if BodyThrows(i) then Throw(BodyReadError(rt))
    else
      match FirstFailure(i)
      case None => Pass
      case Some(c) => Reject(RejectionReply(c, MaxImageBytes(i.maxSetting)))
  }

  /** A null JSON body on the analysis route is no rejection: the TypeError reaches an error
      middleware, and both of them answer it with a 500. */
  lemma NullBodyIsInternalError(rt: Runtime, i: Input, isDevelopment: bool)
    requires AnalyzePost(i) && i.isJson && i.body.Null?
    ensures Validate(rt, i) == Throw(BodyReadError(rt))
    ensures ErrorHandler.InlineHandle(Validate(rt, i).err, isDevelopment).status == 500
    ensures ErrorHandler.HandleError(Validate(rt, i).err, isDevelopment).status == 500
  {
    ErrorHandler.HandleErrorStatus(BodyReadError(rt), isDevelopment);
  }

  /** A request that reaches the handler has both fields, a canonical base64 image within the
      size limit, one of the eight meal types, and a language and model that are each either
      falsy or one of the known values. */
  lemma PassedRequestIsWellFormed(rt: Runtime, i: Input)
    requires AnalyzePost(i) && Validate(rt, i).Pass?
    ensures var image := Member(i.body, "image");
      && image.Some? && image.value.Str? && Base64.IsValidBase64(image.value.s)
      && |image.value.s| % 4 == 0
      && 3.0 * (|image.value.s| as real) <= 4.0 * MaxImageBytes(i.maxSetting)
      && OneOf(Member(i.body, "mealType"), MealTypes)
      && (Truthy(Member(i.body, "language")) ==> OneOf(Member(i.body, "language"), Languages))
      && (Truthy(Member(i.body, "useModel")) ==> OneOf(Member(i.body, "useModel"), ModelKeys))
  {
    assert !Violates(i, InvalidImage) && !Violates(i, ImageTooLarge);
    var image := Member(i.body, "image");
    Base64.ValidLengthIsMultipleOfFour(image.value.s);
  }

  /** Requests other than a POST without a JSON content type, and other than `POST /api/analyze`,
      pass untouched; a POST without JSON is refused on every route. */
  lemma OnlyAnalyzePostIsChecked(rt: Runtime, i: Input)
    ensures i.httpMethod == "POST" && !i.isJson ==> Validate(rt, i) == Reject(RejectionReply(UnsupportedMediaType, MaxImageBytes(i.maxSetting)))
    ensures !(i.httpMethod == "POST" && !i.isJson) && !AnalyzePost(i) ==> Validate(rt, i).Pass?
  {
  }

  /** Under the default limit the largest image admitted has 13981013 characters
      (its decoded size rounds to just under 10 MiB); one more character is refused. */
  lemma DefaultSizeBoundary(i: Input, s: string)
    requires AnalyzePost(i) && i.maxSetting.NaN?
    requires Member(i.body, "image") == Some(Str(s))
    ensures |s| <= 13981013 ==> !Violates(i, ImageTooLarge)
    ensures |s| > 13981013 ==> Violates(i, ImageTooLarge)
  {
  }

  /** An empty string as language or model is falsy and therefore not checked. */
  lemma EmptyOptionalsPass(i: Input)
    requires Member(i.body, "language") == Some(Str("")) && Member(i.body, "useModel") == Some(Str(""))
    ensures !Violates(i, InvalidLanguage) && !Violates(i, InvalidModel)
  {
  }

  /** Exactly the eight labels are meal types. */
  lemma MealTypeLabels(v: Option<Json>)
    ensures OneOf(v, MealTypes) <==>
      v in [Some(Str("早餐")), Some(Str("午餐")), Some(Str("晚餐")), Some(Str("點心")),
            Some(Str("breakfast")), Some(Str("lunch")), Some(Str("dinner")), Some(Str("snack"))]
  {
  }

  /** validateRequest: records the start time before any check, then sends the first
      rejection (and does not call `next`), sends nothing and calls `next`, or throws on a
      null body; `thrown` is the exception that leaves the middleware. */
  method ValidateRequest(rt: Runtime, req: Request, res: Response, now: int, maxSetting: Number)
    returns (callsNext: bool, thrown: Option<ErrorHandler.ErrorInfo>)
    modifies req, res
    ensures req.startTime == Some(now)
    ensures callsNext <==> Validate(rt, InputOf(req, maxSetting)).Pass?
    ensures thrown.Some? <==> Validate(rt, InputOf(req, maxSetting)).Throw?
    ensures thrown.Some? ==> thrown.value == Validate(rt, InputOf(req, maxSetting)).err
    ensures res.sent == old(res.sent) + (match Validate(rt, InputOf(req, maxSetting))
                                         case Reject(r) => [r]
                                         case _ => [])
  {
    req.startTime := Some(now);
    var max := MaxImageBytes(maxSetting);
    if req.httpMethod == "POST" && !req.isJson {
      res.Send(RejectionReply(UnsupportedMediaType, max));
      return false, None;
    }
    if req.url == "/api/analyze" && req.httpMethod == "POST" {
      if req.body.Null? {
        return false, Some(BodyReadError(rt));
      }
      assert Validate(rt, InputOf(req, maxSetting)) ==
        match FirstFailure(InputOf(req, maxSetting))
        case None => Pass
        case Some(c) => Reject(RejectionReply(c, max));
      var image := req.Field("image");
      var mealType := req.Field("mealType");
      if !Truthy(image) || !Truthy(mealType) {
        res.Send(RejectionReply(MissingFields, max));
        return false, None;
      }
      if !image.value.Str? || !Base64.IsValidBase64(image.value.s) {
        res.Send(RejectionReply(InvalidImage, max));
        return false, None;
      }
      var imageSizeBytes := ((|image.value.s| as real) * 3.0) / 4.0;
      if imageSizeBytes > max {
        res.Send(RejectionReply(ImageTooLarge, max));
        return false, None;
      }
      if !OneOf(mealType, MealTypes) {
        res.Send(RejectionReply(InvalidMealType, max));
        return false, None;
      }
      var language := req.Field("language");
      var useModel := req.Field("useModel");
      if Truthy(language) && !OneOf(language, Languages) {
        res.Send(RejectionReply(InvalidLanguage, max));
        return false, None;
      }
      if Truthy(useModel) && !OneOf(useModel, ModelKeys) {
        res.Send(RejectionReply(InvalidModel, max));
        return false, None;
      }
    }
    return true, None;
  }
}
