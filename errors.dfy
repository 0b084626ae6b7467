/** The global error middleware: an ordered list of rules over the thrown error's name, code,
    type and response; the first rule that matches chooses the status and body, and an
    error no rule matches is a 500 whose details are shown only in development. */
module ErrorHandler {
  import opened Js
  import opened Http

  /** The properties of a thrown value that the handlers read; `None` is undefined. */
  datatype ErrorInfo = ErrorInfo(
    name: Option<Json>, message: Option<Json>, code: Option<Json>, errType: Option<Json>,
    response: Option<Json>, details: Option<Json>, stack: Option<Json>)

  /** An error raised by `new Error(message)` inside the service: only name, message and stack. */
  function PlainError(message: string): (e: ErrorInfo)
    ensures e.message == Some(Str(message)) && e.code.None? && e.response.None? && e.errType.None?
  {
    ErrorInfo(Some(Str("Error")), Some(Str(message)), None, None, None, None, None)
  }

  datatype Rule =
    | ValidationRule     // name ValidationError
    | UnauthorizedRule   // name UnauthorizedError
    | FileTooLarge       // code LIMIT_FILE_SIZE
    | MalformedJson      // type entity.parse.failed
    | BodyTooLarge       // type entity.too.large
    | ExternalService    // any truthy response
    | ServiceTimeout     // code ECONNABORTED

  function Rank(r: Rule): nat
  {
    match r
    case ValidationRule => 0
    case UnauthorizedRule => 1
    case FileTooLarge => 2
    case MalformedJson => 3
    case BodyTooLarge => 4
    case ExternalService => 5
    case ServiceTimeout => 6
  }

  /** Each rule's own test (`===` on the strings, truthiness for the response). */
  predicate Matches(err: ErrorInfo, r: Rule)
  {
    match r
    case ValidationRule => err.name == Some(Str("ValidationError"))
    case UnauthorizedRule => err.name == Some(Str("UnauthorizedError"))
    case FileTooLarge => err.code == Some(Str("LIMIT_FILE_SIZE"))
    case MalformedJson => err.errType == Some(Str("entity.parse.failed"))
    case BodyTooLarge => err.errType == Some(Str("entity.too.large"))
    case ExternalService => Truthy(err.response)
    case ServiceTimeout => err.code == Some(Str("ECONNABORTED"))
  }

  /** The handler's chain of `if` tests in source order. */
  function FirstRule(err: ErrorInfo): Option<Rule>
  {
    if err.name == Some(Str("ValidationError")) then Some(ValidationRule)
    else if err.name == Some(Str("UnauthorizedError")) then Some(UnauthorizedRule)
    else if err.code == Some(Str("LIMIT_FILE_SIZE")) then Some(FileTooLarge)
    else if err.errType == Some(Str("entity.parse.failed")) then Some(MalformedJson)
    else if err.errType == Some(Str("entity.too.large")) then Some(BodyTooLarge)
    else if Truthy(err.response) then Some(ExternalService)
    else if err.code == Some(Str("ECONNABORTED")) then Some(ServiceTimeout)
    else None
  }

  /** First match wins: the chain picks a rule exactly when that rule matches and no earlier
      one does, and picks none exactly when no rule matches. */
  lemma FirstRuleIsEarliest(err: ErrorInfo)
    ensures FirstRule(err).None? <==> forall r :: !Matches(err, r)
    ensures forall r :: FirstRule(err) == Some(r) <==>
              Matches(err, r) && forall q :: Rank(q) < Rank(r) ==> !Matches(err, q)
  {
    forall r
      ensures FirstRule(err) == Some(r) <==>
              Matches(err, r) && forall q :: Rank(q) < Rank(r) ==> !Matches(err, q)
    {
      if FirstRule(err) == Some(r) {
        forall q | Rank(q) < Rank(r)
          ensures !Matches(err, q)
        {
          assert q != r;
        }
      }
      if Matches(err, r) && forall q :: Rank(q) < Rank(r) ==> !Matches(err, q) {
        assert Rank(ValidationRule) == 0 && Rank(UnauthorizedRule) == 1 && Rank(FileTooLarge) == 2;
        assert Rank(MalformedJson) == 3 && Rank(BodyTooLarge) == 4 && Rank(ExternalService) == 5;
      }
    }
  }

  function RuleStatus(r: Rule): int
  {
    match r
    case ValidationRule => 400
    case UnauthorizedRule => 401
    case FileTooLarge => 413
    case MalformedJson => 400
    case BodyTooLarge => 413
    case ExternalService => 502
    case ServiceTimeout => 504
  }

  /** The response of a matched rule: the validation rule echoes the error's message and
      details, every other rule sends fixed texts. */
  function RuleReply(err: ErrorInfo, r: Rule): (rep: Reply)
    ensures rep.status == RuleStatus(r)
  {
    match r
    case ValidationRule =>
      Reply(400, Obj(Put(Put(map["error" := Str("Validation Error")], "message", err.message), "details", err.details)))
    case UnauthorizedRule =>
      Reply(401, ErrorBody("Unauthorized", "Invalid or missing authentication credentials"))
    case FileTooLarge =>
      Reply(413, ErrorBody("File Too Large", "Uploaded file exceeds size limit"))
    case MalformedJson =>
      Reply(400, ErrorBody("Invalid JSON", "Request body contains invalid JSON"))
    case BodyTooLarge =>
      Reply(413, ErrorBody("Request Too Large", "Request body exceeds size limit"))
    case ExternalService =>
      Reply(502, ErrorBody("External Service Error", "Failed to communicate with external service"))
    case ServiceTimeout =>
      Reply(504, ErrorBody("Request Timeout", "External service took too long to respond"))
  }

  /** The default response: the error's own message and stack in development, a fixed
      message and no stack otherwise. */
  function DefaultReply(err: ErrorInfo, isDevelopment: bool): Reply
  {
    Reply(500, Obj(Put(
      Put(map["error" := Str("Internal Server Error")], "message",
          if isDevelopment then err.message else Some(Str("An unexpected error occurred"))),
      "stack", if isDevelopment then err.stack else None)))
  }

  /** errorHandler. `isDevelopment` is `process.env.NODE_ENV === 'development'`. */
  function HandleError(err: ErrorInfo, isDevelopment: bool): (rep: Reply)
    ensures (exists r :: Matches(err, r)) ==>
              exists r :: && Matches(err, r) && (forall q :: Rank(q) < Rank(r) ==> !Matches(err, q))
                          && rep == RuleReply(err, r)
    ensures (forall r :: !Matches(err, r)) ==> rep == DefaultReply(err, isDevelopment)
  {
    FirstRuleIsEarliest(err);
    match FirstRule(err)
    case Some(r) => RuleReply(err, r)
    case None => DefaultReply(err, isDevelopment)
  }

  /** The status is that of the first matching rule, 500 when none matches. */
  lemma HandleErrorStatus(err: ErrorInfo, isDevelopment: bool)
    ensures err.name == Some(Str("ValidationError")) ==> HandleError(err, isDevelopment).status == 400
    ensures err.name == Some(Str("UnauthorizedError")) ==> HandleError(err, isDevelopment).status == 401
    ensures (forall r :: !Matches(err, r)) <==> HandleError(err, isDevelopment).status == 500
  {
    FirstRuleIsEarliest(err);
  }

  /** An error that carries both a response and the ECONNABORTED code is an external-service
      failure (502), not a timeout, unless an earlier rule claims it. */
  lemma ResponseBeforeTimeout(err: ErrorInfo, isDevelopment: bool)
    requires Truthy(err.response) && err.code == Some(Str("ECONNABORTED"))
    requires err.name != Some(Str("ValidationError")) && err.name != Some(Str("UnauthorizedError"))
    requires err.errType != Some(Str("entity.parse.failed")) && err.errType != Some(Str("entity.too.large"))
    ensures HandleError(err, isDevelopment).status == 502
  {
  }

  /** The name rules come before the code and type rules: a ValidationError is answered with
      its own message and details whatever its code, type or response say. */
  lemma NameRulesFirst(err: ErrorInfo, isDevelopment: bool)
    requires err.name == Some(Str("ValidationError"))
    ensures var rep := HandleError(err, isDevelopment);
      && rep.status == 400
      && rep.body.Obj?
      && ("message" in rep.body.fields <==> err.message.Some?)
      && (err.message.Some? ==> rep.body.fields["message"] == err.message.value)
      && ("details" in rep.body.fields <==> err.details.Some?)
      && (err.details.Some? ==> rep.body.fields["details"] == err.details.value)
  {
    FirstRuleIsEarliest(err);
  }

  /** Outside development the default response never reveals the error's message or stack. */
  lemma DefaultHidesDetailsOutsideDevelopment(err: ErrorInfo)
    requires forall r :: !Matches(err, r)
    ensures HandleError(err, false).body == ErrorBody("Internal Server Error", "An unexpected error occurred")
    ensures var b := HandleError(err, true).body;
      && b.Obj?
      && ("stack" in b.fields <==> err.stack.Some?)
      && ("message" in b.fields <==> err.message.Some?)
      && (err.message.Some? ==> b.fields["message"] == err.message.value)
  {
    FirstRuleIsEarliest(err);
  }

  /** The error middleware of the all-in-one server: ValidationError gives 400 with the
      message, everything else 500 with the message only in development. */
  function InlineHandle(err: ErrorInfo, isDevelopment: bool): (rep: Reply)
    ensures rep.status == (if err.name == Some(Str("ValidationError")) then 400 else 500)
  {
    if err.name == Some(Str("ValidationError")) then
      Reply(400, Obj(Put(map["error" := Str("Validation Error")], "message", err.message)))
    else
      Reply(500, Obj(Put(map["error" := Str("Internal Server Error")], "message",
        if isDevelopment then err.message else Some(Str("An unexpected error occurred")))))
  }

  /** The two error middlewares agree on every error the shared rules decide: a validation
      error differs only by the details field, and an error no rule matches gets the same
      response unless the full handler adds a stack in development. */
  lemma InlineAgreesWithHandler(err: ErrorInfo, isDevelopment: bool)
    ensures err.name == Some(Str("ValidationError")) && err.details.None? ==>
              InlineHandle(err, isDevelopment) == HandleError(err, isDevelopment)
    ensures (forall r :: !Matches(err, r)) && (!isDevelopment || err.stack.None?) ==>
              InlineHandle(err, isDevelopment) == HandleError(err, isDevelopment)
  {
    FirstRuleIsEarliest(err);
  }
}
