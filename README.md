# Magic Nutritionist backend: a Dafny model of the analysis service

The service takes a base64 food photograph and a meal type. It checks the request, builds
an instruction prompt, and posts the prompt and the image to a chat-completion endpoint.
It then turns the model's reply into a nutrition record (food items with calories and
macronutrients, a total, a health score, a confidence value and suggestions), adds
metadata and returns it. Failures become JSON error responses with an HTTP status.

The model covers the three entry points of the repository:

- the stand-alone handler `api/analyze.js`;
- the all-in-one application `api/index.js`, whose `validateRequest`, `isValidBase64`,
  model table, prompt builder and reply parser are copies of the stand-alone ones and are
  modelled once (`Validation`, `Base64`, `Profiles`, `Prompt`, `Normalizer`);
- the development server `server.js`, which has its own prompt, no validation and a
  fallback record when the reply holds no JSON object.

Both error middlewares are modelled too: `api/middleware/errorHandler.js` and the inline
one of `api/index.js`.

The modules:

- `Js`: JSON values, `undefined` as `Option.None`, and the JavaScript conversions the
  code relies on: ToBoolean, ToNumber, ToString, `||` defaults, destructuring defaults and
  property reads that throw on null. These follow sections 7.1.2, 7.1.4 and 7.1.17 of
  ECMA-262. Engine behaviour is kept abstract in a `Runtime` value: JSON.parse, the
  number grammar, number printing and the text of TypeError messages. JSON.parse is
  constrained only in that a text starting with `{` can only parse to an object.
- `Http`: replies, the request (its `startTime` field is updated in place) and the
  response object that records what is sent.
- `Base64`: the validator's base64 test. It proves the test accepts exactly the canonical
  padded encodings of RFC 4648 (sections 3.5 and 4).
- `Validation`: the request-validation middleware as a chain of early returns. It proves
  that the chain reports the first violated rule, and that a null body on the analysis
  route throws before any rule is tried, ending in a 500 from the error middleware.
- `Profiles`: the read-only model table and its fallback to the primary profile.
- `Prompt`: the two prompt templates and the template selection.
- `Normalizer`: the extraction of the JSON object from the reply and the coercion of the
  parsed reply into a nutrition record.
- `ErrorHandler`: the ordered rules of the error middleware and the inline variant.
- `Analyze`: the analysis pipeline as a pure staged function and as the imperative handler
  proved against it.
- `Server`: the development server's analysis route, in the same two forms.

The outside world enters as parameters. The network is a function from the posted request
to its outcome. The clock is a value. Environment variables are an `Env` value or a
parameter.

## Model

| member | source | states |
|---|---|---|
| Js.NumberOr | api/analyze.js:240-245 | `Number(v)` or-default `d` is the converted number when it is neither NaN nor zero, else the default; never zero for a non-zero default |
| Js.NumberOrFixedCases | api/analyze.js:240-245 | undefined, null, false, "" and [] give the default; true gives 1; a non-zero number is kept |
| Js.OrElse | api/analyze.js:239 | `v` or-default `d` is `v` when truthy, else `d` |
| Js.Defaulted | api/analyze.js:36 | a destructuring default applies exactly when the property is undefined |
| Js.Member | api/analyze.js:36 | a property read gives a value exactly when the value is an object holding the key |
| Js.Read | server.js:108 | reading through undefined or null fails with a TypeError exactly then; otherwise the property or first element |
| Js.IntToString | server.js:104 | a non-negative integer prints as canonical decimal digits denoting it; a negative one as a minus sign followed by the digits of its magnitude |
| Js.NatToString | server.js:104 | a natural number prints as non-empty decimal digits without a leading zero whose value is the number |
| Http.ErrorBody | api/analyze.js:47-50 | the `{error, message}` body has exactly those two keys, holding the given texts |
| Http.Put | api/analyze.js:70-77 | a property is written exactly when its value is not undefined |
| Http.Response.Status | api/analyze.js:47 | `res.status(code)` sets the pending status and sends nothing |
| Http.Response.Json | api/analyze.js:86 | `res.json(body)` appends one reply with the pending status |
| Http.Response.Send | api/analyze.js:47-50 | `res.status(c).json(b)` appends exactly the reply `(c, b)` |
| Base64.CharOf | api/middleware/validation.js:88 | each sextet has one alphabet character, and decoding that character gives the sextet back |
| Base64.CharOfValueOf | api/middleware/validation.js:88 | encoding the value of an alphabet character gives the character back |
| Base64.AlphabetPrefix | api/middleware/validation.js:88 | the longest prefix made of alphabet characters |
| Base64.Sextets | api/middleware/validation.js:94 | one sextet per character, in order |
| Base64.Encode | api/middleware/validation.js:94 | every encoding is a whole number of four-character quanta, non-empty for non-empty input |
| Base64.Quantum | api/middleware/validation.js:94 | every group of three bytes encodes to four characters |
| Base64.SextetsBytesSextets | api/middleware/validation.js:94 | splitting four sextets into three bytes and back is the identity |
| Base64.BytesSextetsBytes | api/middleware/validation.js:94 | splitting three bytes into four sextets and back is the identity |
| Base64.PrefixAppend | api/middleware/validation.js:88 | an all-alphabet prefix passes unchanged through the prefix scan |
| Base64.DecodeQuantumAppend | api/middleware/validation.js:94 | decoding a full quantum followed by more text gives its three bytes followed by the rest |
| Base64.DecodePadded | api/middleware/validation.js:94 | a final quantum with one or two `=` decodes to two or one bytes |
| Base64.EncodeAppendQuantum | api/middleware/validation.js:94 | encoding three bytes followed by more is their quantum followed by the rest |
| Base64.EncodeIsCanonical | api/middleware/validation.js:94 | every encoder output is canonical |
| Base64.DecodeEncode | api/middleware/validation.js:94 | decoding undoes encoding for every byte sequence |
| Base64.FinalQuantumReencodes | api/middleware/validation.js:94 | a canonical final quantum re-encodes to itself |
| Base64.CanonicalReencodes | api/middleware/validation.js:94-95 | a canonical string survives the decode and re-encode round trip |
| Base64.CanonicalMatchesPattern | api/middleware/validation.js:88-91 | every canonical string passes the pattern test |
| Base64.ValidIffCanonical | api/middleware/validation.js:85-99 | `isValidBase64` accepts a string if and only if it is a canonical padded encoding |
| Base64.ValidLengthIsMultipleOfFour | api/middleware/validation.js:85-99 | every accepted string has a length divisible by four |
| Base64.EncodingsAreAccepted | api/index.js:143-155 | every encoding is accepted and decodes back to its bytes |
| Base64.PaddingExamples | api/middleware/validation.js:85-99 | "QQ==" is accepted; "QR==" (non-zero pad bits) and "QQ" (no padding) are refused |
| Profiles.Lookup | api/analyze.js:54 | the keyed lookup with primary as default gives the keyed profile for the three keys, the primary one otherwise, always a profile of the table |
| Profiles.ProfileNamesIdentifyKeys | api/analyze.js:5-32 | the three profiles name three different models, so the reported model identifies the key |
| Profiles.UnknownKeyIsPrimary | api/analyze.js:54 | every unknown key resolves the same as "primary" |
| Prompt.TemplateFor | api/analyze.js:221 | the Chinese template is selected if and only if the key is "zh" |
| Prompt.LineText | api/analyze.js:177-193 | every schema line holds its field name |
| Prompt.ConcatContains | api/analyze.js:174-218 | a text held by one line is held by the whole template |
| Prompt.Pieces | api/analyze.js:174-218 | a template has twenty-one pieces: opening, meal type, introduction, seventeen schema lines and closing |
| Prompt.RenderOpening | api/analyze.js:174 | a rendered template is the opening sentence followed directly by the meal type |
| Prompt.RenderMentions | api/analyze.js:174-218 | a rendered template holds the meal type right after the opening and names all eleven schema fields |
| Prompt.BuildPrompt | api/analyze.js:172-222 | the prompt opens with the Chinese sentence for the key "zh" and the English one otherwise, continues with the meal type verbatim, and contains every schema field name |
| Prompt.RenderFirstChar | api/analyze.js:174 | a rendered template starts with its opening's first character |
| Prompt.OpeningsDiffer | api/analyze.js:174-197 | the two templates begin with different characters |
| Prompt.ChineseTemplateExactlyForZh | api/analyze.js:221 | the prompt is the Chinese text if and only if the language key is "zh", the English text otherwise |
| Normalizer.FindFirst | api/analyze.js:227 | the position of the first occurrence of a character, or none exactly when it is absent |
| Normalizer.FindLast | api/analyze.js:227 | the position of the last occurrence of a character, or none exactly when it is absent |
| Normalizer.BraceSpan | api/analyze.js:227 | the greedy match spans from the first `{` to the last `}` after it; no match exactly when no `{` precedes a `}` |
| Normalizer.JsonText | api/analyze.js:227-228 | when a `{` comes before a `}`, exactly the text from the first `{` through the last `}`; otherwise the whole reply |
| Normalizer.JsonTextSkipsProse | api/analyze.js:227-228 | prose without braces around one object is dropped, leaving the object's text |
| Normalizer.CoerceItem | api/analyze.js:238-246 | an item is coerced exactly when it is not null |
| Normalizer.CoercedItemFields | api/analyze.js:238-246 | each coerced field is the item's own value when usable, else its default ("Unknown Food", 0, 0.5, "Unknown") |
| Normalizer.CoerceItems | api/analyze.js:238-246 | the mapping succeeds exactly when no item is null, keeping length and order item by item |
| Normalizer.SumCaloriesAppend | api/analyze.js:250 | the calorie sum of a concatenation is the sum of the two sums |
| Normalizer.SumCaloriesBounds | api/analyze.js:250 | with non-negative calories the sum is non-negative and bounds every item |
| Normalizer.Normalize | api/analyze.js:224-261 | every failure is reported as the one "Failed to parse AI response" error |
| Normalizer.NormalizeAcceptsIff | api/analyze.js:224-261 | a reply is accepted if and only if it is a string whose JSON text parses to a value with an array `food_items` without null items |
| Normalizer.NormalizedRecord | api/analyze.js:248-256 | an accepted reply gives coerced items, the supplied or summed total, the supplied or default score, confidence and suggestions, the caller's meal type and autoDetected |
| Normalizer.EmptyFoodItemsAccepted | api/analyze.js:233-250 | an empty item array is accepted, with no items and a zero total unless one is supplied |
| Normalizer.NormalizeFailures | api/analyze.js:230-236 | a non-string reply, an unparsable text and a missing or non-array `food_items` each fail |
| Normalizer.NullItemFails | api/analyze.js:238-246 | one null item makes the whole reply fail |
| Normalizer.ItemsJson | api/analyze.js:238-246 | one written item per record item, in order |
| Normalizer.NutritionFields | api/analyze.js:248-256 | the written record has exactly the seven properties, the meal type only when defined, each holding the normalised value |
| Validation.MaxImageBytes | api/middleware/validation.js:46 | the configured limit when it parses to a non-zero number, else 10 MiB; never zero |
| Validation.SizeTestForms | api/middleware/validation.js:45-48 | the size test `length * 3 / 4 > max` equals `3 * length > 4 * max` |
| Validation.ChainSound | api/middleware/validation.js:16-80 | the check the chain reports is violated and no earlier check is |
| Validation.ChainComplete | api/middleware/validation.js:16-80 | a violated check with no violated check before it is the one reported |
| Validation.ChainPassesOnlyClean | api/middleware/validation.js:16-82 | a request the chain passes violates no check |
| Validation.FirstFailureIsEarliest | api/middleware/validation.js:16-82 | the chain passes exactly the requests violating nothing, and reports a check exactly when it is the earliest violated one |
| Validation.RejectionReply | api/middleware/validation.js:17-79 | each rejection's status (415, 400, 413) and an `{error, message}` body |
| Validation.Validate | api/middleware/validation.js:16-82 | a JSON analysis post with a null body throws the read TypeError; otherwise a request goes on exactly when it violates no check, and is rejected with the reply of the earliest violated check |
| Validation.BodyReadError | api/middleware/validation.js:25 | the thrown error is a TypeError carrying the engine's message, and no rule of the error middleware claims it |
| Validation.NullBodyIsInternalError | api/middleware/validation.js:25 | a null body on a JSON analysis post throws, and both error middlewares answer with 500 |
| Validation.PassedRequestIsWellFormed | api/middleware/validation.js:24-80 | a passed analysis post has a canonical base64 image within the limit, a listed meal type and valid optional fields |
| Validation.OnlyAnalyzePostIsChecked | api/middleware/validation.js:16-24 | a POST without JSON is refused with 415; other requests except the analysis post pass |
| Validation.DefaultSizeBoundary | api/middleware/validation.js:45-48 | under the default limit an image of 13981013 characters passes and one more is refused |
| Validation.EmptyOptionalsPass | api/middleware/validation.js:67-74 | an empty language or model is falsy and not checked |
| Validation.MealTypeLabels | api/middleware/validation.js:56-57 | exactly the eight listed labels are meal types |
| Validation.ValidateRequest | api/middleware/validation.js:3-83 | stamps the start time, then sends the rejection `Validate` decides, calls next exactly when it passes, and lets the TypeError escape exactly when it throws |
| ErrorHandler.PlainError | api/analyze.js:125 | an error raised with `new Error` has a message and no code, response or type |
| ErrorHandler.FirstRuleIsEarliest | api/middleware/errorHandler.js:14-66 | no rule is chosen exactly when none matches; a rule is chosen exactly when it is the earliest matching one |
| ErrorHandler.RuleReply | api/middleware/errorHandler.js:15-65 | the reply of a matched rule has that rule's status |
| ErrorHandler.HandleError | api/middleware/errorHandler.js:3-74 | the reply of the first matching rule, or the default reply when no rule matches |
| ErrorHandler.HandleErrorStatus | api/middleware/errorHandler.js:14-74 | ValidationError gives 400, UnauthorizedError 401, and 500 exactly when no rule matches |
| ErrorHandler.ResponseBeforeTimeout | api/middleware/errorHandler.js:52-65 | an error with a response and the timeout code is a 502, not a 504 |
| ErrorHandler.NameRulesFirst | api/middleware/errorHandler.js:15-35 | a ValidationError is answered as one whatever its code or type |
| ErrorHandler.DefaultHidesDetailsOutsideDevelopment | api/middleware/errorHandler.js:67-74 | outside development the default reply is fixed text; in development it carries the message |
| ErrorHandler.InlineHandle | api/index.js:406-428 | the inline middleware gives 400 for a ValidationError and 500 otherwise |
| ErrorHandler.InlineAgreesWithHandler | api/index.js:406-428 | the two middlewares agree on validation errors without details and on unmatched errors when no stack is shown |
| Analyze.BaseUrl | api/analyze.js:121 | the configured base URL when set and non-empty, else the default |
| Analyze.Chain | api/analyze.js:165 | undefined for undefined or null; otherwise the property read, which finds a key exactly in an object holding it and element 0 exactly in a non-empty array |
| Analyze.MessageContent | api/analyze.js:165-169 | content is found exactly when the optional chain reaches a truthy value, and it is that value |
| Analyze.FailureReply | api/analyze.js:88-117 | a 401 upstream becomes 503, a 429 stays 429, a timeout without either becomes 504, everything else 500 |
| Analyze.NoResponseIsInternal | api/analyze.js:113-116 | an error without response or timeout code gets the generic 500 body |
| Analyze.OwnErrorsAreInternal | api/analyze.js:123-167 | an error the service raises itself is answered with 500 |
| Analyze.Metadata | api/analyze.js:71-76 | the four metadata fields, with a null processing time when no start time was recorded |
| Analyze.SuccessBody | api/analyze.js:70-77 | exactly the record's properties, with their values, plus the metadata |
| Analyze.MissingFieldsRejectedBeforeCall | api/analyze.js:46-51 | a missing image or meal type is refused with 400 and nothing is posted |
| Analyze.NullBodyRun | api/analyze.js:36 | a null body makes the destructuring throw: a 500 and no post, in both handlers |
| Analyze.NoKeyRun | api/analyze.js:124-126 | without an API key nothing is posted and the answer is the generic 500 |
| Analyze.PostHappensIff | api/index.js:180-243 | the all-in-one handler posts exactly when the body is readable and the key is set; without a key it answers 500 |
| Analyze.StandalonePostHappensIff | api/analyze.js:34-118 | the stand-alone handler posts exactly when the body is readable, both fields are present and the key is set |
| Analyze.RunFollowsPost | api/analyze.js:54-86 | once posted, the reply is the outcome of the post |
| Analyze.PostedRequest | api/analyze.js:120-162 | the posted request carries the selected profile, the body's prompt, the image as a data URL and the key as bearer token |
| Analyze.DefaultProfile | api/analyze.js:36 | no `useModel` selects the primary profile |
| Analyze.DefaultLanguage | api/analyze.js:36 | no `language` selects the Chinese prompt |
| Analyze.SuccessIff | api/analyze.js:60-86 | the reply is 200 exactly when the post returned, the content is truthy and accepted, with the normalised record and metadata |
| Analyze.UpstreamErrorClassified | api/analyze.js:88-117 | an error thrown by the post is answered by the classifier in its order |
| Analyze.UnparseableReplyIs500 | api/analyze.js:165-167 | missing or refused content ends in 500 |
| Analyze.HandlersAgreeOnCompleteBodies | api/index.js:180-243 | with both fields present the two handlers behave identically |
| Analyze.ValidatedRequestsReachThePost | api/index.js:395 | behind the validator the all-in-one handler posts the body's canonical image and prompt |
| Analyze.AnalyzeFood | api/analyze.js:34-118 | the handler sends exactly the pipeline's reply and posts exactly its request |
| Analyze.Respond | api/analyze.js:66-86 | the rest of the try block sends exactly the reply of the post-processing stage |
| Server.Failure | server.js:153-159 | the route's error reply is a 500 with exactly `error` and `details` |
| Server.OutboundFor | server.js:59-101 | the posted request has the fixed endpoint, the primary model's limits, the fixed prompt, a bearer header with the key (`undefined` when unset) and the image as a JPEG data URL |
| Server.ContentOf | server.js:107-108 | the strict chain fails exactly when some link is undefined or null, and otherwise agrees with optional chaining |
| Server.Extracted | server.js:112-119 | an object is extracted exactly when the reply is a string with a brace span that parses, and it is the parsed object |
| Server.Fallback | server.js:120-141 | the fallback has the one fixed item, is auto-detected and takes the request meal type, "午餐" when falsy |
| Server.FallbackTotalIsItemSum | server.js:122-134 | the fallback's total equals the sum of its items' calories |
| Server.FallbackMealType | server.js:138 | the fallback's meal type is the request's when truthy, "午餐" otherwise |
| Server.PostHappensIff | server.js:53-57 | a request is posted exactly when the body has a truthy image; otherwise 400 |
| Server.PromptIgnoresBody | server.js:53-101 | two bodies with the same image post the same request, with the fixed prompt |
| Server.UpstreamStatusError | server.js:103-105 | a status outside 200-299 gives a 500 naming the status |
| Server.ReadableContentSucceeds | server.js:110-151 | once the content is read the answer is 200, the fallback record when nothing was extracted |
| Server.ParsedObjectKeptAsIs | server.js:112-151 | a parsed object is sent with all its fields unchanged and only `metadata` replaced |
| Server.SuccessIff | server.js:103-159 | after the post the answer is 200 exactly when the response is ok, parses and has readable content; 500 otherwise |
| Server.SuccessCarriesMetadata | server.js:143-151 | every success carries the server's metadata |
| Server.HandleSuccessMetadata | server.js:51-151 | every success of the route carries the metadata built from the start time |
| Server.UnstampedProcessingTimeIsNull | server.js:147 | with no start time recorded, every success reports a null processing time |
| Server.ElapsedSinceStamp | server.js:144-149 | metadata built from a start time reports the time elapsed since |
| Server.StampedProcessingTime | server.js:147 | a request stamped on arrival reports the elapsed time |
| Server.AnalyzeRoute | server.js:51-160 | the route sends exactly the reply of `Handle` and posts exactly its request |
| Server.Respond | server.js:103-159 | from the response on, the route sends exactly the reply of `AfterFetch` |
| Server.AnalyzeRouteTimed | server.js:51-160 | the route behind a start-time stamp sends `Handle`'s reply for that start time |

## Left out

- Logging (`logger`, `console.log`) and the health, 404 and listen wiring of Express: no
  effect on the replies that are modelled.
- Helmet, CORS, the rate limiter and the body parsers' size limit: library middleware
  outside the service's own code.
- Network timeouts and headers: the post is a function from the request to its outcome.
  A timeout is the outcome's `ECONNABORTED` code. The `HTTP-Referer`, `X-Title` and
  `Content-Type` headers are not modelled.
- Floating point: numbers are exact reals. NaN is a separate value only where ToNumber
  can give it. Sums are not rounded.
- JSON.parse, the number grammar and number printing are abstract functions of the
  runtime. JSON.parse is constrained only for texts starting with `{`.
- String length: lengths count Dafny characters, not UTF-16 code units. Base64 text is
  ASCII, so the size check is unaffected.
- Prototype properties: a property read finds only the object's own keys.
- The `strengths` and `cost` lists of the model table: never read.
- The error middleware of `server.js` (lines 162-166) and the test and mock files: not
  part of the core.
- Validation.BodyReadError: the thrown TypeError's stack is not modelled; neither error
  middleware's reply to it depends on the stack outside development.
- Server.AnalyzeRoute: destructuring a null body throws a TypeError whose message is
  modelled as the engine's message for reading `image` of null. The exact text is not
  modelled.

## Findings

| source | as written | input that shows it | evidently intended | confidence | as-written member | corrected member |
|---|---|---|---|---|---|---|
| server.js:147 | `processingTime: Date.now() - req.startTime`, but nothing in `server.js` sets `req.startTime` | any successful POST to `/api/analyze`: `Date.now() - undefined` is NaN, which is serialised as `null` | the time since the request arrived, as the start time stamped by the validation middleware provides in `api/index.js` | high; not executed | Server.UnstampedProcessingTimeIsNull | Server.AnalyzeRouteTimed |
