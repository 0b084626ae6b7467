/** The part of the HTTP exchange the handlers touch: the request they read (and stamp with
    a start time) and the response they set a status on and send a JSON body through. */
module Http {
  import opened Js

  /** One response as it leaves the server: status code and JSON body. */
  datatype Reply = Reply(status: int, body: Json)

  /** `{ error, message }`, the body shape of almost every rejection. */
  function ErrorBody(error: string, message: string): (b: Json)
    ensures b.Obj? && b.fields.Keys == {"error", "message"}
    ensures b.fields["error"] == Str(error) && b.fields["message"] == Str(message)
  {
    Obj(map["error" := Str(error), "message" := Str(message)])
  }

  /** An object property that JSON.stringify writes only when its value is not undefined. */
  function Put(fields: map<string, Json>, key: string, v: Option<Json>): (r: map<string, Json>)
    ensures v.Some? ==> r == fields[key := v.value]
    ensures v.None? ==> r == fields
  {
    match v
    case None => fields
    case Some(j) => fields[key := j]
  }

  /** An incoming request. Method, URL, the `Content-Type` test and the parsed body are fixed;
      `startTime` is the property the validation middleware adds. */
  class Request {
    const httpMethod: string
    const url: string
    const isJson: bool   // req.is('application/json')
    const body: Json     // req.body as the JSON body parser left it
    var startTime: Option<int>

    constructor (httpMethod: string, url: string, isJson: bool, body: Json)
      ensures this.httpMethod == httpMethod && this.url == url && this.isJson == isJson && this.body == body
      ensures startTime == None
    {
      this.httpMethod := httpMethod;
      this.url := url;
      this.isJson := isJson;
      this.body := body;
      startTime := None;
    }

    /** `req.body.key`. */
    function Field(key: string): Option<Json>
    {
      Member(body, key)
    }
  }

  /** The response object: a pending status code and the replies sent so far. */
  class Response {
    var statusCode: int
    var sent: seq<Reply>

    constructor ()
      ensures statusCode == 200 && sent == []
    {
      statusCode := 200;
      sent := [];
    }

    /** `res.status(code)`. */
    method Status(code: int)
      modifies this
      ensures statusCode == code && sent == old(sent)
    {
      statusCode := code;
    }

    /** `res.json(body)`: sends the body with the pending status. */
    method Json(body: Json)
      modifies this
      ensures statusCode == old(statusCode) && sent == old(sent) + [Reply(statusCode, body)]
    {
      sent := sent + [Reply(statusCode, body)];
    }

    /** `res.status(code).json(body)`. */
    method Send(r: Reply)
      modifies this
      ensures statusCode == r.status && sent == old(sent) + [r]
    {
      Status(r.status);
      Json(r.body);
    }
  }
}
