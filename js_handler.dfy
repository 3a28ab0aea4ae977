/** The request flow of the JavaScript handler (the exported function of
    api/vision/analyze.js): method guard, shared-secret check, the body, the loose data
    URL parser, one Gemini call with its JSON fallback, and `normalizeResult`. Every
    error thrown inside its try block is answered 500 with the error's message.
    `{:induction false}` marks lemmas whose proof is written out: an induction of
    its own, or a direct argument for which Dafny's automatic induction hypotheses
    would only add solver work. */
module JsHandler {
  import opened JsRuntime
  import opened Nutrition
  import opened JsonRecovery
  import opened Payload

  const GeminiModel := "gemini-1.5-flash"
  const MethodNotAllowedMessage := "Method not allowed"
  const UnauthorizedMessage := "Unauthorized"
  const ImageRequiredMessage := "image_base64 is required"
  const EmptyReplyMessage := "Empty Gemini response"
  const InternalErrorMessage := "Internal error"

  /** The parts of the request the handler reads: the method, the `x-app-secret`
      header and the body as the platform hands it over (a string is parsed here). */
  datatype JsRequest = JsRequest(httpMethod: string, appSecret: Option<string>, body: JsValue)

  /** What is sent to Gemini (the prompt, the schema and the key are left out). */
  datatype GeminiRequest = GeminiRequest(model: string, mimeType: string, base64: string)

  /** How Gemini answered: a non-2xx status with its body text, a thrown error, or the
      text part of a well-formed answer (empty when it is missing). */
  datatype GeminiReply = NotOk(status: int, text: string) | Threw(error: Exception) | Answered(text: string)

  datatype JsOracles = JsOracles(
    /** `APP_PROXY_SECRET`, if set */
    configuredSecret: Option<string>,
    parseJson: string -> ParseOutcome,
    gemini: GeminiRequest -> GeminiReply)

  datatype JsBody = JsError(error: string) | JsResult(result: NutritionResult)

  datatype JsResponse = JsResponse(status: int, body: JsBody)

  /** The answer and the Gemini call made for it, if any. */
  datatype JsOutcome = JsOutcome(response: JsResponse, geminiCall: Option<GeminiRequest>)

  /** `!secret || secret !== process.env.APP_PROXY_SECRET` rejects: only a non-empty
      header equal to the configured secret passes, and nothing passes when none is set. */
  predicate SecretAccepted(sent: Option<string>, configured: Option<string>)
  {
    sent.Some? && sent.value != [] && configured == Some(sent.value)
  }

  /** `typeof req.body === 'string' ? JSON.parse(req.body) : req.body`. */
  function BodyValue(body: JsValue, parse: string -> ParseOutcome): Result<JsValue, Exception>
  {
    if body.Str? then ParseResult(parse(body.s)) else Ok(body)
  }

  /** `body?.image_base64` when it is a non-empty string. */
  function ImageOf(body: JsValue): Option<string>
  {
    var f := Field(body, "image_base64");
    if f.Str? && f.s != [] then Some(f.s) else None
  }

  /** `callGemini` after the fetch: a non-2xx status and an empty text part throw plain
      errors, anything thrown propagates, and a text goes through the fallback parse. */
  function GeminiValue(reply: GeminiReply, parse: string -> ParseOutcome): Result<JsValue, Exception>
  {
    match reply
    case NotOk(status, text) => Err(Exception(GenericError, "Gemini error: " + IntToString(status) + " " + text))
    case Threw(x) => Err(x)
    case Answered(text) =>
      if text == [] then Err(Exception(GenericError, EmptyReplyMessage))
      else GeminiFallback(parse, text)
  }

  /** `error.message || 'Internal error'`. */
  function FailureMessage(x: Exception): (m: string)
    ensures m != []
    ensures x.message != [] ==> m == x.message
    ensures x.message == [] ==> m == InternalErrorMessage
  {
    if x.message == [] then InternalErrorMessage else x.message
  }

  function Failure(x: Exception, call: Option<GeminiRequest>): JsOutcome
  {
    JsOutcome(JsResponse(500, JsError(FailureMessage(x))), call)
  }

  /** The try block, once the request passed both guards. */
  function JsAttempt(req: JsRequest, o: JsOracles): JsOutcome
  {
    match BodyValue(req.body, o.parseJson)
    case Err(x) => Failure(x, None)
    case Ok(body) =>
      match ImageOf(body)
      case None => JsOutcome(JsResponse(400, JsError(ImageRequiredMessage)), None)
      case Some(image) =>
        match ParseDataUrlLoose(image)
        case Err(x) => Failure(x, None)
        case Ok(d) =>
          var call := GeminiRequest(GeminiModel, d.mimeType, d.base64);
          match GeminiValue(o.gemini(call), o.parseJson)
          case Err(x) => Failure(x, Some(call))
          case Ok(raw) =>
            match NormalizeValue(raw)
            case Err(x) => Failure(x, Some(call))
            case Ok(r) => JsOutcome(JsResponse(200, JsResult(r)), Some(call))
  }

  /** One request, end to end. */
  function JsAnalyze(req: JsRequest, o: JsOracles): JsOutcome
  {
    if req.httpMethod != "POST" then JsOutcome(JsResponse(405, JsError(MethodNotAllowedMessage)), None)
    else if !SecretAccepted(req.appSecret, o.configuredSecret) then
      JsOutcome(JsResponse(401, JsError(UnauthorizedMessage)), None)
    else JsAttempt(req, o)
  }

  /** The exported handler, step by step: the answer written to `res` and the Gemini
      call made. */
  method HandleJs(req: JsRequest, o: JsOracles) returns (out: JsOutcome)
    ensures out == JsAnalyze(req, o)
  {
    if req.httpMethod != "POST" {
      return JsOutcome(JsResponse(405, JsError(MethodNotAllowedMessage)), None);
    }
    if !SecretAccepted(req.appSecret, o.configuredSecret) {
      return JsOutcome(JsResponse(401, JsError(UnauthorizedMessage)), None);
    }
    var failure: Exception;
    var called: Option<GeminiRequest> := None;
    label attempt: {
      var body := BodyValue(req.body, o.parseJson);
      if body.Err? {
        failure := body.error;
        break attempt;
      }
      var image := ImageOf(body.value);
      if image.None? {
        return JsOutcome(JsResponse(400, JsError(ImageRequiredMessage)), None);
      }
      var url := ParseDataUrlLoose(image.value);
      if url.Err? {
        failure := url.error;
        break attempt;
      }
      var request := GeminiRequest(GeminiModel, url.value.mimeType, url.value.base64);
      called := Some(request);
      var raw := GeminiValue(o.gemini(request), o.parseJson);
      if raw.Err? {
        failure := raw.error;
        break attempt;
      }
      var normalized := NormalizeValue(raw.value);
      if normalized.Err? {
        failure := normalized.error;
        break attempt;
      }
      return JsOutcome(JsResponse(200, JsResult(normalized.value)), called);
    }
    out := Failure(failure, called);
  }

  /* ------------------------------------------------------------------ */
  /*  Properties                                                         */
  /* ------------------------------------------------------------------ */

  /** The guards: 405 for any method but POST, then 401 unless the secret matches,
      decided before the body is looked at and without calling Gemini; a request that
      passes both is never answered 401 or 405. */
  lemma {:induction false} JsGuards(req: JsRequest, o: JsOracles)
    ensures req.httpMethod != "POST" ==>
              JsAnalyze(req, o) == JsOutcome(JsResponse(405, JsError(MethodNotAllowedMessage)), None)
    ensures req.httpMethod == "POST" && !SecretAccepted(req.appSecret, o.configuredSecret) ==>
              forall body :: JsAnalyze(req.(body := body), o) == JsOutcome(JsResponse(401, JsError(UnauthorizedMessage)), None)
    ensures req.httpMethod == "POST" ==>
              (JsAnalyze(req, o).response.status == 401 <==> !SecretAccepted(req.appSecret, o.configuredSecret))
    ensures JsAnalyze(req, o).response.status in {200, 400, 401, 405, 500}
  {
    var out := JsAttempt(req, o);
    assert out.response.status in {200, 400, 500};
  }

  /** No secret configured, or none sent: every POST is answered 401. */
  lemma UnsetSecretRejectsAll(req: JsRequest, o: JsOracles)
    requires req.httpMethod == "POST"
    requires o.configuredSecret.None? || req.appSecret.None? || req.appSecret == Some("")
    ensures JsAnalyze(req, o).response == JsResponse(401, JsError(UnauthorizedMessage))
  {
  }

  /** A body without a non-empty string `image_base64` is answered 400 and Gemini is not
      called. */
  lemma ImageRequired(req: JsRequest, o: JsOracles)
    requires req.httpMethod == "POST" && SecretAccepted(req.appSecret, o.configuredSecret)
    requires BodyValue(req.body, o.parseJson).Ok?
    requires var f := Field(BodyValue(req.body, o.parseJson).value, "image_base64"); !f.Str? || f.s == []
    ensures JsAnalyze(req, o) == JsOutcome(JsResponse(400, JsError(ImageRequiredMessage)), None)
  {
  }

  /** Every 500 carries a non-empty message: the thrown error's own, or `Internal error`. */
  lemma {:induction false} JsFailuresCarryMessage(req: JsRequest, o: JsOracles)
    requires JsAnalyze(req, o).response.status == 500
    ensures JsAnalyze(req, o).response.body.JsError? && JsAnalyze(req, o).response.body.error != []
  {
    assert req.httpMethod == "POST" && SecretAccepted(req.appSecret, o.configuredSecret);
  }

  /** The request as it reaches the loose parser: past both guards with an image. */
  predicate HasImage(req: JsRequest, o: JsOracles)
  {
    && req.httpMethod == "POST" && SecretAccepted(req.appSecret, o.configuredSecret)
    && BodyValue(req.body, o.parseJson).Ok?
    && ImageOf(BodyValue(req.body, o.parseJson).value).Some?
  }

  function ImageFor(req: JsRequest, o: JsOracles): string
    requires HasImage(req, o)
  {
    ImageOf(BodyValue(req.body, o.parseJson).value).value
  }

  /** Errors before the model: a string body that is not JSON and an image that is not
      a data URL are answered 500 with their messages, and Gemini is not called. */
  lemma {:induction false} JsEarlyFailures(req: JsRequest, o: JsOracles)
    requires req.httpMethod == "POST" && SecretAccepted(req.appSecret, o.configuredSecret)
    ensures req.body.Str? && o.parseJson(req.body.s).Unparsable? ==>
              JsAnalyze(req, o) == Failure(Exception(SyntaxError, o.parseJson(req.body.s).message), None)
    ensures HasImage(req, o) && ParseDataUrlLoose(ImageFor(req, o)).Err? ==>
              JsAnalyze(req, o) == JsOutcome(JsResponse(500, JsError(InvalidDataUrlMessage)), None)
  {
  }

  /** The Gemini call of a request that reached it. */
  function CallFor(req: JsRequest, o: JsOracles): GeminiRequest
    requires HasImage(req, o) && ParseDataUrlLoose(ImageFor(req, o)).Ok?
  {
    var d := ParseDataUrlLoose(ImageFor(req, o)).value;
    GeminiRequest(GeminiModel, d.mimeType, d.base64)
  }

  /** Errors of the model call, each answered 500 with its message: a non-2xx status,
      an empty text part, a text the fallback cannot recover (the original parse error
      when it holds no braced span, the slice's own otherwise), a JSON `null` whose
      `name` cannot be read, a reply `normalizeResult` cannot convert, and an error
      thrown by the fetch. */
  lemma {:induction false} JsModelFailures(req: JsRequest, o: JsOracles)
    requires HasImage(req, o) && ParseDataUrlLoose(ImageFor(req, o)).Ok?
    ensures var call := CallFor(req, o);
            o.gemini(call).NotOk? ==>
              JsAnalyze(req, o).response == JsResponse(500, JsError(
                "Gemini error: " + IntToString(o.gemini(call).status) + " " + o.gemini(call).text))
    ensures o.gemini(CallFor(req, o)) == Answered("") ==>
              JsAnalyze(req, o).response == JsResponse(500, JsError(EmptyReplyMessage))
    ensures var reply := o.gemini(CallFor(req, o));
            reply.Answered? && reply.text != [] && o.parseJson(reply.text).Unparsable?
            && !HasBracedSpan(reply.text) ==>
              JsAnalyze(req, o).response == JsResponse(500, JsError(FailureMessage(
                Exception(SyntaxError, o.parseJson(reply.text).message))))
    ensures var reply := o.gemini(CallFor(req, o));
            reply.Answered? && reply.text != [] && GeminiFallback(o.parseJson, reply.text).Err? ==>
              JsAnalyze(req, o).response == JsResponse(500, JsError(FailureMessage(
                GeminiFallback(o.parseJson, reply.text).error)))
    ensures var reply := o.gemini(CallFor(req, o));
            reply.Answered? && reply.text != [] && GeminiFallback(o.parseJson, reply.text) == Ok(Null) ==>
              JsAnalyze(req, o).response == JsResponse(500, JsError(NullNameMessage))
    ensures var reply := o.gemini(CallFor(req, o));
            reply.Answered? && reply.text != [] && GeminiFallback(o.parseJson, reply.text).Ok?
            && NormalizeThrows(GeminiFallback(o.parseJson, reply.text).value) ==>
              JsAnalyze(req, o).response == JsResponse(500, JsError(ToPrimitiveMessage))
    ensures var reply := o.gemini(CallFor(req, o));
            reply.Threw? ==> JsAnalyze(req, o).response == JsResponse(500, JsError(FailureMessage(reply.error)))
    ensures JsAnalyze(req, o).geminiCall == Some(CallFor(req, o))
  {
  }

  /** A 200 carries the normalised Gemini output, whose figures are bounded. */
  lemma {:induction false} JsSuccess(req: JsRequest, o: JsOracles)
    requires JsAnalyze(req, o).response.status == 200
    ensures var out := JsAnalyze(req, o);
            && out.geminiCall.Some? && out.response.body.JsResult?
            && var v := GeminiValue(o.gemini(out.geminiCall.value), o.parseJson);
               && v.Ok? && NormalizeValue(v.value) == Ok(out.response.body.result)
               && var r := out.response.body.result;
                  && r.calories >= 0 && r.protein >= 0 && r.carbs >= 0 && r.fats >= 0 && r.healthScore >= 0
                  && 0.0 <= r.confidence <= 1.0
  {
    assert req.httpMethod == "POST" && SecretAccepted(req.appSecret, o.configuredSecret);
    assert HasImage(req, o);
    var out := JsAnalyze(req, o);
    NormalizedBounded(GeminiValue(o.gemini(out.geminiCall.value), o.parseJson).value, out.response.body.result);
  }

  /** A request whose body, image, data URL, Gemini reply and `normalizeResult` all
      succeed is answered 200 with the normalised record, after one Gemini call. */
  lemma JsSuccessIs200(req: JsRequest, o: JsOracles)
    requires HasImage(req, o) && ParseDataUrlLoose(ImageFor(req, o)).Ok?
    requires GeminiValue(o.gemini(CallFor(req, o)), o.parseJson).Ok?
    requires NormalizeValue(GeminiValue(o.gemini(CallFor(req, o)), o.parseJson).value).Ok?
    ensures JsAnalyze(req, o) == JsOutcome(
              JsResponse(200, JsResult(NormalizeValue(GeminiValue(o.gemini(CallFor(req, o)), o.parseJson).value).value)),
              Some(CallFor(req, o)))
  {
  }

  /** A 200 can happen: a PNG upload with the right secret, answered by Gemini with
      `{}`, is normalised to the `Unknown` record with zero figures. */
  lemma JsSuccessReachable()
    ensures var req := JsRequest("POST", Some("s"), Obj(map["image_base64" := Str(Format("image/png", "QQ=="))]));
            var o := JsOracles(Some("s"), t => Parsed(Obj(map[])), g => Answered("{}"));
            JsAnalyze(req, o).response == JsResponse(200, JsResult(NutritionResult("Unknown", 0, 0, 0, 0, 0, 0.0, [])))
  {
    var req := JsRequest("POST", Some("s"), Obj(map["image_base64" := Str(Format("image/png", "QQ=="))]));
    var o := JsOracles(Some("s"), t => Parsed(Obj(map[])), g => Answered("{}"));
    LooseAcceptsAnyMime("image/png", "QQ==");
    assert Format("image/png", "QQ==") != [];
    assert HasImage(req, o);
    var raw := Obj(map[]);
    assert !NormalizeThrows(raw);
    JsSuccessIs200(req, o);
  }

  /** The loose parser lets any single-line mime type through to Gemini: the call
      carries the type and payload of the data URL as sent. */
  lemma {:induction false} JsForwardsAnyMime(req: JsRequest, o: JsOracles, mime: string, base64: string)
    requires req.httpMethod == "POST" && SecretAccepted(req.appSecret, o.configuredSecret)
    requires !req.body.Str? && Field(req.body, "image_base64") == Str(Format(mime, base64))
    requires mime != [] && base64 != [] && ';' !in base64 && SingleLine(mime) && SingleLine(base64)
    ensures JsAnalyze(req, o).geminiCall == Some(GeminiRequest(GeminiModel, mime, base64))
  {
    LooseAcceptsAnyMime(mime, base64);
    assert Format(mime, base64) != [];
  }

  /** A GIF upload, which the TypeScript handler refuses, reaches Gemini. */
  lemma JsForwardsGif(req: JsRequest, o: JsOracles, base64: string)
    requires req.httpMethod == "POST" && SecretAccepted(req.appSecret, o.configuredSecret)
    requires !req.body.Str? && Field(req.body, "image_base64") == Str(Format("image/gif", base64))
    requires base64 != [] && ';' !in base64 && SingleLine(base64)
    ensures JsAnalyze(req, o).geminiCall == Some(GeminiRequest(GeminiModel, "image/gif", base64))
  {
    JsForwardsAnyMime(req, o, "image/gif", base64);
  }
}
