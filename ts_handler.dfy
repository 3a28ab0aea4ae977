/** The request flow of the TypeScript handler (`handler` in api/vision/analyze.ts):
    method guard, bearer-token check, body validation, the daily quota, the vision model
    call, the audit log and the mapping of thrown errors to HTTP statuses.

    Everything the handler asks of the outside world is an oracle in `Oracles`; what it
    asks is recorded as a sequence of `Effect`s. `Analyze` is the specification of one
    request; `ScanService.Handle` runs the same flow step by step against the audit
    table it appends to. */
module TsHandler {
  import opened JsRuntime
  import opened Nutrition
  import opened JsonRecovery
  import opened Payload
  import opened Identity
  import opened Privacy

  const MethodNotAllowedMessage := "Method not allowed"
  const UnauthorizedMessageDefault := "Unauthorized"
  const ValidationFailedMessage := "Validation failed"
  const TooLargeMessage := "Image too large (max 3MB)"
  const UnavailableMessage := "Service temporarily unavailable"
  const LimitReachedMessage := "Daily scan limit reached"
  const UpstreamFailureMessage := "Upstream AI service error"
  const AnalysisFailedMessage := "Analysis failed"
  const NullVerdictMessage := "Cannot read properties of null (reading 'allowed')"

  const DefaultModel := "gemini-2.5-flash"
  /** Scans per subject per day when `rate_limit_per_device_per_day` is not set. */
  const DefaultDailyLimit := 5
  /** Scans per day from one network prefix, fixed in the handler. */
  const NetworkDailyLimit := 20

  /* ------------------------------------------------------------------ */
  /*  The outside world                                                  */
  /* ------------------------------------------------------------------ */

  /** The parts of the incoming request the handler reads; header arrays are reduced to
      their first element. */
  datatype Request = Request(
    httpMethod: string,
    authorization: Option<string>,
    forwardedFor: Option<string>,
    remoteAddress: Option<string>,
    body: string)

  /** An awaited call that either returns or throws an `Error` with a message. */
  datatype Call<T> = Returns(value: T) | Throws(message: string)

  /** The verdict of `RequestSchema.safeParse`: the validated `image_base64`, or the
      messages of the issues found. */
  datatype SchemaOutcome = SchemaPassed(imageBase64: string) | SchemaFailed(issues: seq<string>)

  /** The fields of the `check_rate_limit` answer the handler reads. */
  datatype RateVerdict = RateVerdict(allowed: bool, subjectCount: int, subjectLimit: int)

  /** The arguments of the `check_rate_limit` procedure. */
  datatype RpcArgs = RpcArgs(subject: string, ipPrefixHash: string, subjectLimit: int, ipLimit: int)

  datatype Provider = Gemini | OpenAI

  /** What is sent to the vision model (the API key and the prompt are left out). */
  datatype AiRequest = AiRequest(provider: Provider, model: string, mimeType: string, base64: string)

  /** How the provider answered: a non-2xx status with its body text, a thrown error
      (a timeout, a network failure, a body that is not JSON), or the text part of a
      well-formed answer (empty when the part is missing). */
  datatype AiReply = NotOk(status: int, text: string) | Threw(error: Exception) | Answered(text: string)

  datatype Oracles = Oracles(
    jwtVerify: string -> JwtVerdict,
    parseJson: string -> ParseOutcome,
    schema: JsValue -> SchemaOutcome,
    sha256: string -> string,
    /** the `app_settings` lookup: the stored daily limit, if any */
    setting: Call<Option<int>>,
    /** the `check_rate_limit` procedure: its data (None for a null answer) */
    limiter: RpcArgs -> Call<Option<RateVerdict>>,
    providerEnv: Option<string>,
    modelEnv: Option<string>,
    ai: AiRequest -> AiReply,
    /** the insert into `scan_requests`: the message it throws, if it throws */
    insert: LogRow -> Option<string>)

  /** The `status` column of `scan_requests`; `Failed` is written as `error`. */
  datatype LogStatus = LimiterError | RateLimited | Success | Failed

  /** A row of `scan_requests` (the latency column is left out). */
  datatype LogRow = LogRow(
    subjectHash: string,
    ipPrefixHash: string,
    status: LogStatus,
    model: string,
    calories: Option<int>,
    confidence: Option<real>)

  /** A call the handler makes to the outside world, in order. An insert records whether
      the row was stored. */
  datatype Effect =
    | SettingRead
    | LimiterRpc(args: RpcArgs)
    | AiCall(request: AiRequest)
    | LogInsert(row: LogRow, stored: bool)

  datatype Body =
    | ErrorBody(error: string)
    | ValidationBody(error: string, details: seq<string>)
    | LimitBody(error: string, limit: int, used: int)
    | ResultBody(result: NutritionResult)

  /** `X-RateLimit-Limit` and `X-RateLimit-Remaining`. */
  datatype RateHeaders = RateHeaders(limit: int, remaining: int)

  datatype Response = Response(status: int, body: Body, rateHeaders: Option<RateHeaders>)

  datatype Outcome = Outcome(response: Response, effects: seq<Effect>)

  /* ------------------------------------------------------------------ */
  /*  Stages of the try block                                            */
  /* ------------------------------------------------------------------ */

  /** How the try block ends: a response it sends itself, or an error thrown to the
      catch block; either way with the effects it had. */
  datatype End = Stop(response: Response, effects: seq<Effect>) | Raise(error: Exception, effects: seq<Effect>)

  /** A stage of the try block: it goes on with a value, or it ends the block. */
  datatype Step<T> = Next(value: T, effects: seq<Effect>) | Exit(end: End)

  /** The calls a stage made, however it ended. */
  function StepEffects<T>(s: Step<T>): seq<Effect>
  {
    if s.Next? then s.effects else s.end.effects
  }

  /** What the handler knows about the caller once the token is verified. */
  datatype Caller = Caller(sub: string, subjectHash: string, ipPrefixHash: string, model: string, provider: Provider)

  function LowerAscii(s: string): (t: string)
    ensures |t| == |s|
  {
    seq(|s|, i requires 0 <= i < |s| => if 'A' <= s[i] <= 'Z' then (s[i] as int + 32) as char else s[i])
  }

  /** `(AI_PROVIDER ?? 'gemini').toLowerCase() === 'openai'` picks OpenAI; anything else
      Gemini. Only ASCII letters lower-case to the letters of `openai`. */
  function ProviderOf(env: Option<string>): Provider
  {
    if LowerAscii(env.GetOr("gemini")) == "openai" then OpenAI else Gemini
  }

  function CallerOf(sub: string, req: Request, o: Oracles): Caller
  {
    var ip := ClientIp(req.forwardedFor, req.remoteAddress);
    Caller(sub, o.sha256(sub), o.sha256(ExtractIpPrefix(ip)), o.modelEnv.GetOr(DefaultModel), ProviderOf(o.providerEnv))
  }

  /** A row without nutrition figures. */
  function BareRow(c: Caller, status: LogStatus): LogRow
  {
    LogRow(c.subjectHash, c.ipPrefixHash, status, c.model, None, None)
  }

  function Log(row: LogRow, o: Oracles): Effect
  {
    LogInsert(row, o.insert(row).None?)
  }

  function HeadersOf(v: RateVerdict): RateHeaders
  {
    RateHeaders(v.subjectLimit, Max(0, v.subjectLimit - v.subjectCount))
  }

  /** The arguments of the quota call for a stored daily limit (if any). */
  function QuotaArgs(c: Caller, stored: Option<int>): RpcArgs
  {
    RpcArgs(c.sub, c.ipPrefixHash, stored.GetOr(DefaultDailyLimit), NetworkDailyLimit)
  }

  /** Body parse, schema, data URL and size guard: none of them touches the outside. */
  function AdmitStep(req: Request, o: Oracles): (s: Step<DataUrl>)
    ensures s.Next? ==> s.effects == [] && s.value.mimeType in AllowedMime && !TooLarge(s.value.base64)
    ensures s.Exit? ==> s.end.effects == []
  {
    match o.parseJson(req.body)
    case Unparsable(m) => Exit(Raise(Exception(SyntaxError, m), []))
    case Parsed(body) =>
      match o.schema(body)
      case SchemaFailed(issues) => Exit(Stop(Response(400, ValidationBody(ValidationFailedMessage, issues), None), []))
      case SchemaPassed(image) =>
        match ParseDataUrl(image)
        case Err(x) => Exit(Raise(x, []))
        case Ok(d) =>
          if TooLarge(d.base64) then Exit(Stop(Response(413, ErrorBody(TooLargeMessage), None), []))
          else Next(d, [])
  }

  /** The daily quota: read the setting, call the limiter; a failure of either is
      logged as `limiter_error` (an insert failure is swallowed) and answered 503, a
      refusal is logged as `rate_limited` (an insert failure is not swallowed) and
      answered 429. */
  function QuotaStep(c: Caller, o: Oracles): Step<RateVerdict>
  {
    match o.setting
    case Throws(_) =>
      Exit(Stop(Response(503, ErrorBody(UnavailableMessage), None), [SettingRead, Log(BareRow(c, LimiterError), o)]))
    case Returns(stored) =>
      var args := QuotaArgs(c, stored);
      match o.limiter(args)
      case Throws(_) =>
        Exit(Stop(Response(503, ErrorBody(UnavailableMessage), None),
                  [SettingRead, LimiterRpc(args), Log(BareRow(c, LimiterError), o)]))
      case Returns(None) =>
        Exit(Raise(Exception(TypeError, NullVerdictMessage), [SettingRead, LimiterRpc(args)]))
      case Returns(Some(v)) =>
        if v.allowed then Next(v, [SettingRead, LimiterRpc(args)])
        else
          var row := BareRow(c, RateLimited);
          match o.insert(row)
          case Some(m) => Exit(Raise(Exception(GenericError, m), [SettingRead, LimiterRpc(args), LogInsert(row, false)]))
          case None =>
            Exit(Stop(Response(429, LimitBody(LimitReachedMessage, v.subjectLimit, v.subjectCount), Some(HeadersOf(v))),
                      [SettingRead, LimiterRpc(args), LogInsert(row, true)]))
  }

  function ProviderName(p: Provider): string
  {
    match p
    case Gemini => "Gemini"
    case OpenAI => "OpenAI"
  }

  /** `callGemini` / `callOpenAI` after the fetch: a non-2xx status and an empty text
      part are `UpstreamError`s, anything thrown propagates, and a text goes through
      `extractJson`. */
  function ReplyValue(p: Provider, reply: AiReply, parse: string -> ParseOutcome): (r: Result<JsValue, Exception>)
    ensures r.Err? && r.error.cls == UpstreamError ==>
              reply.NotOk? || reply == Answered("") || reply == Threw(r.error)
    ensures reply.NotOk? || reply == Answered("") ==> r.Err? && r.error.cls == UpstreamError
  {
    match reply
    case NotOk(status, text) => Err(Exception(UpstreamError, ProviderName(p) + " " + IntToString(status) + ": " + text))
    case Threw(x) => Err(x)
    case Answered(text) =>
      if text == [] then Err(Exception(UpstreamError, "Empty " + ProviderName(p) + " response"))
      else ExtractJson(parse, text)
  }

  function AiRequestOf(c: Caller, d: DataUrl): AiRequest
  {
    AiRequest(c.provider, c.model, d.mimeType, d.base64)
  }

  /** The model call and `normalize`. */
  function InferenceStep(c: Caller, d: DataUrl, o: Oracles): (s: Step<NutritionResult>)
    ensures s.Next? ==> s.effects == [AiCall(AiRequestOf(c, d))]
    ensures s.Exit? ==> s.end.Raise? && s.end.effects == [AiCall(AiRequestOf(c, d))]
  {
    var request := AiRequestOf(c, d);
    match ReplyValue(c.provider, o.ai(request), o.parseJson)
    case Err(x) => Exit(Raise(x, [AiCall(request)]))
    case Ok(raw) =>
      match NormalizeValue(raw)
      case Err(x) => Exit(Raise(x, [AiCall(request)]))
      case Ok(r) => Next(r, [AiCall(request)])
  }

  function SuccessRow(c: Caller, r: NutritionResult): LogRow
  {
    LogRow(c.subjectHash, c.ipPrefixHash, Success, c.model, Some(r.calories), Some(r.confidence))
  }

  /** The `success` row (an insert failure is not swallowed), then 200. */
  function SuccessStep(c: Caller, v: RateVerdict, r: NutritionResult, o: Oracles): End
  {
    var row := SuccessRow(c, r);
    match o.insert(row)
    case Some(m) => Raise(Exception(GenericError, m), [LogInsert(row, false)])
    case None => Stop(Response(200, ResultBody(r), Some(HeadersOf(v))), [LogInsert(row, true)])
  }

  /** Prefix the effects of the stages already run. */
  function After(es: seq<Effect>, e: End): (r: End)
    ensures r.effects == es + e.effects
    ensures r.Stop? <==> e.Stop?
    ensures r.Stop? ==> r.response == e.response
    ensures r.Raise? ==> r.error == e.error
  {
    match e
    case Stop(r, es2) => Stop(r, es + es2)
    case Raise(x, es2) => Raise(x, es + es2)
  }

  /** The try block once the quota is granted: the model call, then the success row. */
  function Completion(c: Caller, d: DataUrl, v: RateVerdict, o: Oracles): End
  {
    match InferenceStep(c, d, o)
    case Exit(e) => e
    case Next(r, es) => After(es, SuccessStep(c, v, r, o))
  }

  /** Once the quota is granted, the try block goes on with the model call. */
  lemma MeteredAfterGrant(c: Caller, d: DataUrl, o: Oracles)
    requires QuotaStep(c, o).Next?
    ensures var q := QuotaStep(c, o);
            Metered(c, d, o) == After(q.effects, Completion(c, d, q.value, o))
  {
  }

  /** The try block once the upload is admitted: the quota, then the rest. */
  function Metered(c: Caller, d: DataUrl, o: Oracles): End
  {
    match QuotaStep(c, o)
    case Exit(e) => e
    case Next(v, es) => After(es, Completion(c, d, v, o))
  }

  /** The try block. */
  function Attempt(c: Caller, req: Request, o: Oracles): End
  {
    match AdmitStep(req, o)
    case Exit(e) => e
    case Next(d, _) => Metered(c, d, o)
  }

  /** A refusal of the quota stage ends the try block. */
  lemma MeteredAtRefusal(c: Caller, d: DataUrl, o: Oracles)
    requires QuotaStep(c, o).Exit?
    ensures Metered(c, d, o) == QuotaStep(c, o).end
  {
  }

  /** An upload that is not admitted ends the try block. */
  lemma AttemptAtExit(c: Caller, req: Request, o: Oracles)
    requires AdmitStep(req, o).Exit?
    ensures Attempt(c, req, o) == AdmitStep(req, o).end
  {
  }

  /** Once the upload is admitted, the try block goes on with the quota. */
  lemma AttemptAdmitted(c: Caller, req: Request, o: Oracles)
    requires AdmitStep(req, o).Next?
    ensures Attempt(c, req, o) == Metered(c, AdmitStep(req, o).value, o)
  {
  }

  /** The catch block's answer: 502 for an `UpstreamError`, 400 with the message for a
      `ValidationError`, 500 for anything else. */
  function CatchResponse(x: Exception): Response
  {
    if x.cls == UpstreamError then Response(502, ErrorBody(UpstreamFailureMessage), None)
    else if x.cls == ValidationError then Response(400, ErrorBody(x.message), None)
    else Response(500, ErrorBody(AnalysisFailedMessage), None)
  }

  /** The try block's end seen from outside: an error is logged as `error` (an insert
      failure is swallowed) and mapped to a status. */
  function Finish(c: Caller, e: End, o: Oracles): Outcome
  {
    match e
    case Stop(r, es) => Outcome(r, es)
    case Raise(x, es) => Outcome(CatchResponse(x), es + [Log(BareRow(c, Failed), o)])
  }

  /** The message of a 401: an `AuthError`'s own, anything else `Unauthorized`. */
  function UnauthorizedMessage(x: Exception): string
  {
    if x.cls == AuthError then x.message else UnauthorizedMessageDefault
  }

  /** One request, end to end. */
  function Analyze(req: Request, o: Oracles): Outcome
  {
    if req.httpMethod != "POST" then Outcome(Response(405, ErrorBody(MethodNotAllowedMessage), None), [])
    else
      match VerifyJwt(req.authorization, o.jwtVerify)
      case Err(x) => Outcome(Response(401, ErrorBody(UnauthorizedMessage(x)), None), [])
      case Ok(sub) =>
        var c := CallerOf(sub, req, o);
        Finish(c, Attempt(c, req, o), o)
  }

  /** A POST whose token passes is answered by the try block and its catch. */
  lemma AnalyzeFinish(req: Request, o: Oracles)
    requires req.httpMethod == "POST" && VerifyJwt(req.authorization, o.jwtVerify).Ok?
    ensures var c := CallerOf(VerifyJwt(req.authorization, o.jwtVerify).value, req, o);
            Analyze(req, o) == Finish(c, Attempt(c, req, o), o)
  {
  }

  /* ------------------------------------------------------------------ */
  /*  The audit table                                                    */
  /* ------------------------------------------------------------------ */

  /** The rows the inserts among `es` stored. */
  function StoredRows(es: seq<Effect>): seq<LogRow>
  {
    if es == [] then []
    else (if es[0].LogInsert? && es[0].stored then [es[0].row] else []) + StoredRows(es[1..])
  }

  lemma {:induction false} StoredRowsAppend(a: seq<Effect>, b: seq<Effect>)
    ensures StoredRows(a + b) == StoredRows(a) + StoredRows(b)
  {
    if a == [] {
      assert a + b == b;
    } else {
      var ab := a + b;
      assert ab[0] == a[0];
      assert ab[1..] == a[1..] + b;
      StoredRowsAppend(a[1..], b);
    }
  }

  /** The statuses of the rows the handler tried to insert, in order. */
  function Logged(es: seq<Effect>): seq<LogStatus>
  {
    if es == [] then []
    else (if es[0].LogInsert? then [es[0].row.status] else []) + Logged(es[1..])
  }

  lemma {:induction false} LoggedAppend(a: seq<Effect>, b: seq<Effect>)
    ensures Logged(a + b) == Logged(a) + Logged(b)
  {
    if a == [] {
      assert a + b == b;
    } else {
      var ab := a + b;
      assert ab[0] == a[0];
      assert ab[1..] == a[1..] + b;
      LoggedAppend(a[1..], b);
    }
  }

  lemma AppendAssoc<T>(a: seq<T>, b: seq<T>, c: seq<T>)
    ensures a + b + c == a + (b + c)
  {
  }

  /** Appending the element at `i` and then the rest of `t` appends `t[i..]`. */
  lemma AppendFrom<T>(a: seq<T>, t: seq<T>, i: nat)
    requires i < |t|
    ensures a + [t[i]] + t[i + 1..] == a + t[i..]
  {
    assert t[i..] == [t[i]] + t[i + 1..];
    AppendAssoc(a, [t[i]], t[i + 1..]);
  }

  class ScanService {
    /** Every call made to the outside world, in order. */
    var calls: seq<Effect>
    /** The rows stored in `scan_requests`. */
    var auditLog: seq<LogRow>

    ghost predicate Valid()
      reads this
    {
      auditLog == StoredRows(calls)
    }

    constructor ()
      ensures Valid() && calls == [] && auditLog == []
    {
      calls := [];
      auditLog := [];
    }

    /** Record a call that is not an insert. */
    method Touch(e: Effect)
      requires Valid() && !e.LogInsert?
      modifies this
      ensures Valid() && calls == old(calls) + [e] && auditLog == old(auditLog)
    {
      StoredRowsAppend(calls, [e]);
      assert StoredRows([e]) == [];
      calls := calls + [e];
    }

    /** `logRequest`: insert a row; returns the message it throws, if it throws. */
    method LogRequest(row: LogRow, o: Oracles) returns (failure: Option<string>)
      requires Valid()
      modifies this
      ensures Valid()
      ensures failure == o.insert(row)
      ensures calls == old(calls) + [Log(row, o)]
      ensures auditLog == old(auditLog) + (if failure.None? then [row] else [])
    {
      failure := o.insert(row);
      var e := LogInsert(row, failure.None?);
      StoredRowsAppend(calls, [e]);
      assert StoredRows([e]) == StoredRows([e][1..]) + (if failure.None? then [row] else []) by {
        assert [e][1..] == [];
      }
      calls := calls + [e];
      if failure.None? {
        auditLog := auditLog + [row];
      }
    }

    /** `getRateLimitSetting` and `checkRateLimit` with their own catch block. */
    method CheckQuota(c: Caller, o: Oracles) returns (s: Step<RateVerdict>)
      requires Valid()
      modifies this
      ensures Valid()
      ensures s == QuotaStep(c, o)
      ensures calls == old(calls) + StepEffects(s)
    {
      Touch(SettingRead);
      if o.setting.Throws? {
        var swallowed := LogRequest(BareRow(c, LimiterError), o);
        return Exit(Stop(Response(503, ErrorBody(UnavailableMessage), None), [SettingRead, Log(BareRow(c, LimiterError), o)]));
      }
      s := ConsultLimiter(c, o);
      AppendFrom(old(calls), StepEffects(s), 0);
    }

    /** The quota call once the setting is read; its calls after the setting read. */
    method ConsultLimiter(c: Caller, o: Oracles) returns (s: Step<RateVerdict>)
      requires Valid() && o.setting.Returns?
      modifies this
      ensures Valid()
      ensures s == QuotaStep(c, o)
      ensures |StepEffects(s)| >= 2 && StepEffects(s)[0] == SettingRead
      ensures calls == old(calls) + StepEffects(s)[1..]
    {
      var args := QuotaArgs(c, o.setting.value);
      Touch(LimiterRpc(args));
      var verdict := o.limiter(args);
      if verdict.Throws? {
        var swallowed := LogRequest(BareRow(c, LimiterError), o);
        return Exit(Stop(Response(503, ErrorBody(UnavailableMessage), None),
                         [SettingRead, LimiterRpc(args), Log(BareRow(c, LimiterError), o)]));
      }
      if verdict.value.None? {
        return Exit(Raise(Exception(TypeError, NullVerdictMessage), [SettingRead, LimiterRpc(args)]));
      }
      if verdict.value.value.allowed {
        return Next(verdict.value.value, [SettingRead, LimiterRpc(args)]);
      }
      s := RefuseScan(c, o);
      AppendFrom(old(calls), StepEffects(s), 1);
    }

    /** Over quota: the `rate_limited` row, then 429; its calls after the quota call. */
    method RefuseScan(c: Caller, o: Oracles) returns (s: Step<RateVerdict>)
      requires Valid() && o.setting.Returns?
      requires var a := o.limiter(QuotaArgs(c, o.setting.value)); a.Returns? && a.value.Some? && !a.value.value.allowed
      modifies this
      ensures Valid()
      ensures s == QuotaStep(c, o)
      ensures |StepEffects(s)| == 3 && StepEffects(s)[0] == SettingRead
      ensures StepEffects(s)[1] == LimiterRpc(QuotaArgs(c, o.setting.value))
      ensures calls == old(calls) + StepEffects(s)[2..]
    {
      var args := QuotaArgs(c, o.setting.value);
      var v := o.limiter(args).value.value;
      var row := BareRow(c, RateLimited);
      var failure := LogRequest(row, o);
      if failure.Some? {
        return Exit(Raise(Exception(GenericError, failure.value), [SettingRead, LimiterRpc(args), LogInsert(row, false)]));
      }
      return Exit(Stop(Response(429, LimitBody(LimitReachedMessage, v.subjectLimit, v.subjectCount), Some(HeadersOf(v))),
                       [SettingRead, LimiterRpc(args), LogInsert(row, true)]));
    }

    /** The model call and `normalize`. */
    method RunInference(c: Caller, d: DataUrl, o: Oracles) returns (s: Step<NutritionResult>)
      requires Valid()
      modifies this
      ensures Valid()
      ensures s == InferenceStep(c, d, o)
      ensures calls == old(calls) + [AiCall(AiRequestOf(c, d))]
    {
      var request := AiRequestOf(c, d);
      Touch(AiCall(request));
      var raw := ReplyValue(c.provider, o.ai(request), o.parseJson);
      if raw.Err? {
        return Exit(Raise(raw.error, [AiCall(request)]));
      }
      var result := NormalizeValue(raw.value);
      if result.Err? {
        return Exit(Raise(result.error, [AiCall(request)]));
      }
      return Next(result.value, [AiCall(request)]);
    }

    /** The success row and the 200 answer. */
    method RecordSuccess(c: Caller, v: RateVerdict, r: NutritionResult, o: Oracles) returns (e: End)
      requires Valid()
      modifies this
      ensures Valid()
      ensures e == SuccessStep(c, v, r, o)
      ensures calls == old(calls) + e.effects
    {
      var row := SuccessRow(c, r);
      var failure := LogRequest(row, o);
      if failure.Some? {
        return Raise(Exception(GenericError, failure.value), [LogInsert(row, false)]);
      }
      return Stop(Response(200, ResultBody(r), Some(HeadersOf(v))), [LogInsert(row, true)]);
    }

    /** The model call and the success row. */
    method Complete(c: Caller, d: DataUrl, v: RateVerdict, o: Oracles) returns (e: End)
      requires Valid()
      modifies this
      ensures Valid()
      ensures e == Completion(c, d, v, o)
      ensures calls == old(calls) + e.effects
    {
      var inference := RunInference(c, d, o);
      if inference.Exit? {
        return inference.end;
      }
      var recorded := RecordSuccess(c, v, inference.value, o);
      e := After(inference.effects, recorded);
      AppendAssoc(old(calls), inference.effects, recorded.effects);
    }

    /** The try block of `handler`: the response it sends itself, or the error it
        throws. */
    method RunAttempt(c: Caller, req: Request, o: Oracles) returns (e: End)
      requires Valid()
      modifies this
      ensures Valid()
      ensures e == Attempt(c, req, o)
      ensures calls == old(calls) + e.effects
    {
      var admitted := AdmitStep(req, o);
      if admitted.Exit? {
        return admitted.end;
      }
      e := Meter(c, admitted.value, o);
    }

    /** The quota check and, when it is granted, the rest of the try block. */
    method Meter(c: Caller, d: DataUrl, o: Oracles) returns (e: End)
      requires Valid()
      modifies this
      ensures Valid()
      ensures e == Metered(c, d, o)
      ensures calls == old(calls) + e.effects
    {
      var quota := CheckQuota(c, o);
      if quota.Exit? {
        MeteredAtRefusal(c, d, o);
        return quota.end;
      }
      var completed := Complete(c, d, quota.value, o);
      MeteredAfterGrant(c, d, o);
      e := After(quota.effects, completed);
      AppendAssoc(old(calls), quota.effects, completed.effects);
    }

    /** `handler(req, res)`: the response sent; every call made is appended to `calls`
        and every row stored to `auditLog`. */
    method Handle(req: Request, o: Oracles) returns (resp: Response)
      requires Valid()
      modifies this
      ensures Valid()
      ensures resp == Analyze(req, o).response
      ensures calls == old(calls) + Analyze(req, o).effects
      ensures auditLog == old(auditLog) + StoredRows(Analyze(req, o).effects)
    {
      if req.httpMethod != "POST" {
        return Response(405, ErrorBody(MethodNotAllowedMessage), None);
      }
      var claims := VerifyJwt(req.authorization, o.jwtVerify);
      if claims.Err? {
        return Response(401, ErrorBody(UnauthorizedMessage(claims.error)), None);
      }
      var c := CallerOf(claims.value, req, o);
      var tried := RunAttempt(c, req, o);
      ghost var out := Finish(c, tried, o);
      assert Analyze(req, o) == out;
      if tried.Stop? {
        resp := tried.response;
      } else {
        var swallowed := LogRequest(BareRow(c, Failed), o);
        resp := CatchResponse(tried.error);
        AppendAssoc(old(calls), tried.effects, [Log(BareRow(c, Failed), o)]);
      }
      StoredRowsAppend(old(calls), out.effects);
    }
  }
}
