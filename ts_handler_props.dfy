/** What the TypeScript handler promises, proved about `TsHandler.Analyze`: the statuses
    it can answer, the audit rows each answer leaves, the order of the quota and the
    model call, and what the rows and headers may contain.
    `{:induction false}` marks lemmas whose proof is written out: an induction of
    its own, or a direct argument for which Dafny's automatic induction hypotheses
    would only add solver work. */
module TsHandlerProps {
  import opened JsRuntime
  import opened Nutrition
  import opened JsonRecovery
  import opened Payload
  import opened Identity
  import opened Privacy
  import opened TsHandler

  lemma LoggedOne(x: Effect)
    ensures Logged([x]) == if x.LogInsert? then [x.row.status] else []
  {
    assert [x][1..] == [];
  }

  lemma LoggedTwo(x: Effect, y: Effect)
    ensures Logged([x, y]) == Logged([x]) + Logged([y])
  {
    assert [x, y] == [x] + [y];
    LoggedAppend([x], [y]);
  }

  lemma LoggedThree(x: Effect, y: Effect, z: Effect)
    ensures Logged([x, y, z]) == Logged([x]) + Logged([y]) + Logged([z])
  {
    assert [x, y, z] == [x, y] + [z];
    LoggedAppend([x, y], [z]);
    LoggedTwo(x, y);
  }

  /** The quota stage: what it answers and logs on each of its exits. */
  lemma {:induction false} QuotaLogs(c: Caller, o: Oracles)
    ensures var s := QuotaStep(c, o);
            && (s.Next? ==> Logged(s.effects) == [] && s.value.allowed)
            && (s.Exit? && s.end.Stop? ==>
                  (s.end.response.status == 503 && Logged(s.end.effects) == [LimiterError]
                   && s.end.response.rateHeaders.None?)
                  || (s.end.response.status == 429 && Logged(s.end.effects) == [RateLimited]
                      && s.end.response.rateHeaders.Some?))
            && (s.Exit? && s.end.Raise? ==>
                  s.end.error.cls in {TypeError, GenericError}
                  && (Logged(s.end.effects) == [] || Logged(s.end.effects) == [RateLimited]))
  {
    var lim := Log(BareRow(c, LimiterError), o);
    LoggedOne(SettingRead);
    LoggedOne(lim);
    match o.setting
    case Throws(_) =>
      LoggedTwo(SettingRead, lim);
    case Returns(stored) =>
      var args := QuotaArgs(c, stored);
      LoggedOne(LimiterRpc(args));
      match o.limiter(args)
      case Throws(_) =>
        LoggedThree(SettingRead, LimiterRpc(args), lim);
      case Returns(None) =>
        LoggedTwo(SettingRead, LimiterRpc(args));
      case Returns(Some(v)) =>
        if v.allowed {
          LoggedTwo(SettingRead, LimiterRpc(args));
        } else {
          var row := BareRow(c, RateLimited);
          var e := LogInsert(row, o.insert(row).None?);
          LoggedOne(e);
          LoggedThree(SettingRead, LimiterRpc(args), e);
        }
  }

  /** The stage after a granted quota: 200 with the `success` row, or an error thrown
      before that row (nothing logged) or by its insert. */
  lemma {:induction false} CompletionLogs(c: Caller, d: DataUrl, v: RateVerdict, o: Oracles)
    ensures var e := Completion(c, d, v, o);
            && (e.Stop? ==> e.response.status == 200 && Logged(e.effects) == [Success]
                            && e.response.rateHeaders == Some(HeadersOf(v)))
            && (e.Raise? ==> Logged(e.effects) == []
                             || (Logged(e.effects) == [Success] && e.error.cls == GenericError))
  {
    var request := AiRequestOf(c, d);
    LoggedOne(AiCall(request));
    match InferenceStep(c, d, o)
    case Exit(_) =>
    case Next(r, es) =>
      var row := SuccessRow(c, r);
      LoggedOne(LogInsert(row, false));
      LoggedOne(LogInsert(row, true));
      LoggedTwo(AiCall(request), LogInsert(row, false));
      LoggedTwo(AiCall(request), LogInsert(row, true));
  }

  /** The try block from the quota on. */
  lemma {:induction false} MeteredLogs(c: Caller, d: DataUrl, o: Oracles)
    ensures var e := Metered(c, d, o);
            && (e.Stop? ==> e.response.status in {200, 429, 503})
            && (e.Stop? ==> (e.response.rateHeaders.Some? <==> e.response.status in {200, 429}))
            && (e.Stop? && e.response.status == 503 ==> Logged(e.effects) == [LimiterError])
            && (e.Stop? && e.response.status == 429 ==> Logged(e.effects) == [RateLimited])
            && (e.Stop? && e.response.status == 200 ==> Logged(e.effects) == [Success])
            && (e.Raise? ==> Logged(e.effects) == [] || Logged(e.effects) == [RateLimited]
                             || Logged(e.effects) == [Success])
            && (e.Raise? && e.error.cls in {UpstreamError, ValidationError} ==> Logged(e.effects) == [])
  {
    QuotaLogs(c, o);
    match QuotaStep(c, o)
    case Exit(_) =>
    case Next(v, es) =>
      CompletionLogs(c, d, v, o);
      LoggedAppend(es, Completion(c, d, v, o).effects);
  }

  /** The try block: the answers it sends itself and the rows behind them. */
  lemma {:induction false} AttemptLogs(c: Caller, req: Request, o: Oracles)
    ensures var e := Attempt(c, req, o);
            && (e.Stop? ==> e.response.status in {200, 400, 413, 429, 503})
            && (e.Stop? ==> (e.response.rateHeaders.Some? <==> e.response.status in {200, 429}))
            && (e.Stop? && e.response.status in {400, 413} ==> e.effects == [] && e.response.body.ValidationBody? == (e.response.status == 400))
            && (e.Stop? && e.response.status == 503 ==> Logged(e.effects) == [LimiterError])
            && (e.Stop? && e.response.status == 429 ==> Logged(e.effects) == [RateLimited])
            && (e.Stop? && e.response.status == 200 ==> Logged(e.effects) == [Success])
            && (e.Raise? ==> Logged(e.effects) == [] || Logged(e.effects) == [RateLimited]
                             || Logged(e.effects) == [Success])
            && (e.Raise? && e.error.cls in {UpstreamError, ValidationError} ==> Logged(e.effects) == [])
  {
    match AdmitStep(req, o)
    case Exit(_) =>
      assert Logged([]) == [];
    case Next(d, _) =>
      MeteredLogs(c, d, o);
  }

  /* ------------------------------------------------------------------ */
  /*  Statuses and audit rows                                            */
  /* ------------------------------------------------------------------ */

  /** The statuses the handler answers with, and the rows it tries to insert behind
      each: none before the quota stage, one per quota answer and per success, and an
      `error` row after whatever the try block logged when it throws. */
  lemma {:induction false} LogTable(req: Request, o: Oracles)
    ensures var out := Analyze(req, o);
            var st, logged := out.response.status, Logged(out.effects);
            && st in {200, 400, 401, 405, 413, 429, 500, 502, 503}
            && (st in {401, 405, 413} ==> out.effects == [])
            && (st == 400 ==> (logged == [] <==> out.response.body.ValidationBody?)
                              && (logged == [] || logged == [Failed]))
            && (st == 503 ==> logged == [LimiterError])
            && (st == 429 ==> logged == [RateLimited])
            && (st == 200 ==> logged == [Success])
            && (st == 502 ==> logged == [Failed])
            && (st == 500 ==> logged == [Failed] || logged == [RateLimited, Failed] || logged == [Success, Failed])
  {
    if req.httpMethod == "POST" && VerifyJwt(req.authorization, o.jwtVerify).Ok? {
      var c := CallerOf(VerifyJwt(req.authorization, o.jwtVerify).value, req, o);
      var e := Attempt(c, req, o);
      AttemptLogs(c, req, o);
      AnalyzeFinish(req, o);
      if e.Raise? {
        var row := Log(BareRow(c, Failed), o);
        LoggedAppend(e.effects, [row]);
        LoggedOne(row);
      }
    } else {
      assert Logged([]) == [];
    }
  }

  /** A method other than POST is answered 405 before the token is looked at; for a
      POST, 401 is answered exactly when the token check throws, with the `AuthError`'s
      own message, and neither leaves a trace. */
  lemma {:induction false} EarlyExits(req: Request, o: Oracles)
    ensures req.httpMethod != "POST" ==>
              Analyze(req, o) == Outcome(Response(405, ErrorBody(MethodNotAllowedMessage), None), [])
    ensures req.httpMethod == "POST" ==>
              (Analyze(req, o).response.status == 401 <==> VerifyJwt(req.authorization, o.jwtVerify).Err?)
    ensures var v := VerifyJwt(req.authorization, o.jwtVerify);
            req.httpMethod == "POST" && v.Err? ==>
              Analyze(req, o) == Outcome(Response(401, ErrorBody(UnauthorizedMessage(v.error)), None), [])
  {
    if req.httpMethod == "POST" && VerifyJwt(req.authorization, o.jwtVerify).Ok? {
      var c := CallerOf(VerifyJwt(req.authorization, o.jwtVerify).value, req, o);
      AttemptLogs(c, req, o);
    }
  }

  /** A header without `Bearer `, a role other than `authenticated` or an empty
      subject is answered 401 with no call made and no row written. */
  lemma RejectedTokens(req: Request, o: Oracles)
    requires req.httpMethod == "POST"
    requires !WellFormedHeader(req.authorization) || !Admits(o.jwtVerify(req.authorization.value[7..]))
    ensures Analyze(req, o).response.status == 401 && Analyze(req, o).effects == []
  {
    EarlyExits(req, o);
  }

  /* ------------------------------------------------------------------ */
  /*  Order of the calls and what they carry                             */
  /* ------------------------------------------------------------------ */

  predicate Granted(answer: Call<Option<RateVerdict>>)
  {
    answer.Returns? && answer.value.Some? && answer.value.value.allowed
  }

  /** Every row carries the caller's hashes and the model name, never the subject. */
  ghost predicate HashedRows(c: Caller, es: seq<Effect>)
  {
    forall k :: 0 <= k < |es| && es[k].LogInsert? ==>
      es[k].row.subjectHash == c.subjectHash && es[k].row.ipPrefixHash == c.ipPrefixHash && es[k].row.model == c.model
  }

  /** Every quota call carries the caller, the stored limit or 5, and 20. */
  ghost predicate QuotaCalls(c: Caller, o: Oracles, es: seq<Effect>)
  {
    forall k :: 0 <= k < |es| && es[k].LimiterRpc? ==>
      o.setting.Returns? && es[k].args == QuotaArgs(c, o.setting.value)
  }

  /** A model call comes third, after the setting read and a granting quota call. */
  ghost predicate ModelAfterGrant(o: Oracles, es: seq<Effect>)
  {
    forall j :: 0 <= j < |es| && es[j].AiCall? ==>
      j == 2 && es[0] == SettingRead && es[1].LimiterRpc? && Granted(o.limiter(es[1].args))
  }

  ghost predicate Disciplined(c: Caller, o: Oracles, es: seq<Effect>)
  {
    HashedRows(c, es) && QuotaCalls(c, o, es) && ModelAfterGrant(o, es)
  }

  /** Appending inserts of the caller's rows keeps the discipline. */
  lemma {:induction false} DisciplinedAppend(c: Caller, o: Oracles, es: seq<Effect>, tail: seq<Effect>)
    requires Disciplined(c, o, es)
    requires forall k :: 0 <= k < |tail| ==> tail[k].LogInsert?
    requires HashedRows(c, tail)
    ensures Disciplined(c, o, es + tail)
  {
    var all := es + tail;
    forall k | |es| <= k < |all|
      ensures all[k] == tail[k - |es|]
    {
    }
  }

  lemma {:induction false} QuotaDisciplined(c: Caller, o: Oracles)
    ensures var s := QuotaStep(c, o);
            && (s.Exit? ==> Disciplined(c, o, s.end.effects))
            && (s.Next? ==> o.setting.Returns?
                            && s.effects == [SettingRead, LimiterRpc(QuotaArgs(c, o.setting.value))]
                            && Granted(o.limiter(QuotaArgs(c, o.setting.value))))
  {
  }

  lemma {:induction false} CompletionDisciplined(c: Caller, d: DataUrl, v: RateVerdict, o: Oracles)
    ensures var e := Completion(c, d, v, o);
            && |e.effects| >= 1 && e.effects[0].AiCall?
            && (forall k :: 1 <= k < |e.effects| ==> e.effects[k].LogInsert?)
            && HashedRows(c, e.effects)
  {
    match InferenceStep(c, d, o)
    case Exit(e) =>
      assert e.effects == [AiCall(AiRequestOf(c, d))];
    case Next(r, es) =>
      var row := SuccessRow(c, r);
      var f := SuccessStep(c, v, r, o);
      assert f.effects == [LogInsert(row, o.insert(row).None?)];
      assert Completion(c, d, v, o).effects == [AiCall(AiRequestOf(c, d)), LogInsert(row, o.insert(row).None?)];
  }

  lemma {:induction false} MeteredDisciplined(c: Caller, d: DataUrl, o: Oracles)
    ensures Disciplined(c, o, Metered(c, d, o).effects)
  {
    QuotaDisciplined(c, o);
    match QuotaStep(c, o)
    case Exit(_) =>
    case Next(v, es) =>
      CompletionDisciplined(c, d, v, o);
      var tail := Completion(c, d, v, o).effects;
      GrantedThenModel(c, o, es, tail);
      assert Metered(c, d, o).effects == es + tail;
  }

  /** A granted quota stage followed by one model call and the caller's rows keeps the
      discipline. */
  lemma {:induction false} GrantedThenModel(c: Caller, o: Oracles, es: seq<Effect>, tail: seq<Effect>)
    requires o.setting.Returns? && es == [SettingRead, LimiterRpc(QuotaArgs(c, o.setting.value))]
    requires Granted(o.limiter(QuotaArgs(c, o.setting.value)))
    requires |tail| >= 1 && tail[0].AiCall? && forall k :: 1 <= k < |tail| ==> tail[k].LogInsert?
    requires HashedRows(c, tail)
    ensures Disciplined(c, o, es + tail)
  {
    var all := es + tail;
    forall k | 0 <= k < |all|
      ensures k >= 2 ==> all[k] == tail[k - 2]
      ensures k < 2 ==> all[k] == es[k]
    {
    }
  }

  lemma {:induction false} AnalyzeDisciplined(req: Request, o: Oracles)
    ensures var v := VerifyJwt(req.authorization, o.jwtVerify);
            if req.httpMethod == "POST" && v.Ok?
            then Disciplined(CallerOf(v.value, req, o), o, Analyze(req, o).effects)
            else Analyze(req, o).effects == []
  {
    var v := VerifyJwt(req.authorization, o.jwtVerify);
    if req.httpMethod == "POST" && v.Ok? {
      var c := CallerOf(v.value, req, o);
      var e := Attempt(c, req, o);
      AttemptDisciplined(c, req, o);
      assert Analyze(req, o) == Finish(c, e, o);
      if e.Raise? {
        DisciplinedAppend(c, o, e.effects, [Log(BareRow(c, Failed), o)]);
      }
    }
  }

  /** The try block keeps the discipline on every path. */
  lemma {:induction false} AttemptDisciplined(c: Caller, req: Request, o: Oracles)
    ensures Disciplined(c, o, Attempt(c, req, o).effects)
  {
    match AdmitStep(req, o)
    case Exit(_) =>
    case Next(d, _) =>
      AttemptAdmitted(c, req, o);
      MeteredDisciplined(c, d, o);
  }

  /** The quota is consumed before the model is called: a model call is always the third
      call, after the setting read and a quota call that granted the scan. */
  lemma QuotaBeforeModel(req: Request, o: Oracles)
    ensures var es := Analyze(req, o).effects;
            forall j :: 0 <= j < |es| && es[j].AiCall? ==>
              j == 2 && es[0] == SettingRead && es[1].LimiterRpc? && Granted(o.limiter(es[1].args))
  {
    AnalyzeDisciplined(req, o);
  }

  /** The quota call names the verified subject and the hashed network prefix, asks for
      the stored daily limit or 5 when none is stored, and for 20 per network. */
  lemma QuotaArguments(req: Request, o: Oracles)
    ensures var es := Analyze(req, o).effects;
            var v := VerifyJwt(req.authorization, o.jwtVerify);
            forall k :: 0 <= k < |es| && es[k].LimiterRpc? ==>
              && v.Ok? && o.setting.Returns?
              && es[k].args.subject == v.value
              && es[k].args.ipPrefixHash == o.sha256(ExtractIpPrefix(ClientIp(req.forwardedFor, req.remoteAddress)))
              && es[k].args.subjectLimit == o.setting.value.GetOr(DefaultDailyLimit)
              && es[k].args.ipLimit == NetworkDailyLimit
  {
    AnalyzeDisciplined(req, o);
  }

  /** Audit rows identify the caller only through hashes: of the subject and of the
      coarse network prefix. */
  lemma RowsCarryOnlyHashes(req: Request, o: Oracles)
    ensures var es := Analyze(req, o).effects;
            var v := VerifyJwt(req.authorization, o.jwtVerify);
            forall k :: 0 <= k < |es| && es[k].LogInsert? ==>
              && v.Ok?
              && es[k].row.subjectHash == o.sha256(v.value)
              && es[k].row.ipPrefixHash == o.sha256(ExtractIpPrefix(ClientIp(req.forwardedFor, req.remoteAddress)))
  {
    AnalyzeDisciplined(req, o);
  }

  /* ------------------------------------------------------------------ */
  /*  Paths through the try block                                        */
  /* ------------------------------------------------------------------ */

  /** A POST whose token the check admits. */
  predicate Authorized(req: Request, o: Oracles)
  {
    req.httpMethod == "POST" && VerifyJwt(req.authorization, o.jwtVerify).Ok?
  }

  function CallerFor(req: Request, o: Oracles): Caller
    requires Authorized(req, o)
  {
    CallerOf(VerifyJwt(req.authorization, o.jwtVerify).value, req, o)
  }

  /** An admitted upload: the body parses, the schema passes, the data URL is allowed
      and not too large. */
  predicate Admitted(req: Request, o: Oracles)
  {
    Authorized(req, o) && AdmitStep(req, o).Next?
  }

  /** The quota answer for an admitted upload, when the setting could be read. */
  function QuotaAnswer(req: Request, o: Oracles): Call<Option<RateVerdict>>
    requires Authorized(req, o) && o.setting.Returns?
  {
    o.limiter(QuotaArgs(CallerFor(req, o), o.setting.value))
  }

  /** A body that is not JSON is thrown to the catch block: 500 after an `error` row. */
  lemma MalformedBodyIs500(req: Request, o: Oracles)
    requires Authorized(req, o) && o.parseJson(req.body).Unparsable?
    ensures Analyze(req, o).response == Response(500, ErrorBody(AnalysisFailedMessage), None)
    ensures Logged(Analyze(req, o).effects) == [Failed]
  {
    LoggedOne(Log(BareRow(CallerFor(req, o), Failed), o));
  }

  /** A well-formed data URL of a type outside the allow-list (image/gif, say) is
      thrown as a `ValidationError`: 400 with its message after an `error` row, and
      neither the quota nor the model is called. */
  lemma {:induction false} UnsupportedImageRefused(req: Request, o: Oracles, image: string)
    requires Authorized(req, o) && o.parseJson(req.body).Parsed?
    requires o.schema(o.parseJson(req.body).value) == SchemaPassed(image)
    requires MatchStrict(image).Some? && MatchStrict(image).value.mimeType !in AllowedMime
    ensures var out := Analyze(req, o);
            && out.response == Response(400, ErrorBody(UnsupportedMessage(MatchStrict(image).value.mimeType)), None)
            && Logged(out.effects) == [Failed]
            && forall k :: 0 <= k < |out.effects| ==> !out.effects[k].LimiterRpc? && !out.effects[k].AiCall?
  {
    UnsupportedOutcome(req, o, image);
    LoggedOne(Log(BareRow(CallerFor(req, o), Failed), o));
  }

  /** The whole outcome of such a request: the catch block's answer to the
      `ValidationError` and its `error` row. */
  lemma {:induction false} UnsupportedOutcome(req: Request, o: Oracles, image: string)
    requires Authorized(req, o) && o.parseJson(req.body).Parsed?
    requires o.schema(o.parseJson(req.body).value) == SchemaPassed(image)
    requires MatchStrict(image).Some? && MatchStrict(image).value.mimeType !in AllowedMime
    ensures Analyze(req, o) == Outcome(
              CatchResponse(Exception(ValidationError, UnsupportedMessage(MatchStrict(image).value.mimeType))),
              [Log(BareRow(CallerFor(req, o), Failed), o)])
  {
    var c := CallerFor(req, o);
    var x := Exception(ValidationError, UnsupportedMessage(MatchStrict(image).value.mimeType));
    assert ParseDataUrl(image) == Err(x);
    assert AdmitStep(req, o) == Exit(Raise(x, []));
    AttemptAtExit(c, req, o);
    AnalyzeFinish(req, o);
  }

  lemma GifRefused(req: Request, o: Oracles, base64: string)
    requires Authorized(req, o) && o.parseJson(req.body).Parsed?
    requires o.schema(o.parseJson(req.body).value) == SchemaPassed(Format("image/gif", base64))
    requires base64 != []
    ensures var out := Analyze(req, o);
            && out.response == Response(400, ErrorBody(UnsupportedMessage("image/gif")), None)
            && forall k :: 0 <= k < |out.effects| ==> !out.effects[k].AiCall?
  {
    var image := Format("image/gif", base64);
    MatchStrictFormatted("image/gif", base64);
    assert "image/gif" !in AllowedMime;
    UnsupportedImageRefused(req, o, image);
  }

  /** More than 4 MiB of base64 (more than 3 MiB decoded) is answered 413 before any
      call and without a row. */
  lemma OversizedUploadIs413(req: Request, o: Oracles, image: string)
    requires Authorized(req, o) && o.parseJson(req.body).Parsed?
    requires o.schema(o.parseJson(req.body).value) == SchemaPassed(image)
    requires ParseDataUrl(image).Ok? && |ParseDataUrl(image).value.base64| > 4 * 1024 * 1024
    ensures Analyze(req, o) == Outcome(Response(413, ErrorBody(TooLargeMessage), None), [])
  {
    TooLargeThreshold(ParseDataUrl(image).value.base64);
  }

  /** A body that fails the schema is answered 400 with the issues found, before any
      call and without a row. */
  lemma SchemaFailureIs400(req: Request, o: Oracles, issues: seq<string>)
    requires Authorized(req, o) && o.parseJson(req.body).Parsed?
    requires o.schema(o.parseJson(req.body).value) == SchemaFailed(issues)
    ensures Analyze(req, o) == Outcome(Response(400, ValidationBody(ValidationFailedMessage, issues), None), [])
  {
    AttemptAtExit(CallerFor(req, o), req, o);
    AnalyzeAuthorized(req, o);
  }

  /** At most 4 MiB of base64 (at most 3 MiB decoded) of an allowed type passes the
      size guard: the upload goes on to the quota as parsed. */
  lemma WithinCapAdmitted(req: Request, o: Oracles, image: string)
    requires Authorized(req, o) && o.parseJson(req.body).Parsed?
    requires o.schema(o.parseJson(req.body).value) == SchemaPassed(image)
    requires ParseDataUrl(image).Ok? && |ParseDataUrl(image).value.base64| <= 4 * 1024 * 1024
    ensures Admitted(req, o) && AdmitStep(req, o).value == ParseDataUrl(image).value
  {
    TooLargeThreshold(ParseDataUrl(image).value.base64);
  }

  /** When the setting read or the quota call fails the answer is 503 after a
      `limiter_error` row, whatever the insert does: its failure is swallowed. */
  lemma LimiterOutageIs503(req: Request, o: Oracles)
    requires Admitted(req, o)
    requires o.setting.Throws? || QuotaAnswer(req, o).Throws?
    ensures Analyze(req, o).response == Response(503, ErrorBody(UnavailableMessage), None)
    ensures Logged(Analyze(req, o).effects) == [LimiterError]
  {
    QuotaLogs(CallerFor(req, o), o);
  }

  /** For an authorized request the outcome is the try block's, with an `error` row
      appended when it throws. */
  lemma {:induction false} AnalyzeAuthorized(req: Request, o: Oracles)
    requires Authorized(req, o)
    ensures var e := Attempt(CallerFor(req, o), req, o);
            && (e.Stop? ==> Analyze(req, o) == Outcome(e.response, e.effects))
            && (e.Raise? ==> Analyze(req, o).response == CatchResponse(e.error)
                             && Logged(Analyze(req, o).effects) == Logged(e.effects) + [Failed])
  {
    var c := CallerFor(req, o);
    var e := Attempt(c, req, o);
    if e.Raise? {
      var fail := Log(BareRow(c, Failed), o);
      LoggedAppend(e.effects, [fail]);
      LoggedOne(fail);
    }
  }

  /** The quota stage on a refusal. */
  lemma {:induction false} QuotaRefusal(c: Caller, o: Oracles)
    requires o.setting.Returns?
    requires var a := o.limiter(QuotaArgs(c, o.setting.value)); a.Returns? && a.value.Some? && !a.value.value.allowed
    ensures var w := o.limiter(QuotaArgs(c, o.setting.value)).value.value;
            var s := QuotaStep(c, o);
            && s.Exit?
            && (o.insert(BareRow(c, RateLimited)).None? ==>
                  s.end.Stop? && Logged(s.end.effects) == [RateLimited]
                  && s.end.response == Response(429, LimitBody(LimitReachedMessage, w.subjectLimit, w.subjectCount), Some(HeadersOf(w))))
            && (o.insert(BareRow(c, RateLimited)).Some? ==>
                  s.end.Raise? && s.end.error.cls == GenericError && Logged(s.end.effects) == [RateLimited])
  {
    var args := QuotaArgs(c, o.setting.value);
    var row := BareRow(c, RateLimited);
    LoggedOne(SettingRead);
    LoggedOne(LimiterRpc(args));
    LoggedOne(LogInsert(row, false));
    LoggedOne(LogInsert(row, true));
    LoggedThree(SettingRead, LimiterRpc(args), LogInsert(row, false));
    LoggedThree(SettingRead, LimiterRpc(args), LogInsert(row, true));
  }

  /** A refused scan is answered 429 with the limit and the count, but only if its
      `rate_limited` row is stored: an insert that throws is not swallowed, and the
      request ends as 500 after a second, `error`, row. */
  lemma {:induction false} RefusedScan(req: Request, o: Oracles)
    requires Admitted(req, o) && o.setting.Returns?
    requires QuotaAnswer(req, o).Returns? && QuotaAnswer(req, o).value.Some?
    requires !QuotaAnswer(req, o).value.value.allowed
    ensures var w := QuotaAnswer(req, o).value.value;
            o.insert(BareRow(CallerFor(req, o), RateLimited)).None? ==>
              && Analyze(req, o).response
                 == Response(429, LimitBody(LimitReachedMessage, w.subjectLimit, w.subjectCount), Some(HeadersOf(w)))
              && Logged(Analyze(req, o).effects) == [RateLimited]
    ensures o.insert(BareRow(CallerFor(req, o), RateLimited)).Some? ==>
              && Analyze(req, o).response == Response(500, ErrorBody(AnalysisFailedMessage), None)
              && Logged(Analyze(req, o).effects) == [RateLimited, Failed]
  {
    if o.insert(BareRow(CallerFor(req, o), RateLimited)).None? {
      RefusalStored(req, o);
    } else {
      RefusalThrown(req, o);
    }
  }

  /** The try block of a refused scan ends where the quota stage does. */
  lemma {:induction false} AttemptAtRefusal(req: Request, o: Oracles)
    requires Admitted(req, o) && o.setting.Returns?
    requires QuotaAnswer(req, o).Returns? && QuotaAnswer(req, o).value.Some?
    requires !QuotaAnswer(req, o).value.value.allowed
    ensures QuotaStep(CallerFor(req, o), o).Exit?
    ensures Attempt(CallerFor(req, o), req, o) == QuotaStep(CallerFor(req, o), o).end
  {
    var c := CallerFor(req, o);
    QuotaRefusal(c, o);
    AttemptAdmitted(c, req, o);
    MeteredAtRefusal(c, AdmitStep(req, o).value, o);
  }

  /** `RefusedScan` when the `rate_limited` row is stored. */
  lemma {:induction false} RefusalStored(req: Request, o: Oracles)
    requires Admitted(req, o) && o.setting.Returns?
    requires QuotaAnswer(req, o).Returns? && QuotaAnswer(req, o).value.Some?
    requires !QuotaAnswer(req, o).value.value.allowed
    requires o.insert(BareRow(CallerFor(req, o), RateLimited)).None?
    ensures var w := QuotaAnswer(req, o).value.value;
            && Analyze(req, o).response
               == Response(429, LimitBody(LimitReachedMessage, w.subjectLimit, w.subjectCount), Some(HeadersOf(w)))
            && Logged(Analyze(req, o).effects) == [RateLimited]
  {
    var c := CallerFor(req, o);
    QuotaRefusal(c, o);
    AttemptAtRefusal(req, o);
    AnalyzeAuthorized(req, o);
  }

  /** `RefusedScan` when the `rate_limited` insert throws. */
  lemma {:induction false} RefusalThrown(req: Request, o: Oracles)
    requires Admitted(req, o) && o.setting.Returns?
    requires QuotaAnswer(req, o).Returns? && QuotaAnswer(req, o).value.Some?
    requires !QuotaAnswer(req, o).value.value.allowed
    requires o.insert(BareRow(CallerFor(req, o), RateLimited)).Some?
    ensures Analyze(req, o).response == Response(500, ErrorBody(AnalysisFailedMessage), None)
    ensures Logged(Analyze(req, o).effects) == [RateLimited, Failed]
  {
    var c := CallerFor(req, o);
    QuotaRefusal(c, o);
    AttemptAtRefusal(req, o);
    AnalyzeAuthorized(req, o);
  }

  /** The reply the model gave for an admitted, granted upload. */
  function ModelReply(req: Request, o: Oracles): AiReply
    requires Admitted(req, o)
  {
    o.ai(AiRequestOf(CallerFor(req, o), AdmitStep(req, o).value))
  }

  /** The errors of the model call and of `normalize`, by the reply. */
  lemma {:induction false} InferenceErrors(c: Caller, d: DataUrl, o: Oracles)
    ensures var reply, s := o.ai(AiRequestOf(c, d)), InferenceStep(c, d, o);
            && (reply.NotOk? || reply == Answered("") ==> s.Exit? && s.end.error.cls == UpstreamError)
            && (reply.Threw? ==> s.Exit? && s.end.error == reply.error)
            && (reply.Answered? && reply.text != [] && ExtractJson(o.parseJson, reply.text).Err? ==>
                  s.Exit? && s.end.error.cls in {GenericError, SyntaxError})
            && (reply.Answered? && reply.text != [] && ExtractJson(o.parseJson, reply.text) == Ok(Null) ==>
                  s.Exit? && s.end.error.cls == TypeError)
            && (reply.Answered? && reply.text != [] && ExtractJson(o.parseJson, reply.text).Ok?
                && NormalizeThrows(ExtractJson(o.parseJson, reply.text).value) ==>
                  s.Exit? && s.end.error == ToPrimitiveError)
  {
  }

  /** After a granted quota, a failing model call throws with nothing logged yet. */
  lemma {:induction false} GrantedThenFailed(c: Caller, d: DataUrl, o: Oracles)
    requires QuotaStep(c, o).Next? && InferenceStep(c, d, o).Exit?
    ensures Metered(c, d, o).Raise?
    ensures Metered(c, d, o).error == InferenceStep(c, d, o).end.error
    ensures Logged(Metered(c, d, o).effects) == []
  {
    var es := QuotaStep(c, o).effects;
    QuotaLogs(c, o);
    var call := AiCall(AiRequestOf(c, d));
    LoggedOne(call);
    LoggedAppend(es, [call]);
  }

  /** What goes wrong after the quota is granted: a non-2xx status or an empty text is
      an `UpstreamError` (502); a thrown timeout or network error, text that holds no
      JSON, a JSON `null` and a reply that `normalize` cannot convert are other errors
      (500); each after one `error` row. */
  lemma {:induction false} ModelFailures(req: Request, o: Oracles)
    requires Admitted(req, o) && QuotaStep(CallerFor(req, o), o).Next?
    ensures var reply := ModelReply(req, o);
            reply.NotOk? || reply == Answered("") ==>
              Analyze(req, o).response == Response(502, ErrorBody(UpstreamFailureMessage), None)
    ensures var reply := ModelReply(req, o);
            reply.Threw? && reply.error.cls !in {UpstreamError, ValidationError} ==>
              Analyze(req, o).response == Response(500, ErrorBody(AnalysisFailedMessage), None)
    ensures var reply := ModelReply(req, o);
            reply.Answered? && reply.text != [] && ExtractJson(o.parseJson, reply.text).Err? ==>
              Analyze(req, o).response == Response(500, ErrorBody(AnalysisFailedMessage), None)
    ensures var reply := ModelReply(req, o);
            reply.Answered? && reply.text != [] && ExtractJson(o.parseJson, reply.text) == Ok(Null) ==>
              Analyze(req, o).response == Response(500, ErrorBody(AnalysisFailedMessage), None)
    ensures var reply := ModelReply(req, o);
            reply.Answered? && reply.text != [] && ExtractJson(o.parseJson, reply.text).Ok?
            && NormalizeThrows(ExtractJson(o.parseJson, reply.text).value) ==>
              Analyze(req, o).response == Response(500, ErrorBody(AnalysisFailedMessage), None)
    ensures InferenceStep(CallerFor(req, o), AdmitStep(req, o).value, o).Exit? ==>
              Logged(Analyze(req, o).effects) == [Failed]
  {
    var c := CallerFor(req, o);
    var d := AdmitStep(req, o).value;
    InferenceErrors(c, d, o);
    if InferenceStep(c, d, o).Exit? {
      GrantedThenFailed(c, d, o);
      AttemptAdmitted(c, req, o);
      AnalyzeAuthorized(req, o);
    }
  }

  /* ------------------------------------------------------------------ */
  /*  Success and the rate headers                                       */
  /* ------------------------------------------------------------------ */

  /** The success stage: the answer carries the normalised model output, and the row
      its calories and confidence. */
  lemma {:induction false} CompletionSuccess(c: Caller, d: DataUrl, v: RateVerdict, o: Oracles)
    requires Completion(c, d, v, o).Stop?
    ensures var e := Completion(c, d, v, o);
            var rv := ReplyValue(c.provider, o.ai(AiRequestOf(c, d)), o.parseJson);
            && rv.Ok? && e.response.body.ResultBody?
            && NormalizeValue(rv.value) == Ok(e.response.body.result)
            && e.effects == [AiCall(AiRequestOf(c, d)), LogInsert(SuccessRow(c, e.response.body.result), true)]
  {
  }

  /** A run whose quota is granted, whose model reply normalises and whose `success`
      row is stored is answered 200 with the normalised record and the verdict's
      headers, after the setting read, the quota call, the model call and that row. */
  lemma {:induction false} SuccessIs200(req: Request, o: Oracles)
    requires Admitted(req, o) && QuotaStep(CallerFor(req, o), o).Next?
    requires InferenceStep(CallerFor(req, o), AdmitStep(req, o).value, o).Next?
    requires var c := CallerFor(req, o);
             o.insert(SuccessRow(c, InferenceStep(c, AdmitStep(req, o).value, o).value)).None?
    ensures var c, d := CallerFor(req, o), AdmitStep(req, o).value;
            var q, r := QuotaStep(c, o), InferenceStep(c, d, o).value;
            Analyze(req, o) == Outcome(Response(200, ResultBody(r), Some(HeadersOf(q.value))),
                                       q.effects + [AiCall(AiRequestOf(c, d)), LogInsert(SuccessRow(c, r), true)])
  {
    var c, d := CallerFor(req, o), AdmitStep(req, o).value;
    AttemptAdmitted(c, req, o);
    MeteredAfterGrant(c, d, o);
    AnalyzeAuthorized(req, o);
  }

  /** A 200 comes from the quota stage granting and the completion succeeding. */
  lemma {:induction false} Metered200(c: Caller, d: DataUrl, o: Oracles)
    requires Metered(c, d, o).Stop? && Metered(c, d, o).response.status == 200
    ensures QuotaStep(c, o).Next?
    ensures var q := QuotaStep(c, o);
            var f := Completion(c, d, q.value, o);
            && f.Stop? && Metered(c, d, o).response == f.response
            && Metered(c, d, o).effects == q.effects + f.effects
  {
    QuotaLogs(c, o);
  }

  /** A 200 comes from an authorized request whose upload was admitted. */
  lemma {:induction false} Analyze200(req: Request, o: Oracles)
    requires Analyze(req, o).response.status == 200
    ensures Admitted(req, o)
    ensures var m := Metered(CallerFor(req, o), AdmitStep(req, o).value, o);
            m.Stop? && Analyze(req, o) == Outcome(m.response, m.effects)
  {
    EarlyExits(req, o);
    var c := CallerFor(req, o);
    AttemptLogs(c, req, o);
    AnalyzeAuthorized(req, o);
  }

  /** The numbers a normalised record can hold. */
  predicate Bounded(r: NutritionResult)
  {
    && r.calories >= 0 && r.protein >= 0 && r.carbs >= 0 && r.fats >= 0 && r.healthScore >= 0
    && 0.0 <= r.confidence <= 1.0
  }

  /** A 200 carries the normalised model output, whose figures are bounded; the four
      calls behind it are the setting read, the granting quota call, the model call and
      the stored `success` row with the same calories and confidence. */
  lemma {:induction false} SuccessRecordsResult(req: Request, o: Oracles)
    requires Analyze(req, o).response.status == 200
    ensures var out := Analyze(req, o);
            && out.response.body.ResultBody? && Bounded(out.response.body.result)
            && |out.effects| == 4 && out.effects[1].LimiterRpc? && Granted(o.limiter(out.effects[1].args))
            && out.effects[2].AiCall?
            && (var rv := ReplyValue(ProviderOf(o.providerEnv), o.ai(out.effects[2].request), o.parseJson);
                rv.Ok? && NormalizeValue(rv.value) == Ok(out.response.body.result))
            && out.effects[3].LogInsert? && out.effects[3].stored && out.effects[3].row.status == Success
            && out.effects[3].row.calories == Some(out.response.body.result.calories)
            && out.effects[3].row.confidence == Some(out.response.body.result.confidence)
  {
    Analyze200(req, o);
    var c := CallerFor(req, o);
    var d := AdmitStep(req, o).value;
    Metered200(c, d, o);
    var q := QuotaStep(c, o);
    QuotaDisciplined(c, o);
    CompletionSuccess(c, d, q.value, o);
    var out := Analyze(req, o);
    var rv := ReplyValue(c.provider, o.ai(AiRequestOf(c, d)), o.parseJson);
    NormalizedBounded(rv.value, out.response.body.result);
  }

  /** The completion when the `success` insert throws. */
  lemma {:induction false} CompletionLogFailure(c: Caller, d: DataUrl, v: RateVerdict, o: Oracles)
    requires var s := InferenceStep(c, d, o); s.Next? && o.insert(SuccessRow(c, s.value)).Some?
    ensures var f := Completion(c, d, v, o);
            f.Raise? && f.error.cls == GenericError && Logged(f.effects) == [Success]
  {
    var s := InferenceStep(c, d, o);
    var row := SuccessRow(c, s.value);
    var call := AiCall(AiRequestOf(c, d));
    assert Completion(c, d, v, o).effects == [call] + [LogInsert(row, false)];
    LoggedOne(call);
    LoggedOne(LogInsert(row, false));
    LoggedAppend([call], [LogInsert(row, false)]);
  }

  /** A stored success needs its row: an insert that throws is not swallowed and the
      request ends as 500 after an `error` row. */
  lemma {:induction false} SuccessLogFailureIs500(req: Request, o: Oracles)
    requires Admitted(req, o) && QuotaStep(CallerFor(req, o), o).Next?
    requires var s := InferenceStep(CallerFor(req, o), AdmitStep(req, o).value, o);
             s.Next? && o.insert(SuccessRow(CallerFor(req, o), s.value)).Some?
    ensures Analyze(req, o).response == Response(500, ErrorBody(AnalysisFailedMessage), None)
    ensures Logged(Analyze(req, o).effects) == [Success, Failed]
  {
    var c := CallerFor(req, o);
    var d := AdmitStep(req, o).value;
    MeteredLogFailure(c, d, o);
    AttemptAdmitted(c, req, o);
    AnalyzeAuthorized(req, o);
  }

  /** The stage after admission when the `success` insert throws. */
  lemma {:induction false} MeteredLogFailure(c: Caller, d: DataUrl, o: Oracles)
    requires QuotaStep(c, o).Next?
    requires var s := InferenceStep(c, d, o); s.Next? && o.insert(SuccessRow(c, s.value)).Some?
    ensures var m := Metered(c, d, o);
            m.Raise? && m.error.cls == GenericError && Logged(m.effects) == [Success]
  {
    var q := QuotaStep(c, o);
    var f := Completion(c, d, q.value, o);
    CompletionLogFailure(c, d, q.value, o);
    QuotaLogs(c, o);
    LoggedAppend(q.effects, f.effects);
    MeteredAfterGrant(c, d, o);
  }

  /** The rate headers of the stage after the upload is admitted. */
  lemma {:induction false} MeteredHeaders(c: Caller, d: DataUrl, o: Oracles)
    ensures var m := Metered(c, d, o);
            m.Stop? && m.response.rateHeaders.Some? ==>
              && |m.effects| >= 2 && m.effects[1].LimiterRpc?
              && var a := o.limiter(m.effects[1].args);
                 a.Returns? && a.value.Some? && m.response.rateHeaders.value == HeadersOf(a.value.value)
  {
    QuotaLogs(c, o);
    QuotaDisciplined(c, o);
    match QuotaStep(c, o)
    case Exit(_) =>
    case Next(v, es) =>
      CompletionLogs(c, d, v, o);
  }

  /** The rate headers are sent with 200 and 429 only; they repeat the limit the quota
      call answered and the scans left, `max(0, limit - count)`, never negative. */
  lemma {:induction false} RateHeadersRule(req: Request, o: Oracles)
    ensures var out := Analyze(req, o);
            out.response.rateHeaders.Some? <==> out.response.status in {200, 429}
    ensures var out := Analyze(req, o);
            out.response.rateHeaders.Some? ==>
              && out.response.rateHeaders.value.remaining >= 0
              && |out.effects| >= 2 && out.effects[1].LimiterRpc?
              && var a := o.limiter(out.effects[1].args);
                 && a.Returns? && a.value.Some?
                 && out.response.rateHeaders.value == HeadersOf(a.value.value)
                 && out.response.rateHeaders.value.remaining
                    == Max(0, a.value.value.subjectLimit - a.value.value.subjectCount)
  {
    LogTable(req, o);
    if Authorized(req, o) {
      var c := CallerFor(req, o);
      AnalyzeAuthorized(req, o);
      AttemptLogs(c, req, o);
      if AdmitStep(req, o).Next? {
        MeteredHeaders(c, AdmitStep(req, o).value, o);
      }
    }
  }
}
