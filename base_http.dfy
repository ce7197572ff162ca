/** The base HTTP client of component/halo/base.py: default headers, a connection handle that
  * `Connect`/`Close` set and clear, bearer-token management, and the request loop that retries
  * transport faults (at most four attempts, a two-second wait before each retry) and turns every
  * received status of 400 or more into an error at once.
  *
  * The network is a scripted transport: the n-th call to the transport over the client's
  * lifetime yields `respond(n)`, every request handed to it is logged in `sent`, and the retry
  * wait adds to `sleptSeconds` instead of sleeping. */
module BaseHttp {
  import opened Wrappers
  import opened Text
  import opened Json

  type Headers = map<string, string>

  /** The dicts passed as `params`, `data` and `files`. */
  type Fields = map<string, Json>

  const MaxRetries: nat := 3
  const MaxAttempts: nat := MaxRetries + 1
  const RetryDelaySeconds: nat := 2

  function DefaultHeaders(): Headers {
    map["Content-Type" := "application/json", "Accept" := "application/json"]
  }

  function BearerValue(token: string): string { "Bearer " + token }

  /** What one transport call yields. `Transient` is a timeout, connect error or network error
    * (the three retried fault classes); `Response` is a received response with its parsed JSON
    * body (None when parsing fails) and raw text; `OtherExc` is any other exception, which may
    * itself be a RuntimeError. */
  datatype Outcome =
    | Transient(fault: string)
    | Response(status: int, body: Option<Json>, text: string)
    | OtherExc(message: string, isRuntimeError: bool)

  /** One request exactly as it is handed to the transport. */
  datatype WireRequest = WireRequest(
    verb: string, url: string, params: Option<Fields>, json: Option<Json>,
    data: Option<Fields>, files: Option<Fields>, headers: Headers)

  /** The detail shown in an HTTP error: a JSON value taken from the body, or the raw text. */
  datatype Detail = FromJson(value: Json) | RawText(text: string)

  /** The RuntimeErrors the client raises, told apart by kind here and by text in the source. */
  datatype RequestError =
    | AuthenticationFailed                    // 401
    | PermissionDenied                        // 403
    | ResourceNotFound(url: string)           // 404
    | HttpError(status: int, detail: Detail)  // 500 and up, and the other codes from 400
    | RetriesExhausted(fault: string)         // the fourth transport fault in a row
    | Unexpected(message: string)             // any other exception, wrapped
    | Reraised(message: string)               // a RuntimeError from the transport, passed on

  function DetailText(d: Detail): string {
    match d
    case FromJson(v) => Str(v)
    case RawText(t) => t
  }

  /** The RuntimeError message text. */
  function Message(e: RequestError): string {
    match e
    case AuthenticationFailed => "认证失败。请检查您的凭据。"
    case PermissionDenied => "权限不足。您没有访问该资源的权限。"
    case ResourceNotFound(url) => "资源未找到：" + url
    case HttpError(status, d) => "HTTP " + IntToString(status) + " 错误：" + DetailText(d)
    case RetriesExhausted(f) => "请求失败：" + f
    case Unexpected(m) => "请求过程中出现未预期错误：" + m
    case Reraised(m) => m
  }

  /** The target: `path` itself when it starts with "http", else appended to the base URL. */
  function TargetUrl(baseUrl: string, path: string): string {
    if StartsWith(path, "http") then path else baseUrl + path
  }

  /** The request's headers: defaults overridden by the extra headers, without Content-Type
    * when files are sent. */
  function RequestHeaders(defaults: Headers, extra: Option<Headers>, files: Option<Fields>): Headers {
    var merged := defaults + extra.GetOr(map[]);
    if files.Some? && |files.value| > 0 then merged - {"Content-Type"} else merged
  }

  /** `error_json.get("detail") or error_json.get("message") or response.text`, where a body that
    * is not a dict (or did not parse) makes `.get` fail and leaves the raw text. */
  function ErrorDetail(body: Option<Json>, text: string): Detail {
    match body
    case Some(JObj(ms)) =>
      var d := Get(ms, "detail").GetOr(JNull);
      var m := Get(ms, "message").GetOr(JNull);
      if Truthy(d) then FromJson(d) else if Truthy(m) then FromJson(m) else RawText(text)
    case _ => RawText(text)
  }

  /** What a received response makes of the request. */
  function ClassifyResponse(status: int, body: Option<Json>, text: string, url: string): Result<Json, RequestError> {
    if status == 401 then Err(AuthenticationFailed)
    else if status == 403 then Err(PermissionDenied)
    else if status == 404 then Err(ResourceNotFound(url))
    else if status >= 500 then Err(HttpError(status, ErrorDetail(body, text)))
    else if status >= 400 then Err(HttpError(status, ErrorDetail(body, text)))
    else if status == 204 then Ok(JObj([]))
    else if body.Some? then Ok(body.value)
    else Ok(JObj([Member("text", JStr(text))]))
  }

  /** The end of the request after a non-transient outcome. */
  function Final(o: Outcome, url: string): Result<Json, RequestError>
    requires !o.Transient?
  {
    match o
    case Response(status, body, text) => ClassifyResponse(status, body, text, url)
    case OtherExc(m, isRuntime) => if isRuntime then Err(Reraised(m)) else Err(Unexpected(m))
  }

  /** The outcome of attempt `j` of a request whose first transport call is number `start`. */
  function AttemptOutcome(respond: nat -> Outcome, start: nat, j: nat): Outcome {
    respond(start + j)
  }

  /** The first attempt at or after `from` that is not a transient fault, or MaxAttempts. */
  function FirstFinal(respond: nat -> Outcome, start: nat, from: nat): (k: nat)
    requires from <= MaxAttempts
    ensures from <= k <= MaxAttempts
    ensures forall j :: from <= j < k ==> AttemptOutcome(respond, start, j).Transient?
    ensures k < MaxAttempts ==> !AttemptOutcome(respond, start, k).Transient?
    decreases MaxAttempts - from
  {
    if from == MaxAttempts then MaxAttempts
    else if AttemptOutcome(respond, start, from).Transient? then FirstFinal(respond, start, from + 1)
    else from
  }

  /** The whole of one logical request: its result and how many transport calls it made. */
  datatype Exchange = Exchange(result: Result<Json, RequestError>, attempts: nat)

  /** The reference definition of the retry policy: the first non-transient outcome among the
    * first four decides; four transient faults in a row fail with the last one. */
  function Perform(respond: nat -> Outcome, start: nat, url: string): (ex: Exchange)
    ensures 1 <= ex.attempts <= MaxAttempts
  {
    var k := FirstFinal(respond, start, 0);
    if k < MaxAttempts then Exchange(Final(AttemptOutcome(respond, start, k), url), k + 1)
    else Exchange(Err(RetriesExhausted(AttemptOutcome(respond, start, MaxAttempts - 1).fault)), MaxAttempts)
  }

  function Repeat(req: WireRequest, n: nat): (s: seq<WireRequest>)
    ensures |s| == n && forall i :: 0 <= i < n ==> s[i] == req
  {
    seq(n, _ => req)
  }

  /** The transport traffic and waiting of one request served from call number |sent0| on. */
  ghost predicate Served(respond: nat -> Outcome, sent0: seq<WireRequest>, slept0: nat,
                         sent1: seq<WireRequest>, slept1: nat, req: WireRequest,
                         r: Result<Json, RequestError>)
  {
    var ex := Perform(respond, |sent0|, req.url);
    && r == ex.result
    && sent1 == sent0 + Repeat(req, ex.attempts)
    && slept1 == slept0 + RetryDelaySeconds * (ex.attempts - 1)
  }

  /** The httpx client while connected: what `connect` built it from. */
  datatype LiveClient = LiveClient(baseUrl: string, timeout: int, headers: Headers)

  class BaseHttpClient {
    const baseUrl: string
    const timeout: int
    const respond: nat -> Outcome
    var headers: Headers
    var live: Option<LiveClient>
    var sent: seq<WireRequest>
    var sleptSeconds: nat

    /** The live client, when there is one, carries the current default headers. */
    ghost predicate Valid()
      reads this
    {
      live.Some? ==> live.value == LiveClient(baseUrl, timeout, headers)
    }

    constructor (baseUrlArg: string, timeoutArg: int, network: nat -> Outcome)
      ensures Valid()
      ensures baseUrl == RStrip(baseUrlArg, '/') && timeout == timeoutArg && respond == network
      ensures headers == DefaultHeaders() && live == None
      ensures sent == [] && sleptSeconds == 0
    {
      baseUrl := RStrip(baseUrlArg, '/');
      timeout := timeoutArg;
      respond := network;
      headers := DefaultHeaders();
      live := None;
      sent := [];
      sleptSeconds := 0;
    }

    /** Builds the live client unless there is one already. */
    method Connect()
      requires Valid()
      modifies this
      ensures Valid()
      ensures live == Some(LiveClient(baseUrl, timeout, headers))
      ensures old(live).Some? ==> live == old(live)
      ensures headers == old(headers) && sent == old(sent) && sleptSeconds == old(sleptSeconds)
    {
      if live.None? {
        live := Some(LiveClient(baseUrl, timeout, headers));
      }
    }

    /** Drops the live client; nothing happens when there is none. */
    method Close()
      requires Valid()
      modifies this
      ensures Valid()
      ensures live == None
      ensures headers == old(headers) && sent == old(sent) && sleptSeconds == old(sleptSeconds)
    {
      if live.Some? {
        live := None;
      }
    }

    /** Installs "Bearer <token>" as Authorization, in the defaults and on the live client. */
    method SetAuthToken(token: string)
      requires Valid()
      modifies this
      ensures Valid()
      ensures headers == old(headers)["Authorization" := BearerValue(token)]
      ensures live.Some? == old(live).Some?
      ensures sent == old(sent) && sleptSeconds == old(sleptSeconds)
    {
      headers := headers["Authorization" := BearerValue(token)];
      if live.Some? {
        live := Some(live.value.(headers := live.value.headers["Authorization" := BearerValue(token)]));
      }
    }

    /** Removes Authorization, in the defaults and on the live client; no error when absent. */
    method RemoveAuthToken()
      requires Valid()
      modifies this
      ensures Valid()
      ensures headers == old(headers) - {"Authorization"}
      ensures live.Some? == old(live).Some?
      ensures sent == old(sent) && sleptSeconds == old(sleptSeconds)
    {
      headers := headers - {"Authorization"};
      if live.Some? {
        live := Some(live.value.(headers := live.value.headers - {"Authorization"}));
      }
    }

    /** One transport call. */
    method Send(req: WireRequest) returns (o: Outcome)
      modifies this
      ensures o == respond(|old(sent)|)
      ensures sent == old(sent) + [req]
      ensures headers == old(headers) && live == old(live) && sleptSeconds == old(sleptSeconds)
    {
      o := respond(|sent|);
      sent := sent + [req];
    }

    /** `time.sleep(2)` before a retry. */
    method WaitRetry()
      modifies this
      ensures sleptSeconds == old(sleptSeconds) + RetryDelaySeconds
      ensures headers == old(headers) && live == old(live) && sent == old(sent)
    {
      sleptSeconds := sleptSeconds + RetryDelaySeconds;
    }

    /** `_request`: connects if needed, then tries the transport until an attempt is not a
      * transient fault, for at most four attempts. */
    method Request(verb: string, path: string, params: Option<Fields>, json: Option<Json>,
                   data: Option<Fields>, files: Option<Fields>, extra: Option<Headers>)
      returns (r: Result<Json, RequestError>)
      requires Valid()
      modifies this
      ensures Valid()
      ensures live == Some(LiveClient(baseUrl, timeout, headers))
      ensures headers == old(headers)
      ensures Served(respond, old(sent), old(sleptSeconds), sent, sleptSeconds,
                     WireRequest(verb, TargetUrl(baseUrl, path), params, json, data, files,
                                 RequestHeaders(old(headers), extra, files)), r)
    {
      if live.None? {
        Connect();
      }
      var url := TargetUrl(baseUrl, path);
      var req := WireRequest(verb, url, params, json, data, files, RequestHeaders(headers, extra, files));
      r := SendWithRetries(req);
    }

    /** The retry loop of `_request`: sends `req` until an attempt is not a transient fault,
      * waiting between attempts, for at most four attempts. */
    method SendWithRetries(req: WireRequest) returns (r: Result<Json, RequestError>)
      requires Valid() && live.Some?
      modifies this
      ensures Valid() && live == old(live) && headers == old(headers)
      ensures Served(respond, old(sent), old(sleptSeconds), sent, sleptSeconds, req, r)
    {
      ghost var start := |sent|;
      var retryCount := 0;
      var lastError := "";
      while retryCount <= MaxRetries
        invariant live == old(live) && headers == old(headers)
        invariant 0 <= retryCount <= MaxAttempts
        invariant sent == old(sent) + Repeat(req, retryCount)
        invariant sleptSeconds == old(sleptSeconds)
                    + RetryDelaySeconds * (if retryCount <= MaxRetries then retryCount else MaxRetries)
        invariant forall j :: 0 <= j < retryCount ==> AttemptOutcome(respond, start, j).Transient?
        invariant retryCount > 0 ==> lastError == AttemptOutcome(respond, start, retryCount - 1).fault
      {
        var outcome := Send(req);
        assert outcome == AttemptOutcome(respond, start, retryCount);
        match outcome
        case Transient(fault) =>
          lastError := fault;
          retryCount := retryCount + 1;
          if retryCount <= MaxRetries {
            WaitRetry();
          }
        case Response(status, body, text) =>
          assert FirstFinal(respond, start, 0) == retryCount;
          r := ClassifyResponse(status, body, text, req.url);
          return;
        case OtherExc(m, isRuntime) =>
          assert FirstFinal(respond, start, 0) == retryCount;
          r := if isRuntime then Err(Reraised(m)) else Err(Unexpected(m));
          return;
      }
      // The fourth fault in a row: the source raises the same error inside the loop.
      assert FirstFinal(respond, start, 0) == MaxAttempts;
      r := Err(RetriesExhausted(lastError));
    }

    method Get(path: string, params: Option<Fields>, extra: Option<Headers>)
      returns (r: Result<Json, RequestError>)
      requires Valid()
      modifies this
      ensures Valid() && live.Some? && headers == old(headers)
      ensures Served(respond, old(sent), old(sleptSeconds), sent, sleptSeconds,
                     WireRequest("GET", TargetUrl(baseUrl, path), params, None, None, None,
                                 RequestHeaders(old(headers), extra, None)), r)
    {
      r := Request("GET", path, params, None, None, None, extra);
    }

    method Post(path: string, json: Option<Json>, data: Option<Fields>, files: Option<Fields>,
                params: Option<Fields>, extra: Option<Headers>)
      returns (r: Result<Json, RequestError>)
      requires Valid()
      modifies this
      ensures Valid() && live.Some? && headers == old(headers)
      ensures Served(respond, old(sent), old(sleptSeconds), sent, sleptSeconds,
                     WireRequest("POST", TargetUrl(baseUrl, path), params, json, data, files,
                                 RequestHeaders(old(headers), extra, files)), r)
    {
      r := Request("POST", path, params, json, data, files, extra);
    }

    method Put(path: string, json: Option<Json>, params: Option<Fields>, extra: Option<Headers>)
      returns (r: Result<Json, RequestError>)
      requires Valid()
      modifies this
      ensures Valid() && live.Some? && headers == old(headers)
      ensures Served(respond, old(sent), old(sleptSeconds), sent, sleptSeconds,
                     WireRequest("PUT", TargetUrl(baseUrl, path), params, json, None, None,
                                 RequestHeaders(old(headers), extra, None)), r)
    {
      r := Request("PUT", path, params, json, None, None, extra);
    }

    method Patch(path: string, json: Option<Json>, params: Option<Fields>, extra: Option<Headers>)
      returns (r: Result<Json, RequestError>)
      requires Valid()
      modifies this
      ensures Valid() && live.Some? && headers == old(headers)
      ensures Served(respond, old(sent), old(sleptSeconds), sent, sleptSeconds,
                     WireRequest("PATCH", TargetUrl(baseUrl, path), params, json, None, None,
                                 RequestHeaders(old(headers), extra, None)), r)
    {
      r := Request("PATCH", path, params, json, None, None, extra);
    }

    method Delete(path: string, params: Option<Fields>, extra: Option<Headers>)
      returns (r: Result<Json, RequestError>)
      requires Valid()
      modifies this
      ensures Valid() && live.Some? && headers == old(headers)
      ensures Served(respond, old(sent), old(sleptSeconds), sent, sleptSeconds,
                     WireRequest("DELETE", TargetUrl(baseUrl, path), params, None, None, None,
                                 RequestHeaders(old(headers), extra, None)), r)
    {
      r := Request("DELETE", path, params, None, None, None, extra);
    }
  }

  // ---- properties of the retry policy and of the classification ----

  /** Four transient faults in a row: four transport calls, three waits, and "请求失败：" + the
    * last fault. */
  lemma AllTransientExhausts(respond: nat -> Outcome, start: nat, url: string)
    requires forall j :: 0 <= j < MaxAttempts ==> AttemptOutcome(respond, start, j).Transient?
    ensures var ex := Perform(respond, start, url);
      && ex.attempts == MaxAttempts && ex.attempts - 1 == MaxRetries
      && ex.result == Err(RetriesExhausted(AttemptOutcome(respond, start, MaxRetries).fault))
      && StartsWith(Message(ex.result.error), "请求失败：")
  {
    var m := Message(Perform(respond, start, url).result.error);
    assert m == "请求失败：" + AttemptOutcome(respond, start, MaxRetries).fault;
    assert m[..|"请求失败："|] == "请求失败：";
  }

  /** When attempt k (counting from 0) is the first that is not a transient fault, the request
    * makes k + 1 transport calls (so k waits) and ends with that attempt's outcome. */
  lemma EndsAtFirstFinalAttempt(respond: nat -> Outcome, start: nat, url: string, k: nat)
    requires k < MaxAttempts
    requires forall j :: 0 <= j < k ==> AttemptOutcome(respond, start, j).Transient?
    requires !AttemptOutcome(respond, start, k).Transient?
    ensures var ex := Perform(respond, start, url);
      ex.attempts == k + 1 && ex.result == Final(AttemptOutcome(respond, start, k), url)
  {
  }

  /** A received response, whatever its status, and any exception other than the three transient
    * fault classes end the request after that one attempt: nothing is retried. */
  lemma NonTransientIsNotRetried(respond: nat -> Outcome, start: nat, url: string)
    requires !AttemptOutcome(respond, start, 0).Transient?
    ensures var ex := Perform(respond, start, url);
      ex.attempts == 1 && ex.result == Final(AttemptOutcome(respond, start, 0), url)
      && (AttemptOutcome(respond, start, 0).OtherExc? ==> ex.result.Err?)
  {
    EndsAtFirstFinalAttempt(respond, start, url, 0);
  }

  /** A response is an error exactly when its status is 400 or more. */
  lemma ResponseFailsIff(status: int, body: Option<Json>, text: string, url: string)
    ensures ClassifyResponse(status, body, text, url).Err? <==> status >= 400
  {
  }

  /** 401, 403 and 404 give their fixed errors whatever the body says; every other status from 400
    * on gives an HTTP error carrying the status and the extracted detail. */
  lemma ErrorStatusMapping(status: int, body: Option<Json>, text: string, url: string)
    requires status >= 400
    ensures var r := ClassifyResponse(status, body, text, url);
      && (status == 401 <==> r == Err(AuthenticationFailed))
      && (status == 403 <==> r == Err(PermissionDenied))
      && (status == 404 <==> r == Err(ResourceNotFound(url)))
      && (status !in {401, 403, 404} ==> r == Err(HttpError(status, ErrorDetail(body, text))))
      && (status == 404 ==> Message(r.error) == "资源未找到：" + url)
  {
  }

  /** The detail of an HTTP error is the first truthy of the body's "detail", the body's "message"
    * and the raw text; a body that is not a JSON object contributes nothing. */
  lemma ErrorDetailIsFirstTruthy(body: Option<Json>, text: string)
    ensures (body.None? || !body.value.JObj?) ==> ErrorDetail(body, text) == RawText(text)
    ensures body.Some? && Lookup(body.value, ["detail"]).Some? && Truthy(Lookup(body.value, ["detail"]).value)
            ==> ErrorDetail(body, text) == FromJson(Lookup(body.value, ["detail"]).value)
    ensures body.Some? && body.value.JObj?
            && (Lookup(body.value, ["detail"]).None? || !Truthy(Lookup(body.value, ["detail"]).value))
            && Lookup(body.value, ["message"]).Some? && Truthy(Lookup(body.value, ["message"]).value)
            ==> ErrorDetail(body, text) == FromJson(Lookup(body.value, ["message"]).value)
    ensures (forall v :: Lookup(body.GetOr(JNull), ["detail"]) == Some(v) ==> !Truthy(v))
            && (forall v :: Lookup(body.GetOr(JNull), ["message"]) == Some(v) ==> !Truthy(v))
            ==> ErrorDetail(body, text) == RawText(text)
  {
    assert ["detail"][1..] == [] && ["message"][1..] == [];
    if body.Some? && body.value.JObj? {
      var ms := body.value.members;
      assert Lookup(body.value, ["detail"]) == Get(ms, "detail");
      assert Lookup(body.value, ["message"]) == Get(ms, "message");
    }
  }

  /** Below 400 the request succeeds: 204 with an empty dict, otherwise with the parsed body, or
    * with {"text": body} when it did not parse. */
  lemma SuccessBody(status: int, body: Option<Json>, text: string, url: string)
    requires status < 400
    ensures status == 204 ==> ClassifyResponse(status, body, text, url) == Ok(JObj([]))
    ensures status != 204 && body.Some? ==> ClassifyResponse(status, body, text, url) == Ok(body.value)
    ensures status != 204 && body.None?
            ==> ClassifyResponse(status, body, text, url).Ok?
                && Lookup(ClassifyResponse(status, body, text, url).value, ["text"]) == Some(JStr(text))
  {
  }

  /** An absolute target is used as given; a relative one is the base URL, with every trailing '/'
    * removed, followed by the path. */
  lemma TargetUrlJoin(baseUrlArg: string, path: string)
    ensures StartsWith(path, "http") ==> TargetUrl(RStrip(baseUrlArg, '/'), path) == path
    ensures !StartsWith(path, "http") ==>
      var u := TargetUrl(RStrip(baseUrlArg, '/'), path);
      var b := RStrip(baseUrlArg, '/');
      && u == b + path && (b == [] || b[|b| - 1] != '/')
      && baseUrlArg == b + baseUrlArg[|b|..]
      && forall i :: |b| <= i < |baseUrlArg| ==> baseUrlArg[i] == '/'
  {
  }

  /** Header by header: extra headers win over defaults, and Content-Type is dropped only from a
    * request that carries files. */
  lemma RequestHeadersPointwise(defaults: Headers, extra: Option<Headers>, files: Option<Fields>, k: string)
    ensures var h := RequestHeaders(defaults, extra, files);
      var dropped := k == "Content-Type" && files.Some? && |files.value| > 0;
      && (k in h <==> !dropped && (k in defaults || k in extra.GetOr(map[])))
      && (k in h && k in extra.GetOr(map[]) ==> h[k] == extra.value[k])
      && (k in h && k !in extra.GetOr(map[]) ==> h[k] == defaults[k])
  {
  }
}
