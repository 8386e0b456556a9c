/**
 * The Slack Web API client: one POST per call, then a classification of what
 * came back into a transport, HTTP or API error, or the decoded body itself.
 * The HTTP round trip is not modelled; its outcome is an `Exchange`.
 */
module Client {
  import opened Wrappers
  import opened Json

  const SlackApiBase: string := "https://slack.com/api"

  /** The endpoint of a Web API method: the base, a slash, the method name. */
  function Url(apiMethod: string): (url: string)
    ensures |url| == |SlackApiBase| + 1 + |apiMethod|
    ensures url[..|SlackApiBase| + 1] == SlackApiBase + "/"
    ensures url[|SlackApiBase| + 1..] == apiMethod
  {
    SlackApiBase + "/" + apiMethod
  }

  /** Distinct methods are sent to distinct endpoints. */
  lemma UrlInjective(m1: string, m2: string)
    requires Url(m1) == Url(m2)
    ensures m1 == m2
  {
  }

  /** The request that goes on the wire: endpoint, bearer credential and JSON body. */
  datatype HttpRequest = HttpRequest(url: string, authorization: string, body: JSON)

  /**
   * What the HTTP round trip produced: either no response at all (connection
   * failure, timeout), or a status with the body decoded as JSON, or the
   * decoder's complaint when the body is not valid JSON.
   */
  datatype Exchange =
    | Unsent(cause: string)
    | Received(status: int, body: Result<JSON, string>)

  /** The failures `post` reports; each carries what its message shows. */
  datatype ClientError =
    | Transport(cause: string)
    | Undecodable(cause: string)
    | HttpStatus(status: int, body: JSON)
    | Api(apiMethod: string, error: string, body: JSON)

  /** `StatusCode::is_success`: the 2xx range. */
  predicate IsSuccessStatus(status: int) {
    200 <= status < 300
  }

  /** The body's `ok` member is exactly the JSON literal `true`. */
  predicate OkIsTrue(data: JSON) {
    Get(data, "ok") == Some(JBool(true))
  }

  /** The string Slack reports in `error`, or "unknown" when it is missing or not a string. */
  function ApiErrorCode(data: JSON): (e: string)
    ensures Get(data, "error").Some? && Get(data, "error").value.JStr? ==> e == Get(data, "error").value.s
    ensures !(Get(data, "error").Some? && Get(data, "error").value.JStr?) ==> e == "unknown"
  {
    match Get(data, "error")
    case Some(JStr(s)) => s
    case _ => "unknown"
  }

  /**
   * The checks `post` makes after the round trip, in their order: a send
   * failure, then a body that does not decode, then the status, then `ok`.
   */
  function Classify(apiMethod: string, ex: Exchange): (r: Result<JSON, ClientError>)
    ensures ex.Unsent? ==> r == Failure(Transport(ex.cause))
    ensures ex.Received? && ex.body.Failure? ==> r == Failure(Undecodable(ex.body.error))
    ensures ex.Received? && ex.body.Success? && !IsSuccessStatus(ex.status) ==>
              r == Failure(HttpStatus(ex.status, ex.body.value))
    ensures ex.Received? && ex.body.Success? && IsSuccessStatus(ex.status) && !OkIsTrue(ex.body.value) ==>
              r == Failure(Api(apiMethod, ApiErrorCode(ex.body.value), ex.body.value))
    ensures r.Success? <==>
              ex.Received? && ex.body.Success? && IsSuccessStatus(ex.status) && OkIsTrue(ex.body.value)
    ensures r.Success? ==> r.value == ex.body.value
  {
    match ex
    case Unsent(cause) => Failure(Transport(cause))
    case Received(_, Failure(cause)) => Failure(Undecodable(cause))
    case Received(status, Success(data)) =>
      if !IsSuccessStatus(status) then Failure(HttpStatus(status, data))
      else if !OkIsTrue(data) then Failure(Api(apiMethod, ApiErrorCode(data), data))
      else Success(data)
  }

  /** A failing status wins over the body, even over `ok: true`. */
  lemma StatusCheckedBeforeOk(apiMethod: string, status: int, data: JSON)
    requires !IsSuccessStatus(status) && OkIsTrue(data)
    ensures Classify(apiMethod, Received(status, Success(data))).Failure?
    ensures Classify(apiMethod, Received(status, Success(data))).error.HttpStatus?
  {
  }

  /** `ok` must be the boolean `true`: missing, false, or the string "true" all fail. */
  lemma OkMustBeLiteralTrue(apiMethod: string, fields: map<string, JSON>)
    requires "ok" !in fields || fields["ok"] in {JBool(false), JStr("true")}
    ensures Classify(apiMethod, Received(200, Success(JObj(fields)))).Failure?
    ensures Classify(apiMethod, Received(200, Success(JObj(fields)))).error.Api?
  {
  }

  /** A Slack refusal names the method and carries Slack's own error string. */
  lemma ApiRefusalNamesMethodAndCode(apiMethod: string, code: string)
    ensures var data := JObj(map["ok" := JBool(false), "error" := JStr(code)]);
            Classify(apiMethod, Received(200, Success(data))) == Failure(Api(apiMethod, code, data))
  {
  }

  datatype ConfigError = TokenNotSet

  /** `SLACK_BOT_TOKEN` must be set; its value becomes the bearer credential. */
  function TokenFromEnv(env: Option<string>): (r: Result<string, ConfigError>)
    ensures r.Success? <==> env.Some?
    ensures r.Success? ==> r.value == env.value
    ensures r.Failure? ==> r.error == TokenNotSet
  {
    match env
    case Some(token) => Success(token)
    case None => Failure(TokenNotSet)
  }

  /**
   * The client. Its credential is fixed at construction; `network` stands for
   * the HTTP round trip (the outcome of the n-th request sent), and `sent`
   * records every request made so far, so that callers can count them.
   */
  class SlackClient {
    const token: string
    const network: (nat, HttpRequest) -> Exchange
    var sent: seq<HttpRequest>

    constructor (token: string, network: (nat, HttpRequest) -> Exchange)
      ensures this.token == token && this.network == network
      ensures sent == []
    {
      this.token := token;
      this.network := network;
      sent := [];
    }

    /** The request `post(method, body)` sends. */
    function RequestFor(apiMethod: string, body: JSON): (req: HttpRequest)
      ensures req.url == Url(apiMethod)
      ensures req.authorization == "Bearer " + token
      ensures req.body == body
    {
      HttpRequest(Url(apiMethod), "Bearer " + token, body)
    }

    /** One request to `method`, whose outcome is classified by `Classify`. */
    method Post(apiMethod: string, body: JSON) returns (r: Result<JSON, ClientError>)
      modifies this`sent
      ensures sent == old(sent) + [RequestFor(apiMethod, body)]
      ensures r == Classify(apiMethod, network(|old(sent)|, RequestFor(apiMethod, body)))
    {
      var request := RequestFor(apiMethod, body);
      var exchange := network(|sent|, request);
      sent := sent + [request];
      r := Classify(apiMethod, exchange);
    }
  }

  /** `SlackClient::from_env`: fails when the token variable is not set. */
  method FromEnv(env: Option<string>, network: (nat, HttpRequest) -> Exchange)
    returns (r: Result<SlackClient, ConfigError>)
    ensures r.Success? <==> env.Some?
    ensures r.Success? ==> fresh(r.value) && r.value.token == env.value && r.value.sent == []
    ensures r.Failure? ==> r.error == TokenNotSet
  {
    var token := TokenFromEnv(env);
    if token.Failure? {
      return Failure(token.error);
    }
    var client := new SlackClient(token.value, network);
    r := Success(client);
  }
}
