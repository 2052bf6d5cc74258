/**
 * DialogProAPI: relays a chat message to the configured backend, answering
 * repeated questions from the WordPress object cache and reducing every
 * failure to one user-facing error. The HTTP transport, md5 and json_decode
 * are abstract functions the object is built with; the requests it sends and
 * the lines it writes to the PHP error log are recorded so that "no request
 * was made" can be stated.
 */
module ChatApi {
  import opened Php
  import opened PluginSettings

  /** The object-cache group holding relayed responses. */
  const CacheGroup: string := "dialogpro_api"
  /** Seconds a cached response lives; expiry is not modelled. */
  const CacheTtl: int := 3600
  /** Seconds the message request may take. */
  const Timeout: int := 15
  /** Seconds the status probe may take. */
  const StatusTimeout: int := 5

  const GenericError: string := "Error communicating with chat service. Please try again later."
  const EmptyMessageError: string := "Message cannot be empty"
  const IncompleteConfigError: string := "API configuration is incomplete"
  const InvalidJsonError: string := "Invalid JSON response from API"
  const ErrorLogPrefix: string := "DialogPro API Error: "

  /** A decoded JSON object, as the associative array json_decode(..., true) yields. */
  type Body = map<string, Value>

  /** The JSON body of a message request: {"message": ..., "timestamp": ...}. */
  datatype Payload = Payload(message: string, timestamp: int)

  datatype Request = Request(
    verb: string,
    url: string,
    timeout: int,
    headers: seq<(string, string)>,
    payload: Option<Payload>)

  /** What wp_remote_post / wp_remote_get hand back: a WP_Error or an HTTP response. */
  datatype Response = WpError(message: string) | Http(status: int, body: string)

  /** An object-cache slot: wp_cache_get($key, $group). */
  datatype CacheKey = CacheKey(group: string, key: string)

  /** The parts of the world send_message touches. */
  datatype ApiState = ApiState(cache: map<CacheKey, Body>, sent: seq<Request>, log: seq<string>)

  // ---------------------------------------------------------------------
  // Bearer credentials (RFC 6750, section 2.1)
  // ---------------------------------------------------------------------

  /** The Authorization header value the plugin sends: 'Bearer ' . $token. */
  function BearerCredentials(token: string): string
  {
    "Bearer " + token
  }

  /** A b64token character: ALPHA / DIGIT / "-" / "." / "_" / "~" / "+" / "/". */
  predicate IsB64Char(c: char)
  {
    ('A' <= c <= 'Z') || ('a' <= c <= 'z') || ('0' <= c <= '9')
    || c == '-' || c == '.' || c == '_' || c == '~' || c == '+' || c == '/'
  }

  /** The length of the longest prefix made of b64token characters. */
  function B64Prefix(t: string): (n: nat)
    ensures n <= |t|
    ensures forall k :: 0 <= k < n ==> IsB64Char(t[k])
    ensures n < |t| ==> !IsB64Char(t[n])
  {
    if t == [] || !IsB64Char(t[0]) then 0 else 1 + B64Prefix(t[1..])
  }

  /** b64token = 1*( ALPHA / DIGIT / "-" / "." / "_" / "~" / "+" / "/" ) *"=" */
  predicate IsB64Token(t: string)
  {
    B64Prefix(t) >= 1 && forall k :: B64Prefix(t) <= k < |t| ==> t[k] == '='
  }

  function SkipSpaces(s: string): (r: string)
    ensures |r| <= |s| && r == s[|s| - |r|..]
    ensures r != [] ==> r[0] != ' '
    ensures forall k :: 0 <= k < |s| - |r| ==> s[k] == ' '
  {
    if s != [] && s[0] == ' ' then SkipSpaces(s[1..]) else s
  }

  /**
   * Reads credentials = "Bearer" 1*SP b64token, giving back the token, or
   * None when the header does not have that form.
   */
  function ParseBearer(h: string): Option<string>
  {
    if |h| >= 7 && h[..6] == "Bearer" && h[6] == ' ' then
      var token := SkipSpaces(h[6..]);
      if IsB64Token(token) then Some(token) else None
    else None
  }

  /**
   * The header the plugin builds is a well-formed bearer credential carrying
   * exactly the configured token if and only if that token is a b64token.
   */
  lemma BearerHeaderConforms(token: string)
    ensures ParseBearer(BearerCredentials(token)) == Some(token) <==> IsB64Token(token)
  {
    BearerPrefix(token);
    SkipOneSpace(token);
    if IsB64Token(token) {
      assert token[0] != ' ';
    }
  }

  /** The built header starts with the scheme name and one space, then the token. */
  lemma BearerPrefix(token: string)
    ensures var h := BearerCredentials(token);
      |h| >= 7 && h[..6] == "Bearer" && h[6] == ' ' && h[6..] == [' '] + token
  {
  }

  /** One leading space more changes nothing once the spaces are skipped. */
  lemma SkipOneSpace(t: string)
    ensures SkipSpaces([' '] + t) == SkipSpaces(t)
  {
    assert ([' '] + t)[1..] == t;
  }

  // ---------------------------------------------------------------------
  // Requests and response classification
  // ---------------------------------------------------------------------

  /** The POST send_message makes to the endpoint. */
  function MessageRequest(endpoint: string, token: string, sessionId: string, message: string, now: int): Request
  {
    Request("POST", endpoint, Timeout,
      [("Authorization", BearerCredentials(token)), ("Content-Type", "application/json"), ("X-Session-ID", sessionId)],
      Some(Payload(message, now)))
  }

  /** The GET check_connection makes to the endpoint's status path. */
  function StatusRequest(endpoint: string, token: string): Request
  {
    Request("GET", endpoint + "/status", StatusTimeout, [("Authorization", BearerCredentials(token))], None)
  }

  /**
   * How send_message reads a response: a transport error, a status other
   * than exactly 200, or a body that does not decode is a failure with its
   * own detail; otherwise the decoded body.
   */
  function Classify(resp: Response, decode: string -> Option<Body>): (r: Result<Body>)
    ensures r.Ok? <==> resp.Http? && resp.status == 200 && decode(resp.body).Some?
    ensures r.Ok? ==> r.value == decode(resp.body).value
    ensures resp.WpError? ==> r == Err(resp.message)
    ensures resp.Http? && resp.status != 200 ==> r == Err("API returned error code: " + IntToString(resp.status))
    ensures resp.Http? && resp.status == 200 && decode(resp.body).None? ==> r == Err(InvalidJsonError)
  {
    match resp
    case WpError(m) => Err(m)
    case Http(status, body) =>
      if status != 200 then Err("API returned error code: " + IntToString(status))
      else match decode(body)
        case None => Err(InvalidJsonError)
        case Some(b) => Ok(b)
  }

  /** check_connection's verdict on the probe's response. */
  predicate ConnectionUp(resp: Response)
  {
    resp.Http? && resp.status == 200
  }

  class Api {
    const settings: Settings
    /** md5(). */
    const hash: string -> string
    /** json_decode($body, true), None when json_last_error() reports an error. */
    const decode: string -> Option<Body>
    /** The HTTP transport behind wp_remote_post and wp_remote_get. */
    const transport: Request -> Response
    /** time() during this request. */
    const now: int

    /** The WordPress object cache. */
    var cache: map<CacheKey, Body>
    /** Every request handed to the transport, in order. */
    var sent: seq<Request>
    /** Lines written with error_log(). */
    var errorLog: seq<string>

    constructor (settings: Settings, hash: string -> string, decode: string -> Option<Body>,
                 transport: Request -> Response, now: int, cache: map<CacheKey, Body>)
      ensures this.settings == settings && this.hash == hash && this.decode == decode
      ensures this.transport == transport && this.now == now
      ensures this.cache == cache && sent == [] && errorLog == []
    {
      this.settings := settings;
      this.hash := hash;
      this.decode := decode;
      this.transport := transport;
      this.now := now;
      this.cache := cache;
      sent := [];
      errorLog := [];
    }

    function Endpoint(): Value
    {
      settings.GetOption("api_endpoint")
    }

    function Token(): Value
    {
      settings.GetOption("api_token")
    }

    /** Both the endpoint and the token are non-empty in PHP's sense. */
    predicate ConfigComplete()
    {
      !EmptyValue(Endpoint()) && !EmptyValue(Token())
    }

    /** The cache slot for a message: md5($message . $session_id) in the API group. */
    function KeyFor(message: string, sessionId: string): CacheKey
    {
      CacheKey(CacheGroup, hash(message + sessionId))
    }

    function RequestFor(message: string, sessionId: string): Request
    {
      MessageRequest(StrVal(Endpoint()), StrVal(Token()), sessionId, message, now)
    }

    /**
     * send_message as a step on the cache, the request log and the error
     * log: empty message, cache hit, incomplete configuration, then the
     * request and its classification. A failure is logged with its detail
     * and surfaces as the generic error; only a success is cached.
     */
    function Send(st: ApiState, message: string, sessionId: string): (out: (Result<Body>, ApiState))
      ensures out.0.Err? ==> out.0.msg == GenericError
    {
      if EmptyString(message) then
        (Err(GenericError), st.(log := st.log + [ErrorLogPrefix + EmptyMessageError]))
      else if KeyFor(message, sessionId) in st.cache then
        (Ok(st.cache[KeyFor(message, sessionId)]), st)
      else if !ConfigComplete() then
        (Err(GenericError), st.(log := st.log + [ErrorLogPrefix + IncompleteConfigError]))
      else
        var req := RequestFor(message, sessionId);
        var sent := st.sent + [req];
        match Classify(transport(req), decode)
        case Ok(body) => (Ok(body), ApiState(st.cache[KeyFor(message, sessionId) := body], sent, st.log))
        case Err(detail) => (Err(GenericError), ApiState(st.cache, sent, st.log + [ErrorLogPrefix + detail]))
    }

    /** An empty message fails before the cache is consulted or a request is made. */
    lemma EmptyMessageSendsNothing(st: ApiState, message: string, sessionId: string)
      requires EmptyString(message)
      ensures Send(st, message, sessionId).0 == Err(GenericError)
      ensures Send(st, message, sessionId).1.cache == st.cache
      ensures Send(st, message, sessionId).1.sent == st.sent
    {
    }

    /** A cache hit returns the stored body and touches nothing, configuration included. */
    lemma CacheHitSendsNothing(st: ApiState, message: string, sessionId: string)
      requires !EmptyString(message) && KeyFor(message, sessionId) in st.cache
      ensures Send(st, message, sessionId) == (Ok(st.cache[KeyFor(message, sessionId)]), st)
    {
    }

    /** On a miss with an empty endpoint or token, nothing is sent and nothing cached. */
    lemma IncompleteConfigSendsNothing(st: ApiState, message: string, sessionId: string)
      requires !EmptyString(message) && KeyFor(message, sessionId) !in st.cache
      requires !ConfigComplete()
      ensures Send(st, message, sessionId).0 == Err(GenericError)
      ensures Send(st, message, sessionId).1.cache == st.cache
      ensures Send(st, message, sessionId).1.sent == st.sent
    {
    }

    /**
     * A step sends at most one request, and it does so exactly on a cache
     * miss with complete configuration; the request carries the bearer
     * token, the JSON content type and the session id.
     */
    lemma SendIssuesAtMostOneRequest(st: ApiState, message: string, sessionId: string)
      ensures var st' := Send(st, message, sessionId).1;
        st'.sent == st.sent || st'.sent == st.sent + [RequestFor(message, sessionId)]
      ensures Send(st, message, sessionId).1.sent == st.sent + [RequestFor(message, sessionId)] <==>
        !EmptyString(message) && KeyFor(message, sessionId) !in st.cache && ConfigComplete()
      ensures RequestFor(message, sessionId).headers ==
        [("Authorization", "Bearer " + StrVal(Token())), ("Content-Type", "application/json"), ("X-Session-ID", sessionId)]
    {
      var st' := Send(st, message, sessionId).1;
      if !(!EmptyString(message) && KeyFor(message, sessionId) !in st.cache && ConfigComplete()) {
        assert st'.sent == st.sent;
        assert |st'.sent| != |st.sent + [RequestFor(message, sessionId)]|;
      }
    }

    /**
     * Only a success writes the cache, and it writes exactly the returned
     * body under the message's key; a failure leaves the cache as it was.
     */
    lemma OnlySuccessIsCached(st: ApiState, message: string, sessionId: string)
      ensures var (r, st') := Send(st, message, sessionId);
        (r.Err? ==> st'.cache == st.cache)
        && (r.Ok? ==> st'.cache == st.cache[KeyFor(message, sessionId) := r.value])
    {
    }

    /** A transport error, a non-200 status and an undecodable body each fail, with the same message. */
    lemma TransportFailuresCollapse(st: ApiState, message: string, sessionId: string)
      requires !EmptyString(message) && KeyFor(message, sessionId) !in st.cache && ConfigComplete()
      requires transport(RequestFor(message, sessionId)).WpError?
        || transport(RequestFor(message, sessionId)).status != 200
        || decode(transport(RequestFor(message, sessionId)).body).None?
      ensures Send(st, message, sessionId).0 == Err(GenericError)
      ensures Send(st, message, sessionId).1.log ==
        st.log + [ErrorLogPrefix + Classify(transport(RequestFor(message, sessionId)), decode).msg]
    {
    }

    /**
     * Once a first answer succeeded, asking the same question again in the
     * same session returns that answer from the cache, with no new request
     * and no other change of state.
     */
    lemma RepeatedMessageHitsCache(st: ApiState, message: string, sessionId: string)
      ensures var (r1, st1) := Send(st, message, sessionId);
        var (r2, st2) := Send(st1, message, sessionId);
        r1.Ok? ==> r2 == r1 && st2 == st1
    {
      var (r1, st1) := Send(st, message, sessionId);
      if r1.Ok? {
        assert KeyFor(message, sessionId) in st1.cache;
        assert st1.cache[KeyFor(message, sessionId)] == r1.value;
      }
    }

    /** send_message: performs one Send step on the object's cache, request log and error log. */
    method SendMessage(message: string, sessionId: string) returns (r: Result<Body>)
      modifies this
      ensures (r, ApiState(cache, sent, errorLog)) == Send(ApiState(old(cache), old(sent), old(errorLog)), message, sessionId)
      ensures r.Err? ==> r.msg == GenericError
    {
      if EmptyString(message) {
        errorLog := errorLog + [ErrorLogPrefix + EmptyMessageError];
        return Err(GenericError);
      }
      var key := KeyFor(message, sessionId);
      if key in cache {
        return Ok(cache[key]);
      }
      var endpoint := Endpoint();
      var token := Token();
      if EmptyValue(endpoint) || EmptyValue(token) {
        errorLog := errorLog + [ErrorLogPrefix + IncompleteConfigError];
        return Err(GenericError);
      }
      var req := MessageRequest(StrVal(endpoint), StrVal(token), sessionId, message, now);
      sent := sent + [req];
      var outcome := Classify(transport(req), decode);
      match outcome {
        case Ok(body) =>
          cache := cache[key := body];
          r := Ok(body);
        case Err(detail) =>
          errorLog := errorLog + [ErrorLogPrefix + detail];
          r := Err(GenericError);
      }
    }

    /** check_connection: one status probe; true iff it came back with status exactly 200. */
    method CheckConnection() returns (up: bool)
      modifies this`sent
      ensures sent == old(sent) + [StatusRequest(StrVal(Endpoint()), StrVal(Token()))]
      ensures up <==> ConnectionUp(transport(StatusRequest(StrVal(Endpoint()), StrVal(Token()))))
    {
      var req := StatusRequest(StrVal(Endpoint()), StrVal(Token()));
      sent := sent + [req];
      var resp := transport(req);
      up := resp.Http? && resp.status == 200;
    }

    /**
     * clear_cache: wp_cache_delete('dialogpro_api') removes the key
     * 'dialogpro_api' of the default group; the cached responses, which
     * live in the 'dialogpro_api' group, all stay.
     */
    method ClearCache()
      modifies this`cache
      ensures cache == old(cache) - {CacheKey("", CacheGroup)}
      ensures forall k :: k in old(cache) && k.group == CacheGroup ==> k in cache && cache[k] == old(cache)[k]
    {
      cache := cache - {CacheKey("", CacheGroup)};
    }
  }
}
