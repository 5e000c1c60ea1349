/** The HTTP gateway and the credential store. Every call of the client goes
    through `ApiService.request`: it builds the URL and headers, sends the
    request, and maps whatever comes back (a JSON body, a body that is not
    JSON, or no response at all) to one uniform result. The store is the
    device's key-value storage, of which the client uses two keys. */
module Api {
  import opened Js
  import TextCodec

  // ---------------------------------------------------------------------------
  // Endpoints

  const LoginEndpoint := "/api/appadmin/auth/login"
  const UsersEndpoint := "/api/appadmin/usuarios"
  const ActiveEventsEndpoint := "/api/appadmin/eventos/ativos"
  const EventsEndpoint := "/api/appadmin/eventos"
  const TicketsEndpoint := "/api/appadmin/ingressos"
  const BatchesEndpoint := "/api/appadmin/lotes"
  const CouponsEndpoint := "/api/appadmin/cupons"
  const CourtesiesEndpoint := "/api/appadmin/cortesias"
  const SendCourtesyEndpoint := "/api/appadmin/cortesias/disparar"
  const QrCodeEndpoint := "/api/appadmin/qrcode/ler"
  const FacialEndpoint := "/api/appadmin/validacao/facial"

  // ---------------------------------------------------------------------------
  // Store keys and the store's meaning

  const AuthTokenKey := "auth_token"
  const UserDataKey := "user_data"

  /** The stored token as `getItem` returns it: the text, or `null`. */
  function StoredToken(items: map<string, string>): (t: Option<string>)
    ensures t.Some? <==> AuthTokenKey in items
    ensures t.Some? ==> t.value == items[AuthTokenKey]
  {
    if AuthTokenKey in items then Some(items[AuthTokenKey]) else None
  }

  /** `isAuthenticated`: a token is stored and it is not empty. */
  predicate Authenticated(items: map<string, string>)
  {
    StoredToken(items).Some? && StoredToken(items).value != ""
  }

  /** `getUserData`: the stored record, or `null` (`JNull`) when the key is
      missing, holds the empty text, or does not parse. */
  function StoredUser(items: map<string, string>): (u: Json)
    ensures UserDataKey !in items ==> u == JNull
    ensures UserDataKey in items && (items[UserDataKey] == "" || TextCodec.Decode(items[UserDataKey]).None?) ==>
              u == JNull
    ensures UserDataKey in items && items[UserDataKey] != "" && TextCodec.Decode(items[UserDataKey]).Some? ==>
              u == TextCodec.Decode(items[UserDataKey]).value
  {
    if UserDataKey !in items || items[UserDataKey] == "" then JNull
    else match TextCodec.Decode(items[UserDataKey])
      case None => JNull
      case Some(v) => v
  }

  /** Saving a record and reading it back gives the same record. */
  lemma StoredUserRoundTrip(items: map<string, string>, user: Json)
    ensures StoredUser(items[UserDataKey := TextCodec.Encode(user)]) == user
  {
    TextCodec.DecodeEncode(user);
  }

  /** Removing the session keys leaves no token and no record behind. */
  lemma RemovedSessionIsEmpty(items: map<string, string>)
    ensures !Authenticated(items - {AuthTokenKey, UserDataKey})
    ensures StoredUser(items - {AuthTokenKey, UserDataKey}) == JNull
  {
  }

  /** Saving a token authenticates exactly when the token is not empty, and
      leaves the stored record as it was. */
  lemma SavedTokenAuthenticates(items: map<string, string>, token: string)
    ensures Authenticated(items[AuthTokenKey := token]) <==> token != ""
    ensures StoredUser(items[AuthTokenKey := token]) == StoredUser(items)
  {
    assert items[AuthTokenKey := token][UserDataKey := ""] == items[UserDataKey := ""][AuthTokenKey := token];
  }

  // ---------------------------------------------------------------------------
  // Requests

  datatype Method = GET | POST | PUT | DELETE

  /** The options of `request`; `None` is an option left out. */
  datatype RequestOptions = RequestOptions(
    verb: Option<Method>,
    body: Option<Json>,
    includeAuth: Option<bool>,
    queryParams: Option<seq<(string, string)>>)

  /** What is handed to `fetch`. `body` is the serialised body, if any. */
  datatype HttpRequest = HttpRequest(
    url: string,
    verb: Method,
    headers: map<string, string>,
    body: Option<string>)

  /** `getHeaders`: the JSON content type always; the bearer token of
      section 2.1 of RFC 6750 when authentication is asked for and a
      non-empty token is stored. */
  function HeadersFor(includeAuth: bool, items: map<string, string>): (h: map<string, string>)
    ensures "Content-Type" in h && h["Content-Type"] == "application/json"
    ensures "Authorization" in h <==> includeAuth && Authenticated(items)
    ensures "Authorization" in h ==> h["Authorization"] == "Bearer " + items[AuthTokenKey]
    ensures h.Keys <= {"Content-Type", "Authorization"}
  {
    var h := map["Content-Type" := "application/json"];
    if includeAuth && Authenticated(items) then h["Authorization" := "Bearer " + items[AuthTokenKey]] else h
  }

  /** The text of `URLSearchParams`, `k=v` pairs joined by `&` in insertion
      order. */
  function QueryText(params: seq<(string, string)>): string
  {
    if params == [] then ""
    else
      var pair := params[0].0 + "=" + params[0].1;
      if |params| == 1 then pair else pair + "&" + QueryText(params[1..])
  }

  /** The URL of a request: the base URL, the endpoint, and a query part only
      when parameters are given (an empty set of parameters still adds `?`). */
  function RequestUrl(baseUrl: string, endpoint: string, query: Option<seq<(string, string)>>): (url: string)
    ensures query.None? ==> url == baseUrl + endpoint
    ensures query.Some? ==> url == baseUrl + endpoint + "?" + QueryText(query.value)
  {
    if query.Some? then baseUrl + endpoint + "?" + QueryText(query.value) else baseUrl + endpoint
  }

  // ---------------------------------------------------------------------------
  // Responses

  /** The body of a response: a parsed JSON value, or text that is not JSON
      (on which `response.json()` throws). */
  datatype Body = Parsed(value: Json) | NotJson

  /** What `fetch` yields: a response, or a rejection (no connection). */
  datatype HttpOutcome = Responded(status: int, body: Body) | NetworkError

  /** `response.ok`. */
  predicate Ok(status: int)
  {
    200 <= status <= 299
  }

  /** The uniform result of the gateway and of the services. The error is
      the JSON value the code carries, which is text in every path but the
      backend's own `message`/`mensagem` fields. */
  datatype Result<T> = Success(data: T) | Failure(error: Json)

  const ConnectionError := "Erro de conexão. Verifique sua internet."

  /** The response-to-result mapping of `request`. */
  function MapResponse(o: HttpOutcome): (r: Result<Json>)
    ensures r.Success? <==> o.Responded? && Ok(o.status) && o.body.Parsed?
    ensures r.Success? ==> r.data == o.body.value
    ensures o.NetworkError? || o.body.NotJson? ==> r == Failure(JStr(ConnectionError))
    ensures o.Responded? && !Ok(o.status) && o.body == Parsed(JNull) ==> r == Failure(JStr(ConnectionError))
    ensures o.Responded? && !Ok(o.status) && o.body.Parsed? && o.body.value != JNull ==>
              r == Failure(Or(Get(o.body.value, "message"), JStr("Erro " + IntText(o.status))))
  {
    match o
    case NetworkError => Failure(JStr(ConnectionError))
    case Responded(status, NotJson) => Failure(JStr(ConnectionError))
    case Responded(status, Parsed(body)) =>
      if Ok(status) then Success(body)
      // `null.message` throws, and the exception is caught like any other
      else if body == JNull then Failure(JStr(ConnectionError))
      else Failure(Or(Get(body, "message"), JStr("Erro " + IntText(status))))
  }

  /** Every failure of the gateway carries a truthy error, so `error ||
      fallback` in a caller never reaches its fallback. */
  lemma GatewayErrorTruthy(o: HttpOutcome)
    ensures MapResponse(o).Failure? ==> Truthy(MapResponse(o).error)
  {
  }

  // ---------------------------------------------------------------------------
  // The store

  /** The device storage: a map from keys to texts. */
  class Storage {
    var items: map<string, string>

    constructor(initial: map<string, string>)
      ensures items == initial
    {
      items := initial;
    }

    /** `getAuthToken`. */
    method GetAuthToken() returns (token: Option<string>)
      ensures token == StoredToken(items)
    {
      if AuthTokenKey in items {
        token := Some(items[AuthTokenKey]);
      } else {
        token := None;
      }
    }

    /** `saveAuthToken`. */
    method SaveAuthToken(token: string)
      modifies this
      ensures items == old(items)[AuthTokenKey := token]
    {
      items := items[AuthTokenKey := token];
    }

    /** `removeAuthToken`: removes the token, then the user record; no other
        key is touched. */
    method RemoveAuthToken()
      modifies this
      ensures items == old(items) - {AuthTokenKey, UserDataKey}
    {
      items := items - {AuthTokenKey};
      items := items - {UserDataKey};
    }

    /** `saveUserData`. */
    method SaveUserData(user: Json)
      modifies this
      ensures items == old(items)[UserDataKey := TextCodec.Encode(user)]
      ensures StoredUser(items) == user
    {
      items := items[UserDataKey := TextCodec.Encode(user)];
      StoredUserRoundTrip(old(items), user);
    }

    /** `getUserData`. */
    method GetUserData() returns (user: Json)
      ensures user == StoredUser(items)
    {
      if UserDataKey in items && items[UserDataKey] != "" {
        var parsed := TextCodec.Decode(items[UserDataKey]);
        user := if parsed.Some? then parsed.value else JNull;
      } else {
        user := JNull;
      }
    }

    /** `isAuthenticated`. */
    method IsAuthenticated() returns (b: bool)
      ensures b <==> Authenticated(items)
    {
      var token := GetAuthToken();
      b := token.Some? && token.value != "";
    }
  }

  // ---------------------------------------------------------------------------
  // The gateway

  class ApiService {
    const baseUrl: string
    const store: Storage

    constructor(baseUrl: string, store: Storage)
      ensures this.baseUrl == baseUrl && this.store == store
    {
      this.baseUrl := baseUrl;
      this.store := store;
    }

    /** `getHeaders`. */
    method GetHeaders(includeAuth: bool) returns (headers: map<string, string>)
      ensures headers == HeadersFor(includeAuth, store.items)
    {
      headers := map["Content-Type" := "application/json"];
      if includeAuth {
        var token := store.GetAuthToken();
        if token.Some? && token.value != "" {
          headers := headers["Authorization" := "Bearer " + token.value];
        }
      }
    }

    /** `request`: the request handed to `fetch` for `endpoint` and
        `options`, and the result for the outcome `response` of that fetch.
        Defaults: method `GET`, authentication on. The body is serialised
        only when it is truthy. */
    method Request(endpoint: string, options: RequestOptions, response: HttpOutcome)
      returns (sent: HttpRequest, r: Result<Json>)
      ensures sent.url == RequestUrl(baseUrl, endpoint, options.queryParams)
      ensures sent.verb == if options.verb.Some? then options.verb.value else GET
      ensures sent.headers == HeadersFor(options.includeAuth != Some(false), store.items)
      ensures sent.body.Some? <==> Present(options.body)
      ensures sent.body.Some? ==> TextCodec.Decode(sent.body.value) == options.body
      ensures r == MapResponse(response)
    {
      var verb := if options.verb.Some? then options.verb.value else GET;
      var includeAuth := if options.includeAuth.Some? then options.includeAuth.value else true;
      var url := baseUrl + endpoint;
      if options.queryParams.Some? {
        url := url + "?" + QueryText(options.queryParams.value);
      }
      var headers := GetHeaders(includeAuth);
      var body: Option<string> := None;
      if Present(options.body) {
        body := Some(TextCodec.Encode(options.body.value));
        TextCodec.DecodeEncode(options.body.value);
      }
      sent := HttpRequest(url, verb, headers, body);
      r := MapResponse(response);
    }
  }
}
