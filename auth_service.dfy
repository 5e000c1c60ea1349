/** Authentication and user lookup: login with its token selection, logout,
    the current user by e-mail, and the user search with its query. */
module AuthService {
  import opened Js
  import opened Api
  import opened ApiTypes
  import opened Envelope
  import TextCodec

  const NoToken := "Token não encontrado na resposta do servidor"
  const InternalError := "Erro interno. Tente novamente."
  const UserNotFound := "Usuário não encontrado"
  const CpfNotFound := "Usuário não encontrado com este CPF"

  // ---------------------------------------------------------------------------
  // Login

  /** `api_token || data?.api_token || token || data?.token`: the value of
      the chain, which is `undefined` (`None`) only when the last field is
      missing and the others are falsy. */
  function LoginToken(d: Json): (t: Option<Json>)
    ensures Present(Get(d, "api_token")) ==> t == Get(d, "api_token")
    ensures !Present(Get(d, "api_token")) && Present(GetIn(d, "data", "api_token")) ==>
              t == GetIn(d, "data", "api_token")
    ensures (!Present(Get(d, "api_token")) && !Present(GetIn(d, "data", "api_token"))
             && Present(Get(d, "token"))) ==> t == Get(d, "token")
    ensures (!Present(Get(d, "api_token")) && !Present(GetIn(d, "data", "api_token"))
             && !Present(Get(d, "token"))) ==> t == GetIn(d, "data", "token")
  {
    OrElse(Get(d, "api_token"), OrElse(GetIn(d, "data", "api_token"), OrElse(Get(d, "token"), GetIn(d, "data", "token"))))
  }

  /** What `login` answers for a gateway result, and the token it saves. */
  datatype LoginOutcome = LoginOutcome(result: Result<Json>, saved: Option<string>)

  /** The decision `login` takes on the gateway's result. A result that is
      not a success with a truthy payload is returned as it is; a payload
      without a truthy token is a failure; a text token is saved and the
      result returned as it is. Any other truthy token (a number, an object)
      makes the logging of its prefix throw, which the catch-all turns into
      an internal error. */
  function LoginStep(g: Result<Json>): (o: LoginOutcome)
    ensures o.saved.Some? <==> o.result.Success? && Truthy(o.result.data)
    ensures o.saved.Some? ==> o.result == g && LoginToken(g.data) == Some(JStr(o.saved.value)) && o.saved.value != ""
    ensures !Delivered(g) ==> o.result == g && o.saved.None?
    ensures Delivered(g) && !Present(LoginToken(g.data)) ==> o == LoginOutcome(Failure(JStr(NoToken)), None)
    ensures (Delivered(g) && Present(LoginToken(g.data)) && !LoginToken(g.data).value.JStr?) ==>
              o == LoginOutcome(Failure(JStr(InternalError)), None)
  {
    if !Delivered(g) then LoginOutcome(g, None)
    else
      var token := LoginToken(g.data);
      if !Present(token) then LoginOutcome(Failure(JStr(NoToken)), None)
      else if token.value.JStr? then LoginOutcome(g, Some(token.value.s))
      else LoginOutcome(Failure(JStr(InternalError)), None)
  }

  /** `api_token` wins over `token`, and the nested `data.api_token` over the
      flat `token`. */
  lemma TokenPriority(a: string, b: string, rest: seq<(string, Json)>)
    requires a != "" && b != ""
    ensures LoginToken(JObj([("api_token", JStr(a)), ("token", JStr(b))] + rest)) == Some(JStr(a))
    ensures LoginToken(JObj([("token", JStr(b)), ("data", JObj([("api_token", JStr(a))]))])) == Some(JStr(a))
  {
    assert Get(JObj([("api_token", JStr(a)), ("token", JStr(b))] + rest), "api_token") == Some(JStr(a));
    var d := JObj([("token", JStr(b)), ("data", JObj([("api_token", JStr(a))]))]);
    assert Lookup([("data", JObj([("api_token", JStr(a))]))], "api_token") == None;
    assert Get(d, "api_token") == None;
    assert Lookup([("data", JObj([("api_token", JStr(a))]))], "data") == Some(JObj([("api_token", JStr(a))]));
    assert Get(d, "data") == Some(JObj([("api_token", JStr(a))]));
  }

  /** An empty token is no token: a payload whose only token is `""` fails
      and saves nothing. */
  lemma EmptyTokenRejected()
    ensures LoginStep(Success(JObj([("token", JStr(""))]))) == LoginOutcome(Failure(JStr(NoToken)), None)
  {
    var d := JObj([("token", JStr(""))]);
    assert Get(d, "api_token") == None && Get(d, "data") == None;
    assert Get(d, "token") == Some(JStr(""));
  }

  /** `login`: posts the credentials without authentication, saves a found
      text token, and answers as `LoginStep` says. No other key of the store
      is touched. */
  method Login(api: ApiService, credentials: LoginRequest, response: HttpOutcome)
    returns (sent: HttpRequest, out: Result<Json>)
    modifies api.store
    ensures sent.url == api.baseUrl + LoginEndpoint && sent.verb == POST
    ensures "Authorization" !in sent.headers
    ensures sent.body.Some? && TextCodec.Decode(sent.body.value) == Some(credentials.ToJson())
    ensures out == LoginStep(MapResponse(response)).result
    ensures LoginStep(MapResponse(response)).saved.Some? ==>
              api.store.items == old(api.store.items)[AuthTokenKey := LoginStep(MapResponse(response)).saved.value]
    ensures LoginStep(MapResponse(response)).saved.None? ==> api.store.items == old(api.store.items)
  {
    var r;
    sent, r := api.Request(LoginEndpoint, RequestOptions(Some(POST), Some(credentials.ToJson()), Some(false), None), response);
    if Delivered(r) {
      var token := LoginToken(r.data);
      if !Present(token) {
        out := Failure(JStr(NoToken));
        return;
      }
      if !token.value.JStr? {
        out := Failure(JStr(InternalError));
        return;
      }
      api.store.SaveAuthToken(token.value.s);
    }
    out := r;
  }

  /** `logout`: the token and the user record leave the store. */
  method Logout(api: ApiService)
    modifies api.store
    ensures api.store.items == old(api.store.items) - {AuthTokenKey, UserDataKey}
  {
    api.store.RemoveAuthToken();
  }

  // ---------------------------------------------------------------------------
  // Looking users up

  /** `result.success && result.data && result.data.length > 0 ?
      result.data[0] : notFound`. A non-empty list gives its first element;
      a non-empty text (which also has a length) its first character;
      anything else, `notFound`. */
  function FirstUser(r: Result<Json>, notFound: string): (out: Result<Json>)
    ensures out.Success? <==> r.Success? && ((r.data.JArr? && r.data.items != []) || (r.data.JStr? && r.data.s != ""))
    ensures out.Success? && r.data.JArr? ==> out.data == r.data.items[0]
    ensures out.Success? && r.data.JStr? ==> out.data == JStr(r.data.s[..1])
    ensures out.Failure? ==> out.error == JStr(notFound)
  {
    if r.Success? && r.data.JArr? && r.data.items != [] then Success(r.data.items[0])
    else if r.Success? && r.data.JStr? && r.data.s != "" then Success(JStr(r.data.s[..1]))
    else Failure(JStr(notFound))
  }

  /** The gateway's own error is not passed on: a failed lookup always
      answers `notFound`. */
  lemma LookupHidesGatewayError(o: HttpOutcome, notFound: string)
    requires MapResponse(o).Failure?
    ensures FirstUser(MapResponse(o), notFound) == Failure(JStr(notFound))
  {
  }

  /** The query of `getCurrentUser`. */
  function CurrentUserQuery(email: string): seq<(string, string)>
  {
    [("email", email), ("limit", "1")]
  }

  /** `getCurrentUser`: the first user the search by e-mail returns. */
  method GetCurrentUser(api: ApiService, email: string, response: HttpOutcome)
    returns (sent: HttpRequest, out: Result<Json>)
    ensures sent.url == RequestUrl(api.baseUrl, UsersEndpoint, Some(CurrentUserQuery(email))) && sent.verb == GET
    ensures sent.headers == HeadersFor(true, api.store.items) && sent.body.None?
    ensures out == FirstUser(MapResponse(response), UserNotFound)
  {
    var r;
    sent, r := api.Request(UsersEndpoint, RequestOptions(Some(GET), None, None, Some(CurrentUserQuery(email))), response);
    out := FirstUser(r, UserNotFound);
  }

  /** The value `URLSearchParams.get(key)` gives: the first pair with the
      key. */
  function QueryValue(q: seq<(string, string)>, key: string): (v: Option<string>)
    ensures v.Some? ==> exists i :: 0 <= i < |q| && q[i] == (key, v.value)
    ensures v.None? <==> forall i :: 0 <= i < |q| ==> q[i].0 != key
  {
    if q == [] then None
    else if q[0].0 == key then Some(q[0].1)
    else QueryValue(q[1..], key)
  }

  lemma {:induction false} QueryValueAppend(a: seq<(string, string)>, b: seq<(string, string)>, key: string)
    ensures QueryValue(a + b, key) == if QueryValue(a, key).Some? then QueryValue(a, key) else QueryValue(b, key)
  {
    if a == [] {
      assert a + b == b;
    } else {
      assert (a + b)[0] == a[0];
      assert (a + b)[1..] == a[1..] + b;
      QueryValueAppend(a[1..], b, key);
    }
  }

  /** A filter that is set to a non-empty text. */
  predicate Filled(o: Option<string>)
  {
    o.Some? && o.value != ""
  }

  /** The pair a filter adds, if any. */
  function Param(key: string, o: Option<string>): (q: seq<(string, string)>)
    ensures QueryValue(q, key) == (if Filled(o) then o else None)
    ensures forall k :: k != key ==> QueryValue(q, k).None?
    ensures forall i :: 0 <= i < |q| ==> Filled(o) && q[i] == (key, o.value)
  {
    if Filled(o) then [(key, o.value)] else []
  }

  /** The `limit` pair, if the limit is truthy. */
  function LimitParam(limit: Option<int>): (q: seq<(string, string)>)
    ensures QueryValue(q, "limit") == (if limit.Some? && limit.value != 0 then Some(IntText(limit.value)) else None)
    ensures forall k :: k != "limit" ==> QueryValue(q, k).None?
    ensures forall i :: 0 <= i < |q| ==> q[i].0 == "limit" && q[i].1 != ""
  {
    if limit.Some? && limit.value != 0 then [("limit", IntText(limit.value))] else []
  }

  /** Looking a key up in four consecutive parts. */
  lemma QueryValue4(a: seq<(string, string)>, b: seq<(string, string)>, c: seq<(string, string)>,
                    d: seq<(string, string)>, key: string)
    ensures QueryValue(a + b + c + d, key)
            == if QueryValue(a, key).Some? then QueryValue(a, key)
               else if QueryValue(b, key).Some? then QueryValue(b, key)
               else if QueryValue(c, key).Some? then QueryValue(c, key)
               else QueryValue(d, key)
  {
    assert a + b + c + d == a + (b + (c + d));
    QueryValueAppend(a, b + (c + d), key);
    QueryValueAppend(b, c + d, key);
    QueryValueAppend(c, d, key);
  }

  /** The query `searchUsers` sends: each truthy filter once, in the order
      `nome`, `email`, `cpf`, `limit`, the limit written in decimal. */
  function SearchQuery(f: UserFilters): (q: seq<(string, string)>)
    ensures QueryValue(q, "nome") == (if Filled(f.nome) then f.nome else None)
    ensures QueryValue(q, "email") == (if Filled(f.email) then f.email else None)
    ensures QueryValue(q, "cpf") == (if Filled(f.cpf) then f.cpf else None)
    ensures QueryValue(q, "limit") == (if f.limit.Some? && f.limit.value != 0 then Some(IntText(f.limit.value)) else None)
    ensures forall k :: k !in {"nome", "email", "cpf", "limit"} ==> QueryValue(q, k).None?
  {
    var a, b, c, d := Param("nome", f.nome), Param("email", f.email), Param("cpf", f.cpf), LimitParam(f.limit);
    QueryValue4(a, b, c, d, "nome");
    QueryValue4(a, b, c, d, "email");
    QueryValue4(a, b, c, d, "cpf");
    QueryValue4(a, b, c, d, "limit");
    forall k | k !in {"nome", "email", "cpf", "limit"}
      ensures QueryValue(a + b + c + d, k).None?
    {
      QueryValue4(a, b, c, d, k);
    }
    a + b + c + d
  }

  /** `searchUsers` builds its query one filter at a time. */
  method BuildSearchQuery(f: UserFilters) returns (q: seq<(string, string)>)
    ensures q == SearchQuery(f)
  {
    q := [];
    if Filled(f.nome) {
      q := q + [("nome", f.nome.value)];
    }
    assert q == Param("nome", f.nome);
    if Filled(f.email) {
      q := q + [("email", f.email.value)];
    }
    assert q == Param("nome", f.nome) + Param("email", f.email);
    if Filled(f.cpf) {
      q := q + [("cpf", f.cpf.value)];
    }
    assert q == Param("nome", f.nome) + Param("email", f.email) + Param("cpf", f.cpf);
    if f.limit.Some? && f.limit.value != 0 {
      q := q + [("limit", IntText(f.limit.value))];
    }
  }

  /** `searchUsers`: the gateway's result, unchanged. */
  method SearchUsers(api: ApiService, filters: UserFilters, response: HttpOutcome)
    returns (sent: HttpRequest, out: Result<Json>)
    ensures sent.url == RequestUrl(api.baseUrl, UsersEndpoint, Some(SearchQuery(filters))) && sent.verb == GET
    ensures sent.headers == HeadersFor(true, api.store.items) && sent.body.None?
    ensures out == MapResponse(response)
  {
    var query := BuildSearchQuery(filters);
    sent, out := api.Request(UsersEndpoint, RequestOptions(Some(GET), None, None, Some(query)), response);
  }

  /** The filters `findUserByCPF` searches with. */
  function CpfFilters(cpf: string): UserFilters
  {
    UserFilters(None, None, Some(cpf), Some(1))
  }

  /** The CPF search asks for one user, and leaves the CPF out when it is
      empty. */
  lemma CpfQuery(cpf: string)
    ensures SearchQuery(CpfFilters(cpf)) == (if cpf == "" then [] else [("cpf", cpf)]) + [("limit", "1")]
  {
  }

  /** `findUserByCPF`: the first user the search by CPF returns. */
  method FindUserByCpf(api: ApiService, cpf: string, response: HttpOutcome)
    returns (sent: HttpRequest, out: Result<Json>)
    ensures sent.url == RequestUrl(api.baseUrl, UsersEndpoint, Some(SearchQuery(CpfFilters(cpf)))) && sent.verb == GET
    ensures out == FirstUser(MapResponse(response), CpfNotFound)
  {
    var r;
    sent, r := SearchUsers(api, CpfFilters(cpf), response);
    out := FirstUser(r, CpfNotFound);
  }
}
