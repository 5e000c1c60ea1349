/** The session manager of the app (`AuthProvider`): the current user and a
    loading flag, kept in step with the credential store through four
    operations — restoring the session at start, login, logout and
    refreshing the user. */
module AuthContext {
  import opened Js
  import opened Api
  import opened ApiTypes
  import opened Envelope
  import UserUtils
  import AuthService
  import TextCodec

  // ---------------------------------------------------------------------------
  // Restoring the session

  /** The user shown and the store's contents. `JNull` is "no user". */
  datatype Session = Session(user: Json, items: map<string, string>)

  /** `checkAuthStatus` on a store: without a token there is no user; with a
      token, the saved record if it is truthy, and otherwise no user and a
      store emptied of both session keys. */
  function Restore(items: map<string, string>): (s: Session)
    ensures Truthy(s.user) <==> Authenticated(s.items)
    ensures Truthy(s.user) ==> s.user == StoredUser(s.items) && s.items == items
    ensures Authenticated(items) && Truthy(StoredUser(items)) ==> s == Session(StoredUser(items), items)
    ensures !Authenticated(items) ==> s == Session(JNull, items)
    ensures Authenticated(items) && !Truthy(StoredUser(items)) ==>
              s == Session(JNull, items - {AuthTokenKey, UserDataKey})
    ensures s.items == items || s.items == items - {AuthTokenKey, UserDataKey}
  {
    if !Authenticated(items) then Session(JNull, items)
    else if Truthy(StoredUser(items)) then Session(StoredUser(items), items)
    else
      RemovedSessionIsEmpty(items);
      Session(JNull, items - {AuthTokenKey, UserDataKey})
  }

  /** Restoring twice is restoring once. */
  lemma RestoreIdempotent(items: map<string, string>)
    ensures Restore(Restore(items).items) == Restore(items)
  {
    if Authenticated(items) && !Truthy(StoredUser(items)) {
      RemovedSessionIsEmpty(items);
    }
  }

  /** A session saved by a login is restored as it was saved. */
  lemma SavedSessionRestored(items: map<string, string>, token: string, user: Json)
    requires token != "" && Truthy(user)
    ensures Restore(items[AuthTokenKey := token][UserDataKey := TextCodec.Encode(user)]) ==
            Session(user, items[AuthTokenKey := token][UserDataKey := TextCodec.Encode(user)])
  {
    StoredUserRoundTrip(items[AuthTokenKey := token], user);
  }

  // ---------------------------------------------------------------------------
  // Login

  /** What `login` answers: success, or a failure carrying the service's
      error, which is `undefined` (`None`) when the service answered success
      with an empty payload. */
  datatype LoginReply = LoginOk | LoginFailed(error: Option<Json>)

  /** One of the four token fields is truthy but not text, so logging its
      first twenty characters throws. */
  predicate TokenLogThrows(d: Json)
  {
    (Present(Get(d, "api_token")) && !Get(d, "api_token").value.JStr?)
    || (Present(Get(d, "token")) && !Get(d, "token").value.JStr?)
    || (Present(GetIn(d, "data", "api_token")) && !GetIn(d, "data", "api_token").value.JStr?)
    || (Present(GetIn(d, "data", "token")) && !GetIn(d, "data", "token").value.JStr?)
  }

  /** The record built from the payload itself when it wraps no user: the
      payload's fields, with `email` defaulting to the typed e-mail. */
  function FallbackUser(d: Json, email: string, now: string): (u: Usuario)
    ensures u.email == Or(Get(d, "email"), JStr(email))
    ensures u.role.Some? && u.grupos_usuario.Some?
    ensures u.role == Some(UserUtils.CalculateUserRole(u.grupos_usuario))
    ensures Truthy(u.id) && Truthy(u.name)
  {
    var merged := JObj(Put(SpreadProps(d), "email", Or(Get(d, "email"), JStr(email))));
    assert Get(merged, "email") == Some(Or(Get(d, "email"), JStr(email)));
    UserUtils.ProcessUserData(merged, now)
  }

  /** The user `login` keeps: the first truthy of `user`, `usuario`,
      `data.user` and `data.usuario`, taken as it is, or else the record
      built from the payload. It is always truthy, so the fallback lookup
      that would follow an empty user never runs. */
  function LoginUser(d: Json, email: string, now: string): (u: Json)
    ensures Truthy(u)
    ensures Present(Get(d, "user")) ==> u == Get(d, "user").value
    ensures !Present(Get(d, "user")) && Present(Get(d, "usuario")) ==> u == Get(d, "usuario").value
    ensures (!Present(Get(d, "user")) && !Present(Get(d, "usuario")) && Present(GetIn(d, "data", "user"))) ==>
              u == GetIn(d, "data", "user").value
    ensures (!Present(Get(d, "user")) && !Present(Get(d, "usuario")) && !Present(GetIn(d, "data", "user"))
             && Present(GetIn(d, "data", "usuario"))) ==> u == GetIn(d, "data", "usuario").value
    ensures (!Present(Get(d, "user")) && !Present(Get(d, "usuario")) && !Present(GetIn(d, "data", "user"))
             && !Present(GetIn(d, "data", "usuario"))) ==> u == FallbackUser(d, email, now).ToJson()
  {
    if Present(Get(d, "user")) then Get(d, "user").value
    else if Present(Get(d, "usuario")) then Get(d, "usuario").value
    else if Present(GetIn(d, "data", "user")) then GetIn(d, "data", "user").value
    else if Present(GetIn(d, "data", "usuario")) then GetIn(d, "data", "usuario").value
    else FallbackUser(d, email, now).ToJson()
  }

  /** The user, store and answer after `login`. */
  datatype LoginEffect = LoginEffect(user: Json, items: map<string, string>, reply: LoginReply)

  /** `login` with the typed e-mail `email` (already trimmed) on a store,
      given the outcome of the login request and the clock's text `now`. */
  function LoginSpec(items: map<string, string>, email: string, response: HttpOutcome, now: string): (e: LoginEffect)
    ensures e.reply.LoginOk? ==> Truthy(e.user) && Authenticated(e.items) && StoredUser(e.items) == e.user
    ensures e.reply.LoginOk? ==> MapResponse(response).Success? && !TokenLogThrows(MapResponse(response).data)
                                 && e.user == LoginUser(MapResponse(response).data, email, now)
    ensures e.reply.LoginFailed? ==> e.user == JNull
    ensures Truthy(e.user) ==> Authenticated(e.items)
    ensures AuthService.LoginStep(MapResponse(response)).saved.None? ==> e.items == items && e.reply.LoginFailed?
    ensures e.items - {AuthTokenKey, UserDataKey} == items - {AuthTokenKey, UserDataKey}
    ensures MapResponse(response).Failure? ==> e == LoginEffect(JNull, items, LoginFailed(Some(MapResponse(response).error)))
    ensures var st := AuthService.LoginStep(MapResponse(response));
            st.saved.Some? && !TokenLogThrows(st.result.data) ==>
              e.reply == LoginOk && e.user == LoginUser(st.result.data, email, now)
              && e.items == items[AuthTokenKey := st.saved.value][UserDataKey := TextCodec.Encode(e.user)]
    ensures var st := AuthService.LoginStep(MapResponse(response));
            st.saved.Some? && TokenLogThrows(st.result.data) ==>
              e == LoginEffect(JNull, items[AuthTokenKey := st.saved.value], LoginFailed(Some(JStr(AuthService.InternalError))))
    ensures var st := AuthService.LoginStep(MapResponse(response));
            st.saved.None? ==> e.reply == LoginFailed(if st.result.Failure? then Some(st.result.error) else None)
  {
    var step := AuthService.LoginStep(MapResponse(response));
    var saved := if step.saved.Some? then items[AuthTokenKey := step.saved.value] else items;
    if step.saved.Some? then
      var d := step.result.data;
      if TokenLogThrows(d) then LoginEffect(JNull, saved, LoginFailed(Some(JStr(AuthService.InternalError))))
      else
        var u := LoginUser(d, email, now);
        StoredUserRoundTrip(saved, u);
        LoginEffect(u, saved[UserDataKey := TextCodec.Encode(u)], LoginOk)
    else
      LoginEffect(JNull, items, LoginFailed(if step.result.Failure? then Some(step.result.error) else None))
  }

  /** A response wrapping its user under `user` with a text token stores that
      user exactly as sent, without a derived role. */
  lemma WrappedUserStoredAsIs(items: map<string, string>, email: string, token: string, u: Json, now: string)
    requires token != "" && Truthy(u)
    ensures var e := LoginSpec(items, email, Responded(200, Parsed(JObj([("api_token", JStr(token)), ("user", u)]))), now);
            e.reply == LoginOk && e.user == u
            && e.items == items[AuthTokenKey := token][UserDataKey := TextCodec.Encode(u)]
  {
    var d := JObj([("api_token", JStr(token)), ("user", u)]);
    assert Get(d, "api_token") == Some(JStr(token));
    assert Lookup([("user", u)], "user") == Some(u);
    assert Get(d, "user") == Some(u);
    assert Lookup([("user", u)], "token") == None;
    assert Get(d, "token") == None && Get(d, "data") == None;
  }

  /** When a second token field is truthy but not text, the service has
      already saved the first token when the logging throws: the login fails
      with the token left in the store and no user shown. */
  lemma LogFailureLeavesToken(items: map<string, string>, email: string, token: string, now: string)
    requires token != ""
    ensures var e := LoginSpec(items, email, Responded(200, Parsed(JObj([("api_token", JStr(token)), ("token", JNum(7))]))), now);
            e.reply == LoginFailed(Some(JStr(AuthService.InternalError))) && e.user == JNull
            && e.items == items[AuthTokenKey := token]
  {
    var d := JObj([("api_token", JStr(token)), ("token", JNum(7))]);
    assert Get(d, "api_token") == Some(JStr(token));
    assert Lookup([("token", JNum(7))], "token") == Some(JNum(7));
    assert Get(d, "token") == Some(JNum(7));
    assert TokenLogThrows(d);
    var response := Responded(200, Parsed(d));
    assert MapResponse(response) == Success(d);
    assert AuthService.LoginToken(d) == Some(JStr(token));
    assert AuthService.LoginStep(Success(d)) == AuthService.LoginOutcome(Success(d), Some(token));
  }

  // ---------------------------------------------------------------------------
  // Refreshing the user

  /** `refreshUser`: only a user with a truthy `email` is refreshed, and only
      by a truthy user the lookup by that e-mail finds. */
  function Refreshed(user: Json, response: HttpOutcome): (u: Json)
    ensures !Present(Get(user, "email")) ==> u == user
    ensures Truthy(user) ==> Truthy(u)
    ensures u != user ==> AuthService.FirstUser(MapResponse(response), AuthService.UserNotFound) == Success(u) && Truthy(u)
    ensures var found := AuthService.FirstUser(MapResponse(response), AuthService.UserNotFound);
            Present(Get(user, "email")) && found.Success? && Truthy(found.data) ==> u == found.data
    ensures var found := AuthService.FirstUser(MapResponse(response), AuthService.UserNotFound);
            !(found.Success? && Truthy(found.data)) ==> u == user
  {
    if Present(Get(user, "email")) then
      var found := AuthService.FirstUser(MapResponse(response), AuthService.UserNotFound);
      if found.Success? && Truthy(found.data) then found.data else user
    else user
  }

  /** A failed lookup leaves the user as it was. */
  lemma FailedRefreshKeepsUser(user: Json, response: HttpOutcome)
    requires MapResponse(response).Failure?
    ensures Refreshed(user, response) == user
  {
  }

  // ---------------------------------------------------------------------------
  // The provider

  class AuthProvider {
    var user: Json
    var loading: bool
    const api: ApiService

    /** A user is shown only while a token is stored. */
    predicate Consistent()
      reads this, api.store
    {
      Truthy(user) ==> Authenticated(api.store.items)
    }

    /** The initial state: no user, loading. */
    constructor(api: ApiService)
      ensures this.api == api && user == JNull && loading
      ensures Consistent()
    {
      this.api := api;
      user := JNull;
      loading := true;
    }

    /** `checkAuthStatus`. */
    method CheckAuthStatus()
      modifies this, api.store
      ensures Session(user, api.store.items) == Restore(old(api.store.items))
      ensures !loading && Consistent()
    {
      loading := true;
      var authenticated := api.store.IsAuthenticated();
      if authenticated {
        var saved := api.store.GetUserData();
        if Truthy(saved) {
          user := saved;
        } else {
          user := JNull;
          AuthService.Logout(api);
        }
      } else {
        user := JNull;
      }
      loading := false;
    }

    /** `login`: the e-mail is trimmed before it is sent and before it is
        used as the fallback user's e-mail. */
    method Login(email: string, password: string, response: HttpOutcome, now: string) returns (reply: LoginReply)
      modifies this, api.store
      ensures LoginEffect(user, api.store.items, reply) == LoginSpec(old(api.store.items), Trim(email), response, now)
      ensures !loading && Consistent()
    {
      loading := true;
      var sent, result := AuthService.Login(api, LoginRequest(Trim(email), password), response);
      if result.Success? && Truthy(result.data) {
        if TokenLogThrows(result.data) {
          user := JNull;
          reply := LoginFailed(Some(JStr(AuthService.InternalError)));
        } else {
          var userData := LoginUser(result.data, Trim(email), now);
          api.store.SaveUserData(userData);
          user := userData;
          reply := LoginOk;
        }
      } else {
        user := JNull;
        reply := LoginFailed(if result.Failure? then Some(result.error) else None);
      }
      loading := false;
    }

    /** `logout`. */
    method Logout()
      modifies this, api.store
      ensures api.store.items == old(api.store.items) - {AuthTokenKey, UserDataKey}
      ensures user == JNull && !loading && Consistent()
    {
      loading := true;
      AuthService.Logout(api);
      user := JNull;
      loading := false;
    }

    /** `refreshUser`: looks the user up by its e-mail, written as text;
        neither the store nor the loading flag changes. */
    method RefreshUser(response: HttpOutcome)
      requires Consistent()
      modifies this
      ensures user == Refreshed(old(user), response)
      ensures loading == old(loading) && Consistent()
    {
      var email := Get(user, "email");
      if Present(email) {
        var sent, found := AuthService.GetCurrentUser(api, ToText(email.value), response);
        if found.Success? && Truthy(found.data) {
          user := found.data;
        }
      }
    }
  }
}
