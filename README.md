# Session and data-normalisation core of the Liga admin app, in Dafny

The Liga admin app is a React Native client for a ticketing backend. This project models its client-side core:

- **Gateway.** `ApiService.request` builds the URL and headers, sends the request, and maps the outcome to one uniform `{success, data | error}` result. The outcome is a JSON body, a body that is not JSON, or no connection.
- **Credential store.** Two keys of the device storage: `auth_token` and `user_data`.
- **Service decoders.** Coupons, courtesies, events, users and sales reports. Each turns a loosely shaped JSON payload into that result. An `erro: true` flag is a failure, and a list may be wrapped under `dados`, the entity's own key or `data`, or come bare.
- **Status and colour helpers.** Coupons, courtesies, events and roles.
- **Role derivation.** The role comes from the user's groups.
- **Session manager.** `AuthProvider` holds the current user and a loading flag. It keeps them in step with the store through restore, login, logout and refresh.

Module by module:

- **`Js`**: JavaScript values and the semantics the code relies on:
  - truthiness; `||`; `?.`
  - `toLowerCase`; `trim`; `String(x)`
  - property lookup, spread, and `{...o, k: v}`
- **`TextCodec`**: a self-delimiting text encoding. It stands in for `JSON.stringify`/`JSON.parse` on the stored user record; the decode of an encode is proved to be the identity.
- **`ApiTypes`**: the role tables, the colour palette, the record shapes, and the `Past` date test.
- **`UserUtils`**: role derivation, permissions, `processUserData`, and the role colours.
- **`Api`**:
  - endpoints and store keys;
  - the meaning of the store;
  - headers, URL and response mapping;
  - the classes `Storage` (a `map` field the methods update) and `ApiService`.
- **`Envelope`**: the payload conventions all list services share. These are the error flag, the wrapper chain, and `filter`.
- **`CouponService`, `CourtesyService`, `EventService`, `ReportService`, `AuthService`**: the services.
  - The functions decode the gateway's `Result`.
  - Calls that send a request or touch the store are methods over `ApiService`.
- **`AuthContext`**: the class `AuthProvider`. Each of its methods is tied to a function that specifies it (`Restore`, `LoginSpec`, `Refreshed`). Each keeps the invariant `Consistent`: a user is shown only while a token is stored.

Conventions:

- **Network and clock as inputs.** The network is an input value (`HttpOutcome`). The clock is an integer `now`, or its text where a date is only copied.
- **Dates.** A date is the instant `new Date(text)` gives. `None` stands for absent, empty or invalid; each of these compares false with `now`.
- **Storage.** The storage is a `map<string, string>`.

Behaviour of the code worth knowing, which the model follows as written:

- **How login stores the user.** A user that arrives wrapped in the login response (`user`, `usuario`, `data.user`, `data.usuario`) is stored exactly as sent. No `role` is derived for it. Only a user rebuilt from the bare payload gets one (`AuthContext.LoginUser`, `AuthContext.WrappedUserStoredAsIs`).
- **What `role` holds.** The derived `role` is a display name such as `Produtor`, not one of the group names.
- **Failed login.** A failed login leaves an earlier token in the store.
  - A login whose response has a non-text token field keeps the token it has just saved, although it reports failure (`AuthContext.LogFailureLeavesToken`).
- **Lost error messages.** The list services answer `Resposta inválida da API` for every gateway failure, so the gateway's own message is lost.
- **Wrapper order.** The wrappers of a list are tried in the order `dados`, the entity's key, `data`.

## Model

| member | source | states |
|---|---|---|
| ApiTypes.RoleTablesConsistent | types/api.ts:51-66 | every hierarchy group, and nothing else, has a display name; the hierarchy has no repeats; the five display names are pairwise distinct and differ from the default `Usuário` |
| ApiTypes.PastMonotone | services/couponService.ts:167-175 | a past date stays past as `now` grows; a missing or invalid date is never past |
| UserUtils.SearchHierarchy | services/userUtils.ts:12-17 | the linear search finds the first hierarchy entry, from a position on, that is among the groups, or reports that none is |
| UserUtils.CalculateUserRole | services/userUtils.ts:6-20 | `Usuário` for absent or empty groups; otherwise the display name of the earliest hierarchy entry among the groups; otherwise the first group unchanged |
| UserUtils.HighestRoleUnique | services/userUtils.ts:12-16 | at most one hierarchy position is the highest one present |
| UserUtils.RoleIgnoresGroupOrder | services/userUtils.ts:12-16 | two group lists with the same members give the same role, whatever their order |
| UserUtils.KnownRoleIsDisplayName | services/userUtils.ts:12-16 | a user with a known group gets one of the five display names, never the default |
| UserUtils.PdvPermission | services/userUtils.ts:25-43 | PDV access holds exactly when one of `pdv-local`, `administradores`, `produtor` is among the groups; an admin has it; a user without groups has neither |
| UserUtils.HasRole | services/userUtils.ts:25-27 | the groups are defined and contain the role |
| UserUtils.IsAdmin | services/userUtils.ts:32-34 | `hasRole` of `administradores` |
| UserUtils.CanUsePdv | services/userUtils.ts:39-43 | `hasRole` of one of `pdv-local`, `administradores`, `produtor`; characterised by `UserUtils.PdvPermission` |
| UserUtils.AdminRole | services/userUtils.ts:6-34 | an admin's role is `Administrador`, whatever else the groups hold |
| UserUtils.GroupNames | services/userUtils.ts:49-50 | names are given exactly for an array of texts, element by element; anything else gives none |
| UserUtils.ProcessUserData | services/userUtils.ts:48-65 | `id`→`user_id`→`unknown` and `name`→`nome`→`Usuário`; a truthy `email`, `cpf`, `created_at` or `status_aprovacao` is kept, and otherwise they default to empty, empty, the current time and `aprovado`; a list of group names is kept, and otherwise the groups are empty; `role` is the role of the groups; the avatar fields are copied |
| UserUtils.ProcessKeepsGroups | services/userUtils.ts:49-63 | a payload's own group list is kept unchanged and determines the role |
| UserUtils.RoleColor | services/userUtils.ts:70-84 | `Administrador` red, `Produtor` purple, `Atlética` green, `Comissário` yellow, `PDV Local` blue; anything that is not a display name is grey |
| UserUtils.RoleColorsDistinct | services/userUtils.ts:70-84 | the five roles get five different colours, none grey; the default role is grey |
| Api.StoredToken | services/api.ts:43-50 | the stored token is present exactly when the key is, with the stored text |
| Api.Authenticated | services/api.ts:171-174 | a token is stored and it is not the empty text (`!!token`) |
| Api.StoredUser | services/api.ts:160-168 | `null` when the key is missing, holds the empty text or does not parse; otherwise the parsed record |
| Api.StoredUserRoundTrip | services/api.ts:151-168 | reading the record back after saving it gives the saved record |
| TextCodec.Encode | services/api.ts:151-153 | the written form of a record opens with one of the seven value markers |
| TextCodec.Decode | services/api.ts:160-166 | only a text that opens with a value marker can read as a record |
| TextCodec.DecodeEncode | services/api.ts:151-166 | reading back a written record gives that record |
| TextCodec.DecodeTrailing | services/api.ts:160-166 | a written record with anything after it reads as nothing |
| Api.RemovedSessionIsEmpty | services/api.ts:141-174 | after both keys are removed, the store is not authenticated and holds no record |
| Api.SavedTokenAuthenticates | services/api.ts:132-174 | saving a token authenticates exactly when it is non-empty, and leaves the record as it was |
| Api.HeadersFor | services/api.ts:52-65 | JSON content type always; `Authorization: Bearer <token>` exactly when authentication is asked for and a non-empty token is stored; no other header |
| Api.RequestUrl | services/api.ts:80-84 | base URL plus endpoint, followed by `?` and the query only when parameters are given |
| Api.MapResponse | services/api.ts:94-128 | success exactly for an ok status with a JSON body, carrying the body unchanged; non-ok gives `message` or `Erro <status>`; no connection, a body that is not JSON, or a `null` error body gives the connection error |
| Api.GatewayErrorTruthy | services/api.ts:110-128 | every gateway failure carries a truthy error |
| Api.Storage.GetAuthToken | services/api.ts:43-50 | returns the stored token or none |
| Api.Storage.SaveAuthToken | services/api.ts:132-138 | writes the token and nothing else |
| Api.Storage.RemoveAuthToken | services/api.ts:141-148 | removes the token and the user record, and no other key |
| Api.Storage.SaveUserData | services/api.ts:151-157 | writes the encoded record, which then reads back as the saved one |
| Api.Storage.GetUserData | services/api.ts:160-168 | returns the decoded record, or `null` when it is missing, empty or unreadable |
| Api.Storage.IsAuthenticated | services/api.ts:171-174 | true exactly when a non-empty token is stored |
| Api.ApiService.GetHeaders | services/api.ts:52-65 | the headers `HeadersFor` describes for the current store |
| Api.ApiService.Request | services/api.ts:67-129 | URL per `RequestUrl`; verb defaults to GET; authentication defaults on; the body is sent only when truthy and decodes back to the given body; the result is `MapResponse` of the outcome |
| Envelope.ErrorMessage | services/couponService.ts:22-27 | `mensagem` when truthy, else the fallback; always truthy |
| Envelope.ListFrom | services/couponService.ts:29-47 | `dados` (an empty list unless an array), then the entity key as it is, then `data` (an empty list unless an array), then a bare array, then an empty list; the result is truthy and only the entity key can yield a non-array |
| Envelope.ListWrappersAgree | services/eventService.ts:32-48 | the same items give the same list under each wrapper and bare |
| Envelope.DadosTakesPrecedence | services/eventService.ts:32-34 | a truthy non-array `dados` hides every other wrapper and reads as an empty list |
| Envelope.DecodeList | services/eventService.ts:18-61 | success exactly for a delivered, unflagged payload, with its extracted list; a flagged payload gives its message or the fallback; anything else is an invalid response |
| Envelope.Keep | services/couponService.ts:77-87 | keeps exactly the elements satisfying the predicate, in order, never more than the input |
| Envelope.KeepAppend | services/couponService.ts:77-87 | filtering a concatenation is the concatenation of the filtered parts |
| Envelope.KeepAll | services/couponService.ts:77-87 | filtering returns the list unchanged exactly when every element satisfies the predicate |
| Envelope.KeepIdempotent | services/couponService.ts:77-87 | filtering twice by the same predicate is filtering once |
| Envelope.FilterList | services/courtesyService.ts:79-82 | a delivered array without `null` gives its filtered elements; a non-array or a `null` element makes the filter throw, giving the failure message; anything not delivered passes through |
| CouponService.GetAllCoupons | services/couponService.ts:9-68 | list decoding with the `cupons` key and `Erro ao carregar cupons` |
| CouponService.CouponsByEvent | services/couponService.ts:73-95 | a delivered list without `null` gives its coupons whose `evento_id` is the event, in order; a list failure passes through; a non-list or a `null` element fails with `Erro ao filtrar cupons` |
| CouponService.CreateCouponCall | services/couponService.ts:102-108 | the coupon is POSTed as the body to `/api/appadmin/cupons`, with the default authentication and no query |
| CouponService.CreateCoupon | services/couponService.ts:100-150 | the created coupon is the first truthy of `dados`, `cupom`, `data`, else the payload; always truthy; flagged and invalid payloads fail |
| CouponService.GetCouponStatus | services/couponService.ts:188-223 | inactive exactly when marked so (`0`, `'0'`, `inativo` in any case); else expired exactly when past its date; else used up exactly when a non-zero limit is reached; else active |
| CouponService.InactiveIgnoresDatesAndUsage | services/couponService.ts:199-202 | an inactive coupon stays inactive whatever its date and usage |
| CouponService.ExpiredBeforeUsedUp | services/couponService.ts:205-212 | a coupon both expired and used up is reported expired |
| CouponService.StatusMonotoneInTime | services/couponService.ts:205-207 | once expired, a coupon stays expired; an active or used-up coupon was no different earlier |
| CouponService.AnyCaseInativoMarks | services/couponService.ts:199-202 | `0`, `'0'` and `inativo` in any mix of capitals mark a coupon inactive |
| CouponService.ActiveMarkersNotInactive | services/couponService.ts:199-202 | `ativo` in any capitalisation, and every number but `0`, do not mark it inactive |
| CouponService.NoLimitNeverUsedUp | services/couponService.ts:210-212 | without a limit, or with limit 0, a coupon is never used up |
| CouponService.UsagePercentage | services/couponService.ts:180-183 | 0 without a non-zero limit; otherwise `usado / limite · 100` while that is below 100, and exactly 100 when `usado / limite` reaches 1; never above 100 |
| CouponService.UsageMonotone | services/couponService.ts:180-183 | more uses never lower the percentage |
| CouponService.CouponStatusColorCaseInsensitive | services/couponService.ts:228-241 | the colour does not depend on capitalisation |
| CouponService.LabelColor | services/couponService.ts:229-239 | green exactly for `ativo`, red for `expirado`, yellow for `esgotado`, grey for `inativo` and every other status |
| CouponService.CouponStatusColor | services/couponService.ts:228-241 | the same table applied to the lower-cased status |
| CouponService.LabelIsLower | services/couponService.ts:188-241 | each status label is lower case already, so its colour is its table entry |
| CouponService.OnlyInactiveIsGrey | services/couponService.ts:188-241 | a coupon's status is shown grey exactly when it is inactive |
| CouponService.StatusColorsDistinct | services/couponService.ts:228-241 | active, expired and used-up coupons get three different colours |
| CourtesyService.GetAllCourtesies | services/courtesyService.ts:9-68 | list decoding with the `cortesias` key and `Erro ao carregar cortesias` |
| CourtesyService.CourtesiesByEvent | services/courtesyService.ts:73-98 | a delivered list without `null` gives its courtesies whose `evento.id` or `evento_id` is the event, in order; a list failure passes through; a non-list or a `null` element fails with `Erro ao filtrar cortesias` |
| CourtesyService.EitherEventFormMatches | services/courtesyService.ts:79-82 | both ways of naming the event select a courtesy |
| CourtesyService.SendCourtesy | services/courtesyService.ts:103-141 | a delivered, unflagged payload is the result unchanged; a flagged one gives its message or `Erro ao disparar cortesia` |
| CourtesyService.CourtesyStatus | services/courtesyService.ts:164-183 | an explicit status wins, lower-cased; else used exactly when a use date is set, else expired exactly when past its date, else active |
| CourtesyService.UsedBeatsExpired | services/courtesyService.ts:170-178 | a used courtesy is reported used even once expired |
| CourtesyService.PendingOnlyExplicit | services/courtesyService.ts:164-183 | `pendente` only ever comes from the status field |
| CourtesyService.DerivedStatusColors | services/courtesyService.ts:164-201 | a status derived from dates is never grey; blue exactly when used, red exactly when expired and unused |
| CourtesyService.CourtesyStatusColorCaseInsensitive | services/courtesyService.ts:188-201 | the colour does not depend on capitalisation |
| CourtesyService.LabelColor | services/courtesyService.ts:189-200 | green exactly for `ativa`, blue for `utilizada`, red for `expirada`, yellow for `pendente`, grey for every other status |
| CourtesyService.CourtesyStatusColor | services/courtesyService.ts:188-201 | the same table applied to the lower-cased status |
| CourtesyService.GetUserName | services/courtesyService.ts:206-216 | an embedded user object gives its `name`, `nome` or `Usuário`; else the flat name; else `Usuário não identificado`; always truthy |
| CourtesyService.GetTicketName | services/courtesyService.ts:221-231 | an embedded ticket gives its `nome` or `Ingresso`; else the flat name; else `Ingresso não especificado`; always truthy |
| CourtesyService.EmbeddedUserWins | services/courtesyService.ts:206-216 | an embedded user object without a name hides the flat name |
| EventService.GetActiveEvents | services/eventService.ts:9-69 | list decoding with the `eventos` key and `Erro ao carregar eventos`; an unrecognised shape gives an empty list |
| EventService.FirstOrSelf | services/eventService.ts:99 | the first element of an array (none when empty), or the value itself |
| EventService.DetailsCandidate | services/eventService.ts:97-115 | `dados`, then `evento`, then `data`, then the payload when it has both `id` and `nome`; none otherwise |
| EventService.GetEventDetails | services/eventService.ts:74-143 | success only with a truthy event from the candidate chain; no candidate gives `Formato de resposta inválido`; a falsy candidate gives `Evento não encontrado`; flagged and invalid payloads fail |
| EventService.DetailsFromDados | services/eventService.ts:97-122 | an empty `dados` list is not found; a `dados` list gives its first event; a `dados` object is the event |
| EventService.DetailsDirect | services/eventService.ts:106-115 | a bare payload with `id` and `nome` is the event; without `nome` it is an unknown format |
| EventService.UpdateEvent | services/eventService.ts:148-170 | PUTs the data, authenticated, to the event's endpoint and returns the gateway's result unchanged |
| EventService.IsEventPast | services/eventService.ts:226-235 | the date is valid and earlier than `now`; a missing or invalid date is not past |
| EventService.LabelColor | services/eventService.ts:241-255 | green exactly for `ativo` and `publicado`, blue for `vendendo`, yellow for `esgotado`, red for `cancelado`, and grey for every other status |
| EventService.EventStatusColor | services/eventService.ts:240-256 | the same table applied to the lower-cased status |
| EventService.EventStatusColorCaseInsensitive | services/eventService.ts:240-256 | the colour does not depend on capitalisation |
| ReportService.SalesReport | services/reportService.ts:47-72 | a delivered, unflagged payload is the report unchanged; a flagged one gives its message or `Erro ao carregar relatório de vendas` |
| ReportService.FindSale | services/reportService.ts:95-100 | finds the first line whose `evento`, lower-cased, is the key, every line before it being named and not matching; finds none exactly when every line is named and none matches; throws exactly at a line without an `evento` text before any match |
| ReportService.FindSaleAppend | services/reportService.ts:95-100 | searching a concatenation searches the second part only when the first neither matches nor throws |
| ReportService.EventSales | services/reportService.ts:85-129 | a failed report gives `Dados de vendas não encontrados para este evento`; a missing or non-array line list, or a throwing search, gives the catch-all message; no match quotes the name; a match is the line |
| ReportService.CaseInsensitiveLookup | services/reportService.ts:95-107 | names that lower-case alike find the same line |
| ReportService.FoundByAnyCase | services/reportService.ts:95-107 | a line is found by its own name written in any case |
| ReportService.FirstMatchWins | services/reportService.ts:95-107 | of two lines of the event, the first is returned |
| ReportService.UnnamedLineThrows | services/reportService.ts:95-100 | a line without a name before the match makes the whole lookup fail |
| AuthService.LoginToken | services/authService.ts:22-25 | the first truthy of `api_token`, `data.api_token`, `token`, else `data.token` |
| AuthService.LoginStep | services/authService.ts:20-47 | a token is saved exactly when the answer is a success with a truthy payload, and then the answer is the gateway result and the token is the chain's non-empty text; no truthy token fails with `Token não encontrado na resposta do servidor`; a non-text token gives the internal error |
| AuthService.TokenPriority | services/authService.ts:22-25 | `api_token` wins over `token`, and `data.api_token` over `token` |
| AuthService.EmptyTokenRejected | services/authService.ts:27-36 | an empty token is no token |
| AuthService.Login | services/authService.ts:9-48 | POSTs the credentials without authentication; answers and writes the store as `LoginStep` says, touching no other key |
| AuthService.Logout | services/authService.ts:53-61 | removes the token and the user record |
| AuthService.FirstUser | services/authService.ts:83-93 | success exactly for a non-empty list (its first element) or a non-empty text (its first character); otherwise the not-found message |
| AuthService.LookupHidesGatewayError | services/authService.ts:83-93 | a gateway failure always becomes the not-found message |
| AuthService.GetCurrentUser | services/authService.ts:73-101 | asks for `email` with limit 1, authenticated and without body, and answers the first user found |
| AuthService.QueryValue | services/api.ts:81-83 | the value read back for a key is that of its first pair; none exactly when no pair has the key |
| AuthService.Param | services/authService.ts:110-112 | a filter adds its pair only when it is a non-empty text |
| AuthService.LimitParam | services/authService.ts:113 | the limit is added, in decimal, only when non-zero |
| AuthService.SearchQuery | services/authService.ts:108-113 | each truthy filter is in the query with its value, the limit in decimal, and no other key |
| AuthService.BuildSearchQuery | services/authService.ts:108-113 | the query built one filter at a time is `SearchQuery` |
| AuthService.SearchUsers | services/authService.ts:106-131 | sends `SearchQuery` of the filters, authenticated, and returns the gateway's result unchanged |
| AuthService.CpfQuery | services/authService.ts:138 | the CPF search asks for one user and leaves out an empty CPF |
| AuthService.FindUserByCpf | services/authService.ts:136-158 | searches by CPF with limit 1 and answers the first user or `Usuário não encontrado com este CPF` |
| Js.Trim | contexts/AuthContext.tsx:67 | the typed e-mail is trimmed: the result is the input less its leading and trailing white space, and neither starts nor ends with white space |
| Js.TrimIdempotent | contexts/AuthContext.tsx:67 | trimming an already trimmed e-mail changes nothing |
| AuthContext.Restore | contexts/AuthContext.tsx:29-60 | a user is shown exactly when a token is stored afterwards, and is then the stored record; a token with a truthy record restores that record and keeps the store; no token gives no user; a token without a record empties both keys |
| AuthContext.RestoreIdempotent | contexts/AuthContext.tsx:29-60 | restoring twice is restoring once |
| AuthContext.SavedSessionRestored | contexts/AuthContext.tsx:37-41 | a session saved by login is restored as saved |
| AuthContext.FallbackUser | contexts/AuthContext.tsx:97-103 | the rebuilt user keeps the payload's `email` or the typed one, and gets the role of its groups |
| AuthContext.LoginUser | contexts/AuthContext.tsx:84-103 | the first truthy of `user`, `usuario`, `data.user`, `data.usuario` as sent, else the rebuilt user; always truthy, so 121-148 never run |
| AuthContext.LoginSpec | contexts/AuthContext.tsx:62-162 | a saved text token whose logging does not throw gives success, with the kept user shown and stored after the token; a logging that throws gives the internal error with the token kept and no user; without a saved token the store is unchanged and the service's error is answered; only the two session keys change |
| AuthContext.WrappedUserStoredAsIs | contexts/AuthContext.tsx:85-87 | a user wrapped under `user` is stored exactly as sent |
| AuthContext.LogFailureLeavesToken | contexts/AuthContext.tsx:74-79 | a non-text second token field fails the login after the token was saved |
| AuthContext.Refreshed | contexts/AuthContext.tsx:177-188 | a user with a truthy email is replaced by the truthy user the lookup finds; a user without one, or a failed or empty lookup, keeps the user |
| AuthContext.FailedRefreshKeepsUser | contexts/AuthContext.tsx:181-183 | a failed lookup keeps the user |
| AuthContext.AuthProvider.constructor | contexts/AuthContext.tsx:22-23 | no user, loading |
| AuthContext.AuthProvider.CheckAuthStatus | contexts/AuthContext.tsx:29-60 | user and store become `Restore` of the old store; loading ends; the invariant holds |
| AuthContext.AuthProvider.Login | contexts/AuthContext.tsx:62-162 | user, store and answer are `LoginSpec` of the old store and the trimmed e-mail; loading ends; the invariant holds |
| AuthContext.AuthProvider.Logout | contexts/AuthContext.tsx:164-175 | both keys removed, no user, loading ends |
| AuthContext.AuthProvider.RefreshUser | contexts/AuthContext.tsx:177-188 | the user becomes `Refreshed` of the old one; loading and the store are unchanged; the invariant is kept |

## Left out

- Logging (`console.*`) is left out. The exception is the logging of a token's first characters in the login context, which can throw and is modelled (`AuthContext.TokenLogThrows`).
- Storage failures are left out. `AsyncStorage` calls never fail in the model; the code catches such failures and goes on.
- `fetch`, `JSON.stringify` and `JSON.parse` are not modelled as text. The response is an input value, and the stored record goes through `TextCodec` instead.
- Api.QueryText: the parameters are joined as `k=v` without percent-encoding.
- Numbers are integers. Fractional numbers, `NaN` and number formatting beyond integers are out; `calculateUsagePercentage` uses `real`, not floating point.
- Js.Lower: `toLowerCase` is modelled for ASCII and Latin-1 capitals only. Texts are sequences of characters, not UTF-16 code units.
- AuthService.FirstUser: an object with its own `length` property is not treated as having a length.
- UserUtils.ProcessUserData: a truthy `grupos_usuario` that is not an array of texts is taken as no groups, so the role is `Usuário` and a login that rebuilds the user succeeds. The code does otherwise. A truthy number, boolean or object has no `includes`, so `calculateUserRole` throws (services/userUtils.ts:12-13), and such a login fails with `Erro interno. Tente novamente.` after the token was saved. A text is searched by substring, and its first character is the role when no group matches. An array with some non-text elements is searched as it is. The code also keeps the payload's own `grupos_usuario` value in the record, whatever it is; the model keeps the list of names or the empty list.
- Js.SpreadProps: spreading an array or a text contributes no properties.
- AuthService.LoginStep: the write of a truthy token that is not text is not modelled. The model stores nothing and answers the internal error the logging throws.
- The login fallback that looks the user up by e-mail and builds a default user (contexts/AuthContext.tsx:121-148) is unreachable. It is proved so through `AuthContext.LoginUser`, and it is not modelled.
- Catch-all branches that no modelled step can reach are not modelled. This covers the services' `catch` blocks around calls that never throw.
- The endpoint lookups `RELATORIOS` (services/reportService.ts:41) and `CONTROLE_ENTRADA` (services/eventService.ts:272) are not modelled. Neither is defined in the endpoint table, so as written both calls always end in their catch-all failure; only the decoding logic after the call is modelled. `getControleEntradaTotalizadores` is not part of this model.
- Date parsing and formatting are left out: `formatEventDate`, `formatEventDateShort`, `isEventToday`, `formatExpirationDate`, `formatCreationDate`, `formatBRL` and `getDefaultPeriod` are locale and clock calls. Dates are instants compared with a `now` parameter.
- `services/config.ts` (an environment switch), the screens, components, theme and hooks are not part of this model.
- Overlapping asynchronous calls, unmount races and React state batching are not modelled: every operation runs to completion on its own.
- `AuthService.isAuthenticated` is a plain call of the store's `IsAuthenticated`, which `AuthContext.AuthProvider.CheckAuthStatus` uses directly.
