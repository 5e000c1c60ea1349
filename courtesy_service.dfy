/** Complimentary tickets: listing, filtering by event, sending, and the
    labels and names shown for each courtesy. */
module CourtesyService {
  import opened Js
  import opened Api
  import opened ApiTypes
  import opened Envelope

  const LoadFailure := "Erro ao carregar cortesias"
  const FilterFailure := "Erro ao filtrar cortesias"
  const SendFailure := "Erro ao disparar cortesia"

  // ---------------------------------------------------------------------------
  // Decoding

  /** `getAllCourtesies`, applied to the gateway's answer to `GET` on the
      courtesy endpoint. */
  function GetAllCourtesies(r: Result<Json>): (out: Result<Json>)
    ensures out.Success? <==> Delivered(r) && !ErrorFlagged(r.data)
    ensures out.Success? ==> out.data == ListFrom(r.data, "cortesias")
    ensures Delivered(r) && ErrorFlagged(r.data) && !Present(Get(r.data, "mensagem")) ==>
              out == Failure(JStr(LoadFailure))
    ensures !Delivered(r) ==> out == Failure(JStr(InvalidResponse))
  {
    DecodeList(r, "cortesias", LoadFailure)
  }

  /** The courtesy belongs to the event, through its nested `evento.id` or
      its flat `evento_id`. */
  predicate OfEvent(eventId: string, cortesia: Json)
  {
    GetIn(cortesia, "evento", "id") == Some(JStr(eventId)) || Get(cortesia, "evento_id") == Some(JStr(eventId))
  }

  /** `getCourtesiesByEvent`: the listed courtesies of one event, in their
      order. */
  function CourtesiesByEvent(r: Result<Json>, eventId: string): (out: Result<Json>)
    ensures GetAllCourtesies(r).Failure? ==> out == GetAllCourtesies(r)
    ensures out.Success? ==>
              GetAllCourtesies(r).Success? && GetAllCourtesies(r).data.JArr?
              && out.data == JArr(Keep(GetAllCourtesies(r).data.items, c => OfEvent(eventId, c)))
    ensures out.Success? ==>
              forall c :: c in out.data.items <==> c in GetAllCourtesies(r).data.items && OfEvent(eventId, c)
    ensures GetAllCourtesies(r).Success? && !GetAllCourtesies(r).data.JArr? ==> out == Failure(JStr(FilterFailure))
    ensures GetAllCourtesies(r).Success? && GetAllCourtesies(r).data.JArr? && JNull !in GetAllCourtesies(r).data.items ==>
              out == Success(JArr(Keep(GetAllCourtesies(r).data.items, c => OfEvent(eventId, c))))
    ensures GetAllCourtesies(r).Success? && GetAllCourtesies(r).data.JArr? && JNull in GetAllCourtesies(r).data.items ==>
              out == Failure(JStr(FilterFailure))
  {
    FilterList(GetAllCourtesies(r), c => OfEvent(eventId, c), FilterFailure)
  }

  /** Both ways of naming the event select a courtesy. */
  lemma EitherEventFormMatches(eventId: string, rest: seq<(string, Json)>)
    ensures OfEvent(eventId, JObj([("evento", JObj([("id", JStr(eventId))]))] + rest))
    ensures OfEvent(eventId, JObj([("evento_id", JStr(eventId))] + rest))
  {
    assert Get(JObj([("evento", JObj([("id", JStr(eventId))]))] + rest), "evento")
      == Some(JObj([("id", JStr(eventId))]));
    assert Get(JObj([("evento_id", JStr(eventId))] + rest), "evento_id") == Some(JStr(eventId));
  }

  /** `sendCourtesy`: a flagged payload is a failure; any other delivered
      payload is the result, unchanged. */
  function SendCourtesy(r: Result<Json>): (out: Result<Json>)
    ensures out.Success? <==> Delivered(r) && !ErrorFlagged(r.data)
    ensures out.Success? ==> out == r
    ensures Delivered(r) && ErrorFlagged(r.data) ==> out == Failure(ErrorMessage(r.data, SendFailure))
    ensures !Delivered(r) ==> out == Failure(JStr(InvalidResponse))
  {
    if !Delivered(r) then Failure(JStr(InvalidResponse))
    else if ErrorFlagged(r.data) then Failure(ErrorMessage(r.data, SendFailure))
    else Success(r.data)
  }

  // ---------------------------------------------------------------------------
  // Status

  predicate Set(field: Option<string>)
  {
    field.Some? && field.value != ""
  }

  /** `getCourtesyStatus`: an explicit status wins, lower-cased, whatever it
      says; otherwise a use date makes it used, then a past expiry makes it
      expired, and anything else is active. */
  function CourtesyStatus(c: Cortesia, now: int): (s: string)
    ensures Set(c.status) ==> s == Lower(c.status.value)
    ensures !Set(c.status) ==> s in {"ativa", "utilizada", "expirada"}
    ensures !Set(c.status) ==> (s == "utilizada" <==> Set(c.data_utilizacao))
    ensures !Set(c.status) ==> (s == "expirada" <==> !Set(c.data_utilizacao) && Past(c.data_expiracao, now))
  {
    if Set(c.status) then Lower(c.status.value)
    else if Set(c.data_utilizacao) then "utilizada"
    else if Past(c.data_expiracao, now) then "expirada"
    else "ativa"
  }

  /** A used courtesy is reported used even once it has expired. */
  lemma UsedBeatsExpired(c: Cortesia, now: int)
    requires !Set(c.status) && Set(c.data_utilizacao) && Past(c.data_expiracao, now)
    ensures CourtesyStatus(c, now) == "utilizada"
  {
  }

  /** `pendente` only ever comes from the status field. */
  lemma PendingOnlyExplicit(c: Cortesia, now: int)
    requires CourtesyStatus(c, now) == "pendente"
    ensures Set(c.status) && Lower(c.status.value) == "pendente"
  {
  }

  /** The colour `getCourtesyStatusColor` gives a lower-case status. */
  function LabelColor(lowered: string): (color: string)
    ensures color in {Green, Blue, Red, Yellow, Grey}
    ensures color == Green <==> lowered == "ativa"
    ensures color == Blue <==> lowered == "utilizada"
    ensures color == Red <==> lowered == "expirada"
    ensures color == Yellow <==> lowered == "pendente"
    ensures color == Grey <==> lowered !in {"ativa", "utilizada", "expirada", "pendente"}
  {
    match lowered
    case "ativa" => Green
    case "utilizada" => Blue
    case "expirada" => Red
    case "pendente" => Yellow
    case _ => Grey
  }

  /** `getCourtesyStatusColor`: the status is lower-cased first. */
  function CourtesyStatusColor(status: string): (color: string)
    ensures color in {Green, Blue, Red, Yellow, Grey}
    ensures color == Green <==> Lower(status) == "ativa"
    ensures color == Blue <==> Lower(status) == "utilizada"
    ensures color == Red <==> Lower(status) == "expirada"
    ensures color == Yellow <==> Lower(status) == "pendente"
    ensures color == Grey <==> Lower(status) !in {"ativa", "utilizada", "expirada", "pendente"}
  {
    LabelColor(Lower(status))
  }

  /** A status derived from the dates is never shown grey, and the three
      derived statuses have three different colours. */
  lemma DerivedStatusColors(c: Cortesia, now: int)
    requires !Set(c.status)
    ensures CourtesyStatusColor(CourtesyStatus(c, now)) != Grey
    ensures CourtesyStatusColor(CourtesyStatus(c, now)) == Blue <==> Set(c.data_utilizacao)
    ensures CourtesyStatusColor(CourtesyStatus(c, now)) == Red <==>
              !Set(c.data_utilizacao) && Past(c.data_expiracao, now)
  {
    if Set(c.data_utilizacao) {
      UsedBlue();
    } else if Past(c.data_expiracao, now) {
      ExpiredRed();
    } else {
      ActiveGreen();
    }
  }

  lemma UsedBlue()
    ensures CourtesyStatusColor("utilizada") == Blue
  {
    LowerFixed("utilizada");
  }

  lemma ExpiredRed()
    ensures CourtesyStatusColor("expirada") == Red
  {
    LowerFixed("expirada");
  }

  lemma ActiveGreen()
    ensures CourtesyStatusColor("ativa") == Green
  {
    LowerFixed("ativa");
  }

  /** The colour of a status does not depend on its capitalisation. */
  lemma CourtesyStatusColorCaseInsensitive(status: string)
    ensures CourtesyStatusColor(Lower(status)) == CourtesyStatusColor(status)
  {
    LowerIdempotent(status);
  }

  // ---------------------------------------------------------------------------
  // Names

  /** The field holds an object (or an array, which `typeof` also calls an
      object). */
  predicate IsObject(v: Json)
  {
    Truthy(v) && (v.JObj? || v.JArr?)
  }

  /** `getUserName`. */
  function GetUserName(c: Cortesia): (name: Json)
    ensures Truthy(name)
    ensures IsObject(c.usuario) ==> name == Or(OrElse(Get(c.usuario, "name"), Get(c.usuario, "nome")), JStr(DefaultRole))
    ensures !IsObject(c.usuario) && Set(c.nome_usuario) ==> name == JStr(c.nome_usuario.value)
    ensures !IsObject(c.usuario) && !Set(c.nome_usuario) ==> name == JStr("Usuário não identificado")
  {
    if IsObject(c.usuario) then Or(OrElse(Get(c.usuario, "name"), Get(c.usuario, "nome")), JStr(DefaultRole))
    else if Set(c.nome_usuario) then JStr(c.nome_usuario.value)
    else JStr("Usuário não identificado")
  }

  /** `getTicketName`. */
  function GetTicketName(c: Cortesia): (name: Json)
    ensures Truthy(name)
    ensures IsObject(c.ingresso) ==> name == Or(Get(c.ingresso, "nome"), JStr("Ingresso"))
    ensures !IsObject(c.ingresso) && Set(c.nome_ingresso) ==> name == JStr(c.nome_ingresso.value)
    ensures !IsObject(c.ingresso) && !Set(c.nome_ingresso) ==> name == JStr("Ingresso não especificado")
  {
    if IsObject(c.ingresso) then Or(Get(c.ingresso, "nome"), JStr("Ingresso"))
    else if Set(c.nome_ingresso) then JStr(c.nome_ingresso.value)
    else JStr("Ingresso não especificado")
  }

  /** An embedded user object hides the flat name even when it has no name
      of its own. */
  lemma EmbeddedUserWins(c: Cortesia)
    requires c.usuario == JObj([]) && Set(c.nome_usuario)
    ensures GetUserName(c) == JStr(DefaultRole)
  {
  }
}
