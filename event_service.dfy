/** Events: the active list, one event's details, editing, and the date and
    colour helpers of the event screens. */
module EventService {
  import opened Js
  import opened Api
  import opened ApiTypes
  import opened Envelope

  const LoadFailure := "Erro ao carregar eventos"
  const DetailsFailure := "Erro ao carregar detalhes do evento"
  const UnknownFormat := "Formato de resposta inválido"
  const NotFound := "Evento não encontrado"

  /** `getActiveEvents`, applied to the gateway's answer to `GET` on the
      active-events endpoint. It never fails on a payload shape it does not
      recognise: that gives an empty list. */
  function GetActiveEvents(r: Result<Json>): (out: Result<Json>)
    ensures out.Success? <==> Delivered(r) && !ErrorFlagged(r.data)
    ensures out.Success? ==> out.data == ListFrom(r.data, "eventos")
    ensures Delivered(r) && ErrorFlagged(r.data) ==> out == Failure(ErrorMessage(r.data, LoadFailure))
    ensures !Delivered(r) ==> out == Failure(JStr(InvalidResponse))
  {
    DecodeList(r, "eventos", LoadFailure)
  }

  /** A wrapped event: the first element of an array (`undefined`, here
      `null`, when it is empty), or the value itself. */
  function FirstOrSelf(v: Json): (e: Json)
    ensures v.JArr? && v.items != [] ==> e == v.items[0]
    ensures v.JArr? && v.items == [] ==> e == JNull
    ensures !v.JArr? ==> e == v
  {
    if v.JArr? then (if v.items != [] then v.items[0] else JNull) else v
  }

  /** Where `getEventDetails` finds the event in a payload: `dados`, then
      `evento`, then `data`, then the payload itself if it has both an `id`
      and a `nome`; `None` when it has none of these. */
  function DetailsCandidate(p: Json): (e: Option<Json>)
    ensures e.None? <==> !Present(Get(p, "dados")) && !Present(Get(p, "evento")) && !Present(Get(p, "data"))
                         && !(Present(Get(p, "id")) && Present(Get(p, "nome")))
    ensures Present(Get(p, "dados")) ==> e == Some(FirstOrSelf(Get(p, "dados").value))
    ensures !Present(Get(p, "dados")) && Present(Get(p, "evento")) ==> e == Get(p, "evento")
    ensures (!Present(Get(p, "dados")) && !Present(Get(p, "evento")) && Present(Get(p, "data"))) ==>
              e == Some(FirstOrSelf(Get(p, "data").value))
    ensures (!Present(Get(p, "dados")) && !Present(Get(p, "evento")) && !Present(Get(p, "data"))
             && Present(Get(p, "id")) && Present(Get(p, "nome"))) ==> e == Some(p)
  {
    if Present(Get(p, "dados")) then Some(FirstOrSelf(Get(p, "dados").value))
    else if Present(Get(p, "evento")) then Get(p, "evento")
    else if Present(Get(p, "data")) then Some(FirstOrSelf(Get(p, "data").value))
    else if Present(Get(p, "id")) && Present(Get(p, "nome")) then Some(p)
    else None
  }

  /** The endpoint of one event. */
  function EventEndpoint(eventId: string): string
  {
    EventsEndpoint + "/" + eventId
  }

  /** `getEventDetails`, applied to the gateway's answer to `GET` on the
      event's endpoint. A success always carries a truthy event. */
  function GetEventDetails(r: Result<Json>): (out: Result<Json>)
    ensures out.Success? ==> Delivered(r) && !ErrorFlagged(r.data) && Truthy(out.data)
    ensures out.Success? ==> DetailsCandidate(r.data) == Some(out.data)
    ensures !Delivered(r) ==> out == Failure(JStr(InvalidResponse))
    ensures Delivered(r) && ErrorFlagged(r.data) ==> out == Failure(ErrorMessage(r.data, DetailsFailure))
    ensures Delivered(r) && !ErrorFlagged(r.data) && DetailsCandidate(r.data).None? ==>
              out == Failure(JStr(UnknownFormat))
    ensures Delivered(r) && !ErrorFlagged(r.data) && DetailsCandidate(r.data).Some? ==>
              (out.Success? <==> Truthy(DetailsCandidate(r.data).value))
    ensures (Delivered(r) && !ErrorFlagged(r.data) && DetailsCandidate(r.data).Some?
             && !Truthy(DetailsCandidate(r.data).value)) ==> out == Failure(JStr(NotFound))
  {
    if !Delivered(r) then Failure(JStr(InvalidResponse))
    else if ErrorFlagged(r.data) then Failure(ErrorMessage(r.data, DetailsFailure))
    else match DetailsCandidate(r.data)
      case None => Failure(JStr(UnknownFormat))
      case Some(e) => if Truthy(e) then Success(e) else Failure(JStr(NotFound))
  }

  /** An empty `dados` list means the event was not found; a `dados` list
      gives its first event, and a `dados` object is the event. */
  lemma DetailsFromDados(items: seq<Json>, ev: seq<(string, Json)>)
    ensures GetEventDetails(Success(JObj([("dados", JArr([]))]))) == Failure(JStr(NotFound))
    ensures items != [] && Truthy(items[0]) ==>
              GetEventDetails(Success(JObj([("dados", JArr(items))]))) == Success(items[0])
    ensures GetEventDetails(Success(JObj([("dados", JObj(ev))]))) == Success(JObj(ev))
  {
    assert Get(JObj([("dados", JArr([]))]), "erro") == None;
    assert Get(JObj([("dados", JArr(items))]), "erro") == None;
    assert Get(JObj([("dados", JObj(ev))]), "erro") == None;
  }

  /** A payload that is itself the event, with an `id` and a `nome`, is
      accepted as it is; without either it is an unknown format. */
  lemma DetailsDirect(id: Json, nome: Json)
    requires Truthy(id) && Truthy(nome)
    ensures GetEventDetails(Success(JObj([("id", id), ("nome", nome)]))) == Success(JObj([("id", id), ("nome", nome)]))
    ensures GetEventDetails(Success(JObj([("id", id)]))) == Failure(JStr(UnknownFormat))
  {
    var p := JObj([("id", id), ("nome", nome)]);
    assert Get(p, "dados") == None && Get(p, "evento") == None && Get(p, "data") == None && Get(p, "erro") == None;
    assert "id" != "nome";
    assert Lookup([("nome", nome)], "nome") == Some(nome);
    assert Get(p, "id") == Some(id) && Get(p, "nome") == Some(nome);
    var q := JObj([("id", id)]);
    assert Get(q, "dados") == None && Get(q, "evento") == None && Get(q, "data") == None && Get(q, "erro") == None;
    assert Get(q, "nome") == None;
  }

  /** `updateEvent`: sends a `PUT` with the new data to the event's endpoint,
      authenticated, and returns the gateway's result unchanged. */
  method UpdateEvent(api: ApiService, eventId: string, eventData: Json, response: HttpOutcome)
    returns (sent: HttpRequest, out: Result<Json>)
    ensures sent.url == api.baseUrl + EventEndpoint(eventId) && sent.verb == PUT
    ensures sent.headers == HeadersFor(true, api.store.items)
    ensures sent.body.Some? <==> Truthy(eventData)
    ensures out == MapResponse(response)
  {
    sent, out := api.Request(EventEndpoint(eventId), RequestOptions(Some(PUT), Some(eventData), None, None), response);
  }

  /** `isEventPast`. */
  predicate IsEventPast(date: Option<int>, now: int)
  {
    Past(date, now)
  }

  /** The colour `getEventStatusColor` gives a lower-case status. */
  function LabelColor(lowered: string): (color: string)
    ensures color in {Green, Blue, Yellow, Red, Grey}
    ensures color == Green <==> lowered == "ativo" || lowered == "publicado"
    ensures color == Blue <==> lowered == "vendendo"
    ensures color == Yellow <==> lowered == "esgotado"
    ensures color == Red <==> lowered == "cancelado"
    ensures color == Grey <==> lowered !in {"ativo", "publicado", "vendendo", "esgotado", "cancelado"}
  {
    match lowered
    case "ativo" => Green
    case "publicado" => Green
    case "vendendo" => Blue
    case "esgotado" => Yellow
    case "cancelado" => Red
    case "finalizado" => Grey
    case _ => Grey
  }

  /** `getEventStatusColor`: the status is lower-cased first. */
  function EventStatusColor(status: string): (color: string)
    ensures color in {Green, Blue, Yellow, Red, Grey}
    ensures color == Green <==> Lower(status) == "ativo" || Lower(status) == "publicado"
    ensures color == Blue <==> Lower(status) == "vendendo"
    ensures color == Yellow <==> Lower(status) == "esgotado"
    ensures color == Red <==> Lower(status) == "cancelado"
    ensures color == Grey <==> Lower(status) !in {"ativo", "publicado", "vendendo", "esgotado", "cancelado"}
  {
    LabelColor(Lower(status))
  }

  /** The colour of a status does not depend on its capitalisation. */
  lemma EventStatusColorCaseInsensitive(status: string)
    ensures EventStatusColor(Lower(status)) == EventStatusColor(status)
  {
    LowerIdempotent(status);
  }
}
