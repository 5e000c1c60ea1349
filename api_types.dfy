/** The record shapes and constant tables the client shares with the ticketing
    backend. Fields the backend may send with any JSON type stay `Json`; a date
    field is the instant (milliseconds) that `new Date(text)` gives, or `None`
    when the text is absent, empty or not a date -- the core never does
    anything with a date but compare it with the current time, and an invalid
    date compares false exactly like a missing one. */
module ApiTypes {
  import opened Js

  /** Group names that carry a role, from the highest precedence down. */
  const RoleHierarchy: seq<string> :=
    ["administradores", "produtor", "atletica", "comissario", "pdv-local"]

  /** Display name of each role. */
  const RoleDisplayNames: map<string, string> := map[
    "administradores" := "Administrador",
    "produtor" := "Produtor",
    "atletica" := "Atlética",
    "comissario" := "Comissário",
    "pdv-local" := "PDV Local"
  ]

  /** The role shown for a user with no groups. */
  const DefaultRole := "Usuário"

  /** The role tables agree: every group of the hierarchy, and nothing else,
      has a display name; the hierarchy lists each group once; the display
      names are pairwise distinct and none of them is the default role. */
  lemma RoleTablesConsistent()
    ensures RoleDisplayNames.Keys == set r | r in RoleHierarchy
    ensures forall i, j :: 0 <= i < j < |RoleHierarchy| ==> RoleHierarchy[i] != RoleHierarchy[j]
    ensures forall i, j :: 0 <= i < j < |RoleHierarchy| ==>
              RoleDisplayNames[RoleHierarchy[i]] != RoleDisplayNames[RoleHierarchy[j]]
    ensures forall r :: r in RoleDisplayNames ==> RoleDisplayNames[r] != DefaultRole
  {
  }

  /** The colours the status and role helpers choose from. */
  const Green := "#10B981"
  const Red := "#EF4444"
  const Yellow := "#F59E0B"
  const Blue := "#3B82F6"
  const Purple := "#8B5CF6"
  const Grey := "#6B7280"

  /** A date that is set and valid lies strictly before `now`; a missing or
      invalid date is never in the past (`new Date(x) < now` is false). */
  predicate Past(date: Option<int>, now: int)
  {
    date.Some? && date.value < now
  }

  /** What is past stays past as time goes on. */
  lemma PastMonotone(date: Option<int>, now: int, later: int)
    requires now <= later
    ensures Past(date, now) ==> Past(date, later)
    ensures date.None? ==> !Past(date, later)
  {
  }

  /** `LoginRequest`: the credentials posted to the login endpoint. */
  datatype LoginRequest = LoginRequest(user: string, password: string)
  {
    function ToJson(): (j: Json)
      ensures j.JObj?
    {
      JObj([("user", JStr(user)), ("password", JStr(password))])
    }
  }

  /** `Usuario`, as the client builds it from a loosely shaped payload. The
      identity fields are copied from the payload and may hold any JSON value;
      `grupos_usuario` is the list of group names and `role` the derived role. */
  datatype Usuario = Usuario(
    id: Json,
    name: Json,
    email: Json,
    cpf: Json,
    path_avatar: Option<Json>,
    path_avatar_aprovado: Option<Json>,
    avatar: Option<Json>,
    created_at: Json,
    status_aprovacao: Json,
    grupos_usuario: Option<seq<string>>,
    role: Option<string>)
  {
    /** The record as a JavaScript object; an `undefined` field is left out, as
        `JSON.stringify` does. */
    function ToJson(): (j: Json)
      ensures j.JObj?
    {
      JObj(
        [("id", id), ("name", name), ("email", email), ("cpf", cpf)]
        + Field("path_avatar", path_avatar)
        + Field("path_avatar_aprovado", path_avatar_aprovado)
        + Field("avatar", avatar)
        + [("created_at", created_at), ("status_aprovacao", status_aprovacao)]
        + (if grupos_usuario.Some? then [("grupos_usuario", StringList(grupos_usuario.value))] else [])
        + (if role.Some? then [("role", JStr(role.value))] else []))
    }
  }

  function Field(key: string, v: Option<Json>): seq<(string, Json)>
  {
    if v.Some? then [(key, v.value)] else []
  }

  function StringList(names: seq<string>): (j: Json)
    ensures j.JArr? && |j.items| == |names|
    ensures forall i :: 0 <= i < |names| ==> j.items[i] == JStr(names[i])
  {
    JArr(seq(|names|, i requires 0 <= i < |names| => JStr(names[i])))
  }

  /** `BuscarUsuariosRequest`: optional filters of a user search. */
  datatype UserFilters = UserFilters(
    nome: Option<string>,
    email: Option<string>,
    cpf: Option<string>,
    limit: Option<int>)

  /** `Evento`. */
  datatype Evento = Evento(
    id: string,
    nome: string,
    data_evento: Option<int>,
    status: string,
    nome_local: string,
    cidade: string,
    estado: string,
    descricao: Option<string>)

  /** `Lote.status`. */
  datatype LoteStatus = LoteAtivo | LoteInativo

  /** `Cupom.tipo_desconto`. */
  datatype TipoDesconto = Percentual | Fixo

  /** `Cupom`. The backend sends `status` as `0`/`1` or as text, so it stays a
      JSON value; `usos` may be missing. */
  datatype Cupom = Cupom(
    id: string,
    codigo: string,
    valor: Json,
    tipo_desconto: TipoDesconto,
    status: Json,
    data_expiracao: Option<int>,
    limite_uso_por_cupom: Option<int>,
    evento_id: string,
    evento_nome: string,
    usos: Option<int>)

  /** `Cortesia`. `evento`, `ingresso`, `lote` and `usuario` are untyped in the
      client (`any`); every other optional field may be missing. */
  datatype Cortesia = Cortesia(
    id: string,
    evento: Json,
    ingresso: Json,
    lote: Json,
    usuario: Json,
    data_criacao: string,
    evento_id: Option<string>,
    status: Option<string>,
    data_utilizacao: Option<string>,
    data_expiracao: Option<int>,
    nome_usuario: Option<string>,
    nome_ingresso: Option<string>)
}
