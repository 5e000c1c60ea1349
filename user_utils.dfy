/** Role derivation and user-record normalisation. */
module UserUtils {
  import opened Js
  import opened ApiTypes

  /** Position `i` of the hierarchy is the highest-precedence role among
      `groups`. */
  predicate IsHighestRole(groups: seq<string>, i: int)
  {
    0 <= i < |RoleHierarchy| && RoleHierarchy[i] in groups
    && forall k :: 0 <= k < i ==> RoleHierarchy[k] !in groups
  }

  predicate HasKnownRole(groups: seq<string>)
  {
    exists i :: 0 <= i < |RoleHierarchy| && RoleHierarchy[i] in groups
  }

  /** The loop over the hierarchy from position `from` on: the first position
      whose group is among `groups`. */
  function SearchHierarchy(groups: seq<string>, from: nat): (i: Option<nat>)
    requires from <= |RoleHierarchy|
    ensures i.Some? ==> from <= i.value < |RoleHierarchy| && RoleHierarchy[i.value] in groups
                        && forall k :: from <= k < i.value ==> RoleHierarchy[k] !in groups
    ensures i.None? ==> forall k :: from <= k < |RoleHierarchy| ==> RoleHierarchy[k] !in groups
    decreases |RoleHierarchy| - from
  {
    if from == |RoleHierarchy| then None
    else if RoleHierarchy[from] in groups then Some(from)
    else SearchHierarchy(groups, from + 1)
  }

  /** `calculateUserRole`: the default role without groups; otherwise the
      display name of the highest-precedence known group; otherwise the first
      group as it is. */
  function CalculateUserRole(groups: Option<seq<string>>): (role: string)
    ensures groups.None? || groups.value == [] ==> role == DefaultRole
    ensures groups.Some? && HasKnownRole(groups.value) ==>
              exists i :: IsHighestRole(groups.value, i) && role == RoleDisplayNames[RoleHierarchy[i]]
    ensures groups.Some? && groups.value != [] && !HasKnownRole(groups.value) ==>
              role == groups.value[0]
  {
    if groups.None? || groups.value == [] then DefaultRole
    else
      match SearchHierarchy(groups.value, 0)
      case Some(i) => RoleDisplayNames[RoleHierarchy[i]]
      case None => groups.value[0]
  }

  /** The highest role is unique, so the result names one definite role. */
  lemma HighestRoleUnique(groups: seq<string>, i: int, j: int)
    requires IsHighestRole(groups, i) && IsHighestRole(groups, j)
    ensures i == j
  {
  }

  /** With a known role among the groups, the order and repetition of the
      groups do not matter: only which groups are present does. */
  lemma RoleIgnoresGroupOrder(g1: seq<string>, g2: seq<string>)
    requires forall r :: r in g1 <==> r in g2
    requires HasKnownRole(g1)
    ensures CalculateUserRole(Some(g1)) == CalculateUserRole(Some(g2))
  {
    var i :| 0 <= i < |RoleHierarchy| && RoleHierarchy[i] in g1;
    assert RoleHierarchy[i] in g2;
    assert HasKnownRole(g2);
    var a :| IsHighestRole(g1, a) && CalculateUserRole(Some(g1)) == RoleDisplayNames[RoleHierarchy[a]];
    var b :| IsHighestRole(g2, b) && CalculateUserRole(Some(g2)) == RoleDisplayNames[RoleHierarchy[b]];
    assert IsHighestRole(g2, b);
    assert IsHighestRole(g1, b);
    HighestRoleUnique(g1, a, b);
  }

  /** A known role always shows one of the five display names, never the
      default role. */
  lemma KnownRoleIsDisplayName(groups: seq<string>)
    requires HasKnownRole(groups)
    ensures CalculateUserRole(Some(groups)) in RoleDisplayNames.Values
    ensures CalculateUserRole(Some(groups)) != DefaultRole
  {
    RoleTablesConsistent();
    var i :| IsHighestRole(groups, i) && CalculateUserRole(Some(groups)) == RoleDisplayNames[RoleHierarchy[i]];
    assert IsHighestRole(groups, i);
    assert RoleHierarchy[i] in RoleHierarchy;
  }

  /** `hasRole`: the groups are defined and contain `role`. */
  predicate HasRole(u: Usuario, role: string)
  {
    u.grupos_usuario.Some? && role in u.grupos_usuario.value
  }

  /** `isAdmin`. */
  predicate IsAdmin(u: Usuario)
  {
    HasRole(u, "administradores")
  }

  /** `canUsePDV`. */
  predicate CanUsePdv(u: Usuario)
  {
    HasRole(u, "pdv-local") || HasRole(u, "administradores") || HasRole(u, "produtor")
  }

  /** The point-of-sale permission in terms of the groups themselves: it is
      granted exactly by one of three groups, administrators among them. */
  lemma PdvPermission(u: Usuario)
    ensures CanUsePdv(u) <==>
              (u.grupos_usuario.Some?
               && exists g :: g in u.grupos_usuario.value && g in {"pdv-local", "administradores", "produtor"})
    ensures IsAdmin(u) ==> CanUsePdv(u)
    ensures u.grupos_usuario.None? ==> !CanUsePdv(u) && !IsAdmin(u)
  {
    if CanUsePdv(u) {
      if HasRole(u, "pdv-local") {
        assert "pdv-local" in u.grupos_usuario.value;
      } else if HasRole(u, "administradores") {
        assert "administradores" in u.grupos_usuario.value;
      } else {
        assert "produtor" in u.grupos_usuario.value;
      }
    }
  }

  /** An administrator's derived role is always "Administrador", whatever
      else the groups hold. */
  lemma AdminRole(u: Usuario)
    requires IsAdmin(u)
    ensures CalculateUserRole(u.grupos_usuario) == "Administrador"
  {
    assert RoleHierarchy[0] in u.grupos_usuario.value;
    var i :| IsHighestRole(u.grupos_usuario.value, i)
             && CalculateUserRole(u.grupos_usuario) == RoleDisplayNames[RoleHierarchy[i]];
    assert IsHighestRole(u.grupos_usuario.value, i);
  }

  /** The group names of a payload's `grupos_usuario`, when it is a list of
      texts. */
  function GroupNames(v: Option<Json>): (names: Option<seq<string>>)
    ensures names.Some? ==> v.Some? && v.value.JArr? && |names.value| == |v.value.items|
    ensures names.Some? ==> forall i :: 0 <= i < |names.value| ==> v.value.items[i] == JStr(names.value[i])
    ensures names.None? <==> !(v.Some? && v.value.JArr? && forall i :: 0 <= i < |v.value.items| ==> v.value.items[i].JStr?)
  {
    if v.Some? && v.value.JArr? && forall i :: 0 <= i < |v.value.items| ==> v.value.items[i].JStr? then
      Some(seq(|v.value.items|, i requires 0 <= i < |v.value.items| => v.value.items[i].s))
    else None
  }

  /** `processUserData`: fills each field from the payload with the
      payload's own fallbacks, and derives the role from the groups.
      `now` is the ISO text of the current time used for `created_at`. */
  function ProcessUserData(userData: Json, now: string): (u: Usuario)
    ensures u.grupos_usuario.Some?
    ensures !Present(Get(userData, "grupos_usuario")) ==> u.grupos_usuario == Some([])
    ensures u.role == Some(CalculateUserRole(u.grupos_usuario))
    ensures Present(Get(userData, "id")) ==> u.id == Get(userData, "id").value
    ensures !Present(Get(userData, "id")) && Present(Get(userData, "user_id")) ==>
              u.id == Get(userData, "user_id").value
    ensures !Present(Get(userData, "id")) && !Present(Get(userData, "user_id")) ==> u.id == JStr("unknown")
    ensures Present(Get(userData, "name")) ==> u.name == Get(userData, "name").value
    ensures !Present(Get(userData, "name")) && Present(Get(userData, "nome")) ==>
              u.name == Get(userData, "nome").value
    ensures !Present(Get(userData, "name")) && !Present(Get(userData, "nome")) ==> u.name == JStr(DefaultRole)
    ensures Truthy(u.id) && Truthy(u.name) && Truthy(u.status_aprovacao)
    ensures Present(Get(userData, "email")) ==> u.email == Get(userData, "email").value
    ensures !Present(Get(userData, "email")) ==> u.email == JStr("")
    ensures Present(Get(userData, "cpf")) ==> u.cpf == Get(userData, "cpf").value
    ensures !Present(Get(userData, "cpf")) ==> u.cpf == JStr("")
    ensures Present(Get(userData, "created_at")) ==> u.created_at == Get(userData, "created_at").value
    ensures !Present(Get(userData, "created_at")) ==> u.created_at == JStr(now)
    ensures Present(Get(userData, "status_aprovacao")) ==> u.status_aprovacao == Get(userData, "status_aprovacao").value
    ensures !Present(Get(userData, "status_aprovacao")) ==> u.status_aprovacao == JStr("aprovado")
    ensures Present(Get(userData, "grupos_usuario")) && GroupNames(Get(userData, "grupos_usuario")).Some? ==>
              u.grupos_usuario == GroupNames(Get(userData, "grupos_usuario"))
    ensures u.path_avatar == Get(userData, "path_avatar") && u.avatar == Get(userData, "avatar")
    ensures u.path_avatar_aprovado == Get(userData, "path_avatar_aprovado")
  {
    var groups := if Present(Get(userData, "grupos_usuario")) then
                    (match GroupNames(Get(userData, "grupos_usuario"))
                     case Some(names) => names
                     case None => [])
                  else [];
    Usuario(
      id := Or(OrElse(Get(userData, "id"), Get(userData, "user_id")), JStr("unknown")),
      name := Or(OrElse(Get(userData, "name"), Get(userData, "nome")), JStr(DefaultRole)),
      email := Or(Get(userData, "email"), JStr("")),
      cpf := Or(Get(userData, "cpf"), JStr("")),
      path_avatar := Get(userData, "path_avatar"),
      path_avatar_aprovado := Get(userData, "path_avatar_aprovado"),
      avatar := Get(userData, "avatar"),
      created_at := Or(Get(userData, "created_at"), JStr(now)),
      status_aprovacao := Or(Get(userData, "status_aprovacao"), JStr("aprovado")),
      grupos_usuario := Some(groups),
      role := Some(CalculateUserRole(Some(groups))))
  }

  /** The groups kept by `processUserData` are the payload's own list of
      group names, unchanged, when it has one. */
  lemma ProcessKeepsGroups(userData: Json, now: string, names: seq<string>)
    requires names != []
    requires GroupNames(Get(userData, "grupos_usuario")) == Some(names)
    ensures ProcessUserData(userData, now).grupos_usuario == Some(names)
    ensures ProcessUserData(userData, now).role == Some(CalculateUserRole(Some(names)))
  {
    var v := Get(userData, "grupos_usuario").value;
    assert |v.items| > 0;
    assert Present(Get(userData, "grupos_usuario"));
  }

  /** `getRoleColor`. */
  function RoleColor(role: string): (color: string)
    ensures role == "Administrador" ==> color == Red
    ensures role == "Produtor" ==> color == Purple
    ensures role == "Atlética" ==> color == Green
    ensures role == "Comissário" ==> color == Yellow
    ensures role == "PDV Local" ==> color == Blue
    ensures role !in RoleDisplayNames.Values ==> color == Grey
  {
    DisplayNames();
    match role
    case "Administrador" => Red
    case "Produtor" => Purple
    case "Atlética" => Green
    case "Comissário" => Yellow
    case "PDV Local" => Blue
    case _ => Grey
  }

  /** Each of the five roles has its own colour, none of them grey. */
  lemma RoleColorsDistinct()
    ensures forall r1, r2 :: r1 in RoleDisplayNames.Values && r2 in RoleDisplayNames.Values && r1 != r2 ==>
              RoleColor(r1) != RoleColor(r2)
    ensures forall r :: r in RoleDisplayNames.Values ==> RoleColor(r) != Grey
    ensures RoleColor(DefaultRole) == Grey
  {
    DisplayNames();
  }

  /** The five display names, written out. */
  lemma DisplayNames()
    ensures RoleDisplayNames.Values == {"Administrador", "Produtor", "Atlética", "Comissário", "PDV Local"}
  {
    assert RoleDisplayNames["administradores"] == "Administrador";
    assert RoleDisplayNames["produtor"] == "Produtor";
    assert RoleDisplayNames["atletica"] == "Atlética";
    assert RoleDisplayNames["comissario"] == "Comissário";
    assert RoleDisplayNames["pdv-local"] == "PDV Local";
  }
}
