/** The payload conventions every service decodes alike: an `erro: true` flag
    with an optional `mensagem`, and a list that may come wrapped under
    `dados`, under a key named after the entity, under `data`, or bare. */
module Envelope {
  import opened Js
  import opened Api

  const InvalidResponse := "Resposta inválida da API"

  /** `result.success && result.data`: the gateway answered with a truthy
      payload. Everything else the services report as an invalid response. */
  predicate Delivered(r: Result<Json>)
  {
    r.Success? && Truthy(r.data)
  }

  /** `payload.erro === true`. */
  predicate ErrorFlagged(payload: Json)
  {
    Get(payload, "erro") == Some(JBool(true))
  }

  /** `payload.mensagem || fallback`. */
  function ErrorMessage(payload: Json, fallback: string): (e: Json)
    requires fallback != ""
    ensures Truthy(e)
    ensures Present(Get(payload, "mensagem")) ==> e == Get(payload, "mensagem").value
    ensures !Present(Get(payload, "mensagem")) ==> e == JStr(fallback)
  {
    Or(Get(payload, "mensagem"), JStr(fallback))
  }

  function ArrayOrEmpty(v: Json): Json
  {
    if v.JArr? then v else JArr([])
  }

  /** The list a service extracts from a payload: `dados` if truthy (an empty
      list unless it is an array); else the entity's own key if truthy, as it
      is; else `data` if truthy (an empty list unless it is an array); else
      the payload itself if it is an array; else an empty list. */
  function ListFrom(payload: Json, domainKey: string): (list: Json)
    ensures Truthy(list)
    ensures !list.JArr? ==>
              !Present(Get(payload, "dados")) && Present(Get(payload, domainKey))
              && list == Get(payload, domainKey).value
    ensures Present(Get(payload, "dados")) ==> list == ArrayOrEmpty(Get(payload, "dados").value)
    ensures !Present(Get(payload, "dados")) && Present(Get(payload, domainKey)) ==>
              list == Get(payload, domainKey).value
    ensures !Present(Get(payload, "dados")) && !Present(Get(payload, domainKey)) && Present(Get(payload, "data")) ==>
              list == ArrayOrEmpty(Get(payload, "data").value)
    ensures payload.JArr? ==> list == payload
    ensures (!payload.JArr? && !Present(Get(payload, "dados")) && !Present(Get(payload, domainKey))
             && !Present(Get(payload, "data"))) ==> list == JArr([])
  {
    if Present(Get(payload, "dados")) then ArrayOrEmpty(Get(payload, "dados").value)
    else if Present(Get(payload, domainKey)) then Get(payload, domainKey).value
    else if Present(Get(payload, "data")) then ArrayOrEmpty(Get(payload, "data").value)
    else if payload.JArr? then payload
    else JArr([])
  }

  /** The same items give the same list whichever of the three wrappers
      carries them, and given bare. */
  lemma ListWrappersAgree(items: seq<Json>, domainKey: string)
    ensures ListFrom(JObj([("dados", JArr(items))]), domainKey) == JArr(items)
    ensures ListFrom(JObj([(domainKey, JArr(items))]), domainKey) == JArr(items)
    ensures domainKey != "data" ==> ListFrom(JObj([("data", JArr(items))]), domainKey) == JArr(items)
    ensures ListFrom(JArr(items), domainKey) == JArr(items)
  {
    if domainKey == "dados" {
      assert Get(JObj([(domainKey, JArr(items))]), "dados") == Some(JArr(items));
    }
    assert Get(JObj([("data", JArr(items))]), "dados") == None;
  }

  /** `dados` wins over the other wrappers even when it is not a list, which
      then reads as an empty list. */
  lemma DadosTakesPrecedence(dados: Json, rest: seq<(string, Json)>, domainKey: string)
    requires Truthy(dados) && !dados.JArr?
    ensures ListFrom(JObj([("dados", dados)] + rest), domainKey) == JArr([])
  {
    assert Get(JObj([("dados", dados)] + rest), "dados") == Some(dados);
  }

  /** The list decoding of `getAllCoupons`, `getAllCourtesies` and
      `getActiveEvents`: an invalid response, a flagged failure with the
      payload's message, or the extracted list. It never fails on a payload
      shape it does not recognise. */
  function DecodeList(r: Result<Json>, domainKey: string, failureMessage: string): (out: Result<Json>)
    requires failureMessage != ""
    ensures out.Success? <==> Delivered(r) && !ErrorFlagged(r.data)
    ensures out.Success? ==> out.data == ListFrom(r.data, domainKey) && Truthy(out.data)
    ensures !Delivered(r) ==> out == Failure(JStr(InvalidResponse))
    ensures Delivered(r) && ErrorFlagged(r.data) ==> out == Failure(ErrorMessage(r.data, failureMessage))
  {
    if !Delivered(r) then Failure(JStr(InvalidResponse))
    else if ErrorFlagged(r.data) then Failure(ErrorMessage(r.data, failureMessage))
    else Success(ListFrom(r.data, domainKey))
  }

  // ---------------------------------------------------------------------------
  // Array.prototype.filter

  /** The elements of `s` that satisfy `p`, in their order. */
  function Keep(s: seq<Json>, p: Json -> bool): (r: seq<Json>)
    ensures |r| <= |s|
    ensures forall x :: x in r <==> x in s && p(x)
    ensures forall i :: 0 <= i < |r| ==> p(r[i])
  {
    if s == [] then []
    else if p(s[0]) then [s[0]] + Keep(s[1..], p)
    else Keep(s[1..], p)
  }

  /** Filtering a concatenation filters each part and keeps their order. */
  lemma {:induction false} KeepAppend(a: seq<Json>, b: seq<Json>, p: Json -> bool)
    ensures Keep(a + b, p) == Keep(a, p) + Keep(b, p)
  {
    if a != [] {
      assert (a + b)[0] == a[0];
      assert (a + b)[1..] == a[1..] + b;
      KeepAppend(a[1..], b, p);
    } else {
      assert a + b == b;
    }
  }

  /** Filtering keeps everything exactly when everything satisfies `p`. */
  lemma {:induction false} KeepAll(s: seq<Json>, p: Json -> bool)
    ensures Keep(s, p) == s <==> forall i :: 0 <= i < |s| ==> p(s[i])
  {
    if s != [] {
      KeepAll(s[1..], p);
      assert Keep(s, p) != [] ==> p(Keep(s, p)[0]);
    }
  }

  /** Filtering twice by the same predicate is filtering once. */
  lemma KeepIdempotent(s: seq<Json>, p: Json -> bool)
    ensures Keep(Keep(s, p), p) == Keep(s, p)
  {
    KeepAll(Keep(s, p), p);
  }

  /** The `filter` step of `getCouponsByEvent` and `getCourtesiesByEvent`:
      on a delivered list, the elements satisfying `p`. The predicate reads a
      property of each element, which throws on a `null` element, as does
      calling `filter` on something that is not an array; either way the
      service answers `failureMessage`. A result that is not a delivered
      list is passed through unchanged. */
  function FilterList(all: Result<Json>, p: Json -> bool, failureMessage: string): (out: Result<Json>)
    ensures !Delivered(all) ==> out == all
    ensures Delivered(all) && all.data.JArr? && (forall i :: 0 <= i < |all.data.items| ==> all.data.items[i] != JNull)
            ==> out == Success(JArr(Keep(all.data.items, p)))
    ensures Delivered(all) && (!all.data.JArr? || JNull in all.data.items) ==>
              out == Failure(JStr(failureMessage))
  {
    if !Delivered(all) then all
    else if all.data.JArr? && JNull !in all.data.items then Success(JArr(Keep(all.data.items, p)))
    else Failure(JStr(failureMessage))
  }
}
