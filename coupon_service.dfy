/** Discount coupons: listing, filtering by event, creation, and the
    lifecycle label shown for each coupon. */
module CouponService {
  import opened Js
  import opened Api
  import opened ApiTypes
  import opened Envelope

  // ---------------------------------------------------------------------------
  // Requests and decoding

  const LoadFailure := "Erro ao carregar cupons"
  const FilterFailure := "Erro ao filtrar cupons"
  const CreateFailure := "Erro ao criar cupom"

  /** `getAllCoupons`, applied to the gateway's answer to `GET` on the coupon
      endpoint. */
  function GetAllCoupons(r: Result<Json>): (out: Result<Json>)
    ensures out.Success? <==> Delivered(r) && !ErrorFlagged(r.data)
    ensures out.Success? ==> out.data == ListFrom(r.data, "cupons")
    ensures Delivered(r) && ErrorFlagged(r.data) && !Present(Get(r.data, "mensagem")) ==>
              out == Failure(JStr(LoadFailure))
    ensures !Delivered(r) ==> out == Failure(JStr(InvalidResponse))
  {
    DecodeList(r, "cupons", LoadFailure)
  }

  /** The coupon belongs to the event: `cupom.evento_id === eventId`. */
  predicate OfEvent(eventId: string, cupom: Json)
  {
    Get(cupom, "evento_id") == Some(JStr(eventId))
  }

  /** `getCouponsByEvent`: the listed coupons of one event, in their order. */
  function CouponsByEvent(r: Result<Json>, eventId: string): (out: Result<Json>)
    ensures GetAllCoupons(r).Failure? ==> out == GetAllCoupons(r)
    ensures out.Success? ==>
              GetAllCoupons(r).Success? && GetAllCoupons(r).data.JArr?
              && out.data == JArr(Keep(GetAllCoupons(r).data.items, c => OfEvent(eventId, c)))
    ensures out.Success? ==> forall c :: c in out.data.items <==> c in GetAllCoupons(r).data.items && OfEvent(eventId, c)
    ensures GetAllCoupons(r).Success? && !GetAllCoupons(r).data.JArr? ==> out == Failure(JStr(FilterFailure))
    ensures GetAllCoupons(r).Success? && GetAllCoupons(r).data.JArr? && JNull !in GetAllCoupons(r).data.items ==>
              out == Success(JArr(Keep(GetAllCoupons(r).data.items, c => OfEvent(eventId, c))))
    ensures GetAllCoupons(r).Success? && GetAllCoupons(r).data.JArr? && JNull in GetAllCoupons(r).data.items ==>
              out == Failure(JStr(FilterFailure))
  {
    FilterList(GetAllCoupons(r), c => OfEvent(eventId, c), FilterFailure)
  }

  /** The request `createCoupon` sends. */
  function CreateCouponCall(couponData: Json): (c: (string, RequestOptions))
    ensures c.0 == CouponsEndpoint
    ensures c.1.verb == Some(POST) && c.1.body == Some(couponData)
    ensures c.1.includeAuth == None && c.1.queryParams == None
  {
    (CouponsEndpoint, RequestOptions(Some(POST), Some(couponData), None, None))
  }

  /** `createCoupon`: the created coupon is the first truthy of `dados`,
      `cupom` and `data`, or else the whole payload. */
  function CreateCoupon(r: Result<Json>): (out: Result<Json>)
    ensures out.Success? <==> Delivered(r) && !ErrorFlagged(r.data)
    ensures out.Success? ==> Truthy(out.data)
    ensures out.Success? && Present(Get(r.data, "dados")) ==> out.data == Get(r.data, "dados").value
    ensures out.Success? && !Present(Get(r.data, "dados")) && Present(Get(r.data, "cupom")) ==>
              out.data == Get(r.data, "cupom").value
    ensures (out.Success? && !Present(Get(r.data, "dados")) && !Present(Get(r.data, "cupom"))
             && Present(Get(r.data, "data"))) ==> out.data == Get(r.data, "data").value
    ensures (out.Success? && !Present(Get(r.data, "dados")) && !Present(Get(r.data, "cupom"))
             && !Present(Get(r.data, "data"))) ==> out.data == r.data
    ensures Delivered(r) && ErrorFlagged(r.data) ==> out == Failure(ErrorMessage(r.data, CreateFailure))
    ensures !Delivered(r) ==> out == Failure(JStr(InvalidResponse))
  {
    if !Delivered(r) then Failure(JStr(InvalidResponse))
    else if ErrorFlagged(r.data) then Failure(ErrorMessage(r.data, CreateFailure))
    else
      var p := r.data;
      if Present(Get(p, "dados")) then Success(Get(p, "dados").value)
      else if Present(Get(p, "cupom")) then Success(Get(p, "cupom").value)
      else if Present(Get(p, "data")) then Success(Get(p, "data").value)
      else Success(p)
  }

  // ---------------------------------------------------------------------------
  // Status

  /** The four lifecycle labels of a coupon. */
  datatype CouponStatus = Ativo | Expirado | Esgotado | Inativo
  {
    function Label(): string
    {
      match this
      case Ativo => "ativo"
      case Expirado => "expirado"
      case Esgotado => "esgotado"
      case Inativo => "inativo"
    }
  }

  /** The status field marks the coupon inactive: `0`, `'0'`, or `'inativo'`
      in any case. */
  predicate MarkedInactive(status: Json)
  {
    status == JNum(0) || status == JStr("0") || (status.JStr? && Lower(status.s) == "inativo")
  }

  /** The usage limit is set (truthy) and reached; missing uses count 0. */
  predicate UsedUp(c: Cupom)
  {
    var usos := if c.usos.Some? then c.usos.value else 0;
    c.limite_uso_por_cupom.Some? && c.limite_uso_por_cupom.value != 0 && c.limite_uso_por_cupom.value <= usos
  }

  /** `getCouponStatus`. A recognised active status (`1`, `'1'`, `'ativo'`)
      and an unrecognised one lead to the same label. */
  function GetCouponStatus(c: Cupom, now: int): (s: CouponStatus)
    ensures s == Inativo <==> MarkedInactive(c.status)
    ensures s == Expirado <==> !MarkedInactive(c.status) && Past(c.data_expiracao, now)
    ensures s == Esgotado <==> !MarkedInactive(c.status) && !Past(c.data_expiracao, now) && UsedUp(c)
    ensures s == Ativo <==> !MarkedInactive(c.status) && !Past(c.data_expiracao, now) && !UsedUp(c)
  {
    if MarkedInactive(c.status) then Inativo
    else if Past(c.data_expiracao, now) then Expirado
    else if UsedUp(c) then Esgotado
    else Ativo
  }

  /** An inactive coupon stays inactive whatever its expiry and usage. */
  lemma InactiveIgnoresDatesAndUsage(c: Cupom, now: int, expiry: Option<int>, usos: Option<int>)
    requires MarkedInactive(c.status)
    ensures GetCouponStatus(c.(data_expiracao := expiry, usos := usos), now) == Inativo
  {
  }

  /** Expiry wins over exhaustion: a coupon that is both past its date and
      used up is reported expired. */
  lemma ExpiredBeforeUsedUp(c: Cupom, now: int)
    requires !MarkedInactive(c.status) && Past(c.data_expiracao, now) && UsedUp(c)
    ensures GetCouponStatus(c, now) == Expirado
  {
  }

  /** Time only moves a coupon forward: once expired it stays expired, and a
      coupon that is active or used up at a later instant was not expired
      before. */
  lemma StatusMonotoneInTime(c: Cupom, now: int, later: int)
    requires now <= later
    ensures GetCouponStatus(c, now) == Expirado ==> GetCouponStatus(c, later) == Expirado
    ensures GetCouponStatus(c, later) in {Ativo, Esgotado} ==> GetCouponStatus(c, now) == GetCouponStatus(c, later)
  {
  }

  /** `inativo` written with any mix of capitals marks a coupon inactive,
      like the number `0` and the text `'0'`. */
  lemma AnyCaseInativoMarks(s: string)
    requires |s| == 7 && forall i :: 0 <= i < 7 ==> s[i] == "inativo"[i] || s[i] == "INATIVO"[i]
    ensures MarkedInactive(JStr(s))
    ensures MarkedInactive(JNum(0)) && MarkedInactive(JStr("0"))
  {
    forall i | 0 <= i < 7
      ensures Lower(s)[i] == "inativo"[i]
    {
    }
  }

  /** A text reading `ativo` in any capitalisation, and any number other
      than `0`, does not mark a coupon inactive. */
  lemma ActiveMarkersNotInactive(s: string, n: int)
    requires Lower(s) == "ativo" && n != 0
    ensures !MarkedInactive(JStr(s)) && !MarkedInactive(JNum(n))
  {
    assert |s| == 5;
    assert Lower(s) != "inativo";
  }

  /** A limit of zero, or none at all, never exhausts a coupon. */
  lemma NoLimitNeverUsedUp(c: Cupom, now: int)
    requires c.limite_uso_por_cupom == None || c.limite_uso_por_cupom == Some(0)
    ensures GetCouponStatus(c, now) != Esgotado
  {
  }

  // ---------------------------------------------------------------------------
  // Usage and colour

  /** `calculateUsagePercentage`: zero without a (non-zero) limit; otherwise
      the used share of the limit in percent, capped at 100. */
  function UsagePercentage(usado: int, limite: Option<int>): (pct: real)
    ensures pct <= 100.0
    ensures limite.None? || limite == Some(0) ==> pct == 0.0
    ensures limite.Some? && limite.value > 0 && usado >= limite.value ==> pct == 100.0
    ensures limite.Some? && limite.value > 0 && 0 <= usado < limite.value ==> 0.0 <= pct < 100.0
    ensures limite.Some? && limite.value != 0 ==>
              (pct == 100.0 <==> usado as real / limite.value as real >= 1.0)
    ensures limite.Some? && limite.value != 0 && pct < 100.0 ==>
              pct * limite.value as real == usado as real * 100.0
  {
    if limite.None? || limite.value == 0 then 0.0
    else
      var share := (usado as real / limite.value as real) * 100.0;
      if share < 100.0 then share else 100.0
  }

  /** More uses never lower the percentage shown for a positive limit. */
  lemma UsageMonotone(u1: int, u2: int, limite: int)
    requires 0 < limite && u1 <= u2
    ensures UsagePercentage(u1, Some(limite)) <= UsagePercentage(u2, Some(limite))
  {
    assert u1 as real / limite as real <= u2 as real / limite as real;
  }

  /** The colour `getCouponStatusColor` gives a lower-case status. */
  function LabelColor(lowered: string): (color: string)
    ensures color in {Green, Red, Yellow, Grey}
    ensures color == Green <==> lowered == "ativo"
    ensures color == Red <==> lowered == "expirado"
    ensures color == Yellow <==> lowered == "esgotado"
    ensures color == Grey <==> lowered !in {"ativo", "expirado", "esgotado"}
  {
    match lowered
    case "ativo" => Green
    case "expirado" => Red
    case "esgotado" => Yellow
    case "inativo" => Grey
    case _ => Grey
  }

  /** `getCouponStatusColor`: the status is lower-cased first. */
  function CouponStatusColor(status: string): (color: string)
    ensures color in {Green, Red, Yellow, Grey}
    ensures color == Green <==> Lower(status) == "ativo"
    ensures color == Red <==> Lower(status) == "expirado"
    ensures color == Yellow <==> Lower(status) == "esgotado"
    ensures color == Grey <==> Lower(status) !in {"ativo", "expirado", "esgotado"}
  {
    LabelColor(Lower(status))
  }

  /** The colour of a status does not depend on its capitalisation. */
  lemma CouponStatusColorCaseInsensitive(status: string)
    ensures CouponStatusColor(Lower(status)) == CouponStatusColor(status)
  {
    LowerIdempotent(status);
  }

  /** Every label is already lower case, so its colour is its table entry. */
  lemma LabelIsLower(s: CouponStatus)
    ensures Lower(s.Label()) == s.Label()
    ensures CouponStatusColor(s.Label()) == LabelColor(s.Label())
  {
    match s
    case Ativo => LowerFixed("ativo");
    case Expirado => LowerFixed("expirado");
    case Esgotado => LowerFixed("esgotado");
    case Inativo => LowerFixed("inativo");
  }

  /** Only an inactive coupon is shown grey. */
  lemma OnlyInactiveIsGrey(c: Cupom, now: int)
    ensures CouponStatusColor(GetCouponStatus(c, now).Label()) == Grey <==> GetCouponStatus(c, now) == Inativo
  {
    LabelIsLower(GetCouponStatus(c, now));
  }

  /** The three labels a usable or spent coupon can have get three different
      colours. */
  lemma StatusColorsDistinct()
    ensures CouponStatusColor(Ativo.Label()) != CouponStatusColor(Expirado.Label())
    ensures CouponStatusColor(Ativo.Label()) != CouponStatusColor(Esgotado.Label())
    ensures CouponStatusColor(Expirado.Label()) != CouponStatusColor(Esgotado.Label())
  {
    ActiveGreen();
    ExpiredRed();
    SpentYellow();
  }

  lemma ActiveGreen()
    ensures CouponStatusColor(Ativo.Label()) == Green
  {
    LowerFixed("ativo");
  }

  lemma ExpiredRed()
    ensures CouponStatusColor(Expirado.Label()) == Red
  {
    LowerFixed("expirado");
  }

  lemma SpentYellow()
    ensures CouponStatusColor(Esgotado.Label()) == Yellow
  {
    LowerFixed("esgotado");
  }
}
