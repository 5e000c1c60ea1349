/** Sales reports: the report of a period, and the sales line of one event
    looked up in it by name. */
module ReportService {
  import opened Js
  import opened Api
  import opened Envelope

  const ReportFailure := "Erro ao carregar relatório de vendas"
  const EventReportFailure := "Erro ao carregar relatório de vendas do evento"
  const NoReport := "Dados de vendas não encontrados para este evento"

  /** `getRelatorioVendas`, applied to the gateway's answer: a flagged
      payload is a failure, any other delivered payload is the report as it
      is. */
  function SalesReport(r: Result<Json>): (out: Result<Json>)
    ensures out.Success? <==> Delivered(r) && !ErrorFlagged(r.data)
    ensures out.Success? ==> out == r && Truthy(out.data)
    ensures Delivered(r) && ErrorFlagged(r.data) ==> out == Failure(ErrorMessage(r.data, ReportFailure))
    ensures !Delivered(r) ==> out == Failure(JStr(InvalidResponse))
  {
    if !Delivered(r) then Failure(JStr(InvalidResponse))
    else if ErrorFlagged(r.data) then Failure(ErrorMessage(r.data, ReportFailure))
    else Success(r.data)
  }

  // ---------------------------------------------------------------------------
  // Array.prototype.find over the sales lines

  /** The line has an `evento` text, so `venda.evento.toLowerCase()` does not
      throw. */
  predicate Named(line: Json)
  {
    Get(line, "evento").Some? && Get(line, "evento").value.JStr?
  }

  /** The line's event name equals `key` once lower-cased. */
  predicate Matches(line: Json, key: string)
  {
    Named(line) && Lower(Get(line, "evento").value.s) == key
  }

  /** The outcome of `find`: the callback threw, nothing matched, or the
      first match. */
  datatype Search = Threw | NotFound | Found(line: Json)

  /** `lines.find(v => v.evento.toLowerCase() === key)`: the lines are tried
      in order until one matches; a line without an `evento` text before the
      first match throws. */
  function FindSale(lines: seq<Json>, key: string): (s: Search)
    ensures s.Found? ==>
              exists i :: 0 <= i < |lines| && lines[i] == s.line && Matches(lines[i], key)
                          && forall j :: 0 <= j < i ==> Named(lines[j]) && !Matches(lines[j], key)
    ensures s.NotFound? <==> forall i :: 0 <= i < |lines| ==> Named(lines[i]) && !Matches(lines[i], key)
    ensures s.Threw? ==>
              exists i :: 0 <= i < |lines| && !Named(lines[i])
                          && forall j :: 0 <= j < i ==> Named(lines[j]) && !Matches(lines[j], key)
  {
    if lines == [] then NotFound
    else if !Named(lines[0]) then Threw
    else if Matches(lines[0], key) then Found(lines[0])
    else
      var rest := FindSale(lines[1..], key);
      assert forall i :: 1 <= i < |lines| ==> lines[i] == lines[1..][i - 1];
      rest
  }

  /** Searching a concatenation searches the second part only when the first
      holds no match and throws on none of its lines. */
  lemma {:induction false} FindSaleAppend(a: seq<Json>, b: seq<Json>, key: string)
    ensures FindSale(a + b, key) == if FindSale(a, key).NotFound? then FindSale(b, key) else FindSale(a, key)
  {
    if a == [] {
      assert a + b == b;
    } else {
      assert (a + b)[0] == a[0];
      assert (a + b)[1..] == a[1..] + b;
      FindSaleAppend(a[1..], b, key);
    }
  }

  // ---------------------------------------------------------------------------
  // The sales of one event

  /** The failure for an event name no line matches, which quotes the name. */
  function NotFoundFor(eventName: string): string
  {
    "Dados de vendas não encontrados para \"" + eventName + "\""
  }

  /** `getRelatorioVendasEvento`, on the gateway's answer to the report
      request: the first line of `vendas_por_evento` whose `evento` equals
      `eventName` up to case. */
  function EventSales(r: Result<Json>, eventName: string): (out: Result<Json>)
    ensures SalesReport(r).Failure? ==> out == Failure(JStr(NoReport))
    ensures out.Success? ==>
              SalesReport(r).Success? && Get(r.data, "vendas_por_evento").Some?
              && Get(r.data, "vendas_por_evento").value.JArr?
              && FindSale(Get(r.data, "vendas_por_evento").value.items, Lower(eventName)) == Found(out.data)
              && Matches(out.data, Lower(eventName))
    ensures (SalesReport(r).Success?
             && !(Get(r.data, "vendas_por_evento").Some? && Get(r.data, "vendas_por_evento").value.JArr?)) ==>
              out == Failure(JStr(EventReportFailure))
    ensures (SalesReport(r).Success? && Get(r.data, "vendas_por_evento").Some?
             && Get(r.data, "vendas_por_evento").value.JArr?) ==>
              match FindSale(Get(r.data, "vendas_por_evento").value.items, Lower(eventName))
              case Threw => out == Failure(JStr(EventReportFailure))
              case NotFound => out == Failure(JStr(NotFoundFor(eventName)))
              case Found(line) => out == Success(line)
  {
    match SalesReport(r)
    case Failure(_) => Failure(JStr(NoReport))
    case Success(report) =>
      match Get(report, "vendas_por_evento")
      case Some(JArr(lines)) =>
        (match FindSale(lines, Lower(eventName))
         case Threw => Failure(JStr(EventReportFailure))
         case NotFound => Failure(JStr(NotFoundFor(eventName)))
         case Found(line) => Success(line))
      case _ => Failure(JStr(EventReportFailure))
  }

  /** A report holding `lines` under `vendas_por_evento`. */
  function ReportOf(lines: seq<Json>): Json
  {
    JObj([("vendas_por_evento", JArr(lines))])
  }

  /** The name is compared up to case: two names that lower-case alike find
      the same line. */
  lemma CaseInsensitiveLookup(r: Result<Json>, a: string, b: string)
    requires Lower(a) == Lower(b)
    ensures EventSales(r, a).Success? <==> EventSales(r, b).Success?
    ensures EventSales(r, a).Success? ==> EventSales(r, a) == EventSales(r, b)
  {
  }

  /** A line is found by its own name written in any case. */
  lemma FoundByAnyCase(name: string, query: string)
    requires Lower(query) == Lower(name)
    ensures EventSales(Success(ReportOf([JObj([("evento", JStr(name))])])), query)
            == Success(JObj([("evento", JStr(name))]))
  {
    var line := JObj([("evento", JStr(name))]);
    assert Get(ReportOf([line]), "erro") == None;
    assert Get(line, "evento") == Some(JStr(name));
    assert FindSale([line][1..], Lower(query)) == NotFound;
  }

  /** Of two lines of the same event, the first is returned. */
  lemma FirstMatchWins(first: Json, second: Json, rest: seq<Json>, eventName: string)
    requires Matches(first, Lower(eventName)) && Matches(second, Lower(eventName))
    ensures EventSales(Success(ReportOf([first, second] + rest)), eventName) == Success(first)
  {
    assert Get(ReportOf([first, second] + rest), "erro") == None;
    assert ([first, second] + rest)[0] == first;
  }

  /** A line with no event name before the match makes the lookup fail as a
      whole, even though a later line matches. */
  lemma UnnamedLineThrows(bad: Json, good: Json, eventName: string)
    requires !Named(bad) && Matches(good, Lower(eventName))
    ensures EventSales(Success(ReportOf([bad, good])), eventName) == Failure(JStr(EventReportFailure))
  {
    assert Get(ReportOf([bad, good]), "erro") == None;
  }
}
