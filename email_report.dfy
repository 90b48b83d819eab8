/**
 * The report e-mail edge function: it checks the request, computes the daily
 * cost summary and prepares the e-mail, whose HTML body is modelled as the
 * list of sections it shows, in order, with the values they display.
 */
module EmailReport {
  import opened Wrappers
  import opened Fold
  import opened CostSummary

  /** The JSON body of a request; any field may be missing. */
  datatype Request = Request(
    recipientEmail: Option<string>,
    reportData: Option<ReportData>,
    reportDate: Option<string>)

  /** JavaScript truthiness of an optional string: a missing value and "" are false. */
  predicate Truthy(s: Option<string>)
  {
    s.Some? && s.value != ""
  }

  /** `s || fallback`. */
  function OrDefault(s: Option<string>, fallback: string): string
  {
    if Truthy(s) then s.value else fallback
  }

  /** A collection that is present and has at least one row. */
  predicate Listed<T>(rows: Option<seq<T>>)
  {
    rows.Some? && |rows.value| > 0
  }

  /** How a template literal shows the report date; a missing one prints as "undefined". */
  function DateText(date: Option<string>): string
  {
    match date
    case Some(s) => s
    case None => "undefined"
  }

  const MissingFields := "Missing required fields"

  /** The request lacks a recipient (missing or empty) or the report data. */
  predicate MissingRequiredFields(req: Request)
  {
    !Truthy(req.recipientEmail) || req.reportData.None?
  }

  /** A request that passed the check. */
  datatype Checked = Checked(to: string, data: ReportData, fecha: string)

  /** The guard at the start of the handler. */
  function Validate(req: Request): (r: Result<Checked, string>)
    ensures r.Failure? ==>
      && r.error == MissingFields
      && (req.recipientEmail == None || req.recipientEmail == Some("") || req.reportData == None)
    ensures r.Success? ==>
      && r.value.to != ""
      && req.recipientEmail == Some(r.value.to)
      && req.reportData == Some(r.value.data)
      && r.value.fecha == DateText(req.reportDate)
  {
    if !Truthy(req.recipientEmail) || req.reportData.None? then
      Failure(MissingFields)
    else
      Success(Checked(req.recipientEmail.value, req.reportData.value, DateText(req.reportDate)))
  }

  /** One row of the field-labor table. */
  datatype LaborLine = LaborLine(nombre: string, tipo: string, horas: real, costo: real)

  /** One row of the equipment table. */
  datatype EquipmentLine = EquipmentLine(equipo: string, operador: string, horas: real, costo: real)

  function LaborLineCost(l: LaborLine): real { l.costo }

  function EquipmentLineCost(l: EquipmentLine): real { l.costo }

  /** The field-labor table: one line per worker, in list order. */
  function LaborLines(rows: seq<LaborRow>): (lines: seq<LaborLine>)
    ensures |lines| == |rows|
    ensures forall i :: 0 <= i < |rows| ==>
      && lines[i].nombre == rows[i].nombre
      && lines[i].tipo == rows[i].tipo
      && lines[i].horas == rows[i].horasNormales + rows[i].horasExtras
      && lines[i].costo == LaborCost(rows[i])
  {
    if rows == [] then []
    else
      var p := rows[0];
      [LaborLine(p.nombre, p.tipo, p.horasNormales + p.horasExtras, LaborCost(p))] + LaborLines(rows[1..])
  }

  /** The equipment table: one line per machine, in list order. */
  function EquipmentLines(rows: seq<EquipmentRow>): (lines: seq<EquipmentLine>)
    ensures |lines| == |rows|
    ensures forall i :: 0 <= i < |rows| ==>
      && lines[i].equipo == rows[i].tipo
      && lines[i].operador == rows[i].operador
      && lines[i].horas == rows[i].horasTrabajo
      && lines[i].costo == EquipmentCost(rows[i])
  {
    if rows == [] then []
    else
      var e := rows[0];
      [EquipmentLine(e.tipo, e.operador, e.horasTrabajo, EquipmentCost(e))] + EquipmentLines(rows[1..])
  }

  /** The sections of the HTML body, each with what it displays. */
  datatype Section =
    | Header(proyecto: string, fecha: string)
    | GeneralInfo(cliente: string, supervisor: string, clima: string)
    | FieldLaborTable(workers: seq<LaborLine>)
    | EquipmentTable(machines: seq<EquipmentLine>)
    | FinancialSummary(campo: real, admin: real, equipos: real, materiales: real)
    | DailyTotal(total: real)
    | Observations(text: string)
    | Footer

  /** The header and the general-information section, with their defaults. */
  function TopSections(d: ReportData, fecha: string): seq<Section>
  {
    [Header(OrDefault(d.proyecto, "Villa Marina Fase 4"), fecha),
     GeneralInfo(OrDefault(d.cliente, "Grupo VerdeAzul"), OrDefault(d.supervisor, "N/A"), OrDefault(d.clima, "N/A"))]
  }

  function FieldLaborSections(d: ReportData): seq<Section>
  {
    if Listed(d.personalCampo) then [FieldLaborTable(LaborLines(d.personalCampo.value))] else []
  }

  function EquipmentSections(d: ReportData): seq<Section>
  {
    if Listed(d.equipos) then [EquipmentTable(EquipmentLines(d.equipos.value))] else []
  }

  /** The financial summary followed by the total of the day. */
  function MoneySections(s: Summary): seq<Section>
  {
    [FinancialSummary(s.campo, s.admin, s.equipos, s.materiales), DailyTotal(s.total)]
  }

  function ObservationSections(d: ReportData): seq<Section>
  {
    if Truthy(d.observaciones) then [Observations(d.observaciones.value)] else []
  }

  /**
   * The HTML body, top to bottom: header, general information, the field-labor
   * table and the equipment table when their lists have rows, the financial
   * summary, the day's total, the observations when there are any, the footer.
   * `f`, `e` and `o` are 1 when the optional section is shown and 0 otherwise.
   */
  function RenderBody(d: ReportData, fecha: string): (body: seq<Section>)
    ensures |body| >= 5
    ensures body[0] == Header(OrDefault(d.proyecto, "Villa Marina Fase 4"), fecha)
    ensures body[1] == GeneralInfo(OrDefault(d.cliente, "Grupo VerdeAzul"),
                                   OrDefault(d.supervisor, "N/A"), OrDefault(d.clima, "N/A"))
    ensures body[|body| - 1] == Footer
    ensures var f, e, o := (if Listed(d.personalCampo) then 1 else 0), (if Listed(d.equipos) then 1 else 0),
                           (if Truthy(d.observaciones) then 1 else 0);
      var s := Summarize(d);
      && |body| == 5 + f + e + o
      && (f == 1 ==> body[2] == FieldLaborTable(LaborLines(d.personalCampo.value)))
      && (e == 1 ==> body[2 + f] == EquipmentTable(EquipmentLines(d.equipos.value)))
      && body[2 + f + e] == FinancialSummary(s.campo, s.admin, s.equipos, s.materiales)
      && body[3 + f + e] == DailyTotal(s.total)
      && (o == 1 ==> body[4 + f + e] == Observations(d.observaciones.value))
  {
    TopSections(d, fecha) + FieldLaborSections(d) + EquipmentSections(d)
    + MoneySections(Summarize(d)) + ObservationSections(d) + [Footer]
  }

  /** The plain-text part: the date and the day's total. */
  datatype TextSummary = TextSummary(fecha: string, total: real)

  datatype EmailData = EmailData(to: string, subject: string, html: seq<Section>, text: TextSummary)

  datatype Body =
    | ErrorBody(error: string)
    | PreparedBody(message: string, emailData: EmailData)

  datatype Response = Response(status: int, body: Body)

  /** The e-mail subject; its project default is shorter than the header's. */
  function Subject(d: ReportData, fecha: string): string
  {
    "Reporte Diario - " + OrDefault(d.proyecto, "Villa Marina") + " - " + fecha
  }

  /** The handler for a parsed request. */
  function HandleReportEmail(req: Request): (resp: Response)
    ensures resp.status == 400 <==> MissingRequiredFields(req)
    ensures resp.status == 400 ==> resp.body == ErrorBody(MissingFields)
    ensures resp.status != 400 ==>
      && resp.status == 200
      && resp.body.PreparedBody?
      && resp.body.emailData.to == req.recipientEmail.value
      && resp.body.emailData.html == RenderBody(req.reportData.value, DateText(req.reportDate))
      && resp.body.emailData.text == TextSummary(DateText(req.reportDate), Summarize(req.reportData.value).total)
  {
    match Validate(req)
    case Failure(e) => Response(400, ErrorBody(e))
    case Success(c) =>
      var s := Summarize(c.data);
      Response(200, PreparedBody("Report prepared for email",
        EmailData(c.to, Subject(c.data, c.fecha), RenderBody(c.data, c.fecha), TextSummary(c.fecha, s.total))))
  }

  predicate HasFieldTable(body: seq<Section>)
  {
    exists i :: 0 <= i < |body| && body[i].FieldLaborTable?
  }

  predicate HasEquipmentTable(body: seq<Section>)
  {
    exists i :: 0 <= i < |body| && body[i].EquipmentTable?
  }

  predicate HasObservations(body: seq<Section>)
  {
    exists i :: 0 <= i < |body| && body[i].Observations?
  }

  /**
   * The field-labor table, the equipment table and the observations appear
   * exactly when their list is present and non-empty (the notes non-empty),
   * and the observations section shows the notes as given.
   */
  lemma SectionsShownExactly(d: ReportData, fecha: string)
    ensures HasFieldTable(RenderBody(d, fecha)) <==> Listed(d.personalCampo)
    ensures HasEquipmentTable(RenderBody(d, fecha)) <==> Listed(d.equipos)
    ensures HasObservations(RenderBody(d, fecha)) <==> Truthy(d.observaciones)
    ensures var body := RenderBody(d, fecha);
      forall i :: 0 <= i < |body| && body[i].Observations? ==> body[i].text == d.observaciones.value
  {
    var body := RenderBody(d, fecha);
    var top, field, machines := TopSections(d, fecha), FieldLaborSections(d), EquipmentSections(d);
    var money, notes := MoneySections(Summarize(d)), ObservationSections(d);
    assert body == top + field + machines + money + notes + [Footer];
    if Listed(d.personalCampo) {
      assert body[2].FieldLaborTable?;
    } else {
      assert forall x | x in body :: !x.FieldLaborTable?;
    }
    if Listed(d.equipos) {
      assert body[|top + field|].EquipmentTable?;
    } else {
      assert forall x | x in body :: !x.EquipmentTable?;
    }
    if Truthy(d.observaciones) {
      assert body[|body| - 2].Observations?;
    } else {
      assert forall x | x in body :: !x.Observations?;
    }
    forall i | 0 <= i < |body| && body[i].Observations?
      ensures body[i] == Observations(d.observaciones.value)
    {
      assert body[i] in notes;
    }
  }


  /** The exact, unrounded line costs of the field-labor table add up to the field-labor subtotal. */
  lemma {:induction false} LaborTableAddsUp(rows: seq<LaborRow>)
    ensures Sum(LaborLines(rows), LaborLineCost) == Sum(rows, LaborCost)
  {
    SumPointwise(LaborLines(rows), LaborLineCost, rows, LaborCost);
  }

  /** The exact, unrounded line costs of the equipment table add up to the equipment subtotal. */
  lemma {:induction false} EquipmentTableAddsUp(rows: seq<EquipmentRow>)
    ensures Sum(EquipmentLines(rows), EquipmentLineCost) == Sum(rows, EquipmentCost)
  {
    SumPointwise(EquipmentLines(rows), EquipmentLineCost, rows, EquipmentCost);
  }

  /**
   * Each table in the body lists the rows of its collection, in order, as
   * `LaborLines` / `EquipmentLines` describe them, and the exact (unrounded)
   * costs on its lines add up to its subtotal.
   */
  lemma TablesAddUpToSubtotals(d: ReportData, fecha: string)
    ensures var body, s := RenderBody(d, fecha), Summarize(d);
      && (forall i :: 0 <= i < |body| && body[i].FieldLaborTable? ==>
            && body[i].workers == LaborLines(Items(d.personalCampo))
            && |body[i].workers| == |Items(d.personalCampo)|
            && Sum(body[i].workers, LaborLineCost) == s.campo)
      && (forall i :: 0 <= i < |body| && body[i].EquipmentTable? ==>
            && body[i].machines == EquipmentLines(Items(d.equipos))
            && |body[i].machines| == |Items(d.equipos)|
            && Sum(body[i].machines, EquipmentLineCost) == s.equipos)
  {
    var body := RenderBody(d, fecha);
    var top, field, machines := TopSections(d, fecha), FieldLaborSections(d), EquipmentSections(d);
    var money, notes := MoneySections(Summarize(d)), ObservationSections(d);
    assert body == top + field + machines + money + notes + [Footer];
    LaborTableAddsUp(Items(d.personalCampo));
    EquipmentTableAddsUp(Items(d.equipos));
    forall i | 0 <= i < |body| && body[i].FieldLaborTable?
      ensures body[i] == FieldLaborTable(LaborLines(Items(d.personalCampo)))
    {
      assert body[i] in field;
    }
    forall i | 0 <= i < |body| && body[i].EquipmentTable?
      ensures body[i] == EquipmentTable(EquipmentLines(Items(d.equipos)))
    {
      assert body[i] in machines;
    }
  }

  /**
   * The body always holds the financial section with the four subtotals and
   * the section with the day's total, which is their sum: administrative labor
   * has no table but is part of it. No other section of either kind appears.
   */
  lemma FiguresAgreeWithSummary(d: ReportData, fecha: string)
    ensures var body, s := RenderBody(d, fecha), Summarize(d);
      && (exists i :: 0 <= i < |body| && body[i] == FinancialSummary(s.campo, s.admin, s.equipos, s.materiales))
      && (exists j :: 0 <= j < |body| && body[j] == DailyTotal(s.total))
      && (forall i :: 0 <= i < |body| && body[i].FinancialSummary? ==>
            body[i] == FinancialSummary(s.campo, s.admin, s.equipos, s.materiales))
      && (forall i :: 0 <= i < |body| && body[i].DailyTotal? ==>
            body[i].total == s.campo + s.admin + s.equipos + s.materiales)
  {
    var body := RenderBody(d, fecha);
    var top, field, machines := TopSections(d, fecha), FieldLaborSections(d), EquipmentSections(d);
    var money, notes := MoneySections(Summarize(d)), ObservationSections(d);
    assert body == top + field + machines + money + notes + [Footer];
    var k := |top + field + machines|;
    assert body[k] == money[0] && body[k + 1] == money[1];
    forall i | 0 <= i < |body| && (body[i].FinancialSummary? || body[i].DailyTotal?)
      ensures body[i] in money
    {
    }
  }

  /**
   * The header and subject fall back to their defaults when the report leaves
   * a field empty; the project default differs between header and subject.
   */
  lemma HeaderDefaults(req: Request)
    requires !MissingRequiredFields(req)
    ensures var resp, d, fecha := HandleReportEmail(req), req.reportData.value, DateText(req.reportDate);
      && resp.body.PreparedBody?
      && var e := resp.body.emailData;
      && (!Truthy(d.proyecto) ==>
            e.html[0] == Header("Villa Marina Fase 4", fecha) && e.subject == "Reporte Diario - Villa Marina - " + fecha)
      && (Truthy(d.proyecto) ==>
            e.html[0] == Header(d.proyecto.value, fecha) && e.subject == "Reporte Diario - " + d.proyecto.value + " - " + fecha)
      && e.html[1].cliente == (if Truthy(d.cliente) then d.cliente.value else "Grupo VerdeAzul")
      && e.html[1].supervisor == (if Truthy(d.supervisor) then d.supervisor.value else "N/A")
      && e.html[1].clima == (if Truthy(d.clima) then d.clima.value else "N/A")
  {
    var d, fecha := req.reportData.value, DateText(req.reportDate);
    var c := Checked(req.recipientEmail.value, d, fecha);
    assert Validate(req) == Success(c);
    var e := HandleReportEmail(req).body.emailData;
    assert e == EmailData(c.to, Subject(d, fecha), RenderBody(d, fecha), TextSummary(fecha, Summarize(d).total));
  }

  /**
   * Adding an administrative worker to a valid request changes which
   * sections appear in no way, and raises the e-mailed total by that worker's cost.
   */
  lemma AdminCountsWithoutTable(req: Request, p: LaborRow)
    requires !MissingRequiredFields(req)
    ensures var d := req.reportData.value;
      var req' := req.(reportData := Some(WithAdminWorker(d, p)));
      var fecha := DateText(req.reportDate);
      && HandleReportEmail(req').status == 200
      && HandleReportEmail(req').body.emailData.text.total == HandleReportEmail(req).body.emailData.text.total + LaborCost(p)
      && |RenderBody(WithAdminWorker(d, p), fecha)| == |RenderBody(d, fecha)|
      && HasFieldTable(RenderBody(WithAdminWorker(d, p), fecha)) == HasFieldTable(RenderBody(d, fecha))
      && HasEquipmentTable(RenderBody(WithAdminWorker(d, p), fecha)) == HasEquipmentTable(RenderBody(d, fecha))
  {
    var d := req.reportData.value;
    var fecha := DateText(req.reportDate);
    AddAdminWorker(d, p);
    SectionsShownExactly(d, fecha);
    SectionsShownExactly(WithAdminWorker(d, p), fecha);
  }
}
