/**
 * The report data the e-mail function receives and the daily cost summary it
 * computes from it: one subtotal per row collection and the day's total.
 *
 * Money, hours and rates are exact `real`s; the field names are the report's own.
 */
module CostSummary {
  import opened Wrappers
  import opened Fold

  /** A field or administrative worker as listed in `personalCampo` / `personalAdmin`. */
  datatype LaborRow = LaborRow(
    nombre: string,
    tipo: string,
    horasNormales: real,
    horasExtras: real,
    tarifaHora: real)

  /** A machine as listed in `equipos`. */
  datatype EquipmentRow = EquipmentRow(
    tipo: string,
    operador: string,
    horasTrabajo: real,
    costoHora: real)

  /** A material delivery as listed in `materiales`; `costoTotal` is stored, not derived here. */
  datatype MaterialRow = MaterialRow(
    tipo: string,
    cantidad: real,
    costoUnitario: real,
    costoTotal: real)

  /** The `reportData` object; every field may be missing from the JSON. */
  datatype ReportData = ReportData(
    proyecto: Option<string>,
    cliente: Option<string>,
    supervisor: Option<string>,
    clima: Option<string>,
    personalCampo: Option<seq<LaborRow>>,
    personalAdmin: Option<seq<LaborRow>>,
    equipos: Option<seq<EquipmentRow>>,
    materiales: Option<seq<MaterialRow>>,
    observaciones: Option<string>)

  /** What one worker costs for the day: all hours, normal and overtime, at the hourly rate. */
  function LaborCost(p: LaborRow): real
  {
    (p.horasNormales + p.horasExtras) * p.tarifaHora
  }

  /** What one machine costs for the day. */
  function EquipmentCost(e: EquipmentRow): real
  {
    e.horasTrabajo * e.costoHora
  }

  /** What one material row costs: its stored total, as given. */
  function MaterialCost(m: MaterialRow): real
  {
    m.costoTotal
  }

  /** The rows of a collection, an absent collection having none. */
  function Items<T>(rows: Option<seq<T>>): seq<T>
  {
    match rows
    case None => []
    case Some(rs) => rs
  }

  /** `rows?.reduce((sum, x) => sum + cost(x), 0) || 0`, for exact numbers. */
  function Subtotal<T>(rows: Option<seq<T>>, cost: T -> real): (r: real)
    ensures r == Sum(Items(rows), cost)
    ensures Items(rows) == [] ==> r == 0.0
  {
    match rows
    case None => 0.0
    case Some(rs) => Reduce(rs, cost, 0.0)
  }

  /** The financial summary of a day. */
  datatype Summary = Summary(
    campo: real,
    admin: real,
    equipos: real,
    materiales: real,
    total: real)

  /** The four subtotals and the daily total of a report. */
  function Summarize(d: ReportData): (s: Summary)
    ensures s.campo == Sum(Items(d.personalCampo), LaborCost)
    ensures s.admin == Sum(Items(d.personalAdmin), LaborCost)
    ensures s.equipos == Sum(Items(d.equipos), EquipmentCost)
    ensures s.materiales == Sum(Items(d.materiales), MaterialCost)
    ensures s.total == s.campo + s.admin + s.equipos + s.materiales
  {
    var campo := Subtotal(d.personalCampo, LaborCost);
    var admin := Subtotal(d.personalAdmin, LaborCost);
    var equipos := Subtotal(d.equipos, EquipmentCost);
    var materiales := Subtotal(d.materiales, MaterialCost);
    Summary(campo, admin, equipos, materiales, campo + admin + equipos + materiales)
  }

  /** A report with one more field worker; an absent list becomes a list of one. */
  function WithFieldWorker(d: ReportData, p: LaborRow): ReportData
  {
    d.(personalCampo := Some(Items(d.personalCampo) + [p]))
  }

  /** A report with one more administrative worker. */
  function WithAdminWorker(d: ReportData, p: LaborRow): ReportData
  {
    d.(personalAdmin := Some(Items(d.personalAdmin) + [p]))
  }

  /** A report with one more machine. */
  function WithMachine(d: ReportData, e: EquipmentRow): ReportData
  {
    d.(equipos := Some(Items(d.equipos) + [e]))
  }

  /** A report with one more material row. */
  function WithMaterial(d: ReportData, m: MaterialRow): ReportData
  {
    d.(materiales := Some(Items(d.materiales) + [m]))
  }

  /** Adding a field worker raises the field subtotal and the total by that worker's cost only. */
  lemma AddFieldWorker(d: ReportData, p: LaborRow)
    ensures var s, s' := Summarize(d), Summarize(WithFieldWorker(d, p));
      && s'.campo == s.campo + LaborCost(p)
      && s'.admin == s.admin && s'.equipos == s.equipos && s'.materiales == s.materiales
      && s'.total == s.total + LaborCost(p)
  {
    SumAppend(Items(d.personalCampo), p, LaborCost);
  }

  /** Adding an administrative worker raises the admin subtotal and the total by that worker's cost only. */
  lemma AddAdminWorker(d: ReportData, p: LaborRow)
    ensures var s, s' := Summarize(d), Summarize(WithAdminWorker(d, p));
      && s'.admin == s.admin + LaborCost(p)
      && s'.campo == s.campo && s'.equipos == s.equipos && s'.materiales == s.materiales
      && s'.total == s.total + LaborCost(p)
  {
    SumAppend(Items(d.personalAdmin), p, LaborCost);
  }

  /** Adding a machine raises the equipment subtotal and the total by that machine's cost only. */
  lemma AddMachine(d: ReportData, e: EquipmentRow)
    ensures var s, s' := Summarize(d), Summarize(WithMachine(d, e));
      && s'.equipos == s.equipos + EquipmentCost(e)
      && s'.campo == s.campo && s'.admin == s.admin && s'.materiales == s.materiales
      && s'.total == s.total + EquipmentCost(e)
  {
    SumAppend(Items(d.equipos), e, EquipmentCost);
  }

  /** Adding a material row raises the materials subtotal and the total by its stored total only. */
  lemma AddMaterial(d: ReportData, m: MaterialRow)
    ensures var s, s' := Summarize(d), Summarize(WithMaterial(d, m));
      && s'.materiales == s.materiales + m.costoTotal
      && s'.campo == s.campo && s'.admin == s.admin && s'.equipos == s.equipos
      && s'.total == s.total + m.costoTotal
  {
    SumAppend(Items(d.materiales), m, MaterialCost);
  }

  /** Reordering the rows of any collection changes neither a subtotal nor the total. */
  lemma SummaryIgnoresRowOrder(d: ReportData, d': ReportData)
    requires multiset(Items(d.personalCampo)) == multiset(Items(d'.personalCampo))
    requires multiset(Items(d.personalAdmin)) == multiset(Items(d'.personalAdmin))
    requires multiset(Items(d.equipos)) == multiset(Items(d'.equipos))
    requires multiset(Items(d.materiales)) == multiset(Items(d'.materiales))
    ensures Summarize(d) == Summarize(d')
  {
    SumPermutation(Items(d.personalCampo), Items(d'.personalCampo), LaborCost);
    SumPermutation(Items(d.personalAdmin), Items(d'.personalAdmin), LaborCost);
    SumPermutation(Items(d.equipos), Items(d'.equipos), EquipmentCost);
    SumPermutation(Items(d.materiales), Items(d'.materiales), MaterialCost);
  }

  /**
   * The materials subtotal takes each row's stored total as given: rows that
   * keep their totals but carry other quantities or unit costs (so that the
   * total no longer equals quantity times unit cost) leave the summary unchanged.
   */
  lemma MaterialsUseStoredTotal(d: ReportData, ms: seq<MaterialRow>)
    requires |ms| == |Items(d.materiales)|
    requires forall i :: 0 <= i < |ms| ==> ms[i].costoTotal == Items(d.materiales)[i].costoTotal
    ensures Summarize(d.(materiales := Some(ms))) == Summarize(d)
  {
    SumPointwise(ms, MaterialCost, Items(d.materiales), MaterialCost);
  }
}
