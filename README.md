# Daily construction report e-mail: cost summary and report assembly

This project models the serverless function `send-report-email`, which
receives one day's construction-site report (field and administrative
personnel, equipment, materials, header data and notes) and prepares an
e-mail from it. The function:

- rejects a request that lacks a recipient address or the report data with
  status 400 and the error "Missing required fields";
- folds each of the four row collections into a subtotal — field labor and
  administrative labor as (normal hours + overtime hours) × hourly rate,
  equipment as hours worked × hourly cost, materials as each row's stored
  total — where an absent collection counts as zero, and adds the four into
  the day's total;
- assembles the e-mail: a header and general-information block with default
  values for empty fields, a field-labor table and an equipment table shown
  only for non-empty lists, the financial summary, the day's total, the
  observations only when there are any, a subject line and a plain-text line
  with the total.

Modules:

- `Wrappers` (`wrappers.dfy`): `Option` for JSON fields that may be missing,
  `Result` for the request check.
- `Fold` (`fold.dfy`): `Reduce`, the accumulator fold the function applies to
  every collection, proved equal to the reference sum `Sum`; lemmas that the
  sum splits over concatenation, grows by one row's cost on append, and is
  unchanged under any reordering of the rows.
- `CostSummary` (`cost_summary.dfy`): the row and report records, the per-row
  costs, the subtotals and the daily `Summary`, and lemmas on how the summary
  responds to added and reordered rows.
- `EmailReport` (`email_report.dfy`): the request, its validation, the e-mail
  body as an ordered list of sections with the values they display, the
  subject, the plain-text summary and the handler's response.

Amounts, hours and rates are exact `real` numbers. JavaScript truthiness of a
string field (missing or empty means "use the default") is the predicate
`EmailReport.Truthy`; a list is shown when it is present and non-empty
(`EmailReport.Listed`).

## Model

| member | source | states |
|---|---|---|
| `Fold.Reduce` | supabase/functions/send-report-email/index.ts:40-58 | the `reduce` fold with an accumulator equals the accumulator plus the exact sum of the row costs |
| `Fold.SumAppend` | supabase/functions/send-report-email/index.ts:40-58 | appending a row raises a fold's sum by exactly that row's cost |
| `Fold.SumConcat` | supabase/functions/send-report-email/index.ts:40-58 | the sum over two collections one after the other is the sum of their sums |
| `Fold.SumPermutation` | supabase/functions/send-report-email/index.ts:40-58 | two collections holding the same rows in any order have the same sum |
| `CostSummary.Subtotal` | supabase/functions/send-report-email/index.ts:40-58 | a collection's subtotal is the exact sum of its row costs, and zero when the collection is missing or empty |
| `CostSummary.Summarize` | supabase/functions/send-report-email/index.ts:40-60 | field and admin subtotals sum (normal + overtime hours) × rate, equipment sums hours × hourly cost, materials sums the stored totals, and the total is the sum of the four |
| `CostSummary.AddFieldWorker` | supabase/functions/send-report-email/index.ts:40-60 | adding a field worker raises the field subtotal and the total by that worker's cost and leaves the other three subtotals unchanged |
| `CostSummary.AddAdminWorker` | supabase/functions/send-report-email/index.ts:45-60 | adding an administrative worker raises the admin subtotal and the total by that worker's cost and leaves the other three unchanged |
| `CostSummary.AddMachine` | supabase/functions/send-report-email/index.ts:50-60 | adding a machine raises the equipment subtotal and the total by hours × hourly cost and leaves the other three unchanged |
| `CostSummary.AddMaterial` | supabase/functions/send-report-email/index.ts:55-60 | adding a material row raises the materials subtotal and the total by its stored total and leaves the other three unchanged |
| `CostSummary.SummaryIgnoresRowOrder` | supabase/functions/send-report-email/index.ts:40-60 | reordering the rows of any collections leaves every subtotal and the total unchanged |
| `CostSummary.MaterialsUseStoredTotal` | supabase/functions/send-report-email/index.ts:55-58 | material rows count with their stored total: changing quantities or unit costs but not the totals leaves the summary unchanged |
| `EmailReport.Validate` | supabase/functions/send-report-email/index.ts:26-37 | the request fails with "Missing required fields" exactly when the recipient is missing or empty or the report data is missing; otherwise it carries the recipient, the data and the date as given |
| `EmailReport.HandleReportEmail` | supabase/functions/send-report-email/index.ts:26-219 | the response has status 400 with only the error message exactly when required fields are missing; otherwise status 200, addressed to the recipient, with the rendered body and a text line carrying the date and the day's total |
| `EmailReport.LaborLines` | supabase/functions/send-report-email/index.ts:111-118 | the field-labor table has one line per worker in list order, showing name, role, normal plus overtime hours and that worker's cost |
| `EmailReport.EquipmentLines` | supabase/functions/send-report-email/index.ts:137-144 | the equipment table has one line per machine in list order, showing type, operator, hours worked and hours × hourly cost |
| `EmailReport.RenderBody` | supabase/functions/send-report-email/index.ts:84-189 | the body has exactly these sections, in this order: the header (project, default "Villa Marina Fase 4", and date), the general information (client default "Grupo VerdeAzul", supervisor and weather default "N/A"), the field-labor table and the equipment table only when their lists have rows, the financial summary, the day's total, the observations only when there are notes, and the footer |
| `EmailReport.SectionsShownExactly` | supabase/functions/send-report-email/index.ts:98-184 | the field-labor table appears if and only if that list is present and non-empty, likewise the equipment table; the observations section appears if and only if the notes are non-empty, and it shows them as given |
| `EmailReport.LaborTableAddsUp` | supabase/functions/send-report-email/index.ts:111-118 | the exact, unrounded per-worker costs on the field-labor table's lines add up to the sum of the workers' costs |
| `EmailReport.EquipmentTableAddsUp` | supabase/functions/send-report-email/index.ts:137-144 | the exact, unrounded per-machine costs on the equipment table's lines add up to the sum of the machines' costs |
| `EmailReport.TablesAddUpToSubtotals` | supabase/functions/send-report-email/index.ts:98-148 | every table in the body lists exactly its collection's rows in order (name, role or type, operator, hours, cost), and its exact, unrounded line costs add up to the field-labor or equipment subtotal |
| `EmailReport.FiguresAgreeWithSummary` | supabase/functions/send-report-email/index.ts:150-177 | the body always contains the financial section with the four subtotals and the day's total, which is their sum and includes administrative labor although it has no table; no other section of either kind appears |
| `EmailReport.HeaderDefaults` | supabase/functions/send-report-email/index.ts:87-207 | an empty project shows "Villa Marina Fase 4" in the header but "Villa Marina" in the subject, a given project appears in both; client, supervisor and weather fall back to "Grupo VerdeAzul", "N/A" and "N/A" |
| `EmailReport.AdminCountsWithoutTable` | supabase/functions/send-report-email/index.ts:45-148 | adding an administrative worker raises the e-mailed total by that worker's cost and changes neither the number of sections nor which tables appear |

## Left out

- HTTP plumbing (`Deno.serve`, CORS headers, the OPTIONS answer, JSON parsing of the request and the catch-all status-500 response, index.ts lines 3-24 and 220-232): the model starts from an already parsed request and returns the status and body.
- HTML and CSS markup and the `toFixed(2)` two-decimal formatting: the body is an ordered list of sections holding the exact values before formatting; the subject is a string; the text part is a record of the date and the total.
- EmailReport.TablesAddUpToSubtotals: states that the exact line costs add up, not the printed ones. The e-mail rounds each line's cost (index.ts lines 116 and 142) and each subtotal (lines 155-167) to two decimals separately. So a table's printed line costs can differ from its printed subtotal by up to half a cent per line: two workers at 4.5 h × 17.25 each print 77.63, but the subtotal prints 155.25.
- EmailReport.LaborTableAddsUp: about exact, unrounded line costs, for the same reason.
- EmailReport.EquipmentTableAddsUp: about exact, unrounded line costs, for the same reason.
- JavaScript floating-point arithmetic: amounts are exact `real`s, so rounding drift in the folds is not modelled, nor is the `|| 0` fallback turning a NaN subtotal into 0; only "missing collection gives 0" is modelled.
- JavaScript dynamic typing: fields are assumed to have their documented types (strings, numbers, arrays); non-string truthy values, `null` versus `undefined` (a missing date prints as "undefined", never "null"), and rows with missing numeric fields are not modelled.
- Labor rows carry only the fields the e-mail reads (name, role, normal and overtime hours, hourly rate); the form's `id`, `tarea` and `presente` fields are not modelled, because the function ignores them — so a worker marked absent (`presente: false`) still counts in the costs.
- Sending the e-mail: the source itself only prepares the message, as the model does.
- The report form in `app_control_obra v2.tsx` (row editing, rate tables, carry-forward, export) and the authentication switch in `src/App.jsx`: not part of this model.
- The fixed wording of the body's title and footer is represented by the `Header` and `Footer` section kinds, and the `success: true` flag by the `PreparedBody` variant itself.
