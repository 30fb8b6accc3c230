# Certificate upload and monthly report ledger — Dafny model

The application tracks monthly waste-disposal certificates. A user picks a
month, attaches a certificate, lets the (simulated) extraction read the
kilograms from it, may correct the amount, and confirms. The confirmation
rewrites that month's record in a 12-month report list: the kilograms, the
VERIFIED status, the date and the certificate's file name.

The model has four modules:

- `Reports` (reports.dfy): the `MonthlyReport` record and `UpdateReports`,
  the pure list update of `handleUpdateReport`. It also holds a reference
  definition of an update (`IsUpdateOf`, record by record) and the lemmas
  about it: the update meets the definition, the definition fixes the result,
  a month that is not present changes nothing, a 12-month ledger stays one,
  a second update of a month overrides the first, the update is idempotent,
  and updates of different months commute.
- `WasteLogView` (waste_log.dfy): the upload component as a class with the
  component's state fields and one method per handler. The object invariant
  `Valid()` says the step is 1, 2 or 3 and the month is one of the twelve
  options. `OneScanAtATime()` says at most one extraction is in flight.
  The button click `ClickProcess` preserves it, and so do all other handlers
  except `ProcessFile` called directly while a scan runs (its contract keeps
  the invariant only when no scan is running).
- `AppView` (app.dfy): the shell as a class holding the report list and the
  current view. Its `onRegister` callback is wired to the upload component's
  confirmation (`ConfirmUpload`). Two client methods run an upload end to end
  and prove the resulting record.
- `Wrappers` (wrappers.dfy): `Option`.

Inputs from outside the program are parameters. The date is an opaque
string (the source formats the system clock). The current month is passed
to the component's constructor. The extracted amount and waste type are the
parameters of `CompleteScan`. The initial report list is the `App`
constructor's parameter.

Some behaviour of the code worth knowing:

- An update of a month that no record carries returns the list unchanged. There is no insertion and no error.
- Cancelling keeps the extracted data; it only goes back to step 1.
- The timer callback always applies, whatever happened since it was scheduled.
- No handler rejects a month, a file or an amount.

## Model

| member | source | states |
|---|---|---|
| `Reports.UpdateReports` | App.tsx:19-25 | the updated list has as many records as the input |
| `Reports.UpdateReportsIsUpdate` | App.tsx:19-25 | the update meets the reference definition: every record keeps its month and position; a record of the month gets the amount, VERIFIED, the date, and the file name when it is present and non-empty (its old file otherwise); every other record is unchanged |
| `Reports.UpdateIsUnique` | App.tsx:19-25 | the reference definition determines the list completely, so it is a full specification of the update |
| `Reports.UpdateOfAbsentMonth` | App.tsx:19-25 | when no record has the month, the result equals the input: no insertion, no error |
| `Reports.UpdateKeepsLedger` | App.tsx:19-25 | a list of 12 records, record m at position m, stays so after any update |
| `Reports.UpdateLedgerMonth` | App.tsx:19-24 | on such a ledger with a month in 0..11, that month's record becomes exactly (month, amount, VERIFIED, date, given file or old file) and the other eleven records are unchanged |
| `Reports.SecondUpdateWins` | App.tsx:19-25 | two updates of one month equal one update with the second amount and date, and with the second file name if given, else the first's |
| `Reports.UpdateIdempotent` | App.tsx:19-25 | applying the same update twice gives the same list as applying it once |
| `Reports.UpdatesOfDifferentMonthsCommute` | App.tsx:19-25 | updates of two different months, with any dates, give the same list in either order |
| `WasteLogView.WasteLog.constructor` | views/WasteLog.tsx:15-21 | the component starts in step 1 with the clock's month, no file, no scan and no extracted data |
| `WasteLogView.WasteLog.SelectMonth` | views/WasteLog.tsx:84-91 | the selected month becomes the chosen option index (0..11) and nothing else changes |
| `WasteLogView.WasteLog.HandleFileChange` | views/WasteLog.tsx:23-27 | the first chosen file replaces the attached one; with no file list or an empty one the attached file is kept |
| `WasteLogView.WasteLog.ProcessFile` | views/WasteLog.tsx:29-32 | without a file nothing changes; with one the scan starts and exactly one completion is scheduled |
| `WasteLogView.WasteLog.ClickProcess` | views/WasteLog.tsx:111-113 | the button starts a scan only in step 1 with a file and no scan running, so at most one scan is ever in flight |
| `WasteLogView.WasteLog.CompleteScan` | views/WasteLog.tsx:34-42 | the completion clears the scanning flag, stores the extracted amount and type, and moves to step 2 |
| `WasteLogView.WasteLog.AmendAmount` | views/WasteLog.tsx:158 | only the amount of the extracted data changes; the waste type is kept |
| `WasteLogView.WasteLog.Cancel` | views/WasteLog.tsx:167 | the step goes back to 1; file and extracted data are kept, so a retry needs no new file |
| `WasteLogView.WasteLog.HandleConfirm` | views/WasteLog.tsx:45-50 | one registration (selected month, extracted amount, file name) and step 3 if and only if both extracted data and a file are present; otherwise nothing changes |
| `AppView.App.constructor` | App.tsx:12-15 | the shell starts on the dashboard with the initial report list |
| `AppView.App.HandleUpdateReport` | App.tsx:18-27 | the report list is replaced by its update, and a 12-month ledger stays one |
| `AppView.App.OnRegister` | App.tsx:35-38 | the registered month is updated with the uploaded file name and the certificates view is shown |
| `AppView.App.ChangeView` | App.tsx:52 | the navigation sets the current view |
| `AppView.ConfirmUpload` | App.tsx:34-39 | a confirmation reaches the ledger as the update of the selected month; on a ledger that record ends VERIFIED with the confirmed amount and date and the other eleven are unchanged; without a registration neither the ledger nor the view changes |
| `AppView.UploadJuneCertificate` | views/WasteLog.tsx:14-50 | selecting June, attaching "cert_june.pdf", scanning 123.4 kg and confirming leaves June's record as (5, 123.4, VERIFIED, date, "cert_june.pdf") |
| `AppView.RetryAndAmend` | views/WasteLog.tsx:158-167 | after cancel, a rescan without re-attaching the file and an amended amount, the confirmed record carries the corrected amount and the first attempt's file |

## Left out

- Rendering and styling of both components (views/WasteLog.tsx:52-185, App.tsx:51-55). Of the guards they encode, only the process button's is kept (`ClickProcess`: shown in step 1, `disabled` without a file or while scanning). The other handlers can be called in any step, which allows more sequences than the UI does: `SelectMonth` and `HandleFileChange` are only reachable in step 1 (views/WasteLog.tsx:80-101), `Cancel` and `HandleConfirm` only in step 2 (lines 136, 167, 173), and `AmendAmount` keeps only the extracted-data half of line 136's condition. So, for instance, the model lets `HandleConfirm` register again after `Cancel`, which the UI cannot do.
- `renderView` and the other views (Dashboard, Logistics, Certificates, Directory, Layout). They render data; their code is not part of this model. The Certificates view also calls `handleUpdateReport`; `App.HandleUpdateReport` covers that call.
- The timer's delay and the random amount of the simulated extraction (`Math.floor(Math.random() * 150 + 50) + 0.5`, always labelled "Aceite de Cocina Usado (ACU)"). `CompleteScan` takes the amount and type as parameters.
- `parseFloat` and NaN in the amount field. Amounts are `real`; the code validates nothing there.
- Number semantics: JavaScript numbers are floating point; kilograms are modelled as `real` and month indices as `int`.
- AppView.App.HandleUpdateReport: assumes one update per render. The source maps over the `reports` captured at the last render and calls `setReports(updated)` without an updater function (App.tsx:19, 26), so two calls in one event would lose the first; the model applies both in turn. No caller in the modelled code makes two calls in one event.
- The clock: `new Date().toISOString().split('T')[0]` and `new Date().getMonth()` become parameters.
- File type and size: the `accept=".pdf,.jpg,.png"` attribute and the "Max 5MB" hint are not checks, so no validation error is modelled. A file is just its name.
- The initial report list (`MOCK_MONTHLY_REPORTS`) is not part of this model; the constructor takes any list, and the ledger lemmas assume the 12-record shape.
- Component unmounting after `onRegister` switches to the certificates view is not modelled; the upload object simply stays in step 3.
