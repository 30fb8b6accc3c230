/**
 The application shell of App.tsx: the lifted report list, the current view,
 `handleUpdateReport` (lines 18-27) and the `onRegister` callback it hands to
 the upload workflow (lines 34-39).
 */
module AppView {
  import opened Wrappers
  import opened Reports
  import WasteLogView

  /** The views the shell switches between. */
  datatype View = Dashboard | Waste | Logistics | Certificates | Directory

  class App {
    var currentView: View
    var reports: seq<MonthlyReport>

    /** The shell starts on the dashboard with the initial report list. */
    constructor (initial: seq<MonthlyReport>)
      ensures currentView == Dashboard && reports == initial
    {
      currentView := Dashboard;
      reports := initial;
    }

    /** `handleUpdateReport`: the list is replaced by its update; a ledger of
        12 months stays one. */
    method HandleUpdateReport(monthIndex: int, amount: real, fileUrl: Option<string>, today: string)
      modifies this`reports
      ensures reports == UpdateReports(old(reports), monthIndex, amount, fileUrl, today)
      ensures IsUpdateOf(reports, old(reports), monthIndex, amount, fileUrl, today)
      ensures Ledger(old(reports)) ==> Ledger(reports)
    {
      UpdateReportsIsUpdate(reports, monthIndex, amount, fileUrl, today);
      if Ledger(reports) {
        UpdateKeepsLedger(reports, monthIndex, amount, fileUrl, today);
      }
      reports := UpdateReports(reports, monthIndex, amount, fileUrl, today);
    }

    /** The `onRegister` callback: the report of the month is updated with the
        uploaded file's name and the certificates view is shown. */
    method OnRegister(monthIndex: int, amount: real, fileName: string, today: string)
      modifies this
      ensures reports == UpdateReports(old(reports), monthIndex, amount, Some(fileName), today)
      ensures currentView == Certificates
      ensures Ledger(old(reports)) ==> Ledger(reports)
    {
      HandleUpdateReport(monthIndex, amount, Some(fileName), today);
      currentView := Certificates;
    }

    /** The layout's navigation (`onChangeView`). */
    method ChangeView(view: View)
      modifies this`currentView
      ensures currentView == view
    {
      currentView := view;
    }
  }

  /** A click on "Confirmar y Guardar" with the shell's callback wired in: a
      registration reaches the ledger as the update of the selected month;
      without one neither the ledger nor the view changes. On a ledger, the
      selected month's record ends verified with the confirmed amount and the
      file name, and the other eleven records are unchanged. */
  method ConfirmUpload(log: WasteLogView.WasteLog, app: App, today: string)
    returns (registration: Option<WasteLogView.Registration>)
    requires log.Valid()
    modifies log`step, app
    ensures log.Valid()
    ensures registration.Some? <==> old(log.extractedData.Some? && log.file.Some?)
    ensures registration.Some? ==>
              && log.step == 3
              && app.currentView == Certificates
              && app.reports == UpdateReports(old(app.reports), log.selectedMonth,
                                              log.extractedData.value.amount, Some(log.file.value.name), today)
    ensures registration.None? ==> app.reports == old(app.reports) && app.currentView == old(app.currentView)
    ensures registration.Some? && Ledger(old(app.reports)) ==>
              && Ledger(app.reports)
              && app.reports[log.selectedMonth].status == Verified
              && app.reports[log.selectedMonth].kgGenerated == log.extractedData.value.amount
              && app.reports[log.selectedMonth].lastUpdated == today
              && (log.file.value.name != "" ==> app.reports[log.selectedMonth].fileUrl == Some(log.file.value.name))
              && forall m :: 0 <= m < MonthCount && m != log.selectedMonth ==> app.reports[m] == old(app.reports[m])
  {
    registration := log.HandleConfirm();
    if registration.Some? {
      var r := registration.value;
      if Ledger(app.reports) {
        UpdateLedgerMonth(app.reports, r.monthIndex, r.amount, Some(r.fileName), today);
      }
      app.OnRegister(r.monthIndex, r.amount, r.fileName, today);
    }
  }

  /** An upload from start to finish: June is selected, "cert_june.pdf"
      attached and scanned, the extraction yields 123.4 kg, and the
      confirmation leaves June's record verified with that amount and file. */
  method UploadJuneCertificate(initial: seq<MonthlyReport>, today: string)
    returns (june: MonthlyReport)
    requires Ledger(initial)
    ensures june == MonthlyReport(5, 123.4, Verified, today, Some("cert_june.pdf"))
  {
    var app := new App(initial);
    app.ChangeView(Waste);
    var log := new WasteLogView.WasteLog(0);
    log.SelectMonth(5);
    log.HandleFileChange(Some([WasteLogView.File("cert_june.pdf")]));
    log.ClickProcess();
    log.CompleteScan(123.4, WasteLogView.SimulatedWasteType);
    var registration := ConfirmUpload(log, app, today);
    june := app.reports[5];
  }

  /** A retry: after a first scan the user cancels, restarts the scan without
      attaching the file again, corrects the extracted amount and confirms.
      March's record ends with the corrected amount and the file kept from
      the first attempt. */
  method RetryAndAmend(initial: seq<MonthlyReport>, today: string, scanned: real, corrected: real)
    returns (march: MonthlyReport)
    requires Ledger(initial)
    ensures march == MonthlyReport(2, corrected, Verified, today, Some("marzo.pdf"))
  {
    var app := new App(initial);
    var log := new WasteLogView.WasteLog(2);
    log.HandleFileChange(Some([WasteLogView.File("marzo.pdf")]));
    log.ClickProcess();
    log.CompleteScan(scanned, WasteLogView.SimulatedWasteType);
    log.Cancel();
    log.HandleFileChange(None);
    log.ClickProcess();
    log.CompleteScan(scanned, WasteLogView.SimulatedWasteType);
    log.AmendAmount(corrected);
    var registration := ConfirmUpload(log, app, today);
    march := app.reports[2];
  }
}
