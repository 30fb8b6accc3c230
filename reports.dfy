/**
 The 12-month report ledger and the update that App.tsx applies to it when a
 certificate is registered (`handleUpdateReport`, App.tsx:18-27).

 The record shape follows its use in App.tsx:19-25: a month index, the
 kilograms generated, a verification status, the date of the last update and
 the optional name of the certificate file. The date is an opaque string that
 the caller supplies (the source takes it from the system clock).
 */
module Reports {
  import opened Wrappers

  datatype Status = Pending | Verified

  datatype MonthlyReport = MonthlyReport(
    monthIndex: int,
    kgGenerated: real,
    status: Status,
    lastUpdated: string,
    fileUrl: Option<string>)

  /** The number of months, hence of records, in a ledger. */
  const MonthCount := 12

  /** A ledger as the application keeps it: one record per month, the record
      for month `m` at position `m`. */
  ghost predicate Ledger(reports: seq<MonthlyReport>) {
    |reports| == MonthCount &&
    forall m :: 0 <= m < |reports| ==> reports[m].monthIndex == m
  }

  /** A file name counts as given when it is present and not the empty string:
      the truthiness test of `fileUrl || r.fileUrl`. */
  predicate Given(fileUrl: Option<string>) {
    fileUrl.Some? && fileUrl.value != ""
  }

  /** `fileUrl || previous`: the supplied name when given, else the previous one. */
  function PickFileUrl(fileUrl: Option<string>, previous: Option<string>): Option<string> {
    if Given(fileUrl) then fileUrl else previous
  }

  /** The rebuilt record `{...r, kgGenerated, status, lastUpdated, fileUrl}`. */
  function Verify(r: MonthlyReport, amount: real, fileUrl: Option<string>, today: string): MonthlyReport {
    r.(kgGenerated := amount, status := Verified, lastUpdated := today,
       fileUrl := PickFileUrl(fileUrl, r.fileUrl))
  }

  /** What the update promises of one record: it keeps its month; a record of
      another month is untouched; a record of the month gets the amount, the
      VERIFIED status, the date, and the file name when one is given (its old
      one otherwise). */
  ghost predicate RecordUpdated(u: MonthlyReport, r: MonthlyReport, monthIndex: int, amount: real,
                                fileUrl: Option<string>, today: string) {
    && u.monthIndex == r.monthIndex
    && (r.monthIndex != monthIndex ==> u == r)
    && (r.monthIndex == monthIndex ==>
          && u.kgGenerated == amount
          && u.status == Verified
          && u.lastUpdated == today
          && (Given(fileUrl) ==> u.fileUrl == fileUrl)
          && (!Given(fileUrl) ==> u.fileUrl == r.fileUrl))
  }

  /** The reference definition of an update: same length, same order, each
      record updated as `RecordUpdated` says. */
  ghost predicate IsUpdateOf(updated: seq<MonthlyReport>, reports: seq<MonthlyReport>, monthIndex: int,
                             amount: real, fileUrl: Option<string>, today: string) {
    |updated| == |reports| &&
    forall i :: 0 <= i < |reports| ==> RecordUpdated(updated[i], reports[i], monthIndex, amount, fileUrl, today)
  }

  /** The list `reports.map(...)` computes, record by record. */
  function UpdateReports(reports: seq<MonthlyReport>, monthIndex: int, amount: real,
                         fileUrl: Option<string>, today: string): (updated: seq<MonthlyReport>)
    ensures |updated| == |reports|
    decreases |reports|
  {
    if reports == [] then []
    else
      var head := if reports[0].monthIndex == monthIndex
                  then Verify(reports[0], amount, fileUrl, today)
                  else reports[0];
      [head] + UpdateReports(reports[1..], monthIndex, amount, fileUrl, today)
  }

  /** `UpdateReports` meets the reference definition. */
  lemma {:induction false} UpdateReportsIsUpdate(reports: seq<MonthlyReport>, monthIndex: int, amount: real,
                                                 fileUrl: Option<string>, today: string)
    ensures IsUpdateOf(UpdateReports(reports, monthIndex, amount, fileUrl, today),
                       reports, monthIndex, amount, fileUrl, today)
    decreases |reports|
  {
    if reports != [] {
      UpdateReportsIsUpdate(reports[1..], monthIndex, amount, fileUrl, today);
      var updated := UpdateReports(reports, monthIndex, amount, fileUrl, today);
      forall i | 0 <= i < |reports|
        ensures RecordUpdated(updated[i], reports[i], monthIndex, amount, fileUrl, today)
      {
        if i > 0 {
          assert updated[i] == UpdateReports(reports[1..], monthIndex, amount, fileUrl, today)[i - 1];
          assert reports[i] == reports[1..][i - 1];
        }
      }
    }
  }

  /** The reference definition leaves no freedom: two lists that are both an
      update of the same list by the same arguments are equal. */
  lemma {:induction false} UpdateIsUnique(a: seq<MonthlyReport>, b: seq<MonthlyReport>, reports: seq<MonthlyReport>,
                                          monthIndex: int, amount: real, fileUrl: Option<string>, today: string)
    requires IsUpdateOf(a, reports, monthIndex, amount, fileUrl, today)
    requires IsUpdateOf(b, reports, monthIndex, amount, fileUrl, today)
    ensures a == b
  {
    // RecordUpdated pins all five fields, so the records agree position by position.
  }

  /** When no record carries the month, the update gives back the same list:
      there is neither an insertion nor an error. */
  lemma {:induction false} UpdateOfAbsentMonth(reports: seq<MonthlyReport>, monthIndex: int, amount: real,
                                               fileUrl: Option<string>, today: string)
    requires forall i :: 0 <= i < |reports| ==> reports[i].monthIndex != monthIndex
    ensures UpdateReports(reports, monthIndex, amount, fileUrl, today) == reports
  {
    UpdateReportsIsUpdate(reports, monthIndex, amount, fileUrl, today);
    assert IsUpdateOf(reports, reports, monthIndex, amount, fileUrl, today);
    UpdateIsUnique(UpdateReports(reports, monthIndex, amount, fileUrl, today), reports,
                   reports, monthIndex, amount, fileUrl, today);
  }

  /** A ledger stays a ledger: still 12 records, each at its own month. */
  lemma {:induction false} UpdateKeepsLedger(reports: seq<MonthlyReport>, monthIndex: int, amount: real,
                                             fileUrl: Option<string>, today: string)
    requires Ledger(reports)
    ensures Ledger(UpdateReports(reports, monthIndex, amount, fileUrl, today))
  {
    UpdateReportsIsUpdate(reports, monthIndex, amount, fileUrl, today);
  }

  /** In a ledger, a month in range names exactly one record: that one is
      verified with the amount, the date and the file name, the other eleven
      are unchanged. */
  lemma {:induction false} UpdateLedgerMonth(reports: seq<MonthlyReport>, monthIndex: int, amount: real,
                                             fileUrl: Option<string>, today: string)
    requires Ledger(reports) && 0 <= monthIndex < MonthCount
    ensures var updated := UpdateReports(reports, monthIndex, amount, fileUrl, today);
      && updated[monthIndex] == MonthlyReport(monthIndex, amount, Verified, today,
                                              if Given(fileUrl) then fileUrl else reports[monthIndex].fileUrl)
      && forall m :: 0 <= m < MonthCount && m != monthIndex ==> updated[m] == reports[m]
  {
    UpdateReportsIsUpdate(reports, monthIndex, amount, fileUrl, today);
    var updated := UpdateReports(reports, monthIndex, amount, fileUrl, today);
    assert RecordUpdated(updated[monthIndex], reports[monthIndex], monthIndex, amount, fileUrl, today);
  }

  /** A second update of the same month overrides the first: its amount and
      date win, and its file name wins when given, else the first one's does. */
  lemma {:induction false} SecondUpdateWins(reports: seq<MonthlyReport>, monthIndex: int,
                                            amount1: real, fileUrl1: Option<string>, today1: string,
                                            amount2: real, fileUrl2: Option<string>, today2: string)
    ensures UpdateReports(UpdateReports(reports, monthIndex, amount1, fileUrl1, today1),
                          monthIndex, amount2, fileUrl2, today2)
         == UpdateReports(reports, monthIndex, amount2, PickFileUrl(fileUrl2, fileUrl1), today2)
  {
    var once := UpdateReports(reports, monthIndex, amount1, fileUrl1, today1);
    var twice := UpdateReports(once, monthIndex, amount2, fileUrl2, today2);
    var fileUrl := PickFileUrl(fileUrl2, fileUrl1);
    UpdateReportsIsUpdate(reports, monthIndex, amount1, fileUrl1, today1);
    UpdateReportsIsUpdate(once, monthIndex, amount2, fileUrl2, today2);
    UpdateReportsIsUpdate(reports, monthIndex, amount2, fileUrl, today2);
    forall i | 0 <= i < |reports|
      ensures RecordUpdated(twice[i], reports[i], monthIndex, amount2, fileUrl, today2)
    {
      assert RecordUpdated(once[i], reports[i], monthIndex, amount1, fileUrl1, today1);
      assert RecordUpdated(twice[i], once[i], monthIndex, amount2, fileUrl2, today2);
    }
    UpdateIsUnique(twice, UpdateReports(reports, monthIndex, amount2, fileUrl, today2),
                   reports, monthIndex, amount2, fileUrl, today2);
  }

  /** Applying the same update twice is the same as applying it once. */
  lemma {:induction false} UpdateIdempotent(reports: seq<MonthlyReport>, monthIndex: int, amount: real,
                                            fileUrl: Option<string>, today: string)
    ensures var once := UpdateReports(reports, monthIndex, amount, fileUrl, today);
      UpdateReports(once, monthIndex, amount, fileUrl, today) == once
  {
    SecondUpdateWins(reports, monthIndex, amount, fileUrl, today, amount, fileUrl, today);
    assert PickFileUrl(fileUrl, fileUrl) == fileUrl;
  }

  /** Updates of two different months do not interfere: their order does not
      matter, whatever dates they carry. */
  lemma {:induction false} UpdatesOfDifferentMonthsCommute(reports: seq<MonthlyReport>,
                                                           month1: int, amount1: real, fileUrl1: Option<string>, today1: string,
                                                           month2: int, amount2: real, fileUrl2: Option<string>, today2: string)
    requires month1 != month2
    ensures UpdateReports(UpdateReports(reports, month1, amount1, fileUrl1, today1), month2, amount2, fileUrl2, today2)
         == UpdateReports(UpdateReports(reports, month2, amount2, fileUrl2, today2), month1, amount1, fileUrl1, today1)
  {
    var first1 := UpdateReports(reports, month1, amount1, fileUrl1, today1);
    var first2 := UpdateReports(reports, month2, amount2, fileUrl2, today2);
    var both12 := UpdateReports(first1, month2, amount2, fileUrl2, today2);
    var both21 := UpdateReports(first2, month1, amount1, fileUrl1, today1);
    UpdateReportsIsUpdate(reports, month1, amount1, fileUrl1, today1);
    UpdateReportsIsUpdate(reports, month2, amount2, fileUrl2, today2);
    UpdateReportsIsUpdate(first1, month2, amount2, fileUrl2, today2);
    UpdateReportsIsUpdate(first2, month1, amount1, fileUrl1, today1);
    forall i | 0 <= i < |reports| ensures both12[i] == both21[i] {
      assert RecordUpdated(first1[i], reports[i], month1, amount1, fileUrl1, today1);
      assert RecordUpdated(first2[i], reports[i], month2, amount2, fileUrl2, today2);
      assert RecordUpdated(both12[i], first1[i], month2, amount2, fileUrl2, today2);
      assert RecordUpdated(both21[i], first2[i], month1, amount1, fileUrl1, today1);
    }
  }
}
