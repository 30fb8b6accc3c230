/**
 The certificate upload workflow of views/WasteLog.tsx: the component's state
 (lines 15-21) and one method per event handler.

 Step 1 is the upload form, step 2 the review of the extracted data, step 3
 the confirmation. Extraction is simulated in the source by a timer; here
 `ProcessFile` schedules a completion and `CompleteScan` is that completion,
 with the extracted amount and waste type as parameters. The ghost counter
 `pendingScans` stands for the timers that are scheduled and have not fired.
 */
module WasteLogView {
  import opened Wrappers

  /** The 12 entries of `MONTHS`; the month selector offers their indices. */
  const MonthOptions := 12

  datatype File = File(name: string)

  /** The data the extraction yields (`{amount, type}`). */
  datatype Extracted = Extracted(amount: real, wasteType: string)

  /** One call of `onRegister(monthIndex, amount, fileName)`. */
  datatype Registration = Registration(monthIndex: int, amount: real, fileName: string)

  /** The waste type label the simulated extraction always reports. */
  const SimulatedWasteType := "Aceite de Cocina Usado (ACU)"

  class WasteLog {
    var step: int
    var selectedMonth: int
    var file: Option<File>
    var isScanning: bool
    var extractedData: Option<Extracted>
    ghost var pendingScans: nat

    /** The states the handlers can reach: the step is 1, 2 or 3, the month
        one of the selector's options, a review or a confirmation always has
        extracted data and a file, and a scheduled extraction has a file. */
    ghost predicate Valid()
      reads this
    {
      && 1 <= step <= 3
      && 0 <= selectedMonth < MonthOptions
      && (step >= 2 ==> file.Some? && extractedData.Some?)
      && (pendingScans > 0 ==> file.Some?)
    }

    /** At most one extraction in flight, and `isScanning` says whether there is one. */
    ghost predicate OneScanAtATime()
      reads this
    {
      pendingScans <= 1 && (isScanning <==> pendingScans == 1)
    }

    /** The "Procesar Certificado" button exists in step 1 and is enabled only
        with a file attached and no scan running. */
    predicate ProcessEnabled()
      reads this
    {
      step == 1 && file.Some? && !isScanning
    }

    /** A fresh component; `currentMonth` is the month of the clock, 0 to 11. */
    constructor (currentMonth: int)
      requires 0 <= currentMonth < MonthOptions
      ensures Valid() && OneScanAtATime()
      ensures step == 1 && selectedMonth == currentMonth && file == None
      ensures !isScanning && extractedData == None && pendingScans == 0
    {
      step := 1;
      selectedMonth := currentMonth;
      file := None;
      isScanning := false;
      extractedData := None;
      pendingScans := 0;
    }

    /** The month selector's `onChange`: it can only yield one of its options. */
    method SelectMonth(monthIndex: int)
      requires Valid() && 0 <= monthIndex < MonthOptions
      modifies this`selectedMonth
      ensures Valid() && selectedMonth == monthIndex
      ensures old(OneScanAtATime()) ==> OneScanAtATime()
    {
      selectedMonth := monthIndex;
    }

    /** `handleFileChange`: the first chosen file replaces the attached one;
        an absent or empty file list keeps it. */
    method HandleFileChange(files: Option<seq<File>>)
      requires Valid()
      modifies this`file
      ensures Valid()
      ensures files.Some? && |files.value| > 0 ==> file == Some(files.value[0])
      ensures !(files.Some? && |files.value| > 0) ==> file == old(file)
      ensures old(file.Some?) ==> file.Some?
      ensures old(OneScanAtATime()) ==> OneScanAtATime()
    {
      if files.Some? && |files.value| > 0 {
        file := Some(files.value[0]);
      }
    }

    /** `processFile`: without a file nothing happens; with one the scan
        starts and its completion is scheduled. */
    method ProcessFile()
      requires Valid()
      modifies this`isScanning, this`pendingScans
      ensures Valid()
      ensures old(file).None? ==> isScanning == old(isScanning) && pendingScans == old(pendingScans)
      ensures old(file).Some? ==> isScanning && pendingScans == old(pendingScans) + 1
      ensures old(OneScanAtATime()) && !old(isScanning) ==> OneScanAtATime()
    {
      if file.None? {
        return;
      }
      isScanning := true;
      pendingScans := pendingScans + 1;
    }

    /** A click on the process button: it calls `processFile` only when the
        button is shown and enabled, so a scan never starts while one runs. */
    method ClickProcess()
      requires Valid()
      modifies this`isScanning, this`pendingScans
      ensures Valid()
      ensures old(ProcessEnabled()) ==> isScanning && pendingScans == old(pendingScans) + 1
      ensures !old(ProcessEnabled()) ==> isScanning == old(isScanning) && pendingScans == old(pendingScans)
      ensures old(OneScanAtATime()) ==> OneScanAtATime()
    {
      if ProcessEnabled() {
        ProcessFile();
      }
    }

    /** The timer callback of `processFile`: the scan ends, the extracted data
        is stored and the review step is shown. */
    method CompleteScan(amount: real, wasteType: string)
      requires Valid() && pendingScans > 0
      modifies this`isScanning, this`extractedData, this`step, this`pendingScans
      ensures Valid()
      ensures !isScanning && step == 2
      ensures extractedData == Some(Extracted(amount, wasteType))
      ensures pendingScans == old(pendingScans) - 1
      ensures old(OneScanAtATime()) ==> OneScanAtATime() && pendingScans == 0
    {
      isScanning := false;
      extractedData := Some(Extracted(amount, wasteType));
      step := 2;
      pendingScans := pendingScans - 1;
    }

    /** The amount field's `onChange`, shown only while there is extracted
        data: the amount is replaced and the waste type kept. */
    method AmendAmount(amount: real)
      requires Valid() && extractedData.Some?
      modifies this`extractedData
      ensures Valid()
      ensures extractedData == Some(Extracted(amount, old(extractedData).value.wasteType))
      ensures old(OneScanAtATime()) ==> OneScanAtATime()
    {
      extractedData := Some(extractedData.value.(amount := amount));
    }

    /** "Cancelar / Reintentar": back to step 1; the attached file and the
        extracted data stay, so the scan can be restarted without a new file. */
    method Cancel()
      requires Valid()
      modifies this`step
      ensures Valid() && step == 1
      ensures old(file.Some?) && !isScanning ==> ProcessEnabled()
      ensures old(OneScanAtATime()) ==> OneScanAtATime()
    {
      step := 1;
    }

    /** `handleConfirm`: with extracted data and a file it registers the
        selected month, the amount and the file name once and moves to step 3;
        otherwise it does nothing. */
    method HandleConfirm() returns (registration: Option<Registration>)
      requires Valid()
      modifies this`step
      ensures Valid()
      ensures registration.Some? <==> old(extractedData.Some? && file.Some?)
      ensures registration.Some? ==>
                && registration.value == Registration(selectedMonth, extractedData.value.amount, file.value.name)
                && step == 3
      ensures registration.None? ==> step == old(step)
      ensures old(OneScanAtATime()) ==> OneScanAtATime()
    {
      if extractedData.Some? && file.Some? {
        registration := Some(Registration(selectedMonth, extractedData.value.amount, file.value.name));
        step := 3;
      } else {
        registration := None;
      }
    }
  }
}
