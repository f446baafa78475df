/** `_phase_one_normalize_dms`: the device export replaces the "DMS Dump" sheet of MAIN. */
module PhaseOne {
  import opened Text
  import opened Wrappers
  import opened Cells
  import opened Sheets
  import opened Headers
  import opened DeviceIds
  import opened Errors
  import opened Reporting

  const DmsTitle := "DMS Dump"
  const MissingDeviceColumn := "Phase 1 error: column 'Device_ID' not found in DMS file"

  /** `{_normalize_header('Device_ID')}`, the required set of the header scan. */
  const DeviceIdKeys: set<string> := {"device_id"}

  lemma DeviceIdRequired()
    ensures RequiredKeys(["Device_ID"]) == DeviceIdKeys
  {
    StripNoop("Device_ID");
    var low := Lower("Device_ID");
    assert low == "device_id" by {
      forall i | 0 <= i < 9
        ensures low[i] == "device_id"[i]
      {
      }
    }
    assert ["Device_ID"][..0] == [];
  }

  /** The sheet read: "DMS Dump" when the workbook has one, else the first sheet. */
  function SourceIndex(titles: seq<string>): (k: nat)
    requires |titles| > 0
    ensures k < |titles|
    ensures DmsTitle in titles ==> titles[k] == DmsTitle
    ensures DmsTitle !in titles ==> k == 0
  {
    match IndexOfTitle(titles, DmsTitle)
    case Some(k) => k
    case None => 0
  }

  /** What phase one takes from the export: its header cells, the device column, the raw data rows. */
  datatype DumpPlan = DumpPlan(headers: Row, deviceCol: nat, raw: seq<Row>)

  /**
   * The export read with `Device_ID` as the required header: a phase-1 error when it
   * has no `device_id` column, otherwise the header cells, that column and the rows
   * below the header row.
   */
  function PlanDump(rows: seq<Row>, width: nat): (p: Result<DumpPlan>)
    ensures var hr := HeaderRow(rows, width, DeviceIdKeys);
      var headers := HeaderCells(rows, width, hr);
      && (p.Fail? <==> "device_id" !in HeaderMapOf(headers))
      && (p.Fail? ==> p.error == PipelineError(MissingDeviceColumn, Some(1)))
      && (p.Ok? ==> p.value == DumpPlan(headers, HeaderMapOf(headers)["device_id"], DataRows(rows, width, hr)))
  {
    var hr := HeaderRow(rows, width, DeviceIdKeys);
    var headers := HeaderCells(rows, width, hr);
    var m := HeaderMapOf(headers);
    if "device_id" in m then Ok(DumpPlan(headers, m["device_id"], DataRows(rows, width, hr)))
    else Fail(PipelineError(MissingDeviceColumn, Some(1)))
  }

  /** The row with its device cell replaced by the normalised id, a string. */
  function NormalizedRow(row: Row, deviceCol: nat): (r: Row)
    ensures |r| == |row|
    ensures 1 <= deviceCol <= |row| ==> r[deviceCol - 1] == Str(NormalizeDeviceId(row[deviceCol - 1]))
    ensures forall j | 0 <= j < |row| && j != deviceCol - 1 :: r[j] == row[j]
  {
    if 1 <= deviceCol <= |row| then row[deviceCol - 1 := Str(NormalizeDeviceId(row[deviceCol - 1]))] else row
  }

  /** Every data row of the export, normalised. */
  function NormalizedRows(p: DumpPlan): (rs: seq<Row>)
    ensures |rs| == |p.raw| && forall i | 0 <= i < |p.raw| :: rs[i] == NormalizedRow(p.raw[i], p.deviceCol)
  {
    seq(|p.raw|, i requires 0 <= i < |p.raw| => NormalizedRow(p.raw[i], p.deviceCol))
  }

  /**
   * Row 1 once every export header has been written into it with `cell(...)`: a
   * header that is not `None` replaces the cell, and every other cell, past the last
   * header included, keeps the value it had in `before`.
   */
  function HeaderOver(before: seq<Row>, headers: Row): (top: Row)
    ensures forall j :: Nth(top, j) == if !Nth(headers, j).Empty? then Nth(headers, j) else At(before, 1, j)
  {
    var prev := if |before| > 0 then before[0] else [];
    var n := Max(|headers|, |prev|);
    seq(n, j requires 0 <= j < n => if !Nth(headers, j + 1).Empty? then Nth(headers, j + 1) else Nth(prev, j + 1))
  }

  /**
   * The refreshed "DMS Dump" sheet, which held `before`: row 1 rewritten with the
   * export's headers, then every data row normalised.
   */
  function DumpContents(p: DumpPlan, before: seq<Row>): (d: seq<Row>)
    ensures |d| == |p.raw| + 1 && d[0] == HeaderOver(before, p.headers) && d[1..] == NormalizedRows(p)
  {
    [HeaderOver(before, p.headers)] + NormalizedRows(p)
  }

  /**
   * Row 1 of the dump holds each export header that is not `None`, and elsewhere
   * what it held before; row i + 2 is data row i with only its device cell changed,
   * to the normalised id; there is nothing below.
   */
  lemma DumpCells(p: DumpPlan, before: seq<Row>, i: int, j: int)
    requires 1 <= p.deviceCol <= |p.headers|
    requires forall q | 0 <= q < |p.raw| :: |p.raw[q]| == |p.headers|
    ensures At(DumpContents(p, before), 1, j) == if !Nth(p.headers, j).Empty? then Nth(p.headers, j) else At(before, 1, j)
    ensures 0 <= i < |p.raw| ==>
      At(DumpContents(p, before), i + 2, j) == if j == p.deviceCol then Str(NormalizeDeviceId(p.raw[i][j - 1])) else Nth(p.raw[i], j)
    ensures i > |p.raw| ==> At(DumpContents(p, before), i + 1, j) == Empty
  {
    var d := DumpContents(p, before);
    if 0 <= i < |p.raw| {
      assert d[i + 1] == d[1..][i] == NormalizedRow(p.raw[i], p.deviceCol);
    }
  }

  /** A "DMS Dump" sheet that held nothing ends with exactly the export's header cells in row 1. */
  lemma FreshDumpHeader(p: DumpPlan, j: int)
    ensures At(DumpContents(p, []), 1, j) == Nth(p.headers, j)
  {
  }

  /** A planned dump has a device column among its headers and rows as wide as the header row. */
  lemma PlanShape(rows: seq<Row>, width: nat)
    requires PlanDump(rows, width).Ok?
    ensures var p := PlanDump(rows, width).value;
      && 1 <= p.deviceCol <= |p.headers| == width
      && forall q | 0 <= q < |p.raw| :: |p.raw[q]| == |p.headers|
  {
    var hr := HeaderRow(rows, width, DeviceIdKeys);
    HeaderMapColumn(HeaderCells(rows, width, hr), "device_id");
  }

  /**
   * The dump the header alignment evidently aims at: row 1 exactly the export's
   * header row, `None` cells and the cells past its end blank.
   */
  function IntendedDump(p: DumpPlan): (d: seq<Row>)
    ensures |d| == |p.raw| + 1 && d[0] == p.headers && d[1..] == NormalizedRows(p)
  {
    [p.headers] + NormalizedRows(p)
  }

  /**
   * The intended dump holds the export's header row and nothing else in row 1, and
   * agrees with the dump as written on every data row.
   */
  lemma IntendedDumpCells(p: DumpPlan, before: seq<Row>)
    ensures forall j :: At(IntendedDump(p), 1, j) == Nth(p.headers, j)
    ensures forall i, j | i != 1 :: At(IntendedDump(p), i, j) == At(DumpContents(p, before), i, j)
  {
    var d, w := IntendedDump(p), DumpContents(p, before);
    forall i, j | i != 1
      ensures At(d, i, j) == At(w, i, j)
    {
      if 2 <= i <= |d| {
        assert d[i - 1] == d[1..][i - 2] == w[1..][i - 2] == w[i - 1];
      }
    }
  }

  /**
   * As written, the `cell(row=1, column=extra_col, value=None)` calls leave a stale
   * header in place: a "DMS Dump" sheet headed `Device_ID`, `Site` refreshed from an
   * export headed `Device_ID` alone keeps `Site` in column 2.
   */
  lemma StaleHeaderKept()
    ensures var p := DumpPlan([Str("Device_ID")], 1, []);
      var before := [[Str("Device_ID"), Str("Site")]];
      At(DumpContents(p, before), 1, 2) == Str("Site") && At(IntendedDump(p), 1, 2) == Empty
  {
    var p := DumpPlan([Str("Device_ID")], 1, []);
    var before := [[Str("Device_ID"), Str("Site")]];
    assert Nth(DumpContents(p, before)[0], 2) == Str("Site");
  }

  /**
   * Writes the headers into row 1 with `cell(...)`, then the `None` of every extra
   * column, and deletes every row below: the sheet is left holding row 1 alone, as
   * `HeaderOver` describes it.
   */
  method ResetToHeader(target: Sheet, headers: Row)
    requires target.Valid()
    modifies target
    ensures target.Valid() && |target.rows| == 1 && target.width == Max(old(target.width), |headers|)
    ensures forall i, j :: At(target.rows, i, j) == if i == 1 then Nth(HeaderOver(old(target.rows), headers), j) else Empty
  {
    if |target.rows| == 0 {
      target.AppendRow(headers);
    } else {
      var c := 1;
      while c <= |headers|
        invariant 1 <= c <= |headers| + 1
        invariant target.Valid() && |target.rows| == old(|target.rows|)
        invariant target.width == Max(old(target.width), c - 1)
        invariant forall i, j :: (At(target.rows, i, j) ==
          if i == 1 && 1 <= j < c && !headers[j - 1].Empty? then headers[j - 1] else At(old(target.rows), i, j))
      {
        target.WriteCell(1, c, headers[c - 1]);
        c := c + 1;
      }
      if target.width > |headers| {
        var extra := |headers| + 1;
        while extra <= target.width
          invariant |headers| + 1 <= extra <= target.width + 1
          invariant target.Valid() && |target.rows| == old(|target.rows|)
          invariant target.width == Max(old(target.width), |headers|)
          invariant forall i, j :: (At(target.rows, i, j) ==
            if i == 1 && !Nth(headers, j).Empty? then Nth(headers, j) else At(old(target.rows), i, j))
        {
          target.WriteCell(1, extra, Empty);
          extra := extra + 1;
        }
      }
      if |target.rows| > 1 {
        target.DeleteRows(2, |target.rows| - 1);
      }
    }
  }

  /** Appends data row k of the dump, normalised, to a sheet holding the rows before it, and reports progress. */
  method AppendDumpRow(target: Sheet, p: DumpPlan, ghost before: seq<Row>, k: nat, log: ProgressLog, ghost base: seq<Report>)
    requires target.Valid() && |target.rows| == k + 1 && k < |p.raw|
    requires forall i, j :: At(target.rows, i, j) == if i <= k + 1 then At(DumpContents(p, before), i, j) else Empty
    requires log.reports == base + Ticks(1, k, |p.raw|)
    modifies target, log
    ensures target.Valid() && |target.rows| == k + 2
    ensures forall i, j :: At(target.rows, i, j) == if i <= k + 2 then At(DumpContents(p, before), i, j) else Empty
    ensures log.reports == base + Ticks(1, k + 1, |p.raw|)
  {
    ghost var dump := DumpContents(p, before);
    ghost var prev := target.rows;
    target.AppendRow(NormalizedRow(p.raw[k], p.deviceCol));
    forall i, j
      ensures At(target.rows, i, j) == if i <= k + 2 then At(dump, i, j) else Empty
    {
      if i == k + 2 {
        assert dump[k + 1] == dump[1..][k] == NormalizedRow(p.raw[k], p.deviceCol);
      } else {
        assert At(target.rows, i, j) == At(prev, i, j);
      }
    }
    log.Progress(1, k + 1, |p.raw|, base);
  }

  /** Appends every data row normalised below the header row, reporting progress. */
  method AppendDataRows(target: Sheet, p: DumpPlan, ghost before: seq<Row>, log: ProgressLog)
    requires target.Valid() && |target.rows| == 1
    requires 1 <= p.deviceCol <= |p.headers|
    requires forall q | 0 <= q < |p.raw| :: |p.raw[q]| == |p.headers|
    requires forall i, j :: At(target.rows, i, j) == if i <= 1 then At(DumpContents(p, before), i, j) else Empty
    modifies target, log
    ensures target.Valid() && |target.rows| == |p.raw| + 1
    ensures forall i, j :: At(target.rows, i, j) == At(DumpContents(p, before), i, j)
    ensures log.reports == old(log.reports) + Ticks(1, |p.raw|, |p.raw|)
  {
    var total := |p.raw|;
    var idx := 0;
    while idx < total
      invariant 0 <= idx <= total
      invariant target.Valid() && |target.rows| == idx + 1
      invariant forall i, j :: At(target.rows, i, j) == if i <= idx + 1 then At(DumpContents(p, before), i, j) else Empty
      invariant log.reports == old(log.reports) + Ticks(1, idx, total)
    {
      AppendDumpRow(target, p, before, idx, log, old(log.reports));
      idx := idx + 1;
    }
  }

  /** Resets the sheet to the header row, then appends every data row normalised, reporting progress. */
  method WriteDump(target: Sheet, p: DumpPlan, log: ProgressLog)
    requires target.Valid()
    requires 1 <= p.deviceCol <= |p.headers|
    requires forall q | 0 <= q < |p.raw| :: |p.raw[q]| == |p.headers|
    modifies target, log
    ensures target.Valid() && |target.rows| == |p.raw| + 1
    ensures forall i, j :: At(target.rows, i, j) == At(DumpContents(p, old(target.rows)), i, j)
    ensures log.reports == old(log.reports) + Ticks(1, |p.raw|, |p.raw|)
  {
    ghost var before := target.rows;
    ResetToHeader(target, p.headers);
    ghost var dump := DumpContents(p, before);
    assert forall i, j :: At(target.rows, i, j) == if i <= 1 then At(dump, i, j) else Empty;
    AppendDataRows(target, p, before, log);
  }

  /**
   * `main_wb['DMS Dump']`, created at the end of the workbook when it is missing;
   * `k` is its position. Creating it changes no existing sheet.
   */
  method DumpTarget(main: Workbook) returns (k: nat)
    requires main.Valid()
    modifies main
    ensures main.Valid() && k < |main.sheets| && main.sheets[k].title == DmsTitle
    ensures main.sheets[k] in old(main.sheets) || fresh(main.sheets[k])
    ensures main.sheets == old(main.sheets)
      || (&& |main.sheets| == |old(main.sheets)| + 1 && main.sheets[..|old(main.sheets)|] == old(main.sheets)
          && fresh(main.sheets[|old(main.sheets)|]))
    ensures old(DmsTitle in Titles(main.sheets)) ==> main.State() == old(main.State())
    ensures old(DmsTitle !in Titles(main.sheets)) ==>
      k == old(|main.sheets|) && main.State() == old(main.State()) + [SheetState(DmsTitle, [], 0)]
  {
    var existing := IndexOfTitle(Titles(main.sheets), DmsTitle);
    if existing.Some? {
      k := existing.value;
    } else {
      ghost var before := main.State();
      k := |main.sheets|;
      var s := main.CreateSheet(DmsTitle);
      assert main.State() == before + [SheetState(DmsTitle, [], 0)];
    }
  }

  /** Sheet k now holds the dump under its old title; every other sheet is as it was. */
  ghost predicate RewrittenAt(before: seq<SheetState>, after: seq<SheetState>, k: nat, dump: seq<Row>) {
    && |after| == |before| && k < |before|
    && after[k].title == before[k].title && SameCells(after[k].rows, dump)
    && forall i | 0 <= i < |before| && i != k :: after[i] == before[i]
  }

  /** Writes the dump into sheet k, the only sheet it touches. */
  method RewriteAt(main: Workbook, k: nat, p: DumpPlan, log: ProgressLog)
    requires main.Valid() && k < |main.sheets|
    requires 1 <= p.deviceCol <= |p.headers|
    requires forall q | 0 <= q < |p.raw| :: |p.raw[q]| == |p.headers|
    modifies main.sheets[k], log
    ensures main.Valid()
    ensures RewrittenAt(old(main.State()), main.State(), k, DumpContents(p, old(main.State())[k].rows))
    ensures log.reports == old(log.reports) + Ticks(1, |p.raw|, |p.raw|)
  {
    var target := main.sheets[k];
    WriteDump(target, p, log);
    forall i | 0 <= i < |main.sheets| && i != k
      ensures main.sheets[i].Valid() && main.State()[i] == old(main.State())[i]
    {
      assert main.sheets[i] != target by {
        assert Titles(main.sheets)[i] != Titles(main.sheets)[k];
      }
    }
  }

  /**
   * MAIN after the refresh: an existing "DMS Dump" sheet now holds the dump written
   * over it and every other sheet is unchanged; without one, a new "DMS Dump" sheet
   * holding the dump written over nothing follows the unchanged sheets.
   */
  ghost predicate DumpInstalled(before: seq<SheetState>, after: seq<SheetState>, p: DumpPlan) {
    if DmsTitle in StateTitles(before) then
      |after| == |before| && forall i | 0 <= i < |before| ::
        if before[i].title == DmsTitle then after[i].title == DmsTitle && SameCells(after[i].rows, DumpContents(p, before[i].rows))
        else after[i] == before[i]
    else
      |after| == |before| + 1 && after[..|before|] == before
      && after[|before|].title == DmsTitle && SameCells(after[|before|].rows, DumpContents(p, []))
  }

  /** Rewriting the existing, uniquely titled "DMS Dump" sheet installs the dump. */
  lemma InstalledInPlace(before: seq<SheetState>, after: seq<SheetState>, k: nat, p: DumpPlan)
    requires UniqueTitles(StateTitles(before)) && k < |before|
    requires RewrittenAt(before, after, k, DumpContents(p, before[k].rows)) && before[k].title == DmsTitle
    ensures DumpInstalled(before, after, p)
  {
    var ts := StateTitles(before);
    forall i | 0 <= i < |before| && before[i].title == DmsTitle
      ensures i == k
    {
      assert ts[i] == ts[k];
    }
  }

  /** Rewriting a "DMS Dump" sheet appended to a workbook without one installs the dump. */
  lemma InstalledAtEnd(before: seq<SheetState>, after: seq<SheetState>, p: DumpPlan)
    requires DmsTitle !in StateTitles(before)
    requires RewrittenAt(before + [SheetState(DmsTitle, [], 0)], after, |before|, DumpContents(p, []))
    ensures DumpInstalled(before, after, p)
  {
    assert after[..|before|] == before;
  }

  /** "DMS Dump" of MAIN, found or created, is rewritten to the dump, with a tick every 50th row. */
  method InstallDump(main: Workbook, p: DumpPlan, log: ProgressLog)
    requires main.Valid()
    requires 1 <= p.deviceCol <= |p.headers|
    requires forall q | 0 <= q < |p.raw| :: |p.raw[q]| == |p.headers|
    modifies main, main.sheets, log
    ensures main.Valid()
    ensures main.sheets == old(main.sheets)
      || (&& |main.sheets| == |old(main.sheets)| + 1 && main.sheets[..|old(main.sheets)|] == old(main.sheets)
          && fresh(main.sheets[|old(main.sheets)|]))
    ensures log.reports == old(log.reports) + Ticks(1, |p.raw|, |p.raw|)
    ensures DumpInstalled(old(main.State()), main.State(), p)
  {
    ghost var before := main.State();
    SnapshotTitles(main.sheets);
    var k := DumpTarget(main);
    RewriteAt(main, k, p, log);
    if DmsTitle in StateTitles(before) {
      InstalledInPlace(before, main.State(), k, p);
    } else {
      InstalledAtEnd(before, main.State(), p);
    }
  }

  /** The successful path: the running report, the dump installed, the done report. */
  method RefreshMainDump(main: Workbook, p: DumpPlan, log: ProgressLog)
    requires main.Valid()
    requires 1 <= p.deviceCol <= |p.headers|
    requires forall q | 0 <= q < |p.raw| :: |p.raw[q]| == |p.headers|
    modifies main, main.sheets, log
    ensures main.Valid()
    ensures main.sheets == old(main.sheets)
      || (&& |main.sheets| == |old(main.sheets)| + 1 && main.sheets[..|old(main.sheets)|] == old(main.sheets)
          && fresh(main.sheets[|old(main.sheets)|]))
    ensures log.reports == old(log.reports) + PhaseTrace(1, |p.raw|)
    ensures DumpInstalled(old(main.State()), main.State(), p)
  {
    ghost var before := main.State();
    ghost var base := log.reports;
    log.Emit(RunningReport(1, |p.raw|));
    assert main.State() == before;
    InstallDump(main, p, log);
    log.Finish(1, |p.raw|, base);
  }

  /** `dms_wb['DMS Dump'] if 'DMS Dump' in dms_wb.sheetnames else dms_wb.worksheets[0]`. */
  method SourceSheet(dms: Workbook) returns (s: Sheet)
    requires dms.Valid()
    ensures s == dms.sheets[SourceIndex(Titles(dms.sheets))] && s.Valid()
  {
    s := dms.sheets[SourceIndex(Titles(dms.sheets))];
  }

  /** Reads the export sheet: its header index, then its data rows. */
  method ReadDump(sheet: Sheet) returns (r: Result<DumpPlan>)
    requires sheet.Valid()
    ensures r == PlanDump(sheet.rows, sheet.width)
  {
    var headers, headerMap, headerRow := BuildHeaderIndex(sheet, ["Device_ID"]);
    DeviceIdRequired();
    if "device_id" !in headerMap {
      return Fail(PipelineError(MissingDeviceColumn, Some(1)));
    }
    return Ok(DumpPlan(headers, headerMap["device_id"], DataRows(sheet.rows, sheet.width, headerRow)));
  }

  /** The plan of the export sheet phase one reads. */
  function PlanOf(dms: Workbook): Result<DumpPlan>
    requires |dms.sheets| > 0
    reads dms, dms.sheets
  {
    var src := dms.sheets[SourceIndex(Titles(dms.sheets))];
    PlanDump(src.rows, src.width)
  }

  /**
   * Phase one; `r` is the `PipelineError` raised, if any. Without a `device_id`
   * column MAIN is untouched and the error is reported; otherwise MAIN holds the
   * refreshed dump.
   */
  method PhaseOne(dms: Workbook, main: Workbook, log: ProgressLog) returns (r: Result<()>)
    requires dms.Valid() && main.Valid() && dms != main
    modifies main, main.sheets, log
    ensures main.Valid()
    ensures main.sheets == old(main.sheets)
      || (&& |main.sheets| == |old(main.sheets)| + 1 && main.sheets[..|old(main.sheets)|] == old(main.sheets)
          && fresh(main.sheets[|old(main.sheets)|]))
    ensures var plan := old(PlanOf(dms)); (r.Fail? <==> plan.Fail?) && (r.Fail? ==> r.error == plan.error)
    ensures r.Fail? ==> main.State() == old(main.State()) && log.reports == old(log.reports) + [ErrorReport(1)]
    ensures r.Ok? ==>
      var p := old(PlanOf(dms)).value;
      DumpInstalled(old(main.State()), main.State(), p) && log.reports == old(log.reports) + PhaseTrace(1, |p.raw|)
  {
    var sheet := SourceSheet(dms);
    var plan := ReadDump(sheet);
    if plan.Fail? {
      log.Emit(ErrorReport(1));
      return Fail(plan.error);
    }
    PlanShape(sheet.rows, sheet.width);
    RefreshMainDump(main, plan.value, log);
    return Ok(());
  }
}
