/**
 * `_phase_three_update_main`: a lookup from normalised device id to the disarm date
 * and destination of the first month-sheet row carrying that id, then the "Last
 * Disarmed Date" and "Last Disarmed Area" columns of every MAIN row whose device id
 * is in the lookup are overwritten from it.
 */
module PhaseThree {
  import opened Wrappers
  import opened Text
  import opened Cells
  import opened Sheets
  import opened Headers
  import opened Errors
  import opened Reporting
  import opened DeviceIds
  import opened SheetLocator
  import opened PhaseTwo

  const MissingMonthColumns := "Phase 3 error: Missing device, Disarm Date, or Destination columns in month sheet"
  const MissingMainColumns := "Phase 3 error: MAIN sheet missing 'Device Nos', 'Last Disarmed Date', or 'Last Disarmed Area'"

  /** The month sheet's device column names, in priority order. */
  const MonthDeviceOptions := ["ivm/iscout device id", "iscout device id", "device nos", "device_id", "device id"]

  /** The headers `_build_header_index` is asked for on the MAIN sheet. */
  const MainDeviceHeaders := ["Device Nos", "Device_ID", "Device ID"]

  /** The MAIN sheet's device column names, in priority order. */
  const MainDeviceOptions := ["device nos", "device id", "device_id"]

  /** `header_map.get(key)`. */
  function Column(m: map<string, nat>, key: string): Option<nat> {
    if key in m then Some(m[key]) else None
  }

  /** A column that passes the `not col` test: found, and not 0. */
  predicate Usable(col: Option<nat>) {
    col.Some? && col.value != 0
  }

  datatype MonthColumns = MonthColumns(device: nat, disarm: nat, destination: nat)

  /** The month sheet's device, `disarm date` and `destination` columns, when all three are usable. */
  function MonthColumnsOf(m: map<string, nat>): Option<MonthColumns> {
    var device := FindFirstHeader(m, MonthDeviceOptions);
    var disarm := Column(m, "disarm date");
    var destination := Column(m, "destination");
    if Usable(device) && Usable(disarm) && Usable(destination) then Some(MonthColumns(device.value, disarm.value, destination.value))
    else None
  }

  datatype MainColumns = MainColumns(device: nat, date: nat, area: nat)

  /** The MAIN sheet's device, `last disarmed date` and `last disarmed area` columns, when all three are usable. */
  function MainColumnsOf(m: map<string, nat>): Option<MainColumns> {
    var device := FindFirstHeader(m, MainDeviceOptions);
    var date := Column(m, "last disarmed date");
    var area := Column(m, "last disarmed area");
    if Usable(device) && Usable(date) && Usable(area) then Some(MainColumns(device.value, date.value, area.value))
    else None
  }

  /** The value pair stored per device: the disarm date and the destination. */
  datatype Entry = Entry(date: Cell, area: Cell)

  /** The key of a month-sheet row: '' when the device cell is falsy, its normalised id otherwise. */
  function RowKey(rows: seq<Row>, r: int, col: nat): string {
    var v := At(rows, r, col);
    if Truthy(v) then NormalizeDeviceId(v) else ""
  }

  function EntryAt(rows: seq<Row>, r: int, mc: MonthColumns): Entry {
    Entry(At(rows, r, mc.disarm), At(rows, r, mc.destination))
  }

  /** The lookup after the month rows h+1..n: a keyed row is added unless its key is already there. */
  function Lookup(rows: seq<Row>, mc: MonthColumns, h: nat, n: nat): map<string, Entry>
    decreases n
  {
    if n <= h then map[]
    else
      var m := Lookup(rows, mc, h, n - 1);
      var key := RowKey(rows, n, mc.device);
      if key == "" || key in m then m else m[key := EntryAt(rows, n, mc)]
  }

  /** Row r is the first month row after the header row whose key is `key`. */
  predicate FirstWithKey(rows: seq<Row>, mc: MonthColumns, h: nat, r: int, key: string) {
    h < r && RowKey(rows, r, mc.device) == key && forall p | h < p < r :: RowKey(rows, p, mc.device) != key
  }

  /** The lookup holds the key of every month row with a non-empty key. */
  lemma {:induction false} LookupHasEveryKey(rows: seq<Row>, mc: MonthColumns, h: nat, n: nat)
    ensures forall r | h < r <= n && RowKey(rows, r, mc.device) != "" :: RowKey(rows, r, mc.device) in Lookup(rows, mc, h, n)
    decreases n
  {
    if n > h {
      LookupHasEveryKey(rows, mc, h, n - 1);
      var m := Lookup(rows, mc, h, n - 1);
      assert m.Keys <= Lookup(rows, mc, h, n).Keys;
    }
  }

  /** Each key of the lookup is the key of a month row, and maps to the first row carrying it. */
  lemma {:induction false} LookupSpec(rows: seq<Row>, mc: MonthColumns, h: nat, n: nat)
    ensures forall key | key in Lookup(rows, mc, h, n) ::
      key != "" && exists r | h < r <= n :: FirstWithKey(rows, mc, h, r, key) && Lookup(rows, mc, h, n)[key] == EntryAt(rows, r, mc)
    decreases n
  {
    if n > h {
      LookupSpec(rows, mc, h, n - 1);
      var m := Lookup(rows, mc, h, n - 1);
      var key := RowKey(rows, n, mc.device);
      if key != "" && key !in m {
        LookupHasEveryKey(rows, mc, h, n - 1);
        var m' := m[key := EntryAt(rows, n, mc)];
        assert Lookup(rows, mc, h, n) == m';
        forall k | k in m'
          ensures k != "" && exists r | h < r <= n :: FirstWithKey(rows, mc, h, r, k) && m'[k] == EntryAt(rows, r, mc)
        {
          if k == key {
            assert FirstWithKey(rows, mc, h, n, k) && m'[k] == EntryAt(rows, n, mc);
          } else {
            var r :| h < r <= n - 1 && FirstWithKey(rows, mc, h, r, k) && m[k] == EntryAt(rows, r, mc);
            assert m'[k] == m[k];
          }
        }
      } else {
        assert Lookup(rows, mc, h, n) == m;
      }
    }
  }

  /** The first month row with a given key decides the lookup's entry for it. */
  lemma LookupFromFirstRow(rows: seq<Row>, mc: MonthColumns, h: nat, n: nat, r: nat)
    requires r <= n && FirstWithKey(rows, mc, h, r, RowKey(rows, r, mc.device)) && RowKey(rows, r, mc.device) != ""
    ensures var key := RowKey(rows, r, mc.device);
      key in Lookup(rows, mc, h, n) && Lookup(rows, mc, h, n)[key] == EntryAt(rows, r, mc)
  {
    LookupHasEveryKey(rows, mc, h, n);
    LookupSpec(rows, mc, h, n);
    var key := RowKey(rows, r, mc.device);
    var q :| h < q <= n && FirstWithKey(rows, mc, h, q, key) && Lookup(rows, mc, h, n)[key] == EntryAt(rows, q, mc);
    assert q == r;
  }

  /** The lookup loop over the month rows below the header row. */
  method BuildLookup(sheet: Sheet, h: nat, mc: MonthColumns) returns (lookup: map<string, Entry>)
    requires sheet.Valid()
    ensures lookup == Lookup(sheet.rows, mc, h, |sheet.rows|)
  {
    lookup := map[];
    var r := h + 1;
    while r <= |sheet.rows|
      invariant h + 1 <= r <= Max(h + 1, |sheet.rows| + 1)
      invariant lookup == Lookup(sheet.rows, mc, h, r - 1)
    {
      assert Lookup(sheet.rows, mc, h, r) == var key := RowKey(sheet.rows, r, mc.device);
        if key == "" || key in lookup then lookup else lookup[key := EntryAt(sheet.rows, r, mc)];
      var v := At(sheet.rows, r, mc.device);
      if Truthy(v) {
        var key := NormalizeDeviceId(v);
        if key != "" && key !in lookup {
          lookup := lookup[key := Entry(At(sheet.rows, r, mc.disarm), At(sheet.rows, r, mc.destination))];
        }
      }
      r := r + 1;
    }
    assert r - 1 == |sheet.rows| || |sheet.rows| <= h;
  }

  /** A MAIN row is updated when its device cell is not `None` and its id is non-empty and in the lookup. */
  predicate Matches(rows: seq<Row>, r: int, col: nat, lookup: map<string, Entry>) {
    var v := At(rows, r, col);
    v != Empty && NormalizeDeviceId(v) != "" && NormalizeDeviceId(v) in lookup
  }

  /** MAIN after the update loop: the date, then the area, written into every matching data row. */
  function UpdatedCell(before: seq<Row>, h: nat, cols: MainColumns, lookup: map<string, Entry>, r: int, c: int): Cell {
    if h < r <= |before| && Matches(before, r, cols.device, lookup) then
      var e := lookup[NormalizeDeviceId(At(before, r, cols.device))];
      if c == cols.area then e.area
      else if c == cols.date then e.date
      else At(before, r, c)
    else At(before, r, c)
  }

  /** The update loop over the MAIN rows below the header row, with a tick every 50th row and at the last. */
  method UpdateRows(sheet: Sheet, h: nat, cols: MainColumns, lookup: map<string, Entry>, log: ProgressLog)
    requires sheet.Valid() && 1 <= cols.date <= sheet.width && 1 <= cols.area <= sheet.width
    modifies sheet, log
    ensures sheet.Valid() && sheet.width == old(sheet.width) && |sheet.rows| == old(|sheet.rows|)
    ensures forall r, c :: At(sheet.rows, r, c) == UpdatedCell(old(sheet.rows), h, cols, lookup, r, c)
    ensures log.reports == old(log.reports) + Ticks(3, Max(old(|sheet.rows|) - h, 0), Max(old(|sheet.rows|) - h, 0))
  {
    ghost var before := sheet.rows;
    var total := Max(|sheet.rows| - h, 0);
    var idx := 1;
    while idx <= total
      invariant 1 <= idx <= total + 1
      invariant sheet.Valid() && sheet.width == old(sheet.width) && |sheet.rows| == |before|
      invariant forall r, c :: (At(sheet.rows, r, c) ==
        if r < h + idx then UpdatedCell(before, h, cols, lookup, r, c) else At(before, r, c))
      invariant log.reports == old(log.reports) + Ticks(3, idx - 1, total)
    {
      var r := h + idx;
      var v := At(sheet.rows, r, cols.device);
      if v != Empty {
        var key := NormalizeDeviceId(v);
        if key != "" && key in lookup {
          sheet.SetCell(r, cols.date, lookup[key].date);
          sheet.SetCell(r, cols.area, lookup[key].area);
        }
      }
      log.Progress(3, idx, total, old(log.reports));
      idx := idx + 1;
    }
  }

  /**
   * A MAIN row whose id first appears in month row q gets that row's disarm date
   * and destination.
   */
  lemma UpdateFromFirstMonthRow(month: seq<Row>, mc: MonthColumns, hm: nat, before: seq<Row>, h: nat, cols: MainColumns, r: int, q: nat)
    requires cols.date != cols.area
    requires h < r <= |before| && At(before, r, cols.device) != Empty
    requires q <= |month| && RowKey(month, q, mc.device) == NormalizeDeviceId(At(before, r, cols.device)) != ""
    requires FirstWithKey(month, mc, hm, q, RowKey(month, q, mc.device))
    ensures var lookup := Lookup(month, mc, hm, |month|);
      && UpdatedCell(before, h, cols, lookup, r, cols.date) == At(month, q, mc.disarm)
      && UpdatedCell(before, h, cols, lookup, r, cols.area) == At(month, q, mc.destination)
  {
    LookupFromFirstRow(month, mc, hm, |month|, q);
  }

  /** A MAIN row whose id appears in no month row is left as it was, in every column. */
  lemma UpdateSkipsUnknownIds(month: seq<Row>, mc: MonthColumns, hm: nat, before: seq<Row>, h: nat, cols: MainColumns, r: int)
    requires forall q | hm < q <= |month| :: RowKey(month, q, mc.device) != NormalizeDeviceId(At(before, r, cols.device))
    ensures forall c :: UpdatedCell(before, h, cols, Lookup(month, mc, hm, |month|), r, c) == At(before, r, c)
  {
    LookupSpec(month, mc, hm, |month|);
  }

  /** Running the update again on its own result changes nothing. */
  lemma UpdateIdempotent(before: seq<Row>, after: seq<Row>, h: nat, cols: MainColumns, lookup: map<string, Entry>)
    requires cols.device != cols.date && cols.device != cols.area
    requires |after| == |before| && forall r, c :: At(after, r, c) == UpdatedCell(before, h, cols, lookup, r, c)
    ensures forall r, c :: UpdatedCell(after, h, cols, lookup, r, c) == At(after, r, c)
  {
    forall r, c
      ensures UpdatedCell(after, h, cols, lookup, r, c) == At(after, r, c)
    {
      assert At(after, r, cols.device) == At(before, r, cols.device);
    }
  }

  /** The MAIN sheet's header row, scanned for any of its device headers. */
  function MainHeaderRow(rows: seq<Row>, width: nat): nat {
    HeaderRow(rows, width, RequiredKeys(MainDeviceHeaders))
  }

  function MainHeaderMap(rows: seq<Row>, width: nat): map<string, nat> {
    HeaderMapOf(HeaderCells(rows, width, MainHeaderRow(rows, width)))
  }

  /** The MAIN device options are already normalised keys. */
  lemma MainOptionsNormal()
    ensures forall i | 0 <= i < |MainDeviceOptions| :: NormalizeText(MainDeviceOptions[i]) == MainDeviceOptions[i]
  {
    forall i | 0 <= i < |MainDeviceOptions|
      ensures NormalizeText(MainDeviceOptions[i]) == MainDeviceOptions[i]
    {
      var o := MainDeviceOptions[i];
      StripNoop(o);
      assert IsLowerCase(o);
      LowerOfLowerCase(o);
    }
  }

  /** The MAIN device column is found under one of the (short) option keys. */
  lemma MainDeviceKey(m: map<string, nat>) returns (key: string)
    requires FindFirstHeader(m, MainDeviceOptions).Some?
    ensures key in m && m[key] == FindFirstHeader(m, MainDeviceOptions).value && |key| <= 10
  {
    MainOptionsNormal();
    var i :| 0 <= i < |MainDeviceOptions| && NormalizeText(MainDeviceOptions[i]) in m
      && FindFirstHeader(m, MainDeviceOptions).value == m[NormalizeText(MainDeviceOptions[i])];
    key := MainDeviceOptions[i];
  }

  /** A short key and the two `last disarmed` keys sit at three different positions of the keys. */
  lemma ShortKeyApart(keys: seq<string>, key: string)
    requires key in KeyMap(keys) && |key| <= 10
    requires "last disarmed date" in KeyMap(keys) && "last disarmed area" in KeyMap(keys)
    ensures var m := KeyMap(keys);
      && 1 <= m[key] <= |keys| && 1 <= m["last disarmed date"] <= |keys| && 1 <= m["last disarmed area"] <= |keys|
      && m[key] != m["last disarmed date"] && m[key] != m["last disarmed area"]
      && m["last disarmed date"] != m["last disarmed area"]
  {
    var m := KeyMap(keys);
    var date, area := "last disarmed date", "last disarmed area";
    assert 1 <= m[key] <= |keys| by { KeyMapColumn(keys, key); }
    assert 1 <= m[date] <= |keys| by { KeyMapColumn(keys, date); }
    assert 1 <= m[area] <= |keys| by { KeyMapColumn(keys, area); }
    assert m[key] != m[date] by { KeyMapInjective(keys, key, date); }
    assert m[key] != m[area] by { KeyMapInjective(keys, key, area); }
    assert m[date] != m[area] by {
      assert date != area;
      KeyMapInjective(keys, date, area);
    }
  }

  /** The three MAIN columns found in a header map are three different positions of its keys. */
  lemma MainColumnsDistinct(keys: seq<string>)
    requires MainColumnsOf(KeyMap(keys)).Some?
    ensures var cols := MainColumnsOf(KeyMap(keys)).value;
      && 1 <= cols.device <= |keys| && 1 <= cols.date <= |keys| && 1 <= cols.area <= |keys|
      && cols.device != cols.date && cols.device != cols.area && cols.date != cols.area
  {
    var key := MainDeviceKey(KeyMap(keys));
    ShortKeyApart(keys, key);
  }

  /** The columns found in the MAIN sheet's header row are three different columns of the sheet. */
  lemma MainColumnsFit(rows: seq<Row>, width: nat)
    requires MainColumnsOf(MainHeaderMap(rows, width)).Some?
    ensures var cols := MainColumnsOf(MainHeaderMap(rows, width)).value;
      && 1 <= cols.device <= width && 1 <= cols.date <= width && 1 <= cols.area <= width
      && cols.device != cols.date && cols.device != cols.area && cols.date != cols.area
  {
    var keys := HeaderKeys(HeaderCells(rows, width, MainHeaderRow(rows, width)));
    MainColumnsDistinct(keys);
  }

  /** How phase three ends, decided from MAIN as phase two left it. */
  datatype ThreeStep =
    | MonthColumnsMissing
    | NoMain(error: PipelineError)
    | MainColumnsMissing
    | NothingToUpdate
    | Update(sheet: nat, headerRow: nat, cols: MainColumns, lookup: map<string, Entry>, total: nat)

  /** Once the MAIN sheet is known to be sheet k, with header row h and columns `cols`. */
  function PlanMainStep(k: nat, h: nat, cols: Option<MainColumns>, height: nat, lookup: map<string, Entry>): ThreeStep {
    match cols
    case None => MainColumnsMissing
    case Some(c) => if height <= h then NothingToUpdate else Update(k, h, c, lookup, height - h)
  }

  /** Once the MAIN sheet is known to be sheet k: its header row and columns decide. */
  function PlanMainAt(k: nat, rows: seq<Row>, width: nat, lookup: map<string, Entry>): ThreeStep {
    PlanMainStep(k, MainHeaderRow(rows, width), MainColumnsOf(MainHeaderMap(rows, width)), |rows|, lookup)
  }

  /** Once the lookup is built: the MAIN sheet, then its header row and columns. */
  function PlanMainSheet(sheets: seq<Sheet>, lookup: map<string, Entry>): ThreeStep
    reads sheets
  {
    match MainSheetChoice(sheets)
    case Fail(e) => NoMain(e)
    case Ok(k) => PlanMainAt(k, sheets[k].rows, sheets[k].width, lookup)
  }

  /** The whole decision: the month sheet's columns and lookup, then the MAIN sheet. */
  function PlanPhaseThree(sheets: seq<Sheet>, ctx: MonthContext): ThreeStep
    requires ctx.sheet < |sheets|
    reads sheets
  {
    match MonthColumnsOf(ctx.headerMap)
    case None => MonthColumnsMissing
    case Some(mc) =>
      var month := sheets[ctx.sheet];
      PlanMainSheet(sheets, Lookup(month.rows, mc, ctx.headerRow, |month.rows|))
  }

  /** What phase three returns for each outcome. */
  function ThreeResult(step: ThreeStep): Result<()> {
    match step
    case MonthColumnsMissing => Fail(PipelineError(MissingMonthColumns, Some(3)))
    case NoMain(e) => Fail(e)
    case MainColumnsMissing => Fail(PipelineError(MissingMainColumns, Some(3)))
    case _ => Ok(())
  }

  /**
   * The reports of each outcome: missing columns are reported as errors; a missing
   * MAIN sheet raises without a report; a MAIN sheet without data rows is reported
   * done at once.
   */
  function ThreeTrace(step: ThreeStep): seq<Report> {
    match step
    case MonthColumnsMissing => [ErrorReport(3)]
    case NoMain(_) => []
    case MainColumnsMissing => [ErrorReport(3)]
    case NothingToUpdate => [ClosingReport(3)]
    case Update(_, _, _, _, total) => PhaseTrace(3, total)
  }

  /** Only sheet k changed: same title, width and height, cells as `UpdatedCell` says. */
  ghost predicate UpdatedAt(before: seq<SheetState>, after: seq<SheetState>, k: nat, h: nat, cols: MainColumns, lookup: map<string, Entry>) {
    && |after| == |before| && k < |before|
    && after[k].title == before[k].title && after[k].width == before[k].width
    && |after[k].rows| == |before[k].rows|
    && (forall r, c :: At(after[k].rows, r, c) == UpdatedCell(before[k].rows, h, cols, lookup, r, c))
    && forall i | 0 <= i < |before| && i != k :: after[i] == before[i]
  }

  /** MAIN after phase three: updated at the MAIN sheet, or untouched. */
  ghost predicate ThreeApplied(before: seq<SheetState>, after: seq<SheetState>, step: ThreeStep) {
    if step.Update? then UpdatedAt(before, after, step.sheet, step.headerRow, step.cols, step.lookup) else after == before
  }

  /** Updates sheet k, the only sheet it touches. */
  method UpdateAt(main: Workbook, k: nat, h: nat, cols: MainColumns, lookup: map<string, Entry>, log: ProgressLog)
    requires main.Valid() && k < |main.sheets|
    requires 1 <= cols.date <= main.sheets[k].width && 1 <= cols.area <= main.sheets[k].width
    modifies main.sheets[k], log
    ensures main.Valid()
    ensures UpdatedAt(old(main.State()), main.State(), k, h, cols, lookup)
    ensures log.reports == old(log.reports) + Ticks(3, Max(old(|main.sheets[k].rows|) - h, 0), Max(old(|main.sheets[k].rows|) - h, 0))
  {
    var target := main.sheets[k];
    UpdateRows(target, h, cols, lookup, log);
    forall i | 0 <= i < |main.sheets| && i != k
      ensures main.sheets[i].Valid() && main.State()[i] == old(main.State())[i]
    {
      assert main.sheets[i] != target by {
        assert Titles(main.sheets)[i] != Titles(main.sheets)[k];
      }
    }
  }

  /** The running report, the update loop and the done report. */
  method RunUpdate(main: Workbook, k: nat, h: nat, cols: MainColumns, lookup: map<string, Entry>, log: ProgressLog)
    requires main.Valid() && k < |main.sheets| && h < |main.sheets[k].rows|
    requires 1 <= cols.date <= main.sheets[k].width && 1 <= cols.area <= main.sheets[k].width
    modifies main.sheets[k], log
    ensures main.Valid()
    ensures UpdatedAt(old(main.State()), main.State(), k, h, cols, lookup)
    ensures log.reports == old(log.reports) + PhaseTrace(3, old(|main.sheets[k].rows|) - h)
  {
    ghost var before := main.State();
    ghost var base := log.reports;
    var total := |main.sheets[k].rows| - h;
    log.Emit(RunningReport(3, total));
    assert main.State() == before;
    UpdateAt(main, k, h, cols, lookup, log);
    log.Finish(3, total, base);
  }

  /** `_build_header_index` on the MAIN sheet, then its three columns. */
  method ReadMainColumns(sheet: Sheet) returns (h: nat, cols: Option<MainColumns>)
    requires sheet.Valid()
    ensures h == MainHeaderRow(sheet.rows, sheet.width) && cols == MainColumnsOf(MainHeaderMap(sheet.rows, sheet.width))
    ensures cols.Some? ==> 1 <= cols.value.date <= sheet.width && 1 <= cols.value.area <= sheet.width
    ensures cols.Some? ==> cols.value.device != cols.value.date && cols.value.device != cols.value.area
  {
    var _, headerMap, row := BuildHeaderIndex(sheet, MainDeviceHeaders);
    h := row;
    cols := MainColumnsOf(headerMap);
    if cols.Some? {
      MainColumnsFit(sheet.rows, sheet.width);
    }
  }

  /** Everything once sheet k's header row and columns are read. */
  method UpdateMain(main: Workbook, k: nat, h: nat, cols: Option<MainColumns>, lookup: map<string, Entry>, log: ProgressLog) returns (r: Result<()>)
    requires main.Valid() && k < |main.sheets|
    requires cols.Some? ==> 1 <= cols.value.date <= main.sheets[k].width && 1 <= cols.value.area <= main.sheets[k].width
    modifies main.sheets, log
    ensures main.Valid()
    ensures var step := old(PlanMainStep(k, h, cols, |main.sheets[k].rows|, lookup));
      && r == ThreeResult(step)
      && log.reports == old(log.reports) + ThreeTrace(step)
      && ThreeApplied(old(main.State()), main.State(), step)
  {
    if cols.None? {
      log.Emit(ErrorReport(3));
      return Fail(PipelineError(MissingMainColumns, Some(3)));
    }
    if |main.sheets[k].rows| <= h {
      log.Emit(ClosingReport(3));
      return Ok(());
    }
    RunUpdate(main, k, h, cols.value, lookup, log);
    return Ok(());
  }

  /** Sheet k's header row and columns, then the update. */
  method UpdateSheet(main: Workbook, k: nat, lookup: map<string, Entry>, log: ProgressLog) returns (r: Result<()>)
    requires main.Valid() && k < |main.sheets|
    modifies main.sheets, log
    ensures main.Valid()
    ensures var step := old(PlanMainAt(k, main.sheets[k].rows, main.sheets[k].width, lookup));
      && r == ThreeResult(step)
      && log.reports == old(log.reports) + ThreeTrace(step)
      && ThreeApplied(old(main.State()), main.State(), step)
  {
    var sheet := main.sheets[k];
    var h, cols := ReadMainColumns(sheet);
    r := UpdateMain(main, k, h, cols, lookup, log);
  }

  /** `_locate_main_sheet`, then the update of the sheet it finds. */
  method FindAndUpdateMain(main: Workbook, lookup: map<string, Entry>, log: ProgressLog) returns (r: Result<()>)
    requires main.Valid()
    modifies main.sheets, log
    ensures main.Valid()
    ensures var step := old(PlanMainSheet(main.sheets, lookup));
      && r == ThreeResult(step)
      && log.reports == old(log.reports) + ThreeTrace(step)
      && ThreeApplied(old(main.State()), main.State(), step)
  {
    var k := LocateMainSheet(main);
    if k.Fail? {
      return Fail(k.error);
    }
    r := UpdateSheet(main, k.value, lookup, log);
  }

  /**
   * Phase three. The lookup is built in full before any MAIN row is written, so the
   * month sheet and the MAIN sheet may be the same sheet.
   */
  method PhaseThree(main: Workbook, ctx: MonthContext, log: ProgressLog) returns (r: Result<()>)
    requires main.Valid() && ctx.sheet < |main.sheets|
    modifies main.sheets, log
    ensures main.Valid()
    ensures var step := old(PlanPhaseThree(main.sheets, ctx));
      && r == ThreeResult(step)
      && log.reports == old(log.reports) + ThreeTrace(step)
      && ThreeApplied(old(main.State()), main.State(), step)
  {
    var mc := MonthColumnsOf(ctx.headerMap);
    if mc.None? {
      log.Emit(ErrorReport(3));
      return Fail(PipelineError(MissingMonthColumns, Some(3)));
    }
    var lookup := BuildLookup(main.sheets[ctx.sheet], ctx.headerRow, mc.value);
    r := FindAndUpdateMain(main, lookup, log);
  }
}
