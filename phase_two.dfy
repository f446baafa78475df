/**
 * `_phase_two_merge_rep`: the journey log, newest first, is written into the shared
 * columns of MAIN's month sheet, which is trimmed or extended to one data row per
 * journey; rows it adds copy the formula columns of the last original row.
 */
module PhaseTwo {
  import opened Text
  import opened Wrappers
  import opened Dates
  import opened Cells
  import opened Sheets
  import opened Headers
  import opened Errors
  import opened Reporting
  import opened DateCoercion
  import opened Journey
  import opened SheetLocator

  const MissingBegin := "Phase 2 error: column 'Begin Journey Date' not found in repJourney file"
  const MissingDestination := "Phase 2 error: column 'Destination' not found in month sheet"
  const NoSharedHeaders := "Phase 2 error: No overlapping headers between repJourney and month sheet before Destination column"

  const DestinationKey := "destination"

  /** `{_normalize_header('Begin Journey Date')}`. */
  const BeginKeys: set<string> := {BeginKeyName}

  /** `{_normalize_header('Destination')}`. */
  const DestinationKeys: set<string> := {DestinationKey}

  lemma BeginRequired()
    ensures RequiredKeys(["Begin Journey Date"]) == BeginKeys
  {
    StripNoop("Begin Journey Date");
    var low := Lower("Begin Journey Date");
    assert low == BeginKeyName by {
      forall i | 0 <= i < 18
        ensures low[i] == BeginKeyName[i]
      {
      }
    }
    assert ["Begin Journey Date"][..0] == [];
  }

  lemma DestinationRequired()
    ensures RequiredKeys(["Destination"]) == DestinationKeys
  {
    StripNoop("Destination");
    var low := Lower("Destination");
    assert low == DestinationKey by {
      forall i | 0 <= i < 11
        ensures low[i] == DestinationKey[i]
      {
      }
    }
    assert ["Destination"][..0] == [];
  }

  /** What phase two takes from the journey log: its header keys and its records, sorted. */
  datatype JourneyPlan = JourneyPlan(keys: seq<string>, records: seq<Record>)

  /**
   * The journey sheet read with `Begin Journey Date` as the required header: a
   * phase-2 error without that column, otherwise the header keys and the records of
   * the non-blank data rows, newest first.
   */
  function PlanJourney(cal: Calendar, rows: seq<Row>, width: nat): (p: Result<JourneyPlan>)
    ensures var hr := HeaderRow(rows, width, BeginKeys);
      var headers := HeaderCells(rows, width, hr);
      && (p.Fail? <==> BeginKeyName !in HeaderMapOf(headers))
      && (p.Fail? ==> p.error == PipelineError(MissingBegin, Some(2)))
      && (p.Ok? ==> p.value.keys == HeaderKeys(headers)
                    && p.value.records == SortRecords(cal, Records(HeaderKeys(headers), DataRows(rows, width, hr))))
  {
    var hr := HeaderRow(rows, width, BeginKeys);
    var headers := HeaderCells(rows, width, hr);
    if BeginKeyName in HeaderMapOf(headers) then
      Ok(JourneyPlan(HeaderKeys(headers), SortRecords(cal, Records(HeaderKeys(headers), DataRows(rows, width, hr)))))
    else Fail(PipelineError(MissingBegin, Some(2)))
  }

  /** Reads the journey sheet: header index, records, then `rep_rows.sort(...)`. */
  method ReadJourney(cal: Calendar, sheet: Sheet) returns (r: Result<JourneyPlan>)
    requires sheet.Valid()
    ensures r == PlanJourney(cal, sheet.rows, sheet.width)
  {
    var headers, headerMap, headerRow := BuildHeaderIndex(sheet, ["Begin Journey Date"]);
    BeginRequired();
    if BeginKeyName !in headerMap {
      return Fail(PipelineError(MissingBegin, Some(2)));
    }
    var keys := HeaderKeys(headers);
    var recs := CollectRecords(keys, DataRows(sheet.rows, sheet.width, headerRow));
    return Ok(JourneyPlan(keys, SortRecords(cal, recs)));
  }

  /**
   * `shared_headers`: the journey keys, in order and with repetitions, that are
   * non-empty and map to a month-sheet column before `Destination`.
   */
  function SharedHeaders(keys: seq<string>, cols: map<string, nat>, dest: nat): (sh: seq<string>)
    ensures forall k :: k in sh <==> k in keys && k != "" && k in cols && cols[k] < dest
  {
    if keys == [] then []
    else
      var k := keys[0];
      (if k in cols && cols[k] < dest && k != "" then [k] else []) + SharedHeaders(keys[1..], cols, dest)
  }

  /** Where phase two writes in the month sheet. */
  datatype MonthLayout = MonthLayout(headerRow: nat, cols: map<string, nat>, dest: nat, shared: seq<string>)

  /**
   * The month sheet read with `Destination` as the required header: a phase-2 error
   * without that column or without a shared column before it.
   */
  function PlanMonth(rows: seq<Row>, width: nat, keys: seq<string>): (p: Result<MonthLayout>)
    ensures var hr := HeaderRow(rows, width, DestinationKeys);
      var cols := HeaderMapOf(HeaderCells(rows, width, hr));
      && (DestinationKey !in cols ==> p == Fail(PipelineError(MissingDestination, Some(2))))
      && (DestinationKey in cols ==>
            var shared := SharedHeaders(keys, cols, cols[DestinationKey]);
            && (shared == [] ==> p == Fail(PipelineError(NoSharedHeaders, Some(2))))
            && (shared != [] ==> p == Ok(MonthLayout(hr, cols, cols[DestinationKey], shared))))
  {
    var hr := HeaderRow(rows, width, DestinationKeys);
    var cols := HeaderMapOf(HeaderCells(rows, width, hr));
    if DestinationKey !in cols then Fail(PipelineError(MissingDestination, Some(2)))
    else
      var shared := SharedHeaders(keys, cols, cols[DestinationKey]);
      if shared == [] then Fail(PipelineError(NoSharedHeaders, Some(2)))
      else Ok(MonthLayout(hr, cols, cols[DestinationKey], shared))
  }

  /** A key in the header map names a column of a header row that lies inside the sheet. */
  lemma HeaderRowInside(rows: seq<Row>, width: nat, hr: nat, key: string)
    requires key in HeaderMapOf(HeaderCells(rows, width, hr))
    ensures 1 <= hr <= |rows|
  {
    var headers := HeaderCells(rows, width, hr);
    HeaderMapColumn(headers, key);
    KeyMapPositions(HeaderKeys(headers));
  }

  /** A planned layout: header row inside the sheet, `Destination` a column, shared columns before it, columns distinct. */
  predicate LayoutFits(L: MonthLayout, height: nat, width: nat) {
    && 1 <= L.headerRow <= height
    && 1 <= L.dest <= width
    && L.shared != []
    && (forall k | k in L.shared :: k in L.cols && 1 <= L.cols[k] < L.dest)
    && (forall k1, k2 | k1 in L.cols && k2 in L.cols && k1 != k2 :: L.cols[k1] != L.cols[k2])
  }

  lemma PlanMonthFits(rows: seq<Row>, width: nat, keys: seq<string>)
    requires Rectangular(rows, width)
    requires PlanMonth(rows, width, keys).Ok?
    ensures LayoutFits(PlanMonth(rows, width, keys).value, |rows|, width)
  {
    var L := PlanMonth(rows, width, keys).value;
    var headers := HeaderCells(rows, width, L.headerRow);
    HeaderRowInside(rows, width, L.headerRow, DestinationKey);
    HeaderMapColumn(headers, DestinationKey);
    KeyMapPositions(HeaderKeys(headers));
    forall k | k in L.shared
      ensures k in L.cols && 1 <= L.cols[k] < L.dest
    {
      HeaderMapColumn(headers, k);
    }
    forall k1, k2 | k1 in L.cols && k2 in L.cols && k1 != k2
      ensures L.cols[k1] != L.cols[k2]
    {
      KeyMapInjective(HeaderKeys(headers), k1, k2);
    }
  }

  /** The key whose value lands in column c: the last shared key mapped to c. */
  function WrittenKey(shared: seq<string>, cols: map<string, nat>, c: int): Option<string> {
    if shared == [] then None
    else
      var k := shared[|shared| - 1];
      if k in cols && cols[k] == c then Some(k) else WrittenKey(shared[..|shared| - 1], cols, c)
  }

  /** A written key is a shared key of that column; no key means no shared key has that column. */
  lemma {:induction false} WrittenKeySpec(shared: seq<string>, cols: map<string, nat>, c: int)
    ensures WrittenKey(shared, cols, c).Some? ==>
      var k := WrittenKey(shared, cols, c).value; k in shared && k in cols && cols[k] == c
    ensures WrittenKey(shared, cols, c).None? ==> forall k | k in shared && k in cols :: cols[k] != c
    decreases |shared|
  {
    if shared != [] {
      var init := shared[..|shared| - 1];
      WrittenKeySpec(init, cols, c);
      assert shared == init + [shared[|shared| - 1]];
    }
  }

  /** With distinct columns per key, the column of a shared key receives that key's value. */
  lemma WrittenKeyOfShared(shared: seq<string>, cols: map<string, nat>, k: string)
    requires k in shared && k in cols
    requires forall k1, k2 | k1 in cols && k2 in cols && k1 != k2 :: cols[k1] != cols[k2]
    ensures WrittenKey(shared, cols, cols[k]) == Some(k)
  {
    WrittenKeySpec(shared, cols, cols[k]);
  }

  /**
   * The month sheet after the merge, cell by cell. A record value that is `None`
   * is not written (`cell(..., value=None)` leaves the cell as it is), so that cell
   * keeps what the row held before.
   */
  function MergedCell(before: seq<Row>, L: MonthLayout, recs: seq<Record>, r: int, c: int): Cell {
    var h := L.headerRow;
    var orig := Max(|before| - h, 0);
    if r <= h then At(before, r, c)
    else if r > h + |recs| then Empty
    else
      var i := r - h - 1;
      match WrittenKey(L.shared, L.cols, c)
      case Some(k) => if !Get(recs[i], k).Empty? then Get(recs[i], k) else At(before, r, c)
      case None =>
        if i < orig then At(before, r, c)
        else if orig > 0 && c >= L.dest then At(before, |before|, c)
        else Empty
  }

  /** Some shared key is mapped to column c. */
  predicate SharedColumn(L: MonthLayout, c: int) {
    exists k | k in L.shared :: k in L.cols && L.cols[k] == c
  }

  /**
   * What the merge promises, for a layout read from the month sheet: the rows down
   * to the header row are kept; data row i holds record i's value in every shared
   * column where that value is not `None`, and what it held before where it is,
   * which for an added row is nothing; a row that existed keeps every other column,
   * formula columns included;
   * a row that is added takes the last original row's values from `Destination`
   * on and is empty elsewhere; there is nothing below the last record.
   */
  lemma MergedCells(before: seq<Row>, width: nat, L: MonthLayout, recs: seq<Record>)
    requires Rectangular(before, width) && LayoutFits(L, |before|, width)
    ensures forall r, c | r <= L.headerRow :: MergedCell(before, L, recs, r, c) == At(before, r, c)
    ensures forall i, k | 0 <= i < |recs| && k in L.shared ::
      MergedCell(before, L, recs, L.headerRow + 1 + i, L.cols[k])
        == if !Get(recs[i], k).Empty? then Get(recs[i], k) else At(before, L.headerRow + 1 + i, L.cols[k])
    ensures forall i, k | 0 <= i < |recs| && |before| < L.headerRow + 1 + i && k in L.shared ::
      MergedCell(before, L, recs, L.headerRow + 1 + i, L.cols[k]) == Get(recs[i], k)
    ensures forall r, c | L.headerRow < r <= L.headerRow + |recs| && r <= |before| && !SharedColumn(L, c) ::
      MergedCell(before, L, recs, r, c) == At(before, r, c)
    ensures forall r, c | L.headerRow < |before| < r <= L.headerRow + |recs| && L.dest <= c ::
      MergedCell(before, L, recs, r, c) == At(before, |before|, c)
    ensures forall r, c | |before| < r <= L.headerRow + |recs| && !SharedColumn(L, c) && (c < L.dest || |before| == L.headerRow) ::
      MergedCell(before, L, recs, r, c) == Empty
    ensures forall r, c | r > L.headerRow + |recs| :: MergedCell(before, L, recs, r, c) == Empty
  {
    forall i, k | 0 <= i < |recs| && k in L.shared
      ensures MergedCell(before, L, recs, L.headerRow + 1 + i, L.cols[k])
        == if !Get(recs[i], k).Empty? then Get(recs[i], k) else At(before, L.headerRow + 1 + i, L.cols[k])
    {
      WrittenKeyOfShared(L.shared, L.cols, k);
    }
    forall c
      ensures !SharedColumn(L, c) ==> WrittenKey(L.shared, L.cols, c).None?
      ensures L.dest <= c ==> WrittenKey(L.shared, L.cols, c).None?
    {
      WrittenKeySpec(L.shared, L.cols, c);
    }
  }

  /**
   * The merge the shared-column loop evidently aims at: every data row holds its
   * record's value in each shared column, `None` included.
   */
  function IntendedMergedCell(before: seq<Row>, L: MonthLayout, recs: seq<Record>, r: int, c: int): Cell {
    var h := L.headerRow;
    if h < r <= h + |recs| && WrittenKey(L.shared, L.cols, c).Some? then Get(recs[r - h - 1], WrittenKey(L.shared, L.cols, c).value)
    else MergedCell(before, L, recs, r, c)
  }

  /**
   * In the intended merge each data row's shared columns hold exactly its record's
   * values; it differs from the merge as written only in a row that existed before,
   * where the record's value is `None` and the cell as written still holds the
   * row's old value.
   */
  lemma IntendedMergedCells(before: seq<Row>, width: nat, L: MonthLayout, recs: seq<Record>)
    requires Rectangular(before, width) && LayoutFits(L, |before|, width)
    ensures forall i, k | 0 <= i < |recs| && k in L.shared ::
      IntendedMergedCell(before, L, recs, L.headerRow + 1 + i, L.cols[k]) == Get(recs[i], k)
    ensures forall r, c | IntendedMergedCell(before, L, recs, r, c) != MergedCell(before, L, recs, r, c) ::
      && L.headerRow < r <= |before| && IntendedMergedCell(before, L, recs, r, c) == Empty
      && MergedCell(before, L, recs, r, c) == At(before, r, c)
  {
    forall i, k | 0 <= i < |recs| && k in L.shared
      ensures IntendedMergedCell(before, L, recs, L.headerRow + 1 + i, L.cols[k]) == Get(recs[i], k)
    {
      WrittenKeyOfShared(L.shared, L.cols, k);
    }
  }

  /**
   * As written, a journey value that is `None` leaves the previous month's value in
   * a reused row: a month sheet whose data row holds `Old` under `Name` keeps `Old`
   * when the newest journey has no name.
   */
  lemma StaleJourneyValueKept()
    ensures var before := [[Str("Name"), Str("Destination")], [Str("Old"), Str("X")]];
      var L := MonthLayout(1, map["name" := 1, DestinationKey := 2], 2, ["name"]);
      var recs: seq<Record> := [map[]];
      && LayoutFits(L, |before|, 2) && Get(recs[0], "name") == Empty
      && MergedCell(before, L, recs, 2, 1) == Str("Old") && IntendedMergedCell(before, L, recs, 2, 1) == Empty
  {
    var L := MonthLayout(1, map["name" := 1, DestinationKey := 2], 2, ["name"]);
    assert WrittenKey(L.shared, L.cols, 1) == Some("name") by {
      assert L.shared[..0] == [];
    }
  }

  /** The value `cell(...)` leaves in a column of row r: the written key's value unless that is `None`. */
  function RecordCell(shared: seq<string>, cols: map<string, nat>, rec: Record, c: int, prev: Cell): Cell {
    match WrittenKey(shared, cols, c)
    case Some(k) => if !Get(rec, k).Empty? then Get(rec, k) else prev
    case None => prev
  }

  /**
   * Writes the record's shared values into row r, one `cell(...)` call per shared
   * key: each shared column takes its key's value, except that a `None` value leaves
   * the cell as it was.
   */
  method WriteRecord(sheet: Sheet, r: nat, shared: seq<string>, cols: map<string, nat>, rec: Record)
    requires sheet.Valid() && 1 <= r && shared != []
    requires forall k | k in shared :: k in cols && 1 <= cols[k] <= sheet.width
    requires forall k1, k2 | k1 in cols && k2 in cols && k1 != k2 :: cols[k1] != cols[k2]
    modifies sheet
    ensures sheet.Valid() && sheet.width == old(sheet.width)
    ensures |sheet.rows| == Max(old(|sheet.rows|), r)
    ensures forall i, j :: (At(sheet.rows, i, j) ==
      if i == r then RecordCell(shared, cols, rec, j, At(old(sheet.rows), i, j)) else At(old(sheet.rows), i, j))
  {
    var s := 0;
    while s < |shared|
      invariant 0 <= s <= |shared|
      invariant sheet.Valid() && sheet.width == old(sheet.width)
      invariant |sheet.rows| == if s == 0 then old(|sheet.rows|) else Max(old(|sheet.rows|), r)
      invariant forall i, j :: (At(sheet.rows, i, j) ==
        if i == r then RecordCell(shared[..s], cols, rec, j, At(old(sheet.rows), i, j)) else At(old(sheet.rows), i, j))
    {
      var key := shared[s];
      assert shared[..s + 1][..s] == shared[..s];
      WrittenKeySpec(shared[..s], cols, cols[key]);
      sheet.WriteCell(r, cols[key], Get(rec, key));
      s := s + 1;
    }
    assert shared[..s] == shared;
  }

  /** `formula_template.get(col)`. */
  function TemplateAt(tmpl: map<nat, Cell>, c: nat): Cell {
    if c in tmpl then tmpl[c] else Empty
  }

  /** The `formula_template` loop: the values of row `last` from column `from` to the last column. */
  method ReadTemplate(sheet: Sheet, from: nat, last: nat) returns (tmpl: map<nat, Cell>)
    requires sheet.Valid()
    ensures forall c :: c in tmpl <==> from <= c <= sheet.width
    ensures forall c | c in tmpl :: tmpl[c] == At(sheet.rows, last, c)
  {
    tmpl := map[];
    var col := from;
    while col <= sheet.width
      invariant from <= col
      invariant forall c :: c in tmpl <==> from <= c < col && c <= sheet.width
      invariant forall c | c in tmpl :: tmpl[c] == At(sheet.rows, last, c)
    {
      tmpl := tmpl[col := At(sheet.rows, last, col)];
      col := col + 1;
    }
  }

  /** Copies the template into columns from..width of row r; a `None` in the template leaves its cell as it was. */
  method FillRow(sheet: Sheet, r: nat, from: nat, tmpl: map<nat, Cell>)
    requires sheet.Valid() && 1 <= r && 1 <= from <= sheet.width
    modifies sheet
    ensures sheet.Valid() && sheet.width == old(sheet.width)
    ensures |sheet.rows| == Max(old(|sheet.rows|), r)
    ensures forall i, j :: (At(sheet.rows, i, j) ==
      if i == r && from <= j <= sheet.width && !TemplateAt(tmpl, j).Empty? then TemplateAt(tmpl, j)
      else At(old(sheet.rows), i, j))
  {
    var col := from;
    while col <= sheet.width
      invariant from <= col <= sheet.width + 1
      invariant sheet.Valid() && sheet.width == old(sheet.width)
      invariant |sheet.rows| == if col == from then old(|sheet.rows|) else Max(old(|sheet.rows|), r)
      invariant forall i, j :: (At(sheet.rows, i, j) ==
        if i == r && from <= j < col && !TemplateAt(tmpl, j).Empty? then TemplateAt(tmpl, j)
        else At(old(sheet.rows), i, j))
    {
      sheet.WriteCell(r, col, TemplateAt(tmpl, col));
      col := col + 1;
    }
  }

  /** The month sheet once the records are written and the rows past the last record deleted. */
  function WrittenCell(before: seq<Row>, L: MonthLayout, recs: seq<Record>, r: int, c: int): Cell {
    var h := L.headerRow;
    if r > h + |recs| then Empty
    else if h < r then RecordCell(L.shared, L.cols, recs[r - h - 1], c, At(before, r, c))
    else At(before, r, c)
  }

  /** The write loop and the deletion of the rows past the last record. */
  method WriteRecords(sheet: Sheet, L: MonthLayout, recs: seq<Record>, log: ProgressLog)
    requires sheet.Valid() && LayoutFits(L, |sheet.rows|, sheet.width)
    modifies sheet, log
    ensures sheet.Valid() && sheet.width == old(sheet.width)
    ensures |sheet.rows| == L.headerRow + |recs|
    ensures forall r, c :: At(sheet.rows, r, c) == WrittenCell(old(sheet.rows), L, recs, r, c)
    ensures log.reports == old(log.reports) + Ticks(2, |recs|, |recs|)
  {
    ghost var before := sheet.rows;
    var h := L.headerRow;
    var origCount := |sheet.rows| - h;
    var total := |recs|;
    var i := 0;
    while i < total
      invariant 0 <= i <= total
      invariant sheet.Valid() && sheet.width == old(sheet.width)
      invariant |sheet.rows| == Max(|before|, h + i)
      invariant forall r, c :: (At(sheet.rows, r, c) ==
        if h < r <= h + i then RecordCell(L.shared, L.cols, recs[r - h - 1], c, At(before, r, c))
        else At(before, r, c))
      invariant log.reports == old(log.reports) + Ticks(2, i, total)
    {
      WriteRecord(sheet, h + 1 + i, L.shared, L.cols, recs[i]);
      log.Progress(2, i + 1, total, old(log.reports));
      i := i + 1;
    }
    if origCount > total {
      sheet.DeleteRows(h + 1 + total, origCount - total);
    }
  }

  /**
   * The write loop, the deletion of surplus rows and the formula backfill: the
   * sheet ends with one data row per record, as `MergedCell` describes.
   */
  method MergeRecords(sheet: Sheet, L: MonthLayout, recs: seq<Record>, log: ProgressLog)
    requires sheet.Valid() && LayoutFits(L, |sheet.rows|, sheet.width)
    modifies sheet, log
    ensures sheet.Valid() && sheet.width == old(sheet.width)
    ensures |sheet.rows| == L.headerRow + |recs|
    ensures forall r, c :: At(sheet.rows, r, c) == MergedCell(old(sheet.rows), L, recs, r, c)
    ensures log.reports == old(log.reports) + Ticks(2, |recs|, |recs|)
  {
    ghost var before := sheet.rows;
    var h := L.headerRow;
    var origCount := |sheet.rows| - h;
    var tmpl: map<nat, Cell> := map[];
    if origCount > 0 {
      tmpl := ReadTemplate(sheet, L.dest, |sheet.rows|);
    }
    var total := |recs|;
    WriteRecords(sheet, L, recs, log);
    if origCount > 0 {
      var q := origCount;
      while q < total
        invariant origCount <= q <= Max(origCount, total)
        invariant sheet.Valid() && sheet.width == old(sheet.width) && |sheet.rows| == h + total
        invariant log.reports == old(log.reports) + Ticks(2, total, total)
        invariant forall r, c :: (At(sheet.rows, r, c) ==
          if h + origCount < r <= h + q && L.dest <= c <= sheet.width then TemplateAt(tmpl, c)
          else WrittenCell(before, L, recs, r, c))
      {
        forall c | L.dest <= c
          ensures WrittenKey(L.shared, L.cols, c).None?
        {
          WrittenKeySpec(L.shared, L.cols, c);
        }
        FillRow(sheet, h + 1 + q, L.dest, tmpl);
        q := q + 1;
      }
    }
    forall r, c
      ensures At(sheet.rows, r, c) == MergedCell(before, L, recs, r, c)
    {
      WrittenKeySpec(L.shared, L.cols, c);
    }
  }

  /** The context phase three receives: the month sheet's position, header map and header row, and the `Destination` column. */
  datatype MonthContext = MonthContext(sheet: nat, headerMap: map<string, nat>, headerRow: nat, formulaStart: nat)

  /** How phase two ends, decided from the journey sheet and MAIN as they are before it runs. */
  datatype MergeStep =
    | JourneyRejected(error: PipelineError)
    | NoMonth(error: PipelineError, total: nat)
    | MonthRejected(error: PipelineError, total: nat)
    | Merge(sheet: nat, layout: MonthLayout, records: seq<Record>)

  /** Once the month sheet is known to be sheet k: its layout decides. */
  function PlanSheetStep(k: nat, jp: JourneyPlan, state: seq<SheetState>): (step: MergeStep)
    requires k < |state|
    ensures !step.JourneyRejected? && !step.NoMonth? && StepTotal(step) == |jp.records|
  {
    match PlanMonth(state[k].rows, state[k].width, jp.keys)
    case Fail(e) => MonthRejected(e, |jp.records|)
    case Ok(L) => Merge(k, L, jp.records)
  }

  /**
   * After the journey plan: the month sheet chosen by the latest begin date, then
   * that sheet's layout.
   */
  function PlanMonthStep(latest: Option<DateTime>, jp: JourneyPlan, state: seq<SheetState>): (step: MergeStep)
    ensures !step.JourneyRejected? && StepTotal(step) == |jp.records|
  {
    var titles := StateTitles(state);
    match LocateMonthSheet(titles, latest)
    case Fail(e) => NoMonth(e, |jp.records|)
    case Ok(name) => PlanSheetStep(IndexOfTitle(titles, name).value, jp, state)
  }

  /** The whole decision: the journey sheet's plan, then the month sheet's. */
  function PlanPhaseTwo(cal: Calendar, repRows: seq<Row>, repWidth: nat, state: seq<SheetState>): MergeStep {
    match PlanJourney(cal, repRows, repWidth)
    case Fail(e) => JourneyRejected(e)
    case Ok(jp) => PlanMonthStep(LatestOf(cal, jp.records), jp, state)
  }

  /** What phase two returns for each outcome. */
  function StepResult(step: MergeStep): Result<MonthContext> {
    match step
    case Merge(k, L, _) => Ok(MonthContext(k, L.cols, L.headerRow, L.dest))
    case _ => Fail(step.error)
  }

  /** The number of journey records, for the outcomes that got that far. */
  function StepTotal(step: MergeStep): nat {
    match step
    case JourneyRejected(_) => 0
    case NoMonth(_, n) => n
    case MonthRejected(_, n) => n
    case Merge(_, _, recs) => |recs|
  }

  /** The reports that follow the running report. */
  function AfterRunning(step: MergeStep): seq<Report> {
    match step
    case Merge(_, _, recs) => Ticks(2, |recs|, |recs|) + [DoneReport(2, |recs|)]
    case MonthRejected(_, _) => [ErrorReport(2)]
    case _ => []
  }

  /**
   * The reports of each outcome: a missing begin-date column is reported as an
   * error at once; a missing month sheet raises after the running report without
   * an error report of its own; a rejected month sheet is reported as an error
   * after the running report.
   */
  function StepTrace(step: MergeStep): seq<Report> {
    if step.JourneyRejected? then [ErrorReport(2)]
    else [RunningReport(2, StepTotal(step))] + AfterRunning(step)
  }

  /** A merge reports running, every 50th row and the last, then done. */
  lemma MergeTrace(k: nat, L: MonthLayout, recs: seq<Record>)
    ensures StepTrace(Merge(k, L, recs)) == PhaseTrace(2, |recs|)
  {
  }

  /** Only sheet k changed: same title and width, one data row per record, cells as `MergedCell` says. */
  ghost predicate MergedAt(before: seq<SheetState>, after: seq<SheetState>, k: nat, L: MonthLayout, recs: seq<Record>) {
    && |after| == |before| && k < |before|
    && after[k].title == before[k].title && after[k].width == before[k].width
    && |after[k].rows| == L.headerRow + |recs|
    && (forall r, c :: At(after[k].rows, r, c) == MergedCell(before[k].rows, L, recs, r, c))
    && forall i | 0 <= i < |before| && i != k :: after[i] == before[i]
  }

  /** MAIN after phase two: merged at the chosen sheet, or untouched. */
  ghost predicate StepApplied(before: seq<SheetState>, after: seq<SheetState>, step: MergeStep) {
    if step.Merge? then MergedAt(before, after, step.sheet, step.layout, step.records) else after == before
  }

  /** Merges the records into sheet k, the only sheet it touches. */
  method MergeAt(main: Workbook, k: nat, L: MonthLayout, recs: seq<Record>, log: ProgressLog)
    requires main.Valid() && k < |main.sheets|
    requires LayoutFits(L, |main.sheets[k].rows|, main.sheets[k].width)
    modifies main.sheets[k], log
    ensures main.Valid()
    ensures MergedAt(old(main.State()), main.State(), k, L, recs)
    ensures log.reports == old(log.reports) + Ticks(2, |recs|, |recs|)
  {
    var target := main.sheets[k];
    MergeRecords(target, L, recs, log);
    forall i | 0 <= i < |main.sheets| && i != k
      ensures main.sheets[i].Valid() && main.State()[i] == old(main.State())[i]
    {
      assert main.sheets[i] != target by {
        assert Titles(main.sheets)[i] != Titles(main.sheets)[k];
      }
    }
  }

  /** The month sheet's layout, read through `_build_header_index` with `Destination` required. */
  method ReadMonth(sheet: Sheet, keys: seq<string>) returns (r: Result<MonthLayout>)
    requires sheet.Valid()
    ensures r == PlanMonth(sheet.rows, sheet.width, keys)
  {
    var _, monthMap, monthRow := BuildHeaderIndex(sheet, ["Destination"]);
    DestinationRequired();
    if DestinationKey !in monthMap {
      return Fail(PipelineError(MissingDestination, Some(2)));
    }
    var destinationCol := monthMap[DestinationKey];
    var shared := SharedHeaders(keys, monthMap, destinationCol);
    if shared == [] {
      return Fail(PipelineError(NoSharedHeaders, Some(2)));
    }
    return Ok(MonthLayout(monthRow, monthMap, destinationCol, shared));
  }

  /** `_locate_month_sheet(main_wb, latest_date)`, as the sheet's position. */
  method MonthSheet(main: Workbook, latest: Option<DateTime>) returns (r: Result<nat>)
    requires main.Valid()
    ensures var name := LocateMonthSheet(Titles(main.sheets), latest);
      && (name.Fail? ==> r == Fail(name.error))
      && (name.Ok? ==> r.Ok? && r.value == IndexOfTitle(Titles(main.sheets), name.value).value && r.value < |main.sheets|)
  {
    var month := LocateMonthSheet(Titles(main.sheets), latest);
    if month.Fail? {
      return Fail(month.error);
    }
    return Ok(IndexOfTitle(Titles(main.sheets), month.value).value);
  }

  /** Sheet k's layout, the merge and the done report. */
  method MergeIntoSheet(k: nat, jp: JourneyPlan, main: Workbook, log: ProgressLog) returns (r: Result<MonthContext>)
    requires main.Valid() && k < |main.sheets|
    modifies main.sheets, log
    ensures main.Valid()
    ensures var step := old(PlanSheetStep(k, jp, main.State()));
      && r == StepResult(step)
      && log.reports == old(log.reports) + AfterRunning(step)
      && StepApplied(old(main.State()), main.State(), step)
  {
    ghost var before := main.State();
    var sheet := main.sheets[k];
    assert before[k] == SheetState(sheet.title, sheet.rows, sheet.width);
    var layout := ReadMonth(sheet, jp.keys);
    if layout.Fail? {
      log.Emit(ErrorReport(2));
      return Fail(layout.error);
    }
    PlanMonthFits(sheet.rows, sheet.width, jp.keys);
    assert PlanSheetStep(k, jp, before) == Merge(k, layout.value, jp.records);
    MergeAt(main, k, layout.value, jp.records, log);
    log.Emit(DoneReport(2, |jp.records|));
    return Ok(MonthContext(k, layout.value.cols, layout.value.headerRow, layout.value.dest));
  }

  /** Everything after the running report: month sheet, layout, merge, done report. */
  method MergeIntoMonth(latest: Option<DateTime>, jp: JourneyPlan, main: Workbook, log: ProgressLog) returns (r: Result<MonthContext>)
    requires main.Valid()
    modifies main.sheets, log
    ensures main.Valid()
    ensures var step := old(PlanMonthStep(latest, jp, main.State()));
      && r == StepResult(step)
      && log.reports == old(log.reports) + AfterRunning(step)
      && StepApplied(old(main.State()), main.State(), step)
  {
    ghost var before := main.State();
    SnapshotTitles(main.sheets);
    var k := MonthSheet(main, latest);
    if k.Fail? {
      return Fail(k.error);
    }
    assert PlanMonthStep(latest, jp, before) == PlanSheetStep(k.value, jp, before);
    r := MergeIntoSheet(k.value, jp, main, log);
  }

  /** Once the journey plan is read: the running report, then the rest of the phase. */
  method MergeJourney(latest: Option<DateTime>, jp: JourneyPlan, main: Workbook, log: ProgressLog) returns (r: Result<MonthContext>)
    requires main.Valid()
    modifies main.sheets, log
    ensures main.Valid()
    ensures var step := old(PlanMonthStep(latest, jp, main.State()));
      && r == StepResult(step)
      && log.reports == old(log.reports) + [RunningReport(2, |jp.records|)] + AfterRunning(step)
      && StepApplied(old(main.State()), main.State(), step)
  {
    ghost var before := main.State();
    ghost var step := PlanMonthStep(latest, jp, before);
    ghost var running := log.reports + [RunningReport(2, |jp.records|)];
    log.Emit(RunningReport(2, |jp.records|));
    assert main.State() == before;
    r := MergeIntoMonth(latest, jp, main, log);
  }

  /**
   * Phase two, with `cal` standing for `strptime` and for `from_excel` with the
   * journey workbook's epoch. MAIN changes only when the merge goes ahead, and then
   * only in the chosen month sheet.
   */
  method PhaseTwo(cal: Calendar, rep: Workbook, main: Workbook, log: ProgressLog) returns (r: Result<MonthContext>)
    requires rep.Valid() && main.Valid()
    modifies main.sheets, log
    ensures main.Valid()
    ensures var step := old(PlanPhaseTwo(cal, rep.sheets[0].rows, rep.sheets[0].width, main.State()));
      && r == StepResult(step)
      && log.reports == old(log.reports) + StepTrace(step)
      && StepApplied(old(main.State()), main.State(), step)
  {
    ghost var before := main.State();
    ghost var start := log.reports;
    var sheet := rep.sheets[0];
    var plan := ReadJourney(cal, sheet);
    if plan.Fail? {
      log.Emit(ErrorReport(2));
      return Fail(plan.error);
    }
    var latest := LatestDate(cal, plan.value.records);
    r := MergeJourney(latest, plan.value, main, log);
    ghost var step := PlanMonthStep(latest, plan.value, before);
    AppendAssoc(start, [RunningReport(2, |plan.value.records|)], AfterRunning(step));
  }
}
