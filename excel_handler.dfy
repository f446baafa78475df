/**
 * `process_excel_file`: the telemetry upload sheet, read without headers, checked
 * and projected onto the four columns the database stores.
 */
module ExcelHandler {
  import opened Text
  import opened Wrappers
  import opened Dates
  import opened Cells

  /** One output row: `Device_ID`, `Last_Sighted_Date`, `Last_Sighted_Location`, `Location_Code`. */
  datatype Upload = Upload(deviceId: string, date: string, location: string, code: string)

  /** The `ValueError`s it raises, and the `IndexError` of `raw.iloc[0]` on a sheet without rows. */
  datatype UploadError = TooFewColumns | NoRows | InvalidDates

  datatype Processed = Processed(rows: seq<Upload>) | Rejected(error: UploadError)

  /** The `ValueError` messages. */
  const TooFewColumnsMessage := "File must have at least 5 columns"
  const InvalidDatesMessage := "Some dates in column 3 are not in a valid format. Please ensure all dates are valid."

  const ExpectedHeaders: seq<string> := ["Device_ID", "Last_Sighted_Date", "Last_Sighted_Location", "Location_Code"]

  /** `astype(str)` on a cell of the frame: a missing value reads as `nan`. */
  function FrameText(c: Cell): string {
    if c.Empty? then "nan" else PyStr(c)
  }

  /** `astype(str).str.strip()` on one cell. */
  function Trimmed(c: Cell): string {
    Strip(FrameText(c))
  }

  /** The stripped texts of a row. */
  function TrimmedRow(row: seq<Cell>): (ts: seq<string>)
    ensures |ts| == |row| && forall j | 0 <= j < |row| :: ts[j] == Trimmed(row[j])
  {
    if row == [] then [] else TrimmedRow(row[..|row| - 1]) + [Trimmed(row[|row| - 1])]
  }

  /** The first row is a header row when every expected name is among its stripped texts. */
  predicate IsHeaderRow(row: seq<Cell>) {
    forall h | h in ExpectedHeaders :: h in TrimmedRow(row)
  }

  lemma IsHeaderRowMeans(row: seq<Cell>)
    ensures IsHeaderRow(row) <==>
      forall k | 0 <= k < |ExpectedHeaders| :: exists j | 0 <= j < |row| :: Trimmed(row[j]) == ExpectedHeaders[k]
  {
    var ts := TrimmedRow(row);
    if IsHeaderRow(row) {
      forall k | 0 <= k < |ExpectedHeaders|
        ensures exists j | 0 <= j < |row| :: Trimmed(row[j]) == ExpectedHeaders[k]
      {
        assert ExpectedHeaders[k] in ts;
        var j :| 0 <= j < |ts| && ts[j] == ExpectedHeaders[k];
        assert Trimmed(row[j]) == ExpectedHeaders[k];
      }
    }
  }

  /** The rows that hold data: all of them, or all but a leading header row. */
  function DataRows(raw: seq<seq<Cell>>): (body: seq<seq<Cell>>)
    requires raw != []
    ensures IsHeaderRow(raw[0]) ==> body == raw[1..]
    ensures !IsHeaderRow(raw[0]) ==> body == raw
  {
    if IsHeaderRow(raw[0]) then raw[1..] else raw
  }

  /**
   * `pd.to_datetime(raw.iloc[:, 2], errors='coerce')` with the `isna().any()` check:
   * the dates of column 3, or `None` when any of them does not parse.
   */
  function ColumnDates(parse: ToDatetime, body: seq<seq<Cell>>): (ds: Option<seq<DateTime>>)
    requires forall i | 0 <= i < |body| :: |body[i]| >= 3
    ensures ds.None? <==> exists i | 0 <= i < |body| :: parse(body[i][2]).None?
    ensures ds.Some? ==> |ds.value| == |body| && forall i | 0 <= i < |body| :: parse(body[i][2]) == Some(ds.value[i])
  {
    if body == [] then Some([])
    else
      var last := body[|body| - 1];
      match ColumnDates(parse, body[..|body| - 1])
      case None => None
      case Some(ds) =>
        match parse(last[2])
        case None => None
        case Some(d) => Some(ds + [d])
  }

  /** The output frame: trimmed columns 2, 4 and 5, and the date of column 3 as `%Y-%m-%d %H:%M:%S`. */
  function Project(body: seq<seq<Cell>>, ds: seq<DateTime>): (out: seq<Upload>)
    requires |ds| == |body| && forall i | 0 <= i < |body| :: |body[i]| >= 5
    ensures |out| == |body|
    ensures forall i | 0 <= i < |body| ::
      out[i] == Upload(Trimmed(body[i][1]), StampText(ds[i]), Trimmed(body[i][3]), Trimmed(body[i][4]))
  {
    seq(|body|, i requires 0 <= i < |body| =>
      Upload(Trimmed(body[i][1]), StampText(ds[i]), Trimmed(body[i][3]), Trimmed(body[i][4])))
  }

  /**
   * After the header check: an unparseable date rejects the sheet; otherwise one
   * output row per data row, holding its trimmed columns 2, 4 and 5 and its column-3
   * date written as `%Y-%m-%d %H:%M:%S`.
   */
  function ProcessBody(parse: ToDatetime, body: seq<seq<Cell>>): (r: Processed)
    requires forall i | 0 <= i < |body| :: |body[i]| >= 5
    ensures r.Rejected? <==> exists i | 0 <= i < |body| :: parse(body[i][2]).None?
    ensures r.Rejected? ==> r.error == InvalidDates
    ensures r.Processed? ==>
      && |r.rows| == |body|
      && forall i | 0 <= i < |body| :: exists d ::
           && parse(body[i][2]) == Some(d)
           && r.rows[i] == Upload(Trimmed(body[i][1]), StampText(d), Trimmed(body[i][3]), Trimmed(body[i][4]))
  {
    match ColumnDates(parse, body)
    case None => Rejected(InvalidDates)
    case Some(ds) =>
      var out := Project(body, ds);
      assert forall i | 0 <= i < |body| :: parse(body[i][2]) == Some(ds[i]) && out[i].date == StampText(ds[i]);
      Processed(out)
  }

  /**
   * The whole function on a sheet of `width` columns: too few columns, then no first
   * row, are rejected; otherwise the rows below an optional header row are processed.
   */
  function ProcessExcelFile(parse: ToDatetime, raw: seq<seq<Cell>>, width: nat): (r: Processed)
    requires forall i | 0 <= i < |raw| :: |raw[i]| == width
    ensures width < 5 <==> r == Rejected(TooFewColumns)
    ensures width >= 5 && raw == [] <==> r == Rejected(NoRows)
    ensures width >= 5 && raw != [] ==> r == ProcessBody(parse, DataRows(raw))
  {
    if width < 5 then Rejected(TooFewColumns)
    else if raw == [] then Rejected(NoRows)
    else ProcessBody(parse, DataRows(raw))
  }

  /** The date column decides the dates alone. */
  lemma {:induction false} ColumnDatesAgree(parse: ToDatetime, body: seq<seq<Cell>>, body': seq<seq<Cell>>)
    requires |body'| == |body| && forall i | 0 <= i < |body| :: |body[i]| >= 3 && |body'[i]| >= 3
    requires forall i | 0 <= i < |body| :: body'[i][2] == body[i][2]
    ensures ColumnDates(parse, body') == ColumnDates(parse, body)
  {
    if body != [] {
      ColumnDatesAgree(parse, body[..|body| - 1], body'[..|body| - 1]);
    }
  }

  /** Columns 2 to 5 decide the processed rows alone. */
  lemma ProcessBodyAgree(parse: ToDatetime, body: seq<seq<Cell>>, body': seq<seq<Cell>>)
    requires |body'| == |body| && forall i | 0 <= i < |body| :: |body[i]| >= 5 && |body'[i]| >= 5
    requires forall i, j | 0 <= i < |body| && 1 <= j < 5 :: body'[i][j] == body[i][j]
    ensures ProcessBody(parse, body') == ProcessBody(parse, body)
  {
    ColumnDatesAgree(parse, body, body');
    var ds := ColumnDates(parse, body);
    if ds.Some? {
      var out, out' := Project(body, ds.value), Project(body', ds.value);
      forall i | 0 <= i < |body|
        ensures out'[i] == out[i]
      {
        assert body'[i][1] == body[i][1] && body'[i][3] == body[i][3] && body'[i][4] == body[i][4];
      }
      assert out' == out;
    }
  }

  /** Column 1 is disregarded: below the first row, changing it changes nothing. */
  lemma FirstColumnIgnored(parse: ToDatetime, raw: seq<seq<Cell>>, raw': seq<seq<Cell>>, width: nat)
    requires forall i | 0 <= i < |raw| :: |raw[i]| == width
    requires |raw'| == |raw| && forall i | 0 <= i < |raw'| :: |raw'[i]| == width
    requires raw != [] ==> raw'[0] == raw[0]
    requires forall i, j | 1 <= i < |raw| && 1 <= j < width :: raw'[i][j] == raw[i][j]
    ensures ProcessExcelFile(parse, raw', width) == ProcessExcelFile(parse, raw, width)
  {
    if width >= 5 && raw != [] {
      var body, body' := DataRows(raw), DataRows(raw');
      forall i, j | 0 <= i < |body| && 1 <= j < 5
        ensures body'[i][j] == body[i][j]
      {
        if IsHeaderRow(raw[0]) {
          assert body[i] == raw[i + 1] && body'[i] == raw'[i + 1];
        } else if i > 0 {
          assert body[i] == raw[i] && body'[i] == raw'[i];
        }
      }
      ProcessBodyAgree(parse, body, body');
    }
  }

  /**
   * pandas reads an empty cell as `NaN`, which `to_datetime` turns into `NaT`: with
   * such a parser, a blank date below the first row rejects the whole upload.
   */
  lemma BlankDateRejected(parse: ToDatetime, raw: seq<seq<Cell>>, width: nat, q: nat)
    requires forall i | 0 <= i < |raw| :: |raw[i]| == width
    requires width >= 5 && parse(Empty).None?
    requires 1 <= q < |raw| && raw[q][2] == Empty
    ensures ProcessExcelFile(parse, raw, width) == Rejected(InvalidDates)
  {
    var body := DataRows(raw);
    var k := if IsHeaderRow(raw[0]) then q - 1 else q;
    assert body[k] == raw[q];
  }

  /**
   * A header row is dropped only when it really is one: a sheet whose first row lacks
   * an expected name keeps that row as data.
   */
  lemma HeaderKeptUnlessComplete(parse: ToDatetime, raw: seq<seq<Cell>>, width: nat, k: nat)
    requires forall i | 0 <= i < |raw| :: |raw[i]| == width
    requires raw != [] && k < |ExpectedHeaders|
    requires forall j | 0 <= j < width :: Trimmed(raw[0][j]) != ExpectedHeaders[k]
    ensures var r := ProcessExcelFile(parse, raw, width);
      r.Processed? ==> |r.rows| == |raw|
  {
    assert ExpectedHeaders[k] !in TrimmedRow(raw[0]);
    assert DataRows(raw) == raw;
  }

  /** A first row holding all four expected names is dropped. */
  lemma HeaderDroppedWhenComplete(parse: ToDatetime, raw: seq<seq<Cell>>, width: nat)
    requires forall i | 0 <= i < |raw| :: |raw[i]| == width
    requires raw != []
    requires forall k | 0 <= k < |ExpectedHeaders| :: exists j | 0 <= j < width :: Trimmed(raw[0][j]) == ExpectedHeaders[k]
    ensures var r := ProcessExcelFile(parse, raw, width);
      r.Processed? ==> |r.rows| == |raw| - 1
  {
    IsHeaderRowMeans(raw[0]);
  }

  /** The dates written out read back, to the second, as the dates parsed. */
  lemma DatesReadBack(parse: ToDatetime, body: seq<seq<Cell>>)
    requires forall i | 0 <= i < |body| :: |body[i]| >= 5
    ensures var r := ProcessBody(parse, body);
      r.Processed? ==> forall i | 0 <= i < |r.rows| ::
        exists d :: parse(body[i][2]) == Some(d) && ParseStamp(r.rows[i].date) == Some(d.(micro := 0))
  {
    var ds := ColumnDates(parse, body);
    if ds.Some? {
      var rows := ProcessBody(parse, body).rows;
      assert rows == Project(body, ds.value);
      forall i | 0 <= i < |rows|
        ensures exists d :: parse(body[i][2]) == Some(d) && ParseStamp(rows[i].date) == Some(d.(micro := 0))
      {
        var d := ds.value[i];
        assert parse(body[i][2]) == Some(d) && rows[i].date == StampText(d);
        StampRoundTrip(d);
      }
    }
  }
}
