/**
 * Header handling: the normalised form of a header cell, the search for the
 * header row among the first rows of a sheet, the header-name to column map, and
 * the lookup of the first of several alternative header names.
 */
module Headers {
  import opened Text
  import opened Wrappers
  import opened Cells
  import opened Sheets

  /** `text.strip().lower()`. */
  function NormalizeText(s: string): string {
    Lower(Strip(s))
  }

  /** A key has no surrounding whitespace and no upper-case letter; it is empty iff the text was blank. */
  lemma NormalizeTextShape(s: string)
    ensures var key := NormalizeText(s);
      && (key == [] || (!IsSpace(key[0]) && !IsSpace(key[|key| - 1])))
      && IsLowerCase(key)
      && (key == [] <==> forall i | 0 <= i < |s| :: IsSpace(s[i]))
  {
    StripFacts(s);
    LowerFacts(Strip(s));
  }

  /** `_normalize_header`: `None` is the empty key; any other value is its `str()` trimmed and lower-cased. */
  function NormalizeHeader(c: Cell): string {
    if c.Empty? then "" else NormalizeText(PyStr(c))
  }

  /** Normalising an already normalised key changes nothing. */
  lemma NormalizeTextIdempotent(s: string)
    ensures NormalizeText(NormalizeText(s)) == NormalizeText(s)
  {
    var k := NormalizeText(s);
    NormalizeTextShape(s);
    StripNoop(k);
    LowerOfLowerCase(k);
  }

  lemma NormalizeHeaderIdempotent(c: Cell)
    ensures NormalizeHeader(Str(NormalizeHeader(c))) == NormalizeHeader(c)
  {
    if !c.Empty? {
      NormalizeTextIdempotent(PyStr(c));
    }
  }

  /** A `None` header reads as the empty string, so it normalises like `''`. */
  lemma BlankHeaderIsEmptyKey(c: Cell)
    ensures NormalizeHeader(BlankToText(c)) == NormalizeHeader(c)
  {
  }

  /** How many leading rows are scanned for the header row. */
  const MaxScanRows: nat := 30

  /** The normalised form of each required header name. */
  function RequiredKeys(names: seq<string>): set<string> {
    if names == [] then {} else RequiredKeys(names[..|names| - 1]) + {NormalizeText(names[|names| - 1])}
  }

  /**
   * Whether a row qualifies as the header row: with required names, some cell
   * normalises to one of them; without, some cell is non-empty once normalised.
   */
  predicate Selects(vals: Row, required: set<string>) {
    if required != {} then exists k | 0 <= k < |vals| :: NormalizeHeader(vals[k]) in required
    else exists k | 0 <= k < |vals| :: NormalizeHeader(vals[k]) != ""
  }

  /** The header cells of row r: the row's values with `None` read as `''`. */
  function HeaderCells(rows: seq<Row>, width: nat, r: int): (hs: Row)
    ensures |hs| == width
    ensures forall j | 0 <= j < width :: hs[j] == BlankToText(At(rows, r, j + 1))
  {
    seq(width, j requires 0 <= j < width => BlankToText(At(rows, r, j + 1)))
  }

  /** The first row in from..30 that qualifies, if any. */
  function FirstSelecting(rows: seq<Row>, width: nat, required: set<string>, from: nat): Option<nat>
    requires 1 <= from
    decreases MaxScanRows + 1 - from
  {
    if from > MaxScanRows then None
    else if Selects(HeaderCells(rows, width, from), required) then Some(from)
    else FirstSelecting(rows, width, required, from + 1)
  }

  /** The row found qualifies and is the first qualifying row at or after `from`; none found means none qualifies. */
  lemma {:induction false} FirstSelectingSpec(rows: seq<Row>, width: nat, required: set<string>, from: nat)
    requires 1 <= from
    ensures var found := FirstSelecting(rows, width, required, from);
      && (found.Some? ==> from <= found.value <= MaxScanRows && Selects(HeaderCells(rows, width, found.value), required))
      && (found.Some? ==> forall q | from <= q < found.value :: !Selects(HeaderCells(rows, width, q), required))
      && (found.None? ==> forall q | from <= q <= MaxScanRows :: !Selects(HeaderCells(rows, width, q), required))
    decreases MaxScanRows + 1 - from
  {
    if from <= MaxScanRows && !Selects(HeaderCells(rows, width, from), required) {
      FirstSelectingSpec(rows, width, required, from + 1);
    }
  }

  /** The header row: the first qualifying row among 1..30, or row 1 when none qualifies. */
  function HeaderRow(rows: seq<Row>, width: nat, required: set<string>): nat {
    FirstSelecting(rows, width, required, 1).GetOr(1)
  }

  /**
   * The header row lies in 1..30, no earlier row qualifies, and it qualifies itself
   * unless no row in 1..30 does, in which case it is row 1.
   */
  lemma HeaderRowSpec(rows: seq<Row>, width: nat, required: set<string>)
    ensures var r := HeaderRow(rows, width, required);
      && 1 <= r <= MaxScanRows
      && (forall q | 1 <= q < r :: !Selects(HeaderCells(rows, width, q), required))
      && (Selects(HeaderCells(rows, width, r), required)
          || (r == 1 && forall q | 1 <= q <= MaxScanRows :: !Selects(HeaderCells(rows, width, q), required)))
  {
    FirstSelectingSpec(rows, width, required, 1);
  }

  /** The normalised key of every header cell. */
  function HeaderKeys(headers: Row): seq<string> {
    seq(|headers|, j requires 0 <= j < |headers| => NormalizeHeader(headers[j]))
  }

  /** The dictionary loop over the keys: each non-empty key mapped to the 1-based position where it first occurs. */
  function KeyMap(keys: seq<string>): map<string, nat> {
    if keys == [] then map[]
    else
      var m := KeyMap(keys[..|keys| - 1]);
      var k := keys[|keys| - 1];
      if k != "" && k !in m then m[k := |keys|] else m
  }

  /** Every key in the map is non-empty and sits at the 1-based position it maps to. */
  predicate KeysAtPositions(m: map<string, nat>, keys: seq<string>) {
    forall k | k in m :: k != "" && 1 <= m[k] <= |keys| && keys[m[k] - 1] == k
  }

  /** Every non-empty key is in the map, mapped to a position no later than its own. */
  predicate KeysListed(m: map<string, nat>, keys: seq<string>) {
    forall j | 0 <= j < |keys| && keys[j] != "" :: keys[j] in m && m[keys[j]] <= j + 1
  }

  predicate PositionsBounded(m: map<string, nat>, n: nat) {
    forall k | k in m :: 1 <= m[k] <= n
  }

  lemma {:induction false} KeyMapPositions(keys: seq<string>)
    ensures KeysAtPositions(KeyMap(keys), keys)
  {
    if keys != [] {
      var init := keys[..|keys| - 1];
      KeyMapPositions(init);
      assert forall j | 0 <= j < |init| :: init[j] == keys[j];
    }
  }

  /** The map keeps the first occurrence of every non-empty key. */
  lemma {:induction false} KeyMapListed(keys: seq<string>)
    ensures KeysListed(KeyMap(keys), keys) && PositionsBounded(KeyMap(keys), |keys|)
  {
    if keys != [] {
      var init := keys[..|keys| - 1];
      KeyMapListed(init);
      assert forall j | 0 <= j < |init| :: init[j] == keys[j];
    }
  }

  /** The header map: the key of each header cell mapped to its first column. */
  function HeaderMapOf(headers: Row): map<string, nat> {
    KeyMap(HeaderKeys(headers))
  }

  /** A position in the map is a 1-based position in the keys, holding that key. */
  lemma {:induction false} KeyMapColumn(keys: seq<string>, key: string)
    requires key in KeyMap(keys)
    ensures 1 <= KeyMap(keys)[key] <= |keys| && keys[KeyMap(keys)[key] - 1] == key
  {
    KeyMapPositions(keys);
    var m := KeyMap(keys);
    assert KeysAtPositions(m, keys);
    var p := m[key];
    assert 1 <= p <= |keys| && keys[p - 1] == key;
  }

  /** A column of the header map is a column of the header row, and its header has that key. */
  lemma HeaderMapColumn(headers: Row, key: string)
    requires key in HeaderMapOf(headers)
    ensures 1 <= HeaderMapOf(headers)[key] <= |headers|
    ensures NormalizeHeader(headers[HeaderMapOf(headers)[key] - 1]) == key
  {
    var keys := HeaderKeys(headers);
    KeyMapColumn(keys, key);
  }

  /** Distinct keys name distinct columns. */
  lemma KeyMapInjective(keys: seq<string>, k1: string, k2: string)
    requires k1 in KeyMap(keys) && k2 in KeyMap(keys) && k1 != k2
    ensures KeyMap(keys)[k1] != KeyMap(keys)[k2]
  {
    KeyMapPositions(keys);
  }

  /**
   * `_build_header_index`: scans rows 1..30 for the header row, takes its values as
   * the headers (row 1 when no row qualifies) and maps each key to its first column.
   */
  method BuildHeaderIndex(sheet: Sheet, required: seq<string>) returns (headers: Row, headerMap: map<string, nat>, headerRow: nat)
    requires sheet.Valid()
    ensures headerRow == HeaderRow(sheet.rows, sheet.width, RequiredKeys(required)) && 1 <= headerRow
    ensures headers == HeaderCells(sheet.rows, sheet.width, headerRow)
    ensures headerMap == HeaderMapOf(headers)
  {
    var req := RequiredKeys(required);
    var found := false;
    var rowIdx := 1;
    headerRow := 1;
    while rowIdx <= MaxScanRows && !found
      invariant 1 <= rowIdx <= MaxScanRows + 1
      invariant FirstSelecting(sheet.rows, sheet.width, req, 1)
                == if found then Some(headerRow) else FirstSelecting(sheet.rows, sheet.width, req, rowIdx)
      invariant !found ==> headerRow == 1
    {
      var values := HeaderCells(sheet.rows, sheet.width, rowIdx);
      if Selects(values, req) {
        headerRow := rowIdx;
        found := true;
      }
      rowIdx := rowIdx + 1;
    }
    headers := HeaderCells(sheet.rows, sheet.width, headerRow);
    headerMap := IndexKeys(HeaderKeys(headers));
  }

  /** The dictionary loop of `_build_header_index`: keeps the first column of every non-empty key. */
  method IndexKeys(keys: seq<string>) returns (m: map<string, nat>)
    ensures m == KeyMap(keys)
  {
    m := map[];
    var idx := 0;
    while idx < |keys|
      invariant 0 <= idx <= |keys|
      invariant m == KeyMap(keys[..idx])
    {
      var key := keys[idx];
      assert keys[..idx + 1][..idx] == keys[..idx];
      if key != "" && key !in m {
        m := m[key := idx + 1];
      }
      idx := idx + 1;
    }
    assert keys[..idx] == keys;
  }

  /** The position of the first option at or after `from` whose normalised name is in the map. */
  function FirstListed(m: map<string, nat>, options: seq<string>, from: nat): (i: nat)
    requires from <= |options|
    ensures from <= i <= |options|
    ensures i < |options| ==> NormalizeText(options[i]) in m
    ensures forall p | from <= p < i :: NormalizeText(options[p]) !in m
    decreases |options| - from
  {
    if from == |options| || NormalizeText(options[from]) in m then from
    else FirstListed(m, options, from + 1)
  }

  /**
   * `_find_first_header`: the column of the first option, in the given order, whose
   * normalised name is in the map.
   */
  function FindFirstHeader(m: map<string, nat>, options: seq<string>): (col: Option<nat>)
    ensures col.None? <==> forall p | 0 <= p < |options| :: NormalizeText(options[p]) !in m
    ensures col.Some? ==> exists i | 0 <= i < |options| ::
      && NormalizeText(options[i]) in m && col.value == m[NormalizeText(options[i])]
      && forall p | 0 <= p < i :: NormalizeText(options[p]) !in m
  {
    var i := FirstListed(m, options, 0);
    if i < |options| then Some(m[NormalizeText(options[i])]) else None
  }
}
