/**
 * The journey log as phase two reads it: one record per non-blank row, keyed by
 * normalised header, sorted newest first by begin date, and the latest begin date.
 */
module Journey {
  import opened Wrappers
  import opened Dates
  import opened Cells
  import opened DateCoercion

  /** One journey row: normalised header name to the raw cell value. */
  type Record = map<string, Cell>

  const BeginKeyName := "begin journey date"

  /** `record.get(key)`: `None` for a key the record lacks. */
  function Get(rec: Record, key: string): Cell {
    if key in rec then rec[key] else Empty
  }

  /**
   * `{keys[i]: values[i] for i in range(len(keys)) if keys[i]}`: every non-empty key
   * mapped to its value; a key that occurs twice keeps the later value.
   */
  function RecordOf(keys: seq<string>, vals: seq<Cell>): Record {
    if keys == [] then map[]
    else
      var m := RecordOf(keys[..|keys| - 1], vals);
      var k := keys[|keys| - 1];
      if k != "" then m[k := Nth(vals, |keys|)] else m
  }

  /**
   * The record holds exactly the non-empty keys, each with the value in the column
   * of its last occurrence.
   */
  lemma {:induction false} RecordOfSpec(keys: seq<string>, vals: seq<Cell>, k: string)
    ensures k in RecordOf(keys, vals) <==> k != "" && k in keys
    ensures k in RecordOf(keys, vals) ==> exists j | 0 <= j < |keys| ::
      && keys[j] == k && RecordOf(keys, vals)[k] == Nth(vals, j + 1)
      && forall q | j < q < |keys| :: keys[q] != k
    decreases |keys|
  {
    if keys != [] {
      var init := keys[..|keys| - 1];
      var last := |keys| - 1;
      RecordOfSpec(init, vals, k);
      assert keys == init + [keys[last]];
      if k in RecordOf(keys, vals) && keys[last] != k {
        var j :| 0 <= j < |init| && init[j] == k && RecordOf(init, vals)[k] == Nth(vals, j + 1)
          && forall q | j < q < |init| :: init[q] != k;
        assert keys[j] == k;
      }
    }
  }

  /** `any(values)`: some cell of the row is truthy. */
  predicate AnyTruthy(vals: seq<Cell>) {
    exists j | 0 <= j < |vals| :: Truthy(vals[j])
  }

  /** The rows `if not any(values): continue` lets through, in order. */
  function NonBlank(data: seq<seq<Cell>>): seq<seq<Cell>> {
    if data == [] then []
    else NonBlank(data[..|data| - 1]) + if AnyTruthy(data[|data| - 1]) then [data[|data| - 1]] else []
  }

  /** The filter keeps the order of the rows: it distributes over concatenation. */
  lemma {:induction false} NonBlankAppend(a: seq<seq<Cell>>, b: seq<seq<Cell>>)
    ensures NonBlank(a + b) == NonBlank(a) + NonBlank(b)
    decreases |b|
  {
    if b != [] {
      var ab := a + b;
      assert ab[..|ab| - 1] == a + b[..|b| - 1];
      NonBlankAppend(a, b[..|b| - 1]);
    } else {
      assert a + b == a;
    }
  }

  /** Exactly the rows with a truthy cell are kept, and never more rows than there were. */
  lemma {:induction false} NonBlankSpec(data: seq<seq<Cell>>)
    ensures |NonBlank(data)| <= |data|
    ensures forall row :: row in NonBlank(data) <==> row in data && AnyTruthy(row)
    decreases |data|
  {
    if data != [] {
      var init := data[..|data| - 1];
      NonBlankSpec(init);
      assert data == init + [data[|data| - 1]];
    }
  }

  /** The records of the data rows: one per non-blank row, in order. */
  function Records(keys: seq<string>, data: seq<seq<Cell>>): (rs: seq<Record>)
    ensures |rs| == |NonBlank(data)|
    ensures forall i | 0 <= i < |rs| :: rs[i] == RecordOf(keys, NonBlank(data)[i])
  {
    var nb := NonBlank(data);
    seq(|nb|, i requires 0 <= i < |nb| => RecordOf(keys, nb[i]))
  }

  /** The loop building `rep_rows`: blank rows skipped, every other row turned into a record. */
  method CollectRecords(keys: seq<string>, data: seq<seq<Cell>>) returns (rs: seq<Record>)
    ensures rs == Records(keys, data)
  {
    rs := [];
    var i := 0;
    while i < |data|
      invariant 0 <= i <= |data|
      invariant rs == Records(keys, data[..i])
    {
      var values := data[i];
      assert data[..i + 1][..i] == data[..i];
      if !AnyTruthy(values) {
        i := i + 1;
        continue;
      }
      rs := rs + [RecordOf(keys, values)];
      i := i + 1;
    }
    assert data[..i] == data;
  }

  /** The record's begin date, coerced. */
  function BeginDate(cal: Calendar, rec: Record): Option<DateTime> {
    CoerceDatetime(cal, Get(rec, BeginKeyName))
  }

  /** The sort key: `_coerce_datetime(...) or datetime.min`. */
  function BeginKey(cal: Calendar, rec: Record): DateTime {
    BeginDate(cal, rec).GetOr(MinDate)
  }

  /** The key function handed to `sort`. */
  function ByBegin(cal: Calendar): Record -> DateTime {
    rec => BeginKey(cal, rec)
  }

  /** `a >= b` on date-times is transitive. */
  lemma NotEarlierTransitive(a: DateTime, b: DateTime, c: DateTime)
    ensures !Earlier(a, b) && !Earlier(b, c) ==> !Earlier(a, c)
  {
    EarlierIsStrictTotalOrder(a, b, c);
    EarlierIsStrictTotalOrder(c, b, a);
    EarlierIsStrictTotalOrder(a, c, b);
  }

  /**
   * Inserts x into a newest-first list ahead of the first element that is not newer
   * than x, so that x stays ahead of the elements with its own key.
   */
  function InsertDesc<T>(x: T, s: seq<T>, key: T -> DateTime): (r: seq<T>)
    ensures |r| == |s| + 1 && multiset(r) == multiset(s) + multiset{x}
  {
    if s == [] || !Earlier(key(x), key(s[0])) then [x] + s
    else
      assert s == [s[0]] + s[1..];
      [s[0]] + InsertDesc(x, s[1..], key)
  }

  /**
   * `list.sort(key=key, reverse=True)`: a stable sort, newest first. The result is a
   * permutation of the input.
   */
  function SortDesc<T>(s: seq<T>, key: T -> DateTime): (r: seq<T>)
    ensures |r| == |s| && multiset(r) == multiset(s)
  {
    if s == [] then []
    else
      assert s == [s[0]] + s[1..];
      InsertDesc(s[0], SortDesc(s[1..], key), key)
  }

  /** No element is older than one after it. */
  predicate Descending<T>(s: seq<T>, key: T -> DateTime) {
    forall i, j | 0 <= i < j < |s| :: !Earlier(key(s[i]), key(s[j]))
  }

  lemma {:induction false} InsertDescKeepsOrder<T>(x: T, s: seq<T>, key: T -> DateTime)
    requires Descending(s, key)
    ensures Descending(InsertDesc(x, s, key), key)
    decreases |s|
  {
    var r := InsertDesc(x, s, key);
    if s == [] || !Earlier(key(x), key(s[0])) {
      forall i, j | 0 <= i < j < |r|
        ensures !Earlier(key(r[i]), key(r[j]))
      {
        if i == 0 {
          NotEarlierTransitive(key(x), key(s[0]), key(s[j - 1]));
        }
      }
    } else {
      var rest := InsertDesc(x, s[1..], key);
      InsertDescKeepsOrder(x, s[1..], key);
      EarlierIsStrictTotalOrder(key(x), key(s[0]), key(x));
      forall i, j | 0 <= i < j < |r|
        ensures !Earlier(key(r[i]), key(r[j]))
      {
        if i == 0 {
          var y := rest[j - 1];
          assert y in multiset(rest);
          if y != x {
            assert y in multiset(s[1..]);
            var q :| 0 <= q < |s[1..]| && s[1..][q] == y;
            assert s[q + 1] == y;
          }
        }
      }
    }
  }

  /** The sorted records are newest first. */
  lemma {:induction false} SortDescOrdered<T>(s: seq<T>, key: T -> DateTime)
    ensures Descending(SortDesc(s, key), key)
    decreases |s|
  {
    if s != [] {
      SortDescOrdered(s[1..], key);
      InsertDescKeepsOrder(s[0], SortDesc(s[1..], key), key);
    }
  }

  /** The elements whose key is d, in order. */
  function WithKey<T>(s: seq<T>, key: T -> DateTime, d: DateTime): seq<T> {
    if s == [] then [] else (if key(s[0]) == d then [s[0]] else []) + WithKey(s[1..], key, d)
  }

  lemma {:induction false} InsertDescStable<T>(x: T, s: seq<T>, key: T -> DateTime, d: DateTime)
    ensures WithKey(InsertDesc(x, s, key), key, d) == (if key(x) == d then [x] else []) + WithKey(s, key, d)
    decreases |s|
  {
    var r := InsertDesc(x, s, key);
    if s == [] || !Earlier(key(x), key(s[0])) {
      assert r[1..] == s;
    } else {
      InsertDescStable(x, s[1..], key, d);
      assert r[1..] == InsertDesc(x, s[1..], key);
      EarlierIsStrictTotalOrder(key(x), key(s[0]), key(x));
    }
  }

  /** Stability: records with equal keys keep their original relative order. */
  lemma {:induction false} SortDescStable<T>(s: seq<T>, key: T -> DateTime, d: DateTime)
    ensures WithKey(SortDesc(s, key), key, d) == WithKey(s, key, d)
    decreases |s|
  {
    if s != [] {
      SortDescStable(s[1..], key, d);
      InsertDescStable(s[0], SortDesc(s[1..], key), key, d);
    }
  }

  /** `rep_rows.sort(key=lambda r: _coerce_datetime(r.get('begin journey date')) or datetime.min, reverse=True)`. */
  function SortRecords(cal: Calendar, rs: seq<Record>): (sorted: seq<Record>)
    ensures multiset(sorted) == multiset(rs) && Descending(sorted, ByBegin(cal))
  {
    SortDescOrdered(rs, ByBegin(cal));
    SortDesc(rs, ByBegin(cal))
  }

  /**
   * Records whose begin date does not parse come after every dated record, except
   * dated records that fall on `datetime.min` itself.
   */
  lemma UndatedLast(cal: Calendar, rs: seq<Record>, i: nat, j: nat)
    requires i < j < |SortRecords(cal, rs)|
    requires var sorted := SortRecords(cal, rs);
      BeginDate(cal, sorted[i]).None? && BeginDate(cal, sorted[j]).Some?
    ensures BeginDate(cal, SortRecords(cal, rs)[j]) == Some(MinDate)
  {
    var sorted := SortRecords(cal, rs);
    SortDescOrdered(rs, ByBegin(cal));
    assert !Earlier(ByBegin(cal)(sorted[i]), ByBegin(cal)(sorted[j]));
    var d := BeginDate(cal, sorted[j]).value;
    EarlierIsStrictTotalOrder(d, MinDate, d);
    MinDateIsEarliest(d);
  }

  /** The first position at or after `from` whose begin date parses. */
  function FirstDated(cal: Calendar, rs: seq<Record>, from: nat): (i: nat)
    requires from <= |rs|
    ensures from <= i <= |rs|
    ensures i < |rs| ==> BeginDate(cal, rs[i]).Some?
    ensures forall p | from <= p < i :: BeginDate(cal, rs[p]).None?
    decreases |rs| - from
  {
    if from == |rs| || BeginDate(cal, rs[from]).Some? then from else FirstDated(cal, rs, from + 1)
  }

  /** `latest_date`: the first begin date that parses, in list order. */
  function LatestOf(cal: Calendar, rs: seq<Record>): Option<DateTime> {
    var i := FirstDated(cal, rs, 0);
    if i < |rs| then BeginDate(cal, rs[i]) else None
  }

  /** The `for row in rep_rows: ... break` loop that finds `latest_date`. */
  method LatestDate(cal: Calendar, rs: seq<Record>) returns (latest: Option<DateTime>)
    ensures latest == LatestOf(cal, rs)
  {
    latest := None;
    var i := 0;
    while i < |rs|
      invariant 0 <= i <= |rs|
      invariant FirstDated(cal, rs, 0) == FirstDated(cal, rs, i)
    {
      var candidate := CoerceDatetime(cal, Get(rs[i], BeginKeyName));
      if candidate.Some? {
        latest := candidate;
        break;
      }
      i := i + 1;
    }
  }

  /**
   * Taken from the sorted records, `latest_date` is the most recent begin date of all
   * the records: it is absent only when no begin date parses, it is one of them,
   * and no record's begin date is later.
   */
  lemma LatestIsNewest(cal: Calendar, rs: seq<Record>)
    ensures var latest := LatestOf(cal, SortRecords(cal, rs));
      && (latest.None? <==> forall r | r in rs :: BeginDate(cal, r).None?)
      && (latest.Some? ==> exists r | r in rs :: BeginDate(cal, r) == latest)
      && (latest.Some? ==> forall r | r in rs && BeginDate(cal, r).Some? :: !Earlier(latest.value, BeginDate(cal, r).value))
  {
    var sorted := SortRecords(cal, rs);
    var latest := LatestOf(cal, sorted);
    var i := FirstDated(cal, sorted, 0);
    assert forall r :: r in rs <==> r in sorted by {
      forall r
        ensures r in rs <==> r in sorted
      {
        assert r in rs <==> r in multiset(rs);
        assert r in sorted <==> r in multiset(sorted);
      }
    }
    if latest.Some? {
      SortDescOrdered(rs, ByBegin(cal));
      assert sorted[i] in rs;
      forall r | r in rs && BeginDate(cal, r).Some?
        ensures !Earlier(latest.value, BeginDate(cal, r).value)
      {
        var j :| 0 <= j < |sorted| && sorted[j] == r;
        if j > i {
          assert !Earlier(ByBegin(cal)(sorted[i]), ByBegin(cal)(sorted[j]));
        } else if j == i {
          EarlierIsStrictTotalOrder(latest.value, latest.value, latest.value);
        }
      }
    } else {
      forall r | r in rs
        ensures BeginDate(cal, r).None?
      {
        var j :| 0 <= j < |sorted| && sorted[j] == r;
      }
    }
  }
}
