/**
 * The telemetry store: `init_db` and the `update_or_insert_data` upsert. The
 * `telemetry` table is a map keyed by `Device_ID` (its primary key); each call runs
 * in one transaction, committed only when every record went through.
 */
module Database {
  import opened Text
  import opened Wrappers
  import opened Dates
  import opened Cells
  import ExcelHandler

  type Upload = ExcelHandler.Upload

  /** A `telemetry` row past its key; `Last_Sighted_Date` may be NULL. */
  datatype Sighting = Sighting(date: Option<string>, location: string, code: string)

  /** An `upload_stats` row past its autoincrement `id`. */
  datatype UploadStats = UploadStats(
    prevUploadDate: Option<string>, lastUploadDate: Option<string>,
    prevTotal: int, lastTotal: int, prevNew: int, lastNew: int, prevUpdated: int, lastUpdated: int)

  /** The row `init_db` seeds: NULL dates and zero counts. */
  const SeedStats := UploadStats(None, None, 0, 0, 0, 0, 0, 0)

  /** `upload_stats` after `init_db`: seeded when it was empty, untouched otherwise. */
  function Seeded(stats: seq<UploadStats>): seq<UploadStats> {
    if |stats| == 0 then [SeedStats] else stats
  }

  /** Repeated `init_db` calls change nothing after the first, which leaves exactly one seeded row. */
  lemma SeedingIdempotent(stats: seq<UploadStats>)
    ensures Seeded(Seeded(stats)) == Seeded(stats)
    ensures |Seeded(stats)| >= 1 && |Seeded(stats)| >= |stats|
    ensures stats == [] ==> Seeded(stats) == [SeedStats]
    ensures stats != [] ==> Seeded(stats) == stats
  {
  }

  /** A stored date the update branch refuses: NULL, or blank once stripped. */
  predicate Blank(date: Option<string>) {
    date.None? || Strip(date.value) == ""
  }

  /** What one record does to the table. */
  datatype Action = Insert | Update | Keep | Conflict

  /**
   * The branch taken for a record, given the row stored under its id: a new id is
   * inserted; a stored row with a blank date also goes to the insert, which the primary
   * key refuses; otherwise the row is replaced only by a date that parses and is
   * strictly later than the stored one, or replaces a stored date that does not parse.
   */
  function Decide(parse: ToDatetime, stored: Option<Sighting>, rec: Upload): Action {
    match stored
    case None => Insert
    case Some(s) =>
      if Blank(s.date) then Conflict
      else
        var newDate := parse(Str(rec.date));
        var oldDate := parse(Str(s.date.value));
        if newDate.Some? && (oldDate.None? || Earlier(oldDate.value, newDate.value)) then Update else Keep
  }

  /** The row a record writes. */
  function Written(rec: Upload): Sighting {
    Sighting(Some(rec.date), rec.location, rec.code)
  }

  /** The table so far and the two counters. */
  datatype Tally = Tally(table: map<string, Sighting>, inserted: nat, updated: nat)

  function Stored(table: map<string, Sighting>, id: string): Option<Sighting> {
    if id in table then Some(table[id]) else None
  }

  /** One record applied to the tally; `None` when the insert violates the primary key. */
  function Apply(parse: ToDatetime, t: Tally, rec: Upload): Option<Tally> {
    match Decide(parse, Stored(t.table, rec.deviceId), rec)
    case Insert => Some(Tally(t.table[rec.deviceId := Written(rec)], t.inserted + 1, t.updated))
    case Update => Some(Tally(t.table[rec.deviceId := Written(rec)], t.inserted, t.updated + 1))
    case Keep => Some(t)
    case Conflict => None
  }

  /** The records applied in order, each seeing what the earlier ones wrote. */
  function Upsert(parse: ToDatetime, table: map<string, Sighting>, recs: seq<Upload>): Option<Tally> {
    if recs == [] then Some(Tally(table, 0, 0))
    else
      match Upsert(parse, table, recs[..|recs| - 1])
      case None => None
      case Some(t) => Apply(parse, t, recs[|recs| - 1])
  }

  /** Once a record has failed, the whole batch fails. */
  lemma {:induction false} FailureSticks(parse: ToDatetime, table: map<string, Sighting>, recs: seq<Upload>, n: nat)
    requires n <= |recs| && Upsert(parse, table, recs[..n]).None?
    ensures Upsert(parse, table, recs).None?
    decreases |recs| - n
  {
    if n < |recs| {
      assert recs[..n + 1][..n] == recs[..n];
      FailureSticks(parse, table, recs, n + 1);
    } else {
      assert recs[..n] == recs;
    }
  }

  /**
   * The counters: every record is counted at most once, and `inserted` is exactly the
   * number of ids the table gained.
   */
  lemma {:induction false} UpsertCounts(parse: ToDatetime, table: map<string, Sighting>, recs: seq<Upload>)
    ensures var r := Upsert(parse, table, recs);
      r.Some? ==>
        && r.value.inserted + r.value.updated <= |recs|
        && table.Keys <= r.value.table.Keys
        && |r.value.table.Keys| == |table.Keys| + r.value.inserted
  {
    if recs != [] {
      var prev := recs[..|recs| - 1];
      var rec := recs[|recs| - 1];
      UpsertCounts(parse, table, prev);
      var p := Upsert(parse, table, prev);
      if p.Some? {
        var t := p.value;
        var id := rec.deviceId;
        match Decide(parse, Stored(t.table, id), rec)
        case Insert =>
          assert id !in t.table;
          assert t.table[id := Written(rec)].Keys == t.table.Keys + {id};
        case Update =>
          assert t.table[id := Written(rec)].Keys == t.table.Keys;
        case Keep =>
        case Conflict =>
      }
    }
  }

  /** The record list names the id. */
  predicate Mentions(recs: seq<Upload>, id: string) {
    exists i | 0 <= i < |recs| :: recs[i].deviceId == id
  }

  lemma MentionsPrefix(recs: seq<Upload>, id: string)
    requires recs != [] && !Mentions(recs, id)
    ensures !Mentions(recs[..|recs| - 1], id) && recs[|recs| - 1].deviceId != id
  {
  }

  /** Ids the batch does not name keep their rows, and no such id is added. */
  lemma {:induction false} UpsertUntouched(parse: ToDatetime, table: map<string, Sighting>, recs: seq<Upload>, id: string)
    requires !Mentions(recs, id)
    ensures var r := Upsert(parse, table, recs);
      r.Some? ==> Stored(r.value.table, id) == Stored(table, id)
  {
    if recs != [] {
      MentionsPrefix(recs, id);
      UpsertUntouched(parse, table, recs[..|recs| - 1], id);
    }
  }

  /** After a successful batch, every id it names has a row. */
  lemma {:induction false} UpsertCoversBatch(parse: ToDatetime, table: map<string, Sighting>, recs: seq<Upload>)
    ensures var r := Upsert(parse, table, recs);
      r.Some? ==> forall i | 0 <= i < |recs| :: recs[i].deviceId in r.value.table
  {
    if recs != [] {
      var prev := recs[..|recs| - 1];
      UpsertCounts(parse, table, recs);
      UpsertCoversBatch(parse, table, prev);
      var p := Upsert(parse, table, prev);
      if p.Some? && Upsert(parse, table, recs).Some? {
        var t := p.value;
        var last := recs[|recs| - 1];
        var after := Upsert(parse, table, recs).value.table;
        assert t.table.Keys <= after.Keys;
        forall i | 0 <= i < |recs|
          ensures recs[i].deviceId in after
        {
          if i < |prev| {
            assert recs[i] == prev[i];
          }
        }
      }
    }
  }

  /** The date a stored row holds, when it is there and parses. */
  function StoredDate(parse: ToDatetime, table: map<string, Sighting>, id: string): Option<DateTime> {
    if id in table && table[id].date.Some? then parse(Str(table[id].date.value)) else None
  }

  /** An update never moves a parseable stored date back in time. */
  lemma {:induction false} UpsertNeverOlder(parse: ToDatetime, table: map<string, Sighting>, recs: seq<Upload>, id: string, d0: DateTime)
    requires StoredDate(parse, table, id) == Some(d0)
    ensures var r := Upsert(parse, table, recs);
      r.Some? ==> StoredDate(parse, r.value.table, id).Some? && !Earlier(StoredDate(parse, r.value.table, id).value, d0)
  {
    if recs != [] {
      var prev := recs[..|recs| - 1];
      var rec := recs[|recs| - 1];
      UpsertNeverOlder(parse, table, prev, id, d0);
      var p := Upsert(parse, table, prev);
      if p.Some? {
        var t := p.value;
        var d1 := StoredDate(parse, t.table, id).value;
        if rec.deviceId == id && Decide(parse, Stored(t.table, id), rec) == Update {
          var d := parse(Str(rec.date)).value;
          assert Earlier(d1, d);
          EarlierIsStrictTotalOrder(d1, d, d0);
        }
      }
    }
  }

  /** A record whose date equals the stored one, as parsed, leaves the row alone. */
  lemma EqualDatesKept(parse: ToDatetime, s: Sighting, rec: Upload)
    requires !Blank(s.date) && parse(Str(rec.date)) == parse(Str(s.date.value))
    ensures Decide(parse, Some(s), rec) == Keep
  {
    var d := parse(Str(rec.date));
    if d.Some? {
      EarlierIsStrictTotalOrder(d.value, d.value, d.value);
    }
  }

  /** The position of the first record naming the id. */
  lemma FirstMention(recs: seq<Upload>, id: string) returns (n: nat)
    requires Mentions(recs, id)
    ensures n < |recs| && recs[n].deviceId == id && forall m | 0 <= m < n :: recs[m].deviceId != id
  {
    var i :| 0 <= i < |recs| && recs[i].deviceId == id;
    n := 0;
    while recs[n].deviceId != id
      invariant n <= i && forall m | 0 <= m < n :: recs[m].deviceId != id
      decreases i - n
    {
      n := n + 1;
    }
  }

  /**
   * A stored row with a NULL or blank date, whose id the batch names, makes the
   * whole batch fail: the first record with that id takes the insert branch.
   */
  lemma {:induction false} BlankStoredDateFails(parse: ToDatetime, table: map<string, Sighting>, recs: seq<Upload>, id: string)
    requires id in table && Blank(table[id].date) && Mentions(recs, id)
    ensures Upsert(parse, table, recs).None?
  {
    var n := FirstMention(recs, id);
    var prev := recs[..n];
    assert !Mentions(prev, id);
    UpsertUntouched(parse, table, prev, id);
    assert recs[..n + 1][..n] == prev;
    FailureSticks(parse, table, recs, n + 1);
  }

  /** A later record with the same id sees the row the earlier one wrote. */
  lemma SameIdTwice(parse: ToDatetime, table: map<string, Sighting>, a: Upload, b: Upload, da: DateTime, db: DateTime)
    requires a.deviceId == b.deviceId && a.deviceId !in table && Strip(a.date) != ""
    requires parse(Str(a.date)) == Some(da) && parse(Str(b.date)) == Some(db)
    ensures Earlier(da, db) ==> Upsert(parse, table, [a, b]) == Some(Tally(table[a.deviceId := Written(b)], 1, 1))
    ensures !Earlier(da, db) ==> Upsert(parse, table, [a, b]) == Some(Tally(table[a.deviceId := Written(a)], 1, 0))
  {
    assert [a, b][..1] == [a];
    assert [a][..0] == [];
    var t1 := Tally(table[a.deviceId := Written(a)], 1, 0);
    assert Upsert(parse, table, [a]) == Some(t1);
    assert Stored(t1.table, b.deviceId) == Some(Written(a));
    assert Decide(parse, Some(Written(a)), b) == if Earlier(da, db) then Update else Keep;
    assert Upsert(parse, table, [a, b]) == Apply(parse, t1, b);
    assert t1.table[b.deviceId := Written(b)] == table[a.deviceId := Written(b)];
  }

  /** What `update_or_insert_data` returns: the two counters, or the primary-key violation. */
  datatype UpsertOutcome = Counts(inserted: nat, updated: nat) | IntegrityError

  /** The database file: its two tables. */
  class TelemetryStore {
    var telemetry: map<string, Sighting>
    var uploadStats: seq<UploadStats>

    constructor ()
      ensures telemetry == map[] && uploadStats == []
    {
      telemetry := map[];
      uploadStats := [];
    }

    /** `init_db`: the tables exist already here; the stats row is seeded when there is none. */
    method InitDb()
      modifies this
      ensures telemetry == old(telemetry)
      ensures uploadStats == Seeded(old(uploadStats))
    {
      if |uploadStats| == 0 {
        uploadStats := uploadStats + [SeedStats];
      }
    }

    /**
     * `update_or_insert_data`: the records applied in order inside one transaction;
     * the table is committed, and the counters returned, only when all went through.
     */
    method UpdateOrInsertData(parse: ToDatetime, records: seq<Upload>) returns (r: UpsertOutcome)
      modifies this
      ensures uploadStats == old(uploadStats)
      ensures match Upsert(parse, old(telemetry), records)
        case None => r == IntegrityError && telemetry == old(telemetry)
        case Some(t) => r == Counts(t.inserted, t.updated) && telemetry == t.table
    {
      var table := telemetry;
      var inserted := 0;
      var updated := 0;
      var i := 0;
      while i < |records|
        invariant 0 <= i <= |records|
        invariant telemetry == old(telemetry) && uploadStats == old(uploadStats)
        invariant Upsert(parse, telemetry, records[..i]) == Some(Tally(table, inserted, updated))
      {
        var rec := records[i];
        assert records[..i + 1][..i] == records[..i];
        if rec.deviceId in table && !Blank(table[rec.deviceId].date) {
          var newDate := parse(Str(rec.date));
          var oldDate := parse(Str(table[rec.deviceId].date.value));
          if newDate.Some? && (oldDate.None? || Earlier(oldDate.value, newDate.value)) {
            table := table[rec.deviceId := Written(rec)];
            updated := updated + 1;
          }
        } else {
          if rec.deviceId in table {
            FailureSticks(parse, telemetry, records, i + 1);
            return IntegrityError;
          }
          table := table[rec.deviceId := Written(rec)];
          inserted := inserted + 1;
        }
        i := i + 1;
      }
      assert records[..i] == records;
      telemetry := table;
      r := Counts(inserted, updated);
    }
  }
}
