/** The progress callback, modelled as the trace of reports it receives. */
module Reporting {
  import opened Wrappers

  datatype Status = Running | Done | Failed

  /** One `_report(callback, phase, status=…, processed_rows=…, total_rows=…)` call. */
  datatype Report = Report(phase: nat, status: Option<Status>, processed: Option<nat>, total: Option<nat>)

  function RunningReport(phase: nat, total: nat): Report { Report(phase, Some(Running), Some(0), Some(total)) }
  function TickReport(phase: nat, idx: nat, total: nat): Report { Report(phase, None, Some(idx), Some(total)) }
  function DoneReport(phase: nat, total: nat): Report { Report(phase, Some(Done), Some(total), Some(total)) }
  function ErrorReport(phase: nat): Report { Report(phase, Some(Failed), None, None) }
  /** A `status='done'` report without row counts. */
  function ClosingReport(phase: nat): Report { Report(phase, Some(Done), None, None) }

  /** A row index at which the loops report progress: every 50th row, and the last one. */
  predicate IsTick(idx: nat, total: nat) { idx % 50 == 0 || idx == total }

  /** The progress reports of rows 1..k of a loop over `total` rows. */
  function Ticks(phase: nat, k: nat, total: nat): seq<Report> {
    if k == 0 then []
    else Ticks(phase, k - 1, total) + if IsTick(k, total) then [TickReport(phase, k, total)] else []
  }

  /** Every report in the trace is a progress report of the phase and total, with a count in 1..k. */
  predicate ProgressOnly(t: seq<Report>, phase: nat, k: nat, total: nat) {
    forall i | 0 <= i < |t| :: t[i].phase == phase && t[i].status.None? && t[i].total == Some(total)
      && 1 <= t[i].processed.GetOr(0) <= k
  }

  lemma {:induction false} TicksShape(phase: nat, k: nat, total: nat)
    ensures ProgressOnly(Ticks(phase, k, total), phase, k, total)
  {
    if k > 0 {
      TicksShape(phase, k - 1, total);
      var prev := Ticks(phase, k - 1, total);
      var step := if IsTick(k, total) then [TickReport(phase, k, total)] else [];
      var t := Ticks(phase, k, total);
      assert t == prev + step;
      forall i | 0 <= i < |t|
        ensures t[i].phase == phase && t[i].status.None? && t[i].total == Some(total) && 1 <= t[i].processed.GetOr(0) <= k
      {
        if i < |prev| {
          assert t[i] == prev[i];
        } else {
          assert t[i] == step[i - |prev|];
        }
      }
    }
  }

  /** The processed counts rise strictly through a trace. */
  predicate Increasing(t: seq<Report>) {
    forall i, j | 0 <= i < j < |t| :: t[i].processed.GetOr(0) < t[j].processed.GetOr(0)
  }

  lemma {:induction false} TicksIncrease(phase: nat, k: nat, total: nat)
    ensures Increasing(Ticks(phase, k, total))
  {
    if k > 0 {
      TicksIncrease(phase, k - 1, total);
      TicksShape(phase, k - 1, total);
      var prev := Ticks(phase, k - 1, total);
      var t := Ticks(phase, k, total);
      if IsTick(k, total) {
        assert t == prev + [TickReport(phase, k, total)];
        forall i, j | 0 <= i < j < |t|
          ensures t[i].processed.GetOr(0) < t[j].processed.GetOr(0)
        {
          assert t[i] == prev[i];
          if j < |prev| {
            assert t[j] == prev[j];
          } else {
            assert t[j] == TickReport(phase, k, total);
          }
        }
      } else {
        assert t == prev;
      }
    }
  }

  /**
   * A loop over `total` rows reports ceil(total / 50) times, and its last report
   * says all rows are processed.
   */
  lemma {:induction false} TickCount(phase: nat, k: nat, total: nat)
    requires k <= total
    ensures |Ticks(phase, k, total)| == if k == total && k % 50 != 0 then k / 50 + 1 else k / 50
  {
    if k > 0 {
      TickCount(phase, k - 1, total);
    }
  }

  lemma LastTickIsTotal(phase: nat, total: nat)
    requires total > 0
    ensures var t := Ticks(phase, total, total); |t| > 0 && t[|t| - 1] == TickReport(phase, total, total)
  {
  }

  /** Appending a trace in two pieces is appending it whole. */
  lemma AppendAssoc<T>(a: seq<T>, b: seq<T>, c: seq<T>)
    ensures (a + b) + c == a + (b + c)
  {
  }

  /** The reports of a phase that completes over `total` rows: running, the ticks, done. */
  function PhaseTrace(phase: nat, total: nat): seq<Report> {
    [RunningReport(phase, total)] + Ticks(phase, total, total) + [DoneReport(phase, total)]
  }

  /** The callback: every report is appended to the trace. */
  class ProgressLog {
    var reports: seq<Report>

    constructor ()
      ensures reports == []
    {
      reports := [];
    }

    method Emit(r: Report)
      modifies this
      ensures reports == old(reports) + [r]
    {
      reports := reports + [r];
    }

    /** The `if idx % 50 == 0 or idx == total` report at the end of loop iteration `idx`. */
    method Progress(phase: nat, idx: nat, total: nat, ghost base: seq<Report>)
      requires 1 <= idx && reports == base + Ticks(phase, idx - 1, total)
      modifies this
      ensures reports == base + Ticks(phase, idx, total)
    {
      if idx % 50 == 0 || idx == total {
        Emit(TickReport(phase, idx, total));
      }
    }

    /** The `status='done'` report closing a phase that reported running and its ticks. */
    method Finish(phase: nat, total: nat, ghost base: seq<Report>)
      requires reports == base + [RunningReport(phase, total)] + Ticks(phase, total, total)
      modifies this
      ensures reports == base + PhaseTrace(phase, total)
    {
      Emit(DoneReport(phase, total));
      assert reports == base + ([RunningReport(phase, total)] + Ticks(phase, total, total) + [DoneReport(phase, total)]);
    }
  }
}
