/**
 * `run_workbook_pipeline`: phase one, two and three on MAIN in order, each raising
 * `PipelineError` to stop the run, then the phase-4 `done` report.
 */
module Pipeline {
  import opened Wrappers
  import opened Errors
  import opened Reporting
  import opened Sheets
  import opened DateCoercion
  import Journey
  import SheetLocator
  import PhaseOne
  import PhaseTwo
  import PhaseThree

  /** The phases of the reports lie in lo..hi and never go back. */
  predicate Climbs(t: seq<Report>, lo: nat, hi: nat) {
    && (forall i | 0 <= i < |t| :: lo <= t[i].phase <= hi)
    && (forall i, j | 0 <= i < j < |t| :: t[i].phase <= t[j].phase)
  }

  /** A completed phase reports only as that phase. */
  lemma PhaseTraceOfPhase(p: nat, n: nat)
    ensures Climbs(PhaseTrace(p, n), p, p)
  {
    TicksShape(p, n, n);
    var t := PhaseTrace(p, n);
    var ticks := Ticks(p, n, n);
    forall i | 0 <= i < |t|
      ensures t[i].phase == p
    {
      if 0 < i < |t| - 1 {
        assert t[i] == ticks[i - 1];
      }
    }
  }

  /** Phase two reports only as phase 2, whatever its outcome. */
  lemma StepTraceOfPhase(step: PhaseTwo.MergeStep)
    ensures Climbs(PhaseTwo.StepTrace(step), 2, 2)
  {
    if step.Merge? {
      PhaseTwo.MergeTrace(step.sheet, step.layout, step.records);
      PhaseTraceOfPhase(2, |step.records|);
    }
  }

  /** Phase three reports only as phase 3, whatever its outcome. */
  lemma ThreeTraceOfPhase(step: PhaseThree.ThreeStep)
    ensures Climbs(PhaseThree.ThreeTrace(step), 3, 3)
  {
    if step.Update? {
      PhaseTraceOfPhase(3, step.total);
    }
  }

  /** A trace climbing to `mid` followed by one climbing from `mid` climbs throughout. */
  lemma Join(t: seq<Report>, u: seq<Report>, lo: nat, mid: nat, hi: nat)
    requires lo <= mid <= hi && Climbs(t, lo, mid) && Climbs(u, mid, hi)
    ensures Climbs(t + u, lo, hi)
  {
    var s := t + u;
    forall i, j | 0 <= i < j < |s|
      ensures s[i].phase <= s[j].phase
    {
      if j < |t| {
        assert s[i] == t[i] && s[j] == t[j];
      } else if i < |t| {
        assert s[i] == t[i] && s[j] == u[j - |t|];
      } else {
        assert s[i] == u[i - |t|] && s[j] == u[j - |t|];
      }
    }
    forall i | 0 <= i < |s|
      ensures lo <= s[i].phase <= hi
    {
      if i < |t| {
        assert s[i] == t[i];
      } else {
        assert s[i] == u[i - |t|];
      }
    }
  }

  /** Every way phase two can fail is a `PipelineError` of phase 2. */
  lemma PhaseTwoErrors(cal: Calendar, repRows: seq<Row>, repWidth: nat, state: seq<SheetState>)
    ensures var r := PhaseTwo.StepResult(PhaseTwo.PlanPhaseTwo(cal, repRows, repWidth, state));
      r.Fail? ==> r.error.phase == Some(2)
  {
    var jp := PhaseTwo.PlanJourney(cal, repRows, repWidth);
    if jp.Ok? {
      var titles := StateTitles(state);
      var latest := Journey.LatestOf(cal, jp.value.records);
      var name := SheetLocator.LocateMonthSheet(titles, latest);
      if name.Ok? {
        var k := IndexOfTitle(titles, name.value).value;
        var _ := PhaseTwo.PlanMonth(state[k].rows, state[k].width, jp.value.keys);
      }
    }
  }

  /** Every way phase three can fail is a `PipelineError` of phase 3. */
  lemma PhaseThreeErrors(sheets: seq<Sheet>, ctx: PhaseTwo.MonthContext)
    requires ctx.sheet < |sheets|
    ensures var r := PhaseThree.ThreeResult(PhaseThree.PlanPhaseThree(sheets, ctx));
      r.Fail? ==> r.error.phase == Some(3)
  {
    var _ := SheetLocator.MainSheetChoice(sheets);
  }

  /** Phase one, keeping the journey workbook, which shares nothing with MAIN. */
  method RunPhaseOne(dms: Workbook, rep: Workbook, main: Workbook, log: ProgressLog) returns (r: Result<()>)
    requires dms.Valid() && rep.Valid() && main.Valid()
    requires dms != main && rep != main
    requires forall s | s in rep.sheets :: s !in main.sheets
    modifies main, main.sheets, log
    ensures main.Valid() && rep.Valid()
    ensures main.sheets == old(main.sheets)
      || (&& |main.sheets| == |old(main.sheets)| + 1 && main.sheets[..|old(main.sheets)|] == old(main.sheets)
          && fresh(main.sheets[|old(main.sheets)|]))
    ensures |log.reports| >= |old(log.reports)| && log.reports[..|old(log.reports)|] == old(log.reports)
    ensures Climbs(log.reports[|old(log.reports)|..], 1, 1)
    ensures r.Fail? ==> r.error.phase == Some(1) && main.State() == old(main.State())
  {
    ghost var start := log.reports;
    ghost var repSheets := rep.sheets;
    r := PhaseOne.PhaseOne(dms, main, log);
    assert rep.sheets == repSheets;
    assert forall i | 0 <= i < |repSheets| :: repSheets[i] !in old(main.sheets);
    if r.Fail? {
      assert log.reports[|start|..] == [ErrorReport(1)];
    } else {
      var n := |old(PhaseOne.PlanOf(dms)).value.raw|;
      assert log.reports[|start|..] == PhaseTrace(1, n);
      PhaseTraceOfPhase(1, n);
    }
  }

  /** Phase two: it reports as phase 2 only, and fails with a phase-2 error. */
  method RunPhaseTwo(cal: Calendar, rep: Workbook, main: Workbook, log: ProgressLog) returns (r: Result<PhaseTwo.MonthContext>)
    requires rep.Valid() && main.Valid()
    modifies main.sheets, log
    ensures main.Valid()
    ensures |log.reports| >= |old(log.reports)| && log.reports[..|old(log.reports)|] == old(log.reports)
    ensures Climbs(log.reports[|old(log.reports)|..], 2, 2)
    ensures r.Fail? ==> r.error.phase == Some(2)
    ensures r.Ok? ==> r.value.sheet < |main.sheets|
  {
    ghost var start := log.reports;
    ghost var step := PhaseTwo.PlanPhaseTwo(cal, rep.sheets[0].rows, rep.sheets[0].width, main.State());
    PhaseTwoErrors(cal, rep.sheets[0].rows, rep.sheets[0].width, main.State());
    r := PhaseTwo.PhaseTwo(cal, rep, main, log);
    StepTraceOfPhase(step);
    assert log.reports[|start|..] == PhaseTwo.StepTrace(step);
  }

  /** Phase three: it reports as phase 3 only, and fails with a phase-3 error. */
  method RunPhaseThree(main: Workbook, ctx: PhaseTwo.MonthContext, log: ProgressLog) returns (r: Result<()>)
    requires main.Valid() && ctx.sheet < |main.sheets|
    modifies main.sheets, log
    ensures main.Valid()
    ensures |log.reports| >= |old(log.reports)| && log.reports[..|old(log.reports)|] == old(log.reports)
    ensures Climbs(log.reports[|old(log.reports)|..], 3, 3)
    ensures r.Fail? ==> r.error.phase == Some(3)
  {
    ghost var start := log.reports;
    ghost var step := PhaseThree.PlanPhaseThree(main.sheets, ctx);
    PhaseThreeErrors(main.sheets, ctx);
    r := PhaseThree.PhaseThree(main, ctx, log);
    ThreeTraceOfPhase(step);
    assert log.reports[|start|..] == PhaseThree.ThreeTrace(step);
  }

  /** Phase two, then phase three on the month sheet phase two chose. */
  method RunMerges(cal: Calendar, rep: Workbook, main: Workbook, log: ProgressLog) returns (r: Result<()>)
    requires rep.Valid() && main.Valid()
    modifies main.sheets, log
    ensures main.Valid()
    ensures |log.reports| >= |old(log.reports)| && log.reports[..|old(log.reports)|] == old(log.reports)
    ensures Climbs(log.reports[|old(log.reports)|..], 2, 3)
    ensures r.Fail? ==>
      && r.error.phase.Some? && 2 <= r.error.phase.value <= 3
      && Climbs(log.reports[|old(log.reports)|..], 2, r.error.phase.value)
  {
    ghost var start := log.reports;
    var two := RunPhaseTwo(cal, rep, main, log);
    ghost var t2 := log.reports[|start|..];
    assert log.reports == start + t2;
    if two.Fail? {
      return Fail(two.error);
    }
    r := RunPhaseThree(main, two.value, log);
    ghost var t3 := log.reports[|start + t2|..];
    AppendAssoc(start, t2, t3);
    Join(t2, t3, 2, 2, 3);
    assert log.reports[|start|..] == t2 + t3;
  }

  /**
   * The whole run over the three workbooks (loaded separately, so they share no
   * sheet). The reports climb through phases 1..4; the phase-4 report is sent
   * exactly when the run succeeds, as the last report; a failure carries the phase
   * it stopped in, and no later phase reports anything.
   */
  method RunPipeline(cal: Calendar, dms: Workbook, rep: Workbook, main: Workbook, log: ProgressLog) returns (r: Result<()>)
    requires dms.Valid() && rep.Valid() && main.Valid()
    requires dms != main && rep != main
    requires forall s | s in rep.sheets :: s !in main.sheets
    modifies main, main.sheets, log
    ensures main.Valid()
    ensures |log.reports| >= |old(log.reports)| && log.reports[..|old(log.reports)|] == old(log.reports)
    ensures var t := log.reports[|old(log.reports)|..];
      && Climbs(t, 1, 4)
      && (r.Ok? <==> ClosingReport(4) in t)
      && (r.Ok? ==> t[|t| - 1] == ClosingReport(4))
      && (r.Fail? ==> r.error.phase.Some? && 1 <= r.error.phase.value <= 3 && Climbs(t, 1, r.error.phase.value))
    ensures r.Fail? && r.error.phase == Some(1) ==> main.State() == old(main.State())
  {
    ghost var start := log.reports;
    r := RunPhaseOne(dms, rep, main, log);
    ghost var t1 := log.reports[|start|..];
    assert log.reports == start + t1;
    if r.Fail? {
      return;
    }
    r := RunMerges(cal, rep, main, log);
    ghost var mid := log.reports;
    ghost var t23 := mid[|start + t1|..];
    AppendAssoc(start, t1, t23);
    Join(t1, t23, 1, 1, 3);
    assert log.reports[|start|..] == t1 + t23;
    if r.Fail? {
      Join(t1, t23, 1, 1, r.error.phase.value);
      return;
    }
    log.Emit(ClosingReport(4));
    AppendAssoc(start, t1 + t23, [ClosingReport(4)]);
    Join(t1 + t23, [ClosingReport(4)], 1, 3, 4);
    assert log.reports[|start|..] == t1 + t23 + [ClosingReport(4)];
  }
}
