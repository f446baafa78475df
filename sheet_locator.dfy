/** `_locate_month_sheet` and `_locate_main_sheet`: which sheet of MAIN each phase works on. */
module SheetLocator {
  import opened Text
  import opened Wrappers
  import opened Dates
  import opened Sheets
  import opened Headers
  import opened Errors

  const NoMonthSheet := "Phase 2 error: No MMMYYYY month sheet found inside MAIN workbook."
  const NoMainSheet := "Phase 3 error: Unable to find MAIN sheet with 'Device Nos' column."

  predicate IsAsciiLetter(c: char) {
    'A' <= c <= 'Z' || 'a' <= c <= 'z'
  }

  /** The stripped name matches `^[A-Za-z]{3}\d{4}$`: three letters, then four digits. */
  predicate IsMonthSheetName(name: string) {
    var t := Strip(name);
    |t| == 7 && IsAsciiLetter(t[0]) && IsAsciiLetter(t[1]) && IsAsciiLetter(t[2])
    && IsDigit(t[3]) && IsDigit(t[4]) && IsDigit(t[5]) && IsDigit(t[6])
  }

  /** The sheet names, in workbook order, that look like a month sheet. */
  function Candidates(titles: seq<string>): (cs: seq<string>)
    ensures forall n :: n in cs <==> n in titles && IsMonthSheetName(n)
  {
    if titles == [] then []
    else (if IsMonthSheetName(titles[0]) then [titles[0]] else []) + Candidates(titles[1..])
  }

  /** The name equals the tag when both are lower-cased. */
  predicate SameTag(name: string, tag: string) {
    Lower(name) == Lower(tag)
  }

  /** The first name equal to the tag, ignoring case. */
  function FirstTagged(names: seq<string>, tag: string): (r: Option<string>)
    ensures r.Some? ==> r.value in names && SameTag(r.value, tag)
    ensures r.None? <==> forall n | n in names :: !SameTag(n, tag)
  {
    if names == [] then None
    else if SameTag(names[0], tag) then Some(names[0])
    else FirstTagged(names[1..], tag)
  }

  /**
   * The month sheet: the candidate named `%b%Y` of the latest date, ignoring case;
   * otherwise the first candidate; with no candidate, a phase-2 error.
   */
  function LocateMonthSheet(titles: seq<string>, latest: Option<DateTime>): (r: Result<string>)
    ensures r.Ok? ==> r.value in titles && IsMonthSheetName(r.value)
    ensures r.Fail? <==> forall n | n in titles :: !IsMonthSheetName(n)
    ensures r.Fail? ==> r.error == PipelineError(NoMonthSheet, Some(2))
  {
    var cs := Candidates(titles);
    var tagged := if latest.Some? then FirstTagged(cs, MonthTag(latest.value)) else None;
    if tagged.Some? then Ok(tagged.value)
    else if cs != [] then Ok(cs[0])
    else Fail(PipelineError(NoMonthSheet, Some(2)))
  }

  /** The first month-named title carrying the tag is the first tagged candidate. */
  lemma {:induction false} FirstTaggedCandidate(titles: seq<string>, tag: string, i: nat)
    requires i < |titles| && IsMonthSheetName(titles[i]) && SameTag(titles[i], tag)
    requires forall p | 0 <= p < i :: !(IsMonthSheetName(titles[p]) && SameTag(titles[p], tag))
    ensures FirstTagged(Candidates(titles), tag) == Some(titles[i])
    decreases i
  {
    var rest := Candidates(titles[1..]);
    if i > 0 {
      FirstTaggedCandidate(titles[1..], tag, i - 1);
      if IsMonthSheetName(titles[0]) {
        assert Candidates(titles) == [titles[0]] + rest;
        assert Candidates(titles)[1..] == rest;
      } else {
        assert Candidates(titles) == rest;
      }
    } else {
      assert Candidates(titles) == [titles[0]] + rest;
    }
  }

  /** The first month-named title is the first candidate. */
  lemma {:induction false} FirstCandidate(titles: seq<string>, i: nat)
    requires i < |titles| && IsMonthSheetName(titles[i])
    requires forall p | 0 <= p < i :: !IsMonthSheetName(titles[p])
    ensures Candidates(titles) != [] && Candidates(titles)[0] == titles[i]
    decreases i
  {
    if i > 0 {
      FirstCandidate(titles[1..], i - 1);
      assert Candidates(titles) == Candidates(titles[1..]);
    }
  }

  /** The tag of the latest date, when there is one. */
  predicate Tagged(name: string, latest: Option<DateTime>) {
    latest.Some? && SameTag(name, MonthTag(latest.value))
  }

  /**
   * Which sheet is chosen, in workbook order: the first month-named sheet carrying
   * the latest date's tag; when none carries it, the first month-named sheet.
   */
  lemma MonthSheetChoice(titles: seq<string>, latest: Option<DateTime>, i: nat)
    requires i < |titles| && IsMonthSheetName(titles[i])
    ensures Tagged(titles[i], latest) && (forall p | 0 <= p < i :: !(IsMonthSheetName(titles[p]) && Tagged(titles[p], latest)))
            ==> LocateMonthSheet(titles, latest) == Ok(titles[i])
    ensures (forall p | 0 <= p < |titles| :: !(IsMonthSheetName(titles[p]) && Tagged(titles[p], latest)))
            && (forall p | 0 <= p < i :: !IsMonthSheetName(titles[p]))
            ==> LocateMonthSheet(titles, latest) == Ok(titles[i])
  {
    var cs := Candidates(titles);
    if Tagged(titles[i], latest) && (forall p | 0 <= p < i :: !(IsMonthSheetName(titles[p]) && Tagged(titles[p], latest))) {
      FirstTaggedCandidate(titles, MonthTag(latest.value), i);
    }
    if (forall p | 0 <= p < |titles| :: !(IsMonthSheetName(titles[p]) && Tagged(titles[p], latest)))
       && (forall p | 0 <= p < i :: !IsMonthSheetName(titles[p])) {
      FirstCandidate(titles, i);
      if latest.Some? {
        forall n | n in cs
          ensures !SameTag(n, MonthTag(latest.value))
        {
          var p :| 0 <= p < |titles| && titles[p] == n;
          assert !(IsMonthSheetName(titles[p]) && Tagged(titles[p], latest));
        }
      }
    }
  }

  /** `name.strip().lower() == 'main'`. */
  predicate IsMainName(title: string) {
    Lower(Strip(title)) == "main"
  }

  /** The sheet's header map, scanned with no required names, has `device nos` or `device id`. */
  predicate HasDeviceColumn(s: Sheet)
    reads s
  {
    var m := HeaderMapOf(HeaderCells(s.rows, s.width, HeaderRow(s.rows, s.width, {})));
    "device nos" in m || "device id" in m
  }

  /** The first sheet at or after `from` named MAIN. */
  function FirstMainByName(sheets: seq<Sheet>, from: nat): (i: nat)
    requires from <= |sheets|
    ensures from <= i <= |sheets|
    ensures i < |sheets| ==> IsMainName(sheets[i].title)
    ensures forall p | from <= p < i :: !IsMainName(sheets[p].title)
    decreases |sheets| - from
  {
    if from == |sheets| || IsMainName(sheets[from].title) then from else FirstMainByName(sheets, from + 1)
  }

  /** The first sheet at or after `from` whose header map has a device column. */
  function FirstWithDeviceColumn(sheets: seq<Sheet>, from: nat): (i: nat)
    requires from <= |sheets|
    reads sheets
    ensures from <= i <= |sheets|
    ensures i < |sheets| ==> HasDeviceColumn(sheets[i])
    ensures forall p | from <= p < i :: !HasDeviceColumn(sheets[p])
    decreases |sheets| - from
  {
    if from == |sheets| || HasDeviceColumn(sheets[from]) then from else FirstWithDeviceColumn(sheets, from + 1)
  }

  /**
   * The MAIN sheet: the first sheet named MAIN (after trimming, ignoring case);
   * failing that the first sheet with a `Device Nos` or `Device ID` header; failing
   * that a phase-3 error.
   */
  function MainSheetChoice(sheets: seq<Sheet>): (r: Result<nat>)
    reads sheets
    ensures r.Ok? ==> r.value < |sheets|
    ensures forall p | 0 <= p < |sheets| && IsMainName(sheets[p].title) ::
      r.Ok? && r.value <= p && IsMainName(sheets[r.value].title)
    ensures (forall p | 0 <= p < |sheets| :: !IsMainName(sheets[p].title)) ==>
      forall p | 0 <= p < |sheets| && HasDeviceColumn(sheets[p]) :: r.Ok? && r.value <= p && HasDeviceColumn(sheets[r.value])
    ensures r.Fail? <==> forall p | 0 <= p < |sheets| :: !IsMainName(sheets[p].title) && !HasDeviceColumn(sheets[p])
    ensures r.Fail? ==> r.error == PipelineError(NoMainSheet, Some(3))
  {
    var byName := FirstMainByName(sheets, 0);
    if byName < |sheets| then Ok(byName)
    else
      var byHeader := FirstWithDeviceColumn(sheets, 0);
      if byHeader < |sheets| then Ok(byHeader) else Fail(PipelineError(NoMainSheet, Some(3)))
  }

  /** `_locate_main_sheet`: the name loop, then the header loop. */
  method LocateMainSheet(wb: Workbook) returns (r: Result<nat>)
    requires wb.Valid()
    ensures r == MainSheetChoice(wb.sheets)
  {
    var i := 0;
    while i < |wb.sheets|
      invariant 0 <= i <= |wb.sheets|
      invariant FirstMainByName(wb.sheets, 0) == FirstMainByName(wb.sheets, i)
    {
      if Lower(Strip(wb.sheets[i].title)) == "main" {
        return Ok(i);
      }
      i := i + 1;
    }
    i := 0;
    while i < |wb.sheets|
      invariant 0 <= i <= |wb.sheets|
      invariant FirstWithDeviceColumn(wb.sheets, 0) == FirstWithDeviceColumn(wb.sheets, i)
    {
      var sheet := wb.sheets[i];
      var _, headerMap, _ := BuildHeaderIndex(sheet, []);
      if "device nos" in headerMap || "device id" in headerMap {
        return Ok(i);
      }
      i := i + 1;
    }
    return Fail(PipelineError(NoMainSheet, Some(3)));
  }
}
