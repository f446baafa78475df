# Workbook consolidation and telemetry upload, modelled in Dafny

This project models three parts of a field-device tracking system.

The main part is the workbook consolidation pipeline in `workbook_consolidator.py`. It takes three
Excel workbooks: a DMS export, a "repJourney" export and the MAIN tracking workbook. Then it:

1. replaces the "DMS Dump" sheet inside MAIN with the DMS rows, each row's `Device_ID` normalised;
2. writes the journey records, newest first, into the month sheet (`MMMYYYY`) of the latest
   journey date. It trims or extends that sheet and copies the formula columns into added rows;
3. builds a first-wins device → (disarm date, destination) lookup from that month sheet. It then
   overwrites "Last Disarmed Date" and "Last Disarmed Area" on the MAIN sheet rows whose device
   id is in it;
4. reports phase 4 done.

Each phase can stop the run with a `PipelineError` carrying its phase number. Progress goes to a
callback as `(phase, status, processed_rows, total_rows)` reports.

Two smaller parts are modelled beside it:

- the upsert of uploaded telemetry rows into the `telemetry` table, where a strictly newer date
  wins, together with the seeding of `upload_stats` (`database.py`);
- the validation and projection of an uploaded telemetry sheet (`excel_handler.py`).

How the model is built:

- **Workbook data.**
  - A cell is `Empty | Str | Int | Date | Other`.
  - A `Sheets.Sheet` is a class holding a 1-based grid (`rows`, `width`). Its methods are
    `SetCell`, `WriteCell`, `AppendRow` and `DeleteRows`, the openpyxl operations the source
    uses. `SetCell` is an assignment to `.value`. `WriteCell` is `cell(row, column, value)`, which
    leaves the cell's value alone when `value` is `None`.
  - A `Sheets.Workbook` holds an ordered sequence of uniquely titled sheets.
- **Phases.** Each phase is a `method` over these objects.
  - Its contract ties the new workbook state and the report trace to a plan function of the old
    state.
  - That plan function states the phase's decisions: which sheet, which columns, which error.
  - Per-cell functions (`DumpContents`, `MergedCell`, `UpdatedCell`) state what each cell holds
    afterwards.
  - Lemmas about those functions state what the source promises.
- **Progress reports.** They are appended to a `Reporting.ProgressLog`.
- **The telemetry table.** A `Database.TelemetryStore` object holds it as a map from device id to
  sighting. The upsert loop over a batch is proved equal to a fold, `Database.Upsert`, and the
  lemmas about the upsert are stated on that fold.
- **Abstract parameters.** These become function parameters:
  - `strptime` per format;
  - the Excel serial-date conversion;
  - pandas `to_datetime`.

## Model

| member | source | states |
|---|---|---|
| Text.StripFacts | workbook_consolidator.py:277 | `strip()` yields a text with no leading or trailing whitespace, no longer than its input, and empty exactly when the input is all whitespace |
| Text.StripIdempotent | workbook_consolidator.py:277 | stripping twice is stripping once |
| Text.LowerFacts | workbook_consolidator.py:277 | `lower()` yields lower-case text, is idempotent and keeps whitespace where it was |
| Text.DecimalRoundTrip | workbook_consolidator.py:293-294 | `str(int(text))` of an all-digit text is the text without its leading zeros, or "0" when nothing is left |
| Text.ParseNatOfNatToString | workbook_consolidator.py:294 | reading back the decimal string of a number gives the number |
| Text.NatToStringFacts | workbook_consolidator.py:287 | the decimal string of a number is all digits, "0" exactly for zero, with no leading zero otherwise |
| Headers.NormalizeTextShape | workbook_consolidator.py:273-278 | a header key is trimmed and lower-case, and empty exactly when the header text is all whitespace |
| Headers.NormalizeHeader | workbook_consolidator.py:273-278 | `None` gives the empty key, and any other value its `str()` text stripped and lower-cased; its shape and idempotence are stated by `NormalizeTextShape` and `NormalizeHeaderIdempotent` |
| Headers.NormalizeTextIdempotent | workbook_consolidator.py:273-278 | normalising a key again changes nothing |
| Headers.NormalizeHeaderIdempotent | workbook_consolidator.py:273-278 | the key of a cell holding a key is that key |
| Headers.BlankHeaderIsEmptyKey | workbook_consolidator.py:247 | reading a `None` header cell as `''` does not change its key |
| Headers.HeaderCells | workbook_consolidator.py:247 | the header values of a row are its cells across the sheet's width, with `None` read as `''` |
| Headers.FirstSelectingSpec | workbook_consolidator.py:243-257 | the scan returns the first row up to row 30 that qualifies (some key among the required ones, or, with none required, some non-empty key), and returns nothing only if no row qualifies |
| Headers.HeaderRowSpec | workbook_consolidator.py:243-262 | the header row is the first qualifying row among rows 1..30, or row 1 when none qualifies |
| Headers.HeaderRow | workbook_consolidator.py:243-262 | the first row among 1..30 that the scan selects, or row 1; `HeaderRowSpec` states it |
| Headers.KeyMapPositions | workbook_consolidator.py:264-268 | every key in the header map points at the first header with that key |
| Headers.KeyMap | workbook_consolidator.py:264-268 | the first-wins map from each non-empty key to its 1-based column; `KeyMapPositions`, `KeyMapListed` and `KeyMapInjective` state it |
| Headers.KeyMapListed | workbook_consolidator.py:264-268 | every non-empty key of the headers is in the map, and the map holds nothing else; positions lie within the headers |
| Headers.KeyMapColumn | workbook_consolidator.py:264-268 | a mapped column is 1-based, inside the headers, and its header has that key |
| Headers.HeaderMapColumn | workbook_consolidator.py:264-268 | the header in a mapped column normalises to the key it is mapped under |
| Headers.KeyMapInjective | workbook_consolidator.py:264-268 | two different keys never share a column |
| Headers.BuildHeaderIndex | workbook_consolidator.py:234-270 | the method returns the header row, its header values and the first-wins key map that the functions above specify |
| Headers.IndexKeys | workbook_consolidator.py:264-268 | the dictionary loop builds the first-wins key map |
| Headers.FirstListed | workbook_consolidator.py:345-350 | the search stops at the first option whose key is in the map, and every option before it is absent |
| Headers.FindFirstHeader | workbook_consolidator.py:345-350 | the result is the column of the first option present in the map, and it is absent exactly when no option is present |
| DeviceIds.TextIdIsTrimmedWithoutZeros | workbook_consolidator.py:290-296 | a text id is `''` when blank, and otherwise the stripped text (rewritten as its decimal value when all digits) without its leading zeros, or "0" |
| DeviceIds.NormalizeDeviceId | workbook_consolidator.py:281-296 | `None` gives `''`, an integer its decimal form, any other value the text branch; the lemmas below state its properties |
| DeviceIds.IntegerIdReadsBack | workbook_consolidator.py:284-287 | the id of a non-negative integer is all digits and reads back as that integer |
| DeviceIds.DeviceIdOfDigits | workbook_consolidator.py:293-296 | a text that strips to ASCII digits gives the decimal value of those digits |
| DeviceIds.DeviceIdEmptyIff | workbook_consolidator.py:281-292 | the id is `''` exactly for `None` and for texts (non-integers) that are all whitespace |
| DeviceIds.TextIdCanonical | workbook_consolidator.py:290-296 | a non-empty text id is "0" or does not start with '0', and does not end in whitespace |
| DeviceIds.DeviceIdCanonical | workbook_consolidator.py:281-296 | the same holds for the id of any cell, integers included |
| DeviceIds.DeviceIdIdempotentIff | workbook_consolidator.py:281-296 | normalising an id again leaves it unchanged exactly when it is empty or does not start with whitespace |
| DeviceIds.LeadingZerosExample | workbook_consolidator.py:293-294 | "0001" becomes "1" |
| DeviceIds.AllZerosExample | workbook_consolidator.py:293-296 | "0000" becomes "0" |
| DeviceIds.ZeroSpaceFiveExample | workbook_consolidator.py:295-296 | "0 5" becomes " 5" |
| DeviceIds.SpaceFiveExample | workbook_consolidator.py:290-296 | " 5" becomes "5", so the function is not idempotent |
| Dates.EarlierIsStrictTotalOrder | workbook_consolidator.py:103 | comparing datetimes is a strict total order |
| Dates.MinDateIsEarliest | workbook_consolidator.py:103 | no datetime is earlier than `datetime.min` |
| Dates.StampLayout | excel_handler.py:35 | `%Y-%m-%d %H:%M:%S` yields 19 characters with the separators and zero-padded fields in place |
| Dates.StampRoundTrip | excel_handler.py:35 | reading a formatted timestamp back gives the datetime without its microseconds |
| DateCoercion.FirstParsing | workbook_consolidator.py:313-317 | the formats are tried in their fixed order, and the first that parses is taken |
| DateCoercion.ParseText | workbook_consolidator.py:313-318 | a text's date is the one the first successful format gives, or none when no format parses |
| DateCoercion.CoerceDatetime | workbook_consolidator.py:299-318 | `None` and other values give none, a date is returned unchanged, an integer goes to the serial conversion, and a string is stripped and parsed unless blank |
| DateCoercion.BlankTextHasNoDate | workbook_consolidator.py:300-312 | `''` and whitespace-only texts give no date |
| DateCoercion.TrimmedTextSameDate | workbook_consolidator.py:310 | surrounding whitespace does not change the date |
| Sheets.Sheet.SetCell | workbook_consolidator.py:224-225 | assigning `.value` changes exactly that cell, and grows the sheet to include it |
| Sheets.Sheet.WriteCell | workbook_consolidator.py:146 | `cell(row, column, value)` grows the sheet to include the cell and stores the value unless it is `None`, which leaves the cell as it was; no other cell changes |
| Sheets.Sheet.AppendRow | workbook_consolidator.py:77 | `append` adds one row below the last, holding the values given |
| Sheets.Sheet.DeleteRows | workbook_consolidator.py:153 | `delete_rows(idx, amount)` moves every row below the deleted block up by `amount` and keeps the rows above it |
| Sheets.Workbook.CreateSheet | workbook_consolidator.py:58 | `create_sheet` appends one new, empty sheet with the given title and leaves the other sheets alone |
| Sheets.DataRows | workbook_consolidator.py:53 | the rows below the header row are read, one per sheet row, each as wide as the sheet |
| Sheets.IndexOfTitle | workbook_consolidator.py:58 | a sheet is found by title exactly when that title exists |
| Sheets.Grown | workbook_consolidator.py:65 | enlarging a grid keeps every cell |
| Reporting.TicksShape | workbook_consolidator.py:78-80 | a loop reports progress only, at each row index that is a multiple of 50 or the last one, for its own phase |
| Reporting.TicksIncrease | workbook_consolidator.py:78-80 | the processed counts in the progress reports strictly increase |
| Reporting.TickCount | workbook_consolidator.py:78-80 | a loop over n rows sends n/50 progress reports, plus one for a last row that is not a multiple of 50 |
| Reporting.LastTickIsTotal | workbook_consolidator.py:78-80 | a loop over a non-empty table always reports its last row |
| Reporting.ProgressLog.Progress | workbook_consolidator.py:78-80 | reporting after row k extends the progress reports of rows 1..k-1 by those of row k |
| Reporting.ProgressLog.Finish | workbook_consolidator.py:82-83 | the done report closes the trace of running report, progress reports and done report |
| SheetLocator.Candidates | workbook_consolidator.py:322-323 | the candidates are exactly the sheet names whose stripped form is three ASCII letters and four digits |
| SheetLocator.IsMonthSheetName | workbook_consolidator.py:322-323 | a name qualifies when, stripped, it is three ASCII letters followed by four digits; `Candidates` states the filter |
| SheetLocator.FirstTagged | workbook_consolidator.py:326-328 | the chosen candidate matches the `%b%Y` tag case-insensitively, and none is chosen only if none matches |
| SheetLocator.LocateMonthSheet | workbook_consolidator.py:321-331 | the chosen sheet is a candidate, and the phase-2 error comes exactly when no sheet name is a candidate |
| SheetLocator.FirstTaggedCandidate | workbook_consolidator.py:324-328 | the first candidate in workbook order that matches the tag is chosen |
| SheetLocator.FirstCandidate | workbook_consolidator.py:329-330 | the first candidate is the first sheet in workbook order whose name qualifies |
| SheetLocator.MonthSheetChoice | workbook_consolidator.py:321-331 | the first candidate matching the latest date's tag wins, and failing that the first candidate wins |
| SheetLocator.FirstMainByName | workbook_consolidator.py:335-337 | the first sheet whose stripped, lower-cased name is `main` is found |
| SheetLocator.FirstWithDeviceColumn | workbook_consolidator.py:338-341 | the first sheet whose header map has `device nos` or `device id` is found |
| SheetLocator.MainSheetChoice | workbook_consolidator.py:334-342 | a sheet named `main` wins over any other; failing that, the first sheet with a device column; the phase-3 error comes exactly when neither exists |
| SheetLocator.LocateMainSheet | workbook_consolidator.py:334-342 | the search loops choose the sheet that `MainSheetChoice` specifies |
| PhaseOne.DeviceIdRequired | workbook_consolidator.py:47 | the required header `Device_ID` has the key `device_id` |
| PhaseOne.SourceIndex | workbook_consolidator.py:46 | the DMS sheet is "DMS Dump" when the workbook has one, and otherwise the first sheet |
| PhaseOne.PlanDump | workbook_consolidator.py:47-53 | phase one fails with its phase-1 error exactly when the header map lacks `device_id`; otherwise it takes the header row, the device column and the rows below |
| PhaseOne.NormalizedRow | workbook_consolidator.py:74-76 | a dump row equals its source row except in the device column, which holds the normalised id |
| PhaseOne.NormalizedRows | workbook_consolidator.py:73-77 | one normalised row per data row, in order |
| PhaseOne.HeaderOver | workbook_consolidator.py:64-68 | row 1 after the header writes: each header that is not `None`, and elsewhere, past the last header included, the cell it held before |
| PhaseOne.DumpContents | workbook_consolidator.py:60-77 | the dump is row 1 as the header writes leave it, followed by every data row, in order, each normalised |
| PhaseOne.DumpCells | workbook_consolidator.py:60-77 | cell by cell, row 1 holds each incoming header that is not `None` and otherwise its old cell, each data row its source cell or its normalised id, and nothing lies below |
| PhaseOne.FreshDumpHeader | workbook_consolidator.py:58-66 | a "DMS Dump" sheet that held nothing gets exactly the export's header cells in row 1 |
| PhaseOne.IntendedDump | workbook_consolidator.py:60-68 | the dump with row 1 exactly the export's header row |
| PhaseOne.IntendedDumpCells | workbook_consolidator.py:60-68 | the intended dump's row 1 is the export's header row cell for cell, and its other rows are those of the dump as written |
| PhaseOne.StaleHeaderKept | workbook_consolidator.py:66-68 | a sheet headed `Device_ID`, `Site` refreshed from an export headed `Device_ID` keeps `Site`, where the intended dump is blank |
| PhaseOne.PlanShape | workbook_consolidator.py:47-53 | the device column lies inside the headers, and every data row is as wide as the headers |
| PhaseOne.ResetToHeader | workbook_consolidator.py:60-71 | the target is left with one row, as `HeaderOver` describes: the `None` writes to the extra header cells change nothing |
| PhaseOne.AppendDumpRow | workbook_consolidator.py:73-80 | one loop step appends the next normalised row and reports its progress |
| PhaseOne.AppendDataRows | workbook_consolidator.py:73-80 | the loop appends every normalised data row, in order, with its progress reports |
| PhaseOne.WriteDump | workbook_consolidator.py:60-80 | the target sheet ends holding exactly the dump written over its old rows |
| PhaseOne.DumpTarget | workbook_consolidator.py:58 | the target is the existing "DMS Dump" sheet, or a new one appended to MAIN |
| PhaseOne.RewriteAt | workbook_consolidator.py:60-80 | only the target sheet changes, and it holds the dump under its old title |
| PhaseOne.InstalledInPlace | workbook_consolidator.py:58-80 | rewriting the existing "DMS Dump" sheet leaves every other sheet as it was |
| PhaseOne.InstalledAtEnd | workbook_consolidator.py:58-80 | a new "DMS Dump" sheet holding the dump follows the unchanged sheets |
| PhaseOne.InstallDump | workbook_consolidator.py:58-80 | MAIN ends with the dump installed, and the loop's progress reports are sent |
| PhaseOne.RefreshMainDump | workbook_consolidator.py:53-83 | MAIN ends with the dump installed, reported as running, progress and done |
| PhaseOne.SourceSheet | workbook_consolidator.py:46 | the method reads the sheet `SourceIndex` names |
| PhaseOne.ReadDump | workbook_consolidator.py:47-53 | the method reads the plan `PlanDump` specifies |
| PhaseOne.PhaseOne | workbook_consolidator.py:45-83 | a missing `Device_ID` column fails with phase 1 after one error report, before MAIN is touched; otherwise the "DMS Dump" sheet of MAIN holds exactly the normalised dump under its rewritten header row, and nothing else changes |
| Journey.RecordOfSpec | workbook_consolidator.py:99 | a record has exactly the non-empty header keys, and a repeated key holds the value of its last column |
| Journey.NonBlankAppend | workbook_consolidator.py:96-98 | dropping all-falsy rows distributes over concatenation |
| Journey.NonBlankSpec | workbook_consolidator.py:96-98 | the rows kept are exactly the rows with a truthy value |
| Journey.Records | workbook_consolidator.py:94-100 | there is one record per kept row, in order |
| Journey.CollectRecords | workbook_consolidator.py:94-100 | the loop builds those records |
| Journey.NotEarlierTransitive | workbook_consolidator.py:103 | "not earlier" is transitive, so the descending order is well defined |
| Journey.InsertDesc | workbook_consolidator.py:103 | insertion keeps the elements and adds the new one |
| Journey.SortDesc | workbook_consolidator.py:103 | the sort is a permutation |
| Journey.InsertDescKeepsOrder | workbook_consolidator.py:103 | inserting into a descending list keeps it descending |
| Journey.SortDescOrdered | workbook_consolidator.py:103 | the sorted records are in descending order of begin date |
| Journey.SortRecords | workbook_consolidator.py:103 | the sorted records are a permutation of the records, in descending order of begin date |
| Journey.InsertDescStable | workbook_consolidator.py:103 | insertion places a record before the records with the same key |
| Journey.SortDescStable | workbook_consolidator.py:103 | records with equal begin dates keep their input order, as Python's stable sort does |
| Journey.UndatedLast | workbook_consolidator.py:103 | an undated record (sorted as `datetime.min`) is followed only by records dated `datetime.min` |
| Journey.FirstDated | workbook_consolidator.py:110-114 | the scan stops at the first record with a begin date |
| Journey.LatestDate | workbook_consolidator.py:109-114 | the loop finds the first begin date that parses |
| Journey.LatestIsNewest | workbook_consolidator.py:103-114 | after the sort, the first parsable begin date is the newest begin date of all records, and there is none only when no record has one |
| PhaseTwo.BeginRequired | workbook_consolidator.py:88 | the required header has the key `begin journey date` |
| PhaseTwo.DestinationRequired | workbook_consolidator.py:117 | the required header has the key `destination` |
| PhaseTwo.PlanJourney | workbook_consolidator.py:87-103 | a journey sheet without `Begin Journey Date` fails with phase 2; otherwise its records are the non-blank data rows, sorted newest first |
| PhaseTwo.ReadJourney | workbook_consolidator.py:87-103 | the method reads the plan `PlanJourney` specifies |
| PhaseTwo.SharedHeaders | workbook_consolidator.py:124-127 | the shared keys are exactly the non-empty journey keys that the month sheet maps before `Destination` |
| PhaseTwo.PlanMonth | workbook_consolidator.py:117-130 | a month sheet fails with phase 2 when it has no `Destination` column or no shared header before it; otherwise the layout records its header row, map, `Destination` column and shared keys |
| PhaseTwo.HeaderRowInside | workbook_consolidator.py:117 | a header row that maps a key lies inside the sheet |
| PhaseTwo.PlanMonthFits | workbook_consolidator.py:117-135 | the header row and every mapped column of a layout lie inside the month sheet |
| PhaseTwo.WrittenKeySpec | workbook_consolidator.py:144-146 | a column receives a shared key's value exactly when that key maps to it |
| PhaseTwo.WrittenKeyOfShared | workbook_consolidator.py:144-146 | a shared key's column receives that key's value |
| PhaseTwo.MergedCell | workbook_consolidator.py:132-159 | the month sheet after the merge, cell by cell; `MergedCells` states it |
| PhaseTwo.MergedCells | workbook_consolidator.py:132-159 | the rows down to the header row are kept; data row i holds record i's value in every shared column where it is not `None`, and its old cell where it is, so an added row holds the record exactly; existing rows keep every other column; added rows copy the last original row from `Destination` on and are empty elsewhere; nothing lies below the last record |
| PhaseTwo.IntendedMergedCell | workbook_consolidator.py:142-146 | the merge with every shared column taking its record's value, `None` included |
| PhaseTwo.IntendedMergedCells | workbook_consolidator.py:142-146 | in the intended merge each data row's shared columns hold its record's values exactly; it differs from the merge as written only in an existing row, where the record's value is `None` and the written cell keeps its old value |
| PhaseTwo.StaleJourneyValueKept | workbook_consolidator.py:143-146 | a reused row holding `Old` under `Name` keeps `Old` when the newest journey has no name, where the intended merge is blank |
| PhaseTwo.WriteRecord | workbook_consolidator.py:143-146 | one row is written in the shared columns only, each taking its key's value unless that is `None` |
| PhaseTwo.ReadTemplate | workbook_consolidator.py:135-140 | the template holds the last original row's cells from `Destination` to the last column |
| PhaseTwo.FillRow | workbook_consolidator.py:156-159 | an added row gets the template's values that are not `None` from `Destination` on, and nothing else changes |
| PhaseTwo.WriteRecords | workbook_consolidator.py:142-153 | the write loop and the trim leave exactly one data row per record, with progress reports |
| PhaseTwo.MergeRecords | workbook_consolidator.py:132-159 | the month sheet ends as `MergedCell` describes, with its width unchanged |
| PhaseTwo.PlanSheetStep | workbook_consolidator.py:117-130 | once the month sheet is known, its layout decides between a phase-2 error and the merge |
| PhaseTwo.PlanMonthStep | workbook_consolidator.py:116-130 | a missing month sheet, a rejected month sheet or the merge, each counting every record |
| PhaseTwo.MergeTrace | workbook_consolidator.py:106-162 | a merge reports running, its progress and done |
| PhaseTwo.MergeAt | workbook_consolidator.py:132-159 | only the month sheet changes |
| PhaseTwo.ReadMonth | workbook_consolidator.py:117-130 | the method reads the layout `PlanMonth` specifies |
| PhaseTwo.MonthSheet | workbook_consolidator.py:116 | the method finds the sheet `LocateMonthSheet` names, or fails as it does |
| PhaseTwo.MergeIntoSheet | workbook_consolidator.py:117-169 | the outcome, the reports after the running report and the new MAIN state follow the plan for that sheet |
| PhaseTwo.MergeIntoMonth | workbook_consolidator.py:116-169 | the same, from the choice of the month sheet on |
| PhaseTwo.MergeJourney | workbook_consolidator.py:105-169 | the same, from the running report on |
| PhaseTwo.PhaseTwo | workbook_consolidator.py:86-169 | the whole phase: its result, report trace and new MAIN state are those of the plan drawn from the journey sheet and MAIN as they were, and it changes at most the chosen month sheet |
| PhaseThree.LookupHasEveryKey | workbook_consolidator.py:188-198 | every month row below the header with a truthy device value and a non-empty id has its id in the lookup |
| PhaseThree.Lookup | workbook_consolidator.py:186-198 | the first-wins map from device id to disarm date and destination over the month rows; `LookupSpec` and `LookupHasEveryKey` state it |
| PhaseThree.LookupSpec | workbook_consolidator.py:188-198 | every lookup key is non-empty and maps to the disarm date and destination of the first month row with that id |
| PhaseThree.LookupFromFirstRow | workbook_consolidator.py:193-198 | the first row with an id supplies that id's entry |
| PhaseThree.BuildLookup | workbook_consolidator.py:187-198 | the loop builds the first-wins lookup |
| PhaseThree.UpdatedCell | workbook_consolidator.py:218-226 | a MAIN data row whose id is in the lookup takes the entry's date and area in those two columns; every other cell keeps its value; the lemmas below state it |
| PhaseThree.UpdateRows | workbook_consolidator.py:218-228 | the MAIN rows below the header are updated as `UpdatedCell` says, with progress reports; the sheet keeps its size |
| PhaseThree.UpdateFromFirstMonthRow | workbook_consolidator.py:219-225 | a MAIN row with a matching id takes its date and area from the first month row with that id |
| PhaseThree.UpdateSkipsUnknownIds | workbook_consolidator.py:219-222 | a MAIN row whose id no month row carries is unchanged in every cell |
| PhaseThree.UpdateIdempotent | workbook_consolidator.py:218-225 | running the update again changes nothing |
| PhaseThree.MainOptionsNormal | workbook_consolidator.py:202 | the MAIN device-column options are already normalised keys |
| PhaseThree.MainDeviceKey | workbook_consolidator.py:202 | the MAIN device column is mapped under one of those options |
| PhaseThree.ShortKeyApart | workbook_consolidator.py:202-204 | the device, last-disarmed-date and last-disarmed-area columns are three distinct columns inside the headers |
| PhaseThree.MainColumnsDistinct | workbook_consolidator.py:201-206 | the three MAIN columns are distinct and inside the headers |
| PhaseThree.MainColumnsFit | workbook_consolidator.py:201-206 | they lie inside the MAIN sheet's width |
| PhaseThree.UpdateAt | workbook_consolidator.py:218-228 | only the MAIN sheet changes |
| PhaseThree.RunUpdate | workbook_consolidator.py:215-231 | a MAIN sheet with data rows is reported running, then progress, then done |
| PhaseThree.ReadMainColumns | workbook_consolidator.py:201-204 | the method reads the header row and the three columns |
| PhaseThree.UpdateMain | workbook_consolidator.py:206-231 | missing MAIN columns fail with phase 3 after an error report; no data rows give a done report and no change; otherwise the update |
| PhaseThree.UpdateSheet | workbook_consolidator.py:201-231 | the same, once the MAIN sheet is known |
| PhaseThree.FindAndUpdateMain | workbook_consolidator.py:200-231 | the same, from the search for the MAIN sheet on; a missing MAIN sheet fails with phase 3 and no report |
| PhaseThree.PhaseThree | workbook_consolidator.py:172-231 | the whole phase: missing month columns fail with phase 3 after an error report; otherwise the result, trace and new MAIN state follow the plan, and only matching MAIN rows' date and area cells change |
| Pipeline.PhaseTraceOfPhase | workbook_consolidator.py:353-355 | a completed phase reports only under its own number |
| Pipeline.StepTraceOfPhase | workbook_consolidator.py:86-169 | phase two reports only as phase 2, whatever its outcome |
| Pipeline.ThreeTraceOfPhase | workbook_consolidator.py:172-231 | phase three reports only as phase 3, whatever its outcome |
| Pipeline.Join | workbook_consolidator.py:32-36 | the reports of consecutive phases never go back a phase |
| Pipeline.PhaseTwoErrors | workbook_consolidator.py:86-169 | every failure of phase two carries phase 2 |
| Pipeline.PhaseThreeErrors | workbook_consolidator.py:172-231 | every failure of phase three carries phase 3 |
| Pipeline.RunPhaseOne | workbook_consolidator.py:32 | phase one reports as phase 1 only, and its failure carries phase 1 and leaves MAIN unchanged |
| Pipeline.RunPhaseTwo | workbook_consolidator.py:33 | phase two reports as phase 2 only, and its failure carries phase 2 |
| Pipeline.RunPhaseThree | workbook_consolidator.py:34 | phase three reports as phase 3 only, and its failure carries phase 3 |
| Pipeline.RunMerges | workbook_consolidator.py:33-34 | phases two then three report in order, and a failure stops the run at the phase that raised it |
| Pipeline.RunPipeline | workbook_consolidator.py:20-36 | the phases run 1, 2, 3 and report in that order; the phase-4 done report is sent, last, exactly when the run succeeds; a failure carries the phase (1 to 3) that raised it and no later phase reports anything; a phase-1 failure leaves MAIN unchanged |
| Database.SeedingIdempotent | database.py:28-40 | the zero row is added only to an empty `upload_stats`, so seeding again changes nothing and exactly one row is seeded |
| Database.TelemetryStore.InitDb | database.py:4-42 | `init_db` leaves the telemetry table alone and seeds `upload_stats` if it is empty |
| Database.FailureSticks | database.py:55-96 | once a batch hits the primary-key violation, the whole call fails |
| Database.Decide | database.py:59-93 | a missing id is inserted; a null or blank stored date leads to an insert that breaks the primary key; otherwise the row is updated only when the new date parses and is strictly later, or the stored one does not parse |
| Database.Upsert | database.py:55-93 | the batch applied record by record, failing for good at the first failed insert; the lemmas below state its properties |
| Database.UpsertCounts | database.py:53-98 | `inserted + updated` never exceeds the batch size, no id is removed, and the table gains exactly `inserted` ids |
| Database.MentionsPrefix | database.py:55-56 | an id absent from a batch is absent from its prefix and its last record |
| Database.UpsertUntouched | database.py:55-93 | an id the batch does not mention keeps its row |
| Database.UpsertCoversBatch | database.py:55-93 | after a successful call, every id of the batch has a row |
| Database.UpsertNeverOlder | database.py:67-85 | a stored date that parses is never replaced by an earlier one |
| Database.EqualDatesKept | database.py:77 | a record whose date parses to the stored date leaves the row unchanged |
| Database.FirstMention | database.py:55 | a mentioned id has a first record that mentions it |
| Database.BlankStoredDateFails | database.py:67-95 | an existing id with a null or blank stored date falls into the insert branch, which breaks the primary key, and the call fails with nothing committed |
| Database.SameIdTwice | database.py:55-93 | a later record with the same id sees the row the earlier one inserted: it updates it only if strictly newer |
| Database.TelemetryStore.UpdateOrInsertData | database.py:44-98 | the loop returns the counts and commits the table that the fold `Upsert` computes, or fails and leaves the table unchanged; `upload_stats` is never touched |
| ExcelHandler.TrimmedRow | excel_handler.py:20 | the first row's texts are its cells, stringified and stripped, one per cell |
| ExcelHandler.IsHeaderRow | excel_handler.py:20-24 | every expected name is among the first row's stripped texts; `IsHeaderRowMeans` states it |
| ExcelHandler.IsHeaderRowMeans | excel_handler.py:20-24 | the first row counts as a header row exactly when every expected name is among its trimmed cells |
| ExcelHandler.DataRows | excel_handler.py:24-25 | a header row is dropped, and otherwise every row is kept |
| ExcelHandler.ColumnDates | excel_handler.py:29-31 | the dates of column 3 are missing exactly when some value does not parse, and otherwise are each row's parsed date |
| ExcelHandler.Project | excel_handler.py:33-38 | one output row per input row: trimmed columns 2, 4 and 5 and the formatted date |
| ExcelHandler.ProcessBody | excel_handler.py:29-38 | an unparseable column-3 date rejects the sheet, exactly then; otherwise each output row holds its trimmed columns 2, 4 and 5 and its parsed date formatted as `%Y-%m-%d %H:%M:%S` |
| ExcelHandler.ProcessExcelFile | excel_handler.py:3-40 | fewer than 5 columns are rejected exactly then; a sheet with no rows is rejected; otherwise the rows below an optional header row are processed |
| ExcelHandler.ColumnDatesAgree | excel_handler.py:29 | only column 3 decides the dates |
| ExcelHandler.ProcessBodyAgree | excel_handler.py:29-38 | only columns 2 to 5 decide the output |
| ExcelHandler.FirstColumnIgnored | excel_handler.py:33-38 | below the first row, changing column 1 changes nothing in the result |
| ExcelHandler.HeaderKeptUnlessComplete | excel_handler.py:24-25 | a first row lacking an expected name is kept as data |
| ExcelHandler.HeaderDroppedWhenComplete | excel_handler.py:24-25 | a first row holding all four expected names is dropped |
| ExcelHandler.DatesReadBack | excel_handler.py:29-35 | each output date reads back, to the second, as the date parsed from column 3 |
| ExcelHandler.BlankDateRejected | excel_handler.py:29-31 | when a blank cell parses to `NaT`, a blank date below the first row rejects the upload with the invalid-dates error |

## Left out

- Reading and writing workbooks (`load_workbook`, `BytesIO`, `save`) and the output file name built from the UTC clock are not modelled. The pipeline starts from three in-memory workbooks and ends with MAIN changed in place.
- The workbooks are modelled as an ideal grid, not as openpyxl itself:
  - an empty sheet has no rows and no columns;
  - `max_row`/`max_column` are the grid's size;
  - reading cells (`iter_rows`, `cell(...).value`) never changes the grid.
  openpyxl differs on these points. It reports 1×1 for an empty sheet. It also creates the cells it
  reads, so a read past the last row or column can make `max_row`/`max_column` grow. Merged
  cells and styles are not modelled.
- Excel serial dates (`from_excel`) and float cells are not modelled:
  - the serial conversion is an abstract `Calendar.fromSerial` on integer cells;
  - float, boolean and time cells are a single opaque `Other` cell, which is truthy and never a date;
  - float device ids (`int(float(value))`) are not modelled.
- Date parsing is not modelled. `datetime.strptime` for each of the five formats and pandas `to_datetime` are abstract partial functions. Only the order in which the formats are tried is modelled. In particular, pandas' format inference across a whole column is not modelled: each cell is parsed on its own.
- `strftime('%b')` assumes English month abbreviations.
- The status state machine, its lock and its poller are not modelled. Only the sequence of callback reports is: phase, status, processed rows and total rows. The `percent` and `message` payloads are not modelled.
- `str.lower()` is modelled for ASCII letters only.
- Python's `str()` of cells is modelled only for strings, integers and dates.
- On the telemetry path, the following are not modelled:
  - pandas dtype effects, such as a column of integers and blanks being read back as floats ("5.0"). The model stringifies each cell as it is, and a missing cell as "nan";
  - the `upload_stats` autoincrement id;
  - the SQLite connection. A call works on a copy of the table that is committed only when the whole batch succeeds, which is how the failing insert rolls back.
- `get_all_data`, the Flask routes in `app.py`, the e-mail alerts, the sample data generator and the maintenance scripts are not part of this model.
- Pipeline.RunPipeline: its contract states the order of the reports and the error phase. What MAIN holds after each phase is stated by `PhaseOne.PhaseOne`, `PhaseTwo.PhaseTwo` and `PhaseThree.PhaseThree`, and is not repeated in the orchestrator's contract.
- PhaseThree.PhaseThree: the source indexes row tuples, which would raise `IndexError` for a column beyond a sheet's width. The model reads cells outside the grid as empty. Its header maps only name columns inside the sheet, so the two agree.
- Journey.SortRecords: the in-place `list.sort` is modelled as a stable insertion sort on a sequence, not as an in-place array algorithm.
- DeviceIds.NormalizeDeviceId: `None` and blank texts give `''`, and only a text made of zeros gives `"0"`.
- DeviceIds.NormalizeDeviceId: an integer cell gives its exact decimal form. The source converts it through `float` first. Integers beyond 2^53 in magnitude are therefore rounded there, and integers beyond the float range raise `OverflowError`, which ends the run. The model assumes device integers below 2^53.
- DeviceIds.NormalizeDeviceId: only ASCII `0`-`9` count as digits. Python's `isdigit()` also accepts other Unicode digits: `int()` converts some (`'٣'` gives `'3'`) and raises `ValueError` on others (`'²'`), which ends the run. The model keeps such a text as it is.
- DeviceIds.NormalizeDeviceId: a boolean cell is an `Other` value and goes through its text (`'True'`), while the source treats it as the integer 1.
- SheetLocator.IsMonthSheetName: `\d` in the month-sheet pattern is read as an ASCII digit. Python's `re` also matches other Unicode decimal digits, so a name such as `Jan٢٠٢٤` is a candidate in the source but not in the model.

## Findings

Both discrepancies come from openpyxl's `cell(row, column, value)`, which stores nothing when
`value` is `None`. The phases model the code as written, through `Sheets.Sheet.WriteCell`. The
corrected definitions stand beside them, with the intended property proved.

| source | as written | input that shows it | evidently intended | confidence | as-written member | corrected member |
|---|---|---|---|---|---|---|
| workbook_consolidator.py:66-68 | the `value=None` writes to the header cells past the export's last header change nothing, so those cells keep their old text | a "DMS Dump" sheet headed `Device_ID`, `Site` refreshed from an export headed `Device_ID` alone | row 1 becomes the export's header row, with the extra cells blank | medium; not executed | PhaseOne.StaleHeaderKept | PhaseOne.IntendedDumpCells |
| workbook_consolidator.py:143-146 | a journey value that is `None` is not written, so a reused month row keeps the previous value in that shared column | a month row holding `Old` under `Name`, and a newest journey whose `Name` is blank | each data row's shared columns hold exactly its journey's values, blanks included | medium; not executed | PhaseTwo.StaleJourneyValueKept | PhaseTwo.IntendedMergedCells |
