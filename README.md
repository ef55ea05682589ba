# Work Hours & Pay Analyzer — a Dafny model of its record-window engine

The analyzer (`AVEEE.py`) keeps a table of daily work records (date, hours,
reference pay "payforaverage"), lets the user pick one of twelve fixed
periods, shows and edits that period's records, saves the edits back into the
table and computes six figures for the period: total hours, total pay,
working days, average hours and pay per working day, and pay per hour.

This project models that engine and proves its properties:

- `dates.dfy` (`Dates`): the coerced dates as timestamps (day plus time of
  day) and their chronological order.
- `records.dfy` (`Records`): a record, a window, the inclusive mask
  `start <= date <= end` and its negation, as one order-preserving selection.
- `periods.dfy` (`Periods`): the literal period table, with its ids 1..12.
- `merge.dfy` (`EditMerge`): Save's upsert of the draft by window.
- `metrics.dfy` (`Metrics`): the three folds and the three guarded quotients.
- `app.dfy` (`App`): the session state (`df` and `edited_data`) as a class
  with Save and Calculate, and one run of the page script.
- `storage.dfy` (`Storage`): the CSV file and the cache kept for `load_data`
  by `@st.cache_data`, across sessions of one server process.
- `wrappers.dfy` (`Wrappers`): Option and Result.

Modelling decisions:

- A date that failed coercion (NaT) is `None`. Every comparison with NaT is
  false, so an undated record is never in a window and is always kept by
  Save's negated mask.
- A date is a `Timestamp(year, month, day, nanos)` compared field by field,
  which for the values pandas produces is chronological order. pandas compares
  the full timestamp, time of day included: a record stamped after midnight on
  the last day of a window is outside it (`Records.LaterOnEndDayIsOutside`).
  Nothing truncates timestamps to the day before the comparison, so the
  model does not either.
- The table's literals are kept exactly, including periods 1..4 whose start
  date is later than their end date; those periods select nothing.
- Hours and pay are exact `real`s. A blank numeric cell in a draft is NaN in
  pandas; `sum()` skips NaN and `NaN > 0` is false, so such a cell behaves
  exactly like 0, which is how the model holds it.
- Reading a window back after Save gives the draft's in-window records
  (`EditMerge.FilterAfterMerge`); it gives back the whole draft only when
  every draft record is dated in the window (`EditMerge.FilterAfterMergeIsDraft`),
  since the draft is appended without a date check.
- `st.data_editor` always returns a table, so after `AVEEE.py:124` the
  draft always exists: in the running page Save always merges and Calculate
  always reports the editor's rows. The "No changes to save" branch
  (`AVEEE.py:137`) and Calculate's committed-window branch (`AVEEE.py:143`)
  are unreachable there; `App.Session.Run` with `edited == None` stands for a
  case the page never produces, and is kept to model those branches.
- An id outside the table is a `KeyError` at `AVEEE.py:98`; the model returns
  `Failure(InvalidPeriod(id))` and leaves the session unchanged.

## Model

| member | source | states |
|---|---|---|
| Dates.NotAfterIsTotalOrder | AVEEE.py:103 | the timestamp comparison is reflexive, antisymmetric, transitive and total |
| Records.InWindow | AVEEE.py:103 | a record in the window has a valid date, and only a window whose start is not after its end holds any record |
| Records.Select | AVEEE.py:103 | masking keeps exactly the records whose mask value is the wanted one, and never grows the table |
| Records.Filter | AVEEE.py:103 | a record is in the result exactly when it is in the table and in the window; every result has a valid date (NaT never matches) |
| Records.Exclude | AVEEE.py:130 | a record is in the result exactly when it is in the table and not in the window; in particular every undated record is kept |
| Records.SelectAppend | AVEEE.py:103 | masking distributes over concatenation, so input order is kept |
| Records.SelectCount | AVEEE.py:103 | each record appears in the result exactly as often as in the input when it matches, otherwise not at all |
| Records.SelectKeepsAll | AVEEE.py:103 | a table whose records all match is returned whole |
| Records.SelectKeepsNone | AVEEE.py:103 | a table none of whose records match gives the empty table |
| Records.FilterIdempotent | AVEEE.py:103 | filtering a period's records again by the same window changes nothing |
| Records.FilterInvertedWindow | AVEEE.py:103 | a window whose start is after its end selects no record |
| Records.FilterExcludePartition | AVEEE.py:130 | the mask and its negation split the table: lengths add up and every record is in exactly one part |
| Records.LaterOnEndDayIsOutside | AVEEE.py:99-103 | a timestamp after midnight on a window's last day is outside the window (time of day is compared) |
| Periods.MonthRange | AVEEE.py:55-68 | ids 1..12 and only they have a window; all ends are midnights; periods 1..4 start after they end, periods 5..12 do not |
| Periods.InvertedPeriodsSelectNothing | AVEEE.py:56-59 | the windows of periods 1..4 select nothing from any table |
| Periods.ForwardPeriodBoundsIncluded | AVEEE.py:60-67 | for periods 5..12 a record dated on the first or last day of the window is in the period |
| Periods.ConsecutivePeriodsOverlap | AVEEE.py:60-67 | the first day of period id+1 lies in period id, for ids 5..11 |
| EditMerge.Merge | AVEEE.py:130-132 | the saved table has (committed minus in-window) plus draft records, ends with the whole draft in order, keeps every committed record outside the window (undated included), and its in-window records all come from the draft |
| EditMerge.MergeMultiset | AVEEE.py:130-132 | as multisets, saved table plus the removed window records equals committed table plus draft |
| EditMerge.FilterAfterMerge | AVEEE.py:130-132 | filtering the saved table by the window gives the draft filtered by the window |
| EditMerge.FilterAfterMergeIsDraft | AVEEE.py:130-132 | when the draft lies in the window, the saved window reads back as exactly the draft |
| EditMerge.ExcludeAfterMerge | AVEEE.py:130-132 | outside the window the saved table holds the committed records then the draft records moved out of it |
| EditMerge.MergeTwice | AVEEE.py:130-132 | saving one draft twice repeats its out-of-window records; the second save is a no-op exactly when none exist |
| EditMerge.MergeUneditedKeepsRecords | AVEEE.py:130-132 | saving a period's own records unchanged keeps the table's multiset of records |
| Metrics.TotalHours | AVEEE.py:145 | definition: the sum of the hours column, 0 for an empty table |
| Metrics.TotalPay | AVEEE.py:146 | definition: the sum of the payforaverage column, 0 for an empty table |
| Metrics.WorkDays | AVEEE.py:147 | 0 <= working days <= number of records |
| Metrics.WorkDaysExtremes | AVEEE.py:147 | no working day exactly when no record has hours > 0; all records are working days exactly when every record has |
| Metrics.TotalsNonNegative | AVEEE.py:145-146 | non-negative hours (pay) give a non-negative hour (pay) total |
| Metrics.GuardedRatio | AVEEE.py:148-150 | a positive denominator gives the exact quotient, any other gives 0 |
| Metrics.Summarize | AVEEE.py:145-150 | total hours, total pay and working days are the two column sums and the count of records with hours > 0; working days bounded by the record count; averages times working days give the totals, else 0; pay per hour times total hours gives total pay, else 0; empty input gives all zeros |
| Metrics.TotalsAppend | AVEEE.py:145-147 | the three folds are additive over concatenation |
| Metrics.TotalsIgnoreOrder | AVEEE.py:145-147 | two tables with the same records in any order have the same totals and working days |
| Metrics.SummarizeIgnoresOrder | AVEEE.py:145-150 | the six figures depend only on the multiset of records |
| Metrics.TotalsPartition | AVEEE.py:145-147 | a table's totals and working days are those of its window plus those of the rest |
| Metrics.PositiveHoursIffWorkDays | AVEEE.py:147-150 | with no negative hours, total hours > 0 exactly when there is a working day, so both guards agree |
| Metrics.WorkedExample | AVEEE.py:145-150 | an 8-hour day paid 100 plus a day off give 8, 100, 1, 8, 100 and 12.5 |
| App.Session.constructor | AVEEE.py:82-84 | the first run commits the loaded table and has no draft |
| App.Session.StoreEdit | AVEEE.py:123-125 | the editor's output becomes the draft and the committed table is unchanged |
| App.Session.Save | AVEEE.py:127-137 | with a draft the table becomes the merge and Save reports success; without one nothing changes; the draft is kept |
| App.Session.Calculate | AVEEE.py:139-150 | the figures are those of the draft as-is when there is one, otherwise of the committed records in the window |
| App.Session.Run | AVEEE.py:86-143 | an unknown id fails with no change; otherwise the editor shows the window's committed records, the draft, table, notice and figures are as Save and Calculate define, in that order |
| App.SavedWindowMetrics | AVEEE.py:130-150 | after a save the window's figures are those of the draft's in-window records |
| App.SaveAndRestart | AVEEE.py:123-150 | calculating on a draft lying in the window gives the same figures as saving and calculating again in a new session started from the saved table |
| Storage.Server.constructor | AVEEE.py:39-49 | a new server process has the file as it is and nothing cached |
| Storage.Server.LoadData | AVEEE.py:39-49 | the first load reads the file and caches it; every later load returns the cached table, whatever the file holds now |
| Storage.Server.LoadFresh | AVEEE.py:39-49 | a load that returns the file as it is now |
| Storage.Server.SaveData | AVEEE.py:51-52 | the file becomes the saved table; the cache keeps the table first loaded |
| Storage.StaleCacheDropsEarlierSave | AVEEE.py:39-52 | a record saved in period 5 by one session is missing from the file after a later session, started from the cache, saves period 12 |
| Storage.FreshLoadKeepsEarlierSave | AVEEE.py:127-134 | when each session loads the file, a second save keeps every record of the first save outside its own window, and all of its own draft |

## Left out

- The Streamlit page (configuration, CSS, select box, buttons, editor widget, HTML rendering of the figures and the period labels `month_names`): presentation only; the buttons and the editor's output are parameters of `App.Session.Run`.
- Reading and writing `AVEEE.csv`: file I/O. The model starts from the loaded records (dates coerced, numbers defaulted to 0); `Storage.Server` holds the file's contents as a value, and `App.Session.Save` does not itself write it (the write at `AVEEE.py:134` is `Storage.Server.SaveData`).
- The `@st.cache_data` cache of the argument-less `load_data` serves every new session the table as first loaded, so a page opened after a Save shows stale data until the cache is cleared or the server restarts, and a Save from such a session overwrites the earlier save in `AVEEE.csv` (see Findings). `App.Session` takes its loaded table as a parameter; only `Storage` models the cache.
- Parsing date strings with `pd.to_datetime`, including the exception raised for unparseable text typed into the editor, and the `strftime` display of dates (which drops a record's time of day when it passes through the editor): library calls; the draft arrives with its dates already parsed.
- Float64 rounding and the two-decimal display: the model computes exactly over `real`.
- Overtime and night-shift premiums: `AVEEE.py` has no code computing them, so nothing is modelled for them.

## Findings

| source | as written | input that shows it | evidently intended | confidence | as-written member | corrected member |
|---|---|---|---|---|---|---|
| AVEEE.py:39-52 | `load_data` is cached with `@st.cache_data` and `save_data` does not clear the cache, so a session started after a Save is given the table as first loaded | empty file; session A saves a record dated 2025-02-01 in period 5; session B, opened afterwards, saves a record dated 2025-09-01 in period 12; the file then holds only B's record | a new session starts from the file as last saved, so B's save keeps A's record | medium, not executed | Storage.StaleCacheDropsEarlierSave | Storage.FreshLoadKeepsEarlierSave |
