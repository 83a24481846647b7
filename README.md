# Timesheet comment validation and hours reconciliation

This project models the core of a timesheet auditing tool. The tool reads
invoice workbooks. Each visible sheet of a workbook is one charge code.
Every row is one billed time entry: `Name`, `Date`, `Hours Worked`, a
free-text comment `Time Period` (for example
`time in: 09:00 - time out: 12:00`) and `Charge Code`. For each sheet the
tool:

1. tags every row with its Sunday-to-Saturday week (`T/S`);
2. splits off the rows with an empty comment;
3. extracts the in/out time pairs from the comment and splits off the rows
   whose comment is badly formatted;
4. splits off the rows whose times do not parse or are out of order;
5. computes the commented duration (rounded to a quarter hour), the display
   string of the times and the hours billed per person and day, then splits
   off the (person, day) groups whose rows disagree on their times;
6. keeps the remaining rows as the `Acceptable` and `Summary` tables.

Across the sheets of a workbook the `Summary` tables are gathered. At the
last sheet, the rows of every (person, day) group that bills more hours than
its comments cover become the `Mismatch` table. That table is sorted by name
ascending and by the `MM/DD/YYYY` date string descending.

Modules, one file each:

- `Wrappers`: `Option`.
- `Strings`: digits, Python's whitespace set, zero padding, `"".join`, and
  Python's `str` ordering with its order laws.
- `Calendar`: proleptic Gregorian dates numbered as Python's `datetime`
  numbers them (ordinal 1 is 0001-01-01, `weekday()` is `(n + 6) % 7`),
  `fromordinal`, `strftime('%m/%d/%Y')` and the week tag.
- `Clock`: `%H:%M` parsing and printing of times of day.
- `Scanner`: the two regular expressions of the comment scanner, written as
  a left-to-right matcher, and `re.findall` (leftmost, non-overlapping, in
  text order).
- `Comments`: per-comment logic.
  - Pair extraction with the midnight substitution.
  - The format flag (`process_time_entries`).
  - The ordering flag (`check_military_time`).
  - The duration (`calculate_total_time_difference`).
  - The display string (`format_time_pair`).
- `Records`: the entry and row datatypes, the `['Name', 'Date']` group sums
  and the boolean-mask filter `df.loc[mask]`.
- `Cleaning`: the class `CleanData`, whose methods replace its row list
  `df` stage by stage. Also the pure description `Classify` of one sheet's
  outcome, `ProcessSheet` (the driver's call order for one sheet) and the
  properties of the stages.
- `Reconcile`: `calc_total_billed_n_comment` (as written, and corrected),
  the mismatch table and its order, and the loop over a workbook's sheets.

Representation choices:

- Times are hour and minute naturals, and elapsed times are integer minutes.
- `Commented Time Worked` is an integer number of quarter hours `q`, standing
  for `q / 4` hours. Whole minutes never lie exactly between two quarters, so
  Python's half-to-even rounding never applies.
- `Hours Worked` is an exact `real`.
- The `Date` column holds a calendar date. Grouping on its `MM/DD/YYYY`
  string is grouping on the date, because `Calendar.FormatDateInjective`
  shows that different dates have different strings. Sorting still compares
  the strings.
- Every stage writes its flag column into the row's `issue` field, and the
  filter keeps the rows whose flag has the wanted value.
- Errors that Python raises become `false` results, `None` or an explicit
  outcome. Two of them are modelled.
  - The `OverflowError` of `calculate_ts` (`utils/clean_data.py:43-46`) for
    a week that reaches outside 0001-01-01..9999-12-31 is the `false` result
    of `Cleaning.CleanData.CalculateTs`. It needs such a date in the row
    list. The driver reads every date through `pd.to_datetime`
    (`utils/utils.py:68`), whose timestamps lie between the years 1677 and
    2262, so through `main.py` a valid date cannot cause it. A row with a
    name but an empty Date cell still makes `calculate_ts` raise: the cell
    becomes `NaT`, `.dt.strftime` (`utils/utils.py:74`) turns it into NaN,
    and `datetime.strptime` (`utils/clean_data.py:40`) raises `TypeError`.
    That case is not modelled (see "Cell types" below).
  - The `KeyError` of `utils/clean_data.py:262` is `Reconcile.MissingColumn`.
    Line 262 reads `Commented Time Worked`, a column that
    `calculate_time_worked` adds only past its early return for an empty
    row list (`utils/clean_data.py:183-184`). A gathered table that only
    such sheets made lacks it. The flag `worked` of `Reconcile.Table` and
    `Cleaning.Sheet` records whether the column is present.

Behaviour of the code that a reader may not expect, which the model follows:

- Only a missing comment or `""` counts as empty (`utils/clean_data.py:59`).
  A comment of spaces goes on to the format stage, which flags it
  (`Comments.WhitespaceIsFormatIssue`).
- The last sheet does not add its own `Summary` to the gathered table before
  the daily sums (see Findings).
- `main.py:45` calls `clean_summary_df`, which `utils/clean_data.py` does not
  define. The `Summary` table is the row list left after
  `calculate_time_worked` (`main.py:48`).

## Model

| member | source | states |
|---|---|---|
| Calendar.WeekStart | utils/clean_data.py:43-46 | The week start is a Sunday on or before the day, no more than six days back, and the latest such Sunday; six days later is a Saturday. |
| Calendar.FromOrdinal | utils/clean_data.py:43-46 | Date arithmetic lands on a valid calendar date whose day number is the one asked for (the inverse of `ToOrdinal`). |
| Calendar.WeekTagNamesItsWeek | utils/clean_data.py:38-50 | The tag is missing exactly when the week's Sunday or Saturday falls outside 0001-01-01..9999-12-31. Otherwise it is `"first - last"`, where `first` is a Sunday, `last` the Saturday six days later, and the date lies between them. |
| Calendar.FormatDateInjective | utils/clean_data.py:219 | Two dates with the same `MM/DD/YYYY` string are the same date, so grouping on the string groups on the date. |
| Clock.ParseTime | utils/clean_data.py:155-156 | A parsed time is a valid time of day. A string of the shape `H:MM` or `HH:MM` parses exactly when its hour is at most 23 and its minute at most 59, and then the value is that hour and that minute. |
| Clock.ShowTimeParses | utils/clean_data.py:191-196 | Printing a time with `%H:%M` and parsing it back gives the same time. |
| Scanner.FindAllUnique | utils/clean_data.py:88 | Only one sequence of matches meets the description of `re.findall` (each match is leftmost after the previous one and does not overlap it), and `FindAll` computes it. |
| Scanner.FindAllSpans | utils/clean_data.py:99 | Every span found is a match of the pattern, and the spans follow one another in text order without overlapping. |
| Scanner.PairFound | utils/clean_data.py:87 | The pair pattern finds every pair written in its form, whatever text surrounds it. The form is `time in` in any case, an optional colon, whitespace, the in-time, whitespace, at most one of `-`, `,` and `–`, whitespace, `time out` in any case, an optional colon, whitespace and the out-time. The match starts at `time in`, ends after the out-time, and its two groups are the two times as written. |
| Scanner.TokenFound | utils/clean_data.py:98 | The token pattern matches every `H:MM` or `HH:MM` time that has no letter, digit or underscore right before or right after it, and the match spans exactly that time. |
| Scanner.PairsAreMatches | utils/clean_data.py:87-88 | Every extracted pair is the match of the pair pattern at its start position, and the pairs come in text order without overlapping. |
| Comments.ExtractFrom | utils/clean_data.py:91-106 | As many in-times as out-times as pair matches. In-times are kept as written. An out-time of `00:00`, `0:00` or `24:00` becomes `23:59` and any other is kept. The flag is set exactly when the standalone time tokens are not twice the pairs. |
| Comments.ExtractedFromMatches | utils/clean_data.py:87-95 | The i-th extracted in-time and out-time come from the i-th leftmost pair match, with only the out-time substituted, and only when it is a midnight literal. |
| Comments.FormatIssueMeaning | utils/clean_data.py:98-126 | A comment has a format issue exactly when the token count is not twice the pair count, or some in-time or substituted out-time ends in other than 00/15/30/45/59, or no pair was found. |
| Comments.CheckEndings | utils/clean_data.py:113-126 | The loop with its early `break` and the two follow-up checks give exactly the four-way format flag of the extraction. |
| Comments.ProcessTimeEntries | utils/clean_data.py:109-128 | Returns the extracted in- and out-times of the comment and its format flag. |
| Comments.WhitespaceIsFormatIssue | utils/clean_data.py:121-126 | A comment made only of whitespace has no pair match, so it is flagged as a format issue (it is not an empty comment). |
| Comments.OnePairComment | utils/clean_data.py:86-99 | The comment `time in: HH:MM - time out: 17:00` yields exactly one pair, with the two times as written, and exactly two standalone time tokens. |
| Comments.OnePairFlag | utils/clean_data.py:98-126 | Such a comment is flagged as a format issue exactly when its in-time has a bad ending. |
| Comments.OnTheHourPasses | utils/clean_data.py:98-126 | `time in: 09:00 - time out: 17:00` has no format issue. |
| Comments.TenPastIsFlagged | utils/clean_data.py:113-126 | `time in: 09:10 - time out: 17:00` has a format issue, because `10` is not a quarter-hour ending. |
| Comments.CheckMilitaryTime | utils/clean_data.py:146-168 | The flag is true exactly when some zipped pair has a time that does not parse or an out-time not after its in-time. The early return after a parse failure does not change the answer. |
| Comments.InTime2400 | utils/clean_data.py:114-118 | An in-time of `24:00` passes the ending check, since it ends in `00` and is not substituted, but it does not parse, so the ordering stage flags its pair. |
| Comments.RoundQuarter | utils/clean_data.py:29 | The quarter count `q` of `m` minutes is the nearest: `m` lies within 7 minutes of `15q`, and `m / 15` lies strictly within 0.5 of `q`, which is `round(hours * 4)` with no tie. |
| Comments.CalculateTotalTimeDifference | utils/clean_data.py:11-30 | The loop sums the elapsed minutes of the zipped pairs, and only the total is rounded: the result is the nearest quarter count to that total. |
| Comments.SevenHourDay | tests/test_clean_data.py:14-18 | 09:00-12:00 and 13:00-17:00 give 28 quarters, which is 7.0 hours. |
| Comments.PiecesAreTwoPerLine | utils/clean_data.py:204-212 | Joining the pieces with their separators puts the segments two to a line: `"; "` within a line, `"\n"` between lines, nothing after the last pair. When there are more in-times than pairs, the last pair keeps its separator. |
| Comments.FormatTimePair | utils/clean_data.py:186-212 | The loop builds exactly the display string: the segments two to a line, as above. |
| Comments.SegmentShowsTimes | utils/clean_data.py:191-203 | A segment is 32 characters long. Its in-time field reads back as the parsed in-time, and its out-time field reads back as the parsed out-time, except that 23:59 reads back as 00:00. |
| Records.SelectMembers | utils/clean_data.py:66 | The filter keeps exactly the rows of its input whose flag has the wanted value. |
| Records.SelectSplit | utils/clean_data.py:62-66 | Filtering on a flag and on its negation splits the entries of the input: together they hold each entry as often as the input does. |
| Records.SelectKeepsOrder | utils/clean_data.py:66 | The rows kept appear at strictly increasing positions of the input. |
| Records.SelectKeepsGroupHours | utils/clean_data.py:235 | When every row of a group has the wanted flag, filtering keeps the group's hour total. |
| Cleaning.TaggedNamesWeek | utils/clean_data.py:53 | Every `T/S` value names the Sunday on or before the row's date and the Saturday ending that week. |
| Cleaning.CleanData.constructor | utils/clean_data.py:34-35 | The row list starts as the sheet's rows with no added column filled. |
| Cleaning.CleanData.CalculateTs | utils/clean_data.py:37-55 | When every week can be formed, each row gets its week tag. Otherwise (the `OverflowError`) the result is `false` and the rows stay as they were. |
| Cleaning.CleanData.FindEmptyComments | utils/clean_data.py:57-68 | Returns the rows whose comment is missing or `""`, and keeps the others, flag cleared. |
| Cleaning.CleanData.ExtractTimes | utils/clean_data.py:70-140 | Fills in the extracted times, returns the rows with a format issue and keeps the others. An empty row list is left alone. |
| Cleaning.CleanData.CheckMilitaryTimeFormat | utils/clean_data.py:142-180 | Returns the rows with an ordering issue and keeps the others. An empty row list is left alone. |
| Cleaning.CleanData.CalculateTimeWorked | utils/clean_data.py:182-244 | Fills in the duration, the display string and the group hour total. Then it returns the rows of conflicting groups, and the acceptable rows, which also become the new row list. |
| Cleaning.UnworkedSheetIsEmpty | utils/clean_data.py:182-184 | A sheet whose `Summary` lacks the worked-time columns had no row left when `calculate_time_worked` ran, so its `Summary`, `ConflictingTime` and `Acceptable` tables are empty. A sheet with those columns had at least one row left. |
| Cleaning.ProcessSheet | main.py:27-48 | Runs the stages in the driver's order. Over valid calendar dates it fails exactly when `calculate_ts` raises its `OverflowError`; otherwise it produces the six tables `Classify` describes. |
| Cleaning.ConflictIff | utils/clean_data.py:227-232 | A group conflicts exactly when two of its rows differ in their `;`-joined in-times or in their `;`-joined out-times. |
| Cleaning.WorkedTotals | utils/clean_data.py:219 | After the worked-time columns are filled, every row holds the hour total of its (Name, Date) group. |
| Cleaning.KeptRowsAgree | utils/clean_data.py:227-235 | For any input, the rows the conflict filter keeps agree within each group on their joined in-times and joined out-times. |
| Cleaning.KeptTotals | utils/clean_data.py:219-235 | The conflict filter removes whole groups, so a group total computed before filtering is still the group total afterwards. |
| Cleaning.AcceptedAgree | utils/clean_data.py:233-242 | The acceptable rows of one person and date agree on their joined in-times and out-times. |
| Cleaning.AcceptedTotals | utils/clean_data.py:219-242 | Each acceptable row's `Total Hours Worked` equals the sum of `Hours Worked` over the acceptable rows of its group. |
| Cleaning.AcceptedRows | utils/clean_data.py:215-216 | An acceptable row carries its comment's extracted times: at least one pair, equally many in- and out-times, all parseable. Its duration and display string are those of its times. |
| Cleaning.EmptySheetFlags | utils/clean_data.py:59-62 | The `Empty` table holds only rows with a missing or `""` comment. |
| Cleaning.FormatSheetFlags | utils/clean_data.py:131-134 | The `Format` table, taken from the rows that passed the empty stage, holds only non-empty comments with a format issue. |
| Cleaning.MilitarySheetFlags | utils/clean_data.py:171-174 | The `Military` table holds only non-empty, well-formatted comments with an ordering issue. |
| Cleaning.SurvivorsAreClean | utils/clean_data.py:178 | What reaches `calculate_time_worked` has a comment with no format issue and no ordering issue, and carries the comment's extracted times. |
| Cleaning.ConflictSheetsClean | utils/clean_data.py:233-242 | The `ConflictingTime` and `Acceptable` tables hold only rows that passed the three earlier stages. |
| Cleaning.EarliestStageWins | main.py:30-42 | Each table holds rows that the earlier stages let through and that its own stage flags, so a row goes to the first stage that flags it. |
| Cleaning.ClassifyIdempotent | utils/clean_data.py:57-242 | Running the classifier again on the entries of its own `Acceptable` table gives back exactly those entries, in order. Their weeks are defined, they pass the empty, format and ordering checks again, and their groups still do not conflict. |
| Cleaning.ClassifyPartitions | utils/clean_data.py:62-242 | Every entry of the sheet lands in exactly one of `Empty`, `Format`, `Military`, `ConflictingTime` and `Acceptable`: the five tables' entries, as a multiset, are the sheet's entries. |
| Cleaning.ClassifyKeepsOrder | utils/clean_data.py:62-242 | Each of the five tables lists its entries in the order they have on the sheet. |
| Reconcile.AnnotateCounts | utils/clean_data.py:260-261 | Adding the daily sums keeps every row of the table, as often as it occurs. |
| Reconcile.FlaggedMembers | utils/clean_data.py:270 | The conflict subset holds exactly the rows whose `Conflicting Time Worked` is true, each as often as the table holds it. |
| Reconcile.FlaggedOrder | utils/clean_data.py:270 | The conflict subset keeps the order of the gathered table. |
| Reconcile.BeforeTotal | utils/clean_data.py:271 | Any two rows can be ordered by (Name ascending, Date string descending). |
| Reconcile.BeforeTransitive | utils/clean_data.py:271 | That order is transitive. |
| Reconcile.SortRowsSorts | utils/clean_data.py:271 | The sort yields a sorted list with the same rows, each as often as before. |
| Reconcile.MismatchTableMeaning | utils/clean_data.py:260-271 | The mismatch table is sorted. It lists every row whose group bills more hours than its commented quarters cover, once per occurrence, with its group's two daily sums, and no other row. |
| Reconcile.DateStringOrder | utils/clean_data.py:271 | Dates sort as strings: for one person, 12/01/2022 is placed before 01/15/2023, although it is the earlier date. |
| Reconcile.GatherWorked | utils/clean_data.py:257 | The concatenated table has the worked-time columns exactly when one of its parts has them. |
| Reconcile.RunGathers | utils/clean_data.py:252-258 | Before the last sheet, both versions hold the `Summary` tables of the sheets seen so far, one after another. |
| Reconcile.SingleSheet | utils/clean_data.py:252-254 | With one sheet, the first-sheet branch wins, so no mismatch table is computed. |
| Reconcile.RunFlagsAllSheets | utils/clean_data.py:256-271 | With two or more sheets, the corrected version returns the mismatch table of all sheets' `Summary` tables together. It raises the `KeyError` exactly when no sheet's `Summary` has the worked-time columns. |
| Reconcile.CorrectedRaisesOnlyWhenEmpty | utils/clean_data.py:256-262 | When every table without the worked-time columns is empty, as the early return makes them, the corrected version raises only when no sheet contributes a row. |
| Reconcile.RunAsWrittenSkipsLastSheet | utils/clean_data.py:256-262 | As written, the result is the mismatch table of every sheet but the last. It raises the `KeyError` exactly when no sheet before the last has the worked-time columns, whatever the last sheet holds. |
| Reconcile.LastSheetCounterexample | utils/clean_data.py:256-262 | A two-sheet workbook: the version as written reports no mismatch, while the corrected one reports both rows of the overbilled day. |
| Reconcile.MissingColumnCounterexample | utils/clean_data.py:256-262 | A two-sheet workbook whose first sheet has no row left for `calculate_time_worked`: the version as written raises the `KeyError`, while the corrected one reports the overbilled row of the second sheet. |
| Reconcile.RunWorkbook | main.py:21-62 | The loop stops early (`ok` false) exactly when some sheet's `calculate_ts` raises. A workbook without sheets gathers nothing. Otherwise it returns the corrected run over the sheets' `Summary` tables, which is the `KeyError` outcome `MissingColumn` when no sheet's `Summary` has the worked-time columns. |

## Left out

- Reading workbooks, writing and formatting report sheets (`utils/utils.py`,
  `utils/format_excel.py`, `utils/clean_data.py:274-291`), logging and
  `config/settings.py`: these are I/O. `Reconcile.RunWorkbook` takes the
  sheet names and their rows as parameters.
- The blacklist filter and the keep-first dedup in `utils/utils.py`: they
  belong to the I/O layer, not to the cleaning stages.
- Regular expressions: `\d` is an ASCII digit, `\b` uses ASCII word
  characters and case folding is ASCII. Python's Unicode classes also
  accept other scripts' digits and letters.
- Floating point: the hours are exact reals and durations integer minutes.
  `seconds / 3600` rounding is not modelled. Whole minutes keep `round`
  away from ties.
- Column projections: the tables split off keep the full row, not only the
  columns listed at `utils/clean_data.py:62`, `134`, `174`, `233`, `242`
  and `268-269`.
- Cell types: names are strings and hours are numbers. A comment cell that
  is neither a string nor missing is not modelled. A missing comment reads
  as the text `nan`. Dates are valid calendar dates, so `Entry.date`
  cannot be missing: a missing Date cell makes `calculate_ts` raise
  `TypeError`, and that failure is not modelled.
- Years below 1000: `FormatDate` writes them with four digits. The
  platform's `strftime('%Y')` may write fewer digits, and reading such a
  year back is not modelled.
- Reconcile.SortRowsSorts: the order among rows with the same name and the
  same date string is not claimed. Only the sort keys are modelled, not
  pandas' tie order.
- Reconcile.RunWorkbook: it folds the corrected `CalcTotalBilled`, not the
  code as written; the as-written fold is `Reconcile.Run` with `asWritten`
  true.
- Reconcile.RunWorkbook: the mismatch table carried from one workbook to
  the next is never read, because every workbook's first sheet resets it.
  So each workbook starts from an empty table.
- Reconcile.RunGathers: it assumes sheet names are unique within a
  workbook, as in a real workbook. With repeated names the first-sheet test
  can fire again.
- Cleaning.ProcessSheet: when `calculate_ts` raises, the program stops. The
  model reports `false` and returns no tables.

## Findings

| source | as written | input that shows it | evidently intended | confidence | as-written member | corrected member |
|---|---|---|---|---|---|---|
| utils/clean_data.py:256-262 | At the last sheet, `workbook_df` is the table gathered from the earlier sheets. The last sheet's own `Summary` is never concatenated, so its rows never reach the daily sums or the mismatch table. | Two sheets `A` and `B`, each with one row for person `X` on 01/02/2023. `A` bills 4.0 hours with 16 commented quarters; `B` bills 8.0 hours with 16 commented quarters. The day bills 12 hours against 8 commented, yet the mismatch table is empty. | Append the last sheet's `Summary` first, then compute the daily sums over every sheet; the example then yields both rows. | not executed | Reconcile.LastSheetCounterexample | Reconcile.RunFlagsAllSheets |
| utils/clean_data.py:262 | At the last sheet, line 262 reads `Commented Time Worked` from the table of the earlier sheets only. When none of them had a row left for `calculate_time_worked` (its early return at lines 183-184 adds no columns), the column is missing and the function raises `KeyError`, even when the last sheet has rows. | Two sheets `A` and `B`: every comment of `A` is empty, and `B` has one 8.0-hour row for `X` on 01/02/2023 with 16 commented quarters. | Append the last sheet's `Summary` first: the column is then present whenever any sheet has rows, and the example yields the row of `B`. | not executed | Reconcile.MissingColumnCounterexample | Reconcile.CorrectedRaisesOnlyWhenEmpty |
