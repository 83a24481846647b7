/**
 * `calc_total_billed_n_comment`: the `Summary` tables of the invoice sheets
 * of a workbook are gathered one sheet at a time, and at the last sheet the
 * rows of every (Name, Date) group that bills more hours than its comments
 * cover become the `Mismatch` table, sorted by Name ascending and by the
 * `MM/DD/YYYY` date string descending.
 */
module Reconcile {
  import opened Wrappers
  import opened Strings
  import opened Calendar
  import opened Records
  import opened Cleaning

  // ---------------------------------------------------------------- the mismatch table

  /** A row of the gathered table with the columns the last sheet adds:
      `Daily Total Hours Worked`, `Daily Commented Time Worked` (in quarter
      hours) and `Conflicting Time Worked`. */
  datatype Billed = Billed(row: Row, dailyHours: real, dailyQuarters: int, conflicting: bool)

  /** The group bills more hours than its comments account for. */
  predicate Overbilled(w: seq<Row>, key: Key) {
    GroupHours(w, key) > (GroupQuarters(w, key) as real) / 4.0
  }

  /** Row `r` with the daily sums of its group in the table `w`. */
  function BilledOf(w: seq<Row>, r: Row): Billed {
    Billed(r, GroupHours(w, KeyOf(r)), GroupQuarters(w, KeyOf(r)), Overbilled(w, KeyOf(r)))
  }

  /** The rows of `s`, each with its group's daily sums in `w`. */
  function Annotate(w: seq<Row>, s: seq<Row>): (a: seq<Billed>)
    ensures |a| == |s| && forall k :: 0 <= k < |s| ==> a[k] == BilledOf(w, s[k])
  {
    seq(|s|, k requires 0 <= k < |s| => BilledOf(w, s[k]))
  }

  /** Annotating keeps every row as often as it occurs. */
  lemma {:induction false} AnnotateCounts(w: seq<Row>, s: seq<Row>, r: Row)
    ensures multiset(Annotate(w, s))[BilledOf(w, r)] == multiset(s)[r]
    decreases |s|
  {
    if |s| > 0 {
      var init := s[..|s| - 1];
      AnnotateCounts(w, init, r);
      assert s == init + [s[|s| - 1]];
      assert Annotate(w, s) == Annotate(w, init) + [BilledOf(w, s[|s| - 1])];
    }
  }

  /** The two daily sums and the conflict flag, at every row of `w`. */
  function DailyTotals(w: seq<Row>): (a: seq<Billed>)
    ensures |a| == |w|
    ensures forall k :: 0 <= k < |w| ==>
              a[k] == Billed(w[k], GroupHours(w, KeyOf(w[k])), GroupQuarters(w, KeyOf(w[k])), Overbilled(w, KeyOf(w[k])))
  {
    Annotate(w, w)
  }

  /** `df.loc[df['Conflicting Time Worked']]`: the flagged rows, in order. */
  function Flagged(a: seq<Billed>): seq<Billed> {
    if |a| == 0 then []
    else Flagged(a[..|a| - 1]) + (if a[|a| - 1].conflicting then [a[|a| - 1]] else [])
  }

  /** A row is kept exactly when it is flagged, as often as it occurs. */
  lemma {:induction false} FlaggedMembers(a: seq<Billed>)
    ensures forall b :: b in Flagged(a) <==> b in a && b.conflicting
    ensures forall b :: multiset(Flagged(a))[b] == if b.conflicting then multiset(a)[b] else 0
    decreases |a|
  {
    if |a| > 0 {
      var init, last := a[..|a| - 1], a[|a| - 1];
      FlaggedMembers(init);
      assert a == init + [last];
      assert multiset(a) == multiset(init) + multiset{last};
      forall b ensures multiset(Flagged(a))[b] == if b.conflicting then multiset(a)[b] else 0 {
        assert multiset(Flagged(a)) == multiset(Flagged(init)) + multiset(if last.conflicting then [last] else []);
      }
      forall b ensures b in Flagged(a) <==> b in a && b.conflicting {
        assert b in Flagged(a) <==> multiset(Flagged(a))[b] > 0;
      }
    }
  }

  /** The flagged rows keep the order of the table. */
  lemma {:induction false} FlaggedOrder(a: seq<Billed>)
    ensures exists idx :: PicksFrom(Flagged(a), a, idx)
    decreases |a|
  {
    if |a| == 0 {
      assert PicksFrom(Flagged(a), a, []);
    } else {
      var init, last := a[..|a| - 1], a[|a| - 1];
      FlaggedOrder(init);
      var idx: seq<nat> :| PicksFrom(Flagged(init), init, idx);
      if last.conflicting {
        PicksSnoc(Flagged(init), a, idx);
        assert PicksFrom(Flagged(a), a, idx + [|init|]);
      } else {
        PicksSkip(Flagged(init), a, idx);
        assert PicksFrom(Flagged(a), a, idx);
      }
    }
  }

  /** The `Date` column: the `MM/DD/YYYY` string of the row's date. */
  function DateText(b: Billed): string {
    FormatDate(b.row.entry.date)
  }

  /** `sort_values(['Name', 'Date'], ascending=[True, False])`: `x` may come
      before `y` when its name is smaller, or the names agree and its date
      string is not smaller. The strings compare as Python compares `str`. */
  predicate Before(x: Billed, y: Billed) {
    || StrLt(x.row.entry.name, y.row.entry.name)
    || (x.row.entry.name == y.row.entry.name && StrLe(DateText(y), DateText(x)))
  }

  ghost predicate Sorted(s: seq<Billed>) {
    forall i, j :: 0 <= i < j < |s| ==> Before(s[i], s[j])
  }

  /** Any two rows can be ordered. */
  lemma {:induction false} BeforeTotal(x: Billed, y: Billed)
    ensures Before(x, y) || Before(y, x)
  {
    StrLtTotal(x.row.entry.name, y.row.entry.name);
    StrLtTotal(DateText(x), DateText(y));
  }

  lemma {:induction false} BeforeTransitive(x: Billed, y: Billed, z: Billed)
    requires Before(x, y) && Before(y, z)
    ensures Before(x, z)
  {
    var a, b, c := x.row.entry.name, y.row.entry.name, z.row.entry.name;
    if StrLt(a, b) && StrLt(b, c) {
      StrLtTransitive(a, b, c);
    } else if StrLt(DateText(z), DateText(y)) && StrLt(DateText(y), DateText(x)) {
      StrLtTransitive(DateText(z), DateText(y), DateText(x));
    }
  }

  /** Puts `x` in front of the first row it may come before. */
  function Insert(x: Billed, s: seq<Billed>): seq<Billed>
    decreases |s|
  {
    if |s| == 0 then [x]
    else if Before(x, s[0]) then [x] + s
    else [s[0]] + Insert(x, s[1..])
  }

  /** The rows in the order `sort_values` puts them. */
  function SortRows(a: seq<Billed>): seq<Billed>
    decreases |a|
  {
    if |a| == 0 then [] else Insert(a[0], SortRows(a[1..]))
  }

  lemma {:induction false} InsertSorted(x: Billed, s: seq<Billed>)
    requires Sorted(s)
    ensures Sorted(Insert(x, s)) && multiset(Insert(x, s)) == multiset(s) + multiset{x}
    decreases |s|
  {
    if |s| == 0 {
    } else if Before(x, s[0]) {
      InsertFront(x, s);
    } else {
      var rest := s[1..];
      assert forall i, j :: 0 <= i < j < |rest| ==> rest[i] == s[i + 1] && rest[j] == s[j + 1];
      InsertSorted(x, rest);
      BeforeTotal(x, s[0]);
      InsertBehind(x, s);
    }
  }

  /** `x` may come before the first row, so before every row. */
  lemma {:induction false} InsertFront(x: Billed, s: seq<Billed>)
    requires Sorted(s) && 0 < |s| && Before(x, s[0])
    ensures Sorted([x] + s) && multiset([x] + s) == multiset(s) + multiset{x}
  {
    forall j | 0 <= j < |s| ensures Before(x, s[j]) {
      if j > 0 { BeforeTransitive(x, s[0], s[j]); }
    }
    var r := [x] + s;
    assert forall j :: 0 < j < |r| ==> r[j] == s[j - 1];
  }

  /** The first row may come before `x` and before every other row. */
  lemma {:induction false} InsertBehind(x: Billed, s: seq<Billed>)
    requires Sorted(s) && 0 < |s| && Before(s[0], x)
    requires Sorted(Insert(x, s[1..])) && multiset(Insert(x, s[1..])) == multiset(s[1..]) + multiset{x}
    ensures Sorted([s[0]] + Insert(x, s[1..])) && multiset([s[0]] + Insert(x, s[1..])) == multiset(s) + multiset{x}
  {
    FirstBeforeAll(x, s, Insert(x, s[1..]));
    ConsSorted(s[0], Insert(x, s[1..]));
    assert s == [s[0]] + s[1..];
  }

  /** A row that may come before `x` and before every row of a sorted `s`
      may come before every row of a reordering of `s[1..]` with `x`. */
  lemma {:induction false} FirstBeforeAll(x: Billed, s: seq<Billed>, ins: seq<Billed>)
    requires Sorted(s) && 0 < |s| && Before(s[0], x)
    requires multiset(ins) == multiset(s[1..]) + multiset{x}
    ensures forall j :: 0 <= j < |ins| ==> Before(s[0], ins[j])
  {
    var rest := s[1..];
    forall j | 0 <= j < |ins| ensures Before(s[0], ins[j]) {
      assert ins[j] in multiset(ins);
      if ins[j] != x {
        assert ins[j] in multiset(rest);
        var m :| 0 <= m < |rest| && rest[m] == ins[j];
        assert rest[m] == s[m + 1];
      }
    }
  }

  lemma {:induction false} ConsSorted(y: Billed, s: seq<Billed>)
    requires Sorted(s) && forall j :: 0 <= j < |s| ==> Before(y, s[j])
    ensures Sorted([y] + s)
  {
    var r := [y] + s;
    forall i, j | 0 <= i < j < |r| ensures Before(r[i], r[j]) {
      assert r[j] == s[j - 1];
      if i > 0 { assert r[i] == s[i - 1]; }
    }
  }

  /** `SortRows` sorts and loses or adds no row. */
  lemma {:induction false} SortRowsSorts(a: seq<Billed>)
    ensures Sorted(SortRows(a)) && multiset(SortRows(a)) == multiset(a)
    decreases |a|
  {
    if |a| > 0 {
      var r := SortRows(a[1..]);
      SortRowsSorts(a[1..]);
      InsertSorted(a[0], r);
      assert SortRows(a) == Insert(a[0], r);
      assert multiset(a) == multiset(a[1..]) + multiset{a[0]} by {
        assert a == [a[0]] + a[1..];
      }
    }
  }

  /** The returned `overbilled_df`. */
  function MismatchTable(w: seq<Row>): seq<Billed> {
    SortRows(Flagged(DailyTotals(w)))
  }

  /** The mismatch table is sorted, and lists every row of `w` whose group
      bills more hours than its comments cover, as often as the row occurs in
      `w`, with the daily sums of its group, and no other row. Groups are
      therefore listed whole. */
  lemma {:induction false} MismatchTableMeaning(w: seq<Row>)
    ensures Sorted(MismatchTable(w))
    ensures multiset(MismatchTable(w)) == multiset(Flagged(DailyTotals(w)))
    ensures forall b :: b in MismatchTable(w) <==>
              exists k :: 0 <= k < |w| && Overbilled(w, KeyOf(w[k])) &&
                b == Billed(w[k], GroupHours(w, KeyOf(w[k])), GroupQuarters(w, KeyOf(w[k])), true)
    ensures forall r :: r in w && Overbilled(w, KeyOf(r)) ==>
              multiset(MismatchTable(w))[BilledOf(w, r)] == multiset(w)[r]
  {
    var a := DailyTotals(w);
    SortRowsSorts(Flagged(a));
    FlaggedMembers(a);
    forall b ensures b in MismatchTable(w) <==> b in Flagged(a) {
      assert b in MismatchTable(w) <==> b in multiset(MismatchTable(w));
    }
    forall r | r in w && Overbilled(w, KeyOf(r)) ensures multiset(MismatchTable(w))[BilledOf(w, r)] == multiset(w)[r] {
      AnnotateCounts(w, w, r);
    }
  }

  /** `Date` values compare as strings: in the descending order a December
      2022 row comes before a January 2023 row of the same person, although
      its date is the earlier one. */
  lemma {:induction false} DateStringOrder(x: Billed, y: Billed)
    requires x.row.entry.name == y.row.entry.name
    requires x.row.entry.date == CalDate(2022, 12, 1) && y.row.entry.date == CalDate(2023, 1, 15)
    ensures ToOrdinal(x.row.entry.date) < ToOrdinal(y.row.entry.date)
    ensures Before(x, y) && !Before(y, x)
  {
    MonthsFillYear(2022);
    DecemberText(x);
    JanuaryText(y);
    assert StrLt("01/15/2023", "12/01/2022");
    StrLtAsymmetric("01/15/2023", "12/01/2022");
    StrLtIrreflexive(x.row.entry.name);
  }

  lemma {:induction false} DecemberText(x: Billed)
    requires x.row.entry.date == CalDate(2022, 12, 1)
    ensures DateText(x) == "12/01/2022"
  {
    assert Pad2(12) == "12" && Pad2(1) == "01" && Pad4(2022) == "2022";
  }

  lemma {:induction false} JanuaryText(y: Billed)
    requires y.row.entry.date == CalDate(2023, 1, 15)
    ensures DateText(y) == "01/15/2023"
  {
    assert Pad2(1) == "01" && Pad2(15) == "15" && Pad4(2023) == "2023";
  }

  // ---------------------------------------------------------------- the accumulator

  /** A `Summary` table or a concatenation of them: its rows, and whether it
      has the columns `calculate_time_worked` adds, `Commented Time Worked`
      among them. */
  datatype Table = Table(rows: seq<Row>, worked: bool)

  /** `pd.concat([t, u], ignore_index=True)`: the rows one after the other;
      the columns are the union of both tables' columns. */
  function Append(t: Table, u: Table): Table {
    Table(t.rows + u.rows, t.worked || u.worked)
  }

  /** The tables of `ts` concatenated in order. */
  function Gather(ts: seq<Table>): Table {
    if |ts| == 0 then Table([], false) else Append(Gather(ts[..|ts| - 1]), ts[|ts| - 1])
  }

  /** The gathered table has the worked-time columns exactly when one of its
      parts has them. */
  lemma {:induction false} GatherWorked(ts: seq<Table>)
    ensures Gather(ts).worked <==> exists i :: 0 <= i < |ts| && ts[i].worked
    decreases |ts|
  {
    if |ts| > 0 {
      var init := ts[..|ts| - 1];
      GatherWorked(init);
      assert forall i :: 0 <= i < |init| ==> init[i] == ts[i];
    }
  }

  /** What the function returns: the gathered `Summary` rows, or at the last
      sheet the mismatch table, or the `KeyError` that line 262 raises when
      the gathered table has no `Commented Time Worked` column. */
  datatype Gathered = Accumulated(table: Table) | Mismatch(billed: seq<Billed>) | MissingColumn

  /** `dataframes['Mismatch']`: the table built so far. Only a gathered table
      is ever read; before the first sheet there is none (`None`), and the
      first sheet does not read it. */
  function Previous(g: Gathered): Table {
    match g
    case Accumulated(t) => t
    case _ => Table([], false)
  }

  /** `calc_total_billed_n_comment` as written: at the last sheet the mismatch
      table is computed from the earlier sheets only. */
  function CalcTotalBilledAsWritten(sheet: string, names: seq<string>, summary: Table, prev: Table): Gathered
    requires |names| > 0
  {
    if sheet == names[0] then Accumulated(summary)
    else if sheet != names[|names| - 1] then Accumulated(Append(prev, summary))
    else if !prev.worked then MissingColumn
    else Mismatch(MismatchTable(prev.rows))
  }

  /** The same with the last sheet's `Summary` added before the daily sums. */
  function CalcTotalBilled(sheet: string, names: seq<string>, summary: Table, prev: Table): Gathered
    requires |names| > 0
  {
    if sheet == names[0] then Accumulated(summary)
    else if sheet != names[|names| - 1] then Accumulated(Append(prev, summary))
    else
      var all := Append(prev, summary);
      if !all.worked then MissingColumn else Mismatch(MismatchTable(all.rows))
  }

  /** The value after the sheets whose `Summary` tables are `summaries`, the
      first sheets of a workbook with sheet names `names`, for either version. */
  function Run(asWritten: bool, names: seq<string>, summaries: seq<Table>): Gathered
    requires 0 < |names| && |summaries| <= |names|
    decreases |summaries|
  {
    if |summaries| == 0 then Accumulated(Table([], false))
    else
      var n := |summaries|;
      var prev := Previous(Run(asWritten, names, summaries[..n - 1]));
      if asWritten then CalcTotalBilledAsWritten(names[n - 1], names, summaries[n - 1], prev)
      else CalcTotalBilled(names[n - 1], names, summaries[n - 1], prev)
  }

  /** Sheet names are unique within a workbook. */
  predicate Distinct(names: seq<string>) {
    forall i, j :: 0 <= i < j < |names| ==> names[i] != names[j]
  }

  /** Before the last sheet both versions hold the `Summary` tables seen so
      far, one after another. */
  lemma {:induction false} RunGathers(asWritten: bool, names: seq<string>, summaries: seq<Table>)
    requires Distinct(names) && 0 < |summaries| < |names|
    ensures Run(asWritten, names, summaries) == Accumulated(Gather(summaries))
    decreases |summaries|
  {
    var n := |summaries|;
    if n == 1 {
      assert Gather(summaries[..0]) == Table([], false);
      assert Gather(summaries) == Append(Table([], false), summaries[0]);
    } else {
      RunGathers(asWritten, names, summaries[..n - 1]);
      assert names[n - 1] != names[0] && names[n - 1] != names[|names| - 1];
    }
  }

  /** A workbook with a single sheet: that sheet is first and last, the first
      branch wins and no mismatch table is computed. */
  lemma {:induction false} SingleSheet(asWritten: bool, name: string, summary: Table)
    ensures Run(asWritten, [name], [summary]) == Accumulated(summary)
  {
    assert [summary][..0] == [];
  }

  /** With two or more sheets, the corrected version flags the overbilled
      groups of all sheets together; it raises only when no sheet reached the
      worked-time columns. */
  lemma {:induction false} RunFlagsAllSheets(names: seq<string>, summaries: seq<Table>)
    requires Distinct(names) && 1 < |summaries| == |names|
    ensures Run(false, names, summaries) ==
              if Gather(summaries).worked then Mismatch(MismatchTable(Gather(summaries).rows)) else MissingColumn
    ensures Run(false, names, summaries).MissingColumn? <==> forall i :: 0 <= i < |summaries| ==> !summaries[i].worked
  {
    var n := |summaries|;
    RunGathers(false, names, summaries[..n - 1]);
    assert summaries == summaries[..n - 1] + [summaries[n - 1]];
    GatherWorked(summaries);
  }

  /** Tables without the worked-time columns have no rows, as every `Summary`
      table that `calculate_time_worked` returned early. With such tables the
      corrected version raises only when there is nothing to reconcile. */
  lemma {:induction false} CorrectedRaisesOnlyWhenEmpty(names: seq<string>, summaries: seq<Table>)
    requires Distinct(names) && 1 < |summaries| == |names|
    requires forall i :: 0 <= i < |summaries| ==> !summaries[i].worked ==> summaries[i].rows == []
    ensures Run(false, names, summaries).MissingColumn? ==> Gather(summaries).rows == []
  {
    RunFlagsAllSheets(names, summaries);
    if Run(false, names, summaries).MissingColumn? {
      GatherNoRows(summaries);
    }
  }

  lemma {:induction false} GatherNoRows(ts: seq<Table>)
    requires forall i :: 0 <= i < |ts| ==> !ts[i].worked && ts[i].rows == []
    ensures Gather(ts).rows == []
    decreases |ts|
  {
    if |ts| > 0 {
      GatherNoRows(ts[..|ts| - 1]);
    }
  }

  /** As written, the last sheet's rows never reach the daily sums, and the
      function raises whenever no earlier sheet reached the worked-time
      columns, whatever the last sheet holds. */
  lemma {:induction false} RunAsWrittenSkipsLastSheet(names: seq<string>, summaries: seq<Table>)
    requires Distinct(names) && 1 < |summaries| == |names|
    ensures var before := Gather(summaries[..|names| - 1]);
            Run(true, names, summaries) == if before.worked then Mismatch(MismatchTable(before.rows)) else MissingColumn
    ensures Run(true, names, summaries).MissingColumn? <==> forall i :: 0 <= i < |summaries| - 1 ==> !summaries[i].worked
  {
    var n := |summaries|;
    RunGathers(true, names, summaries[..n - 1]);
    GatherWorked(summaries[..n - 1]);
  }

  /** Sheet `A` of the example workbook, as its `Summary` table: a 4-hour
      entry of `X` on Monday 2023-01-02 whose comment covers 4 hours (16
      quarters). */
  const ExampleA: seq<Row> :=
    [Row(Entry("X", CalDate(2023, 1, 2), 4.0, Some("time in: 09:00 - time out: 13:00"), "A"),
         "01/01/2023 - 01/07/2023", ["09:00"], ["13:00"], 16, "Time in: 09:00 - Time out: 13:00", 4.0, false)]

  /** Sheet `B`, the last: an 8-hour entry of `X` on the same day whose
      comment covers 4 hours. With `A`, the day bills 12 hours against 8
      commented; alone, it bills 8 against 4. */
  const ExampleB: seq<Row> :=
    [Row(Entry("X", CalDate(2023, 1, 2), 8.0, Some("time in: 13:00 - time out: 17:00"), "B"),
         "01/01/2023 - 01/07/2023", ["13:00"], ["17:00"], 16, "Time in: 13:00 - Time out: 17:00", 8.0, false)]

  /** On the example workbook the version as written reports no mismatch,
      while the corrected one reports both rows of the overbilled day. */
  lemma {:induction false} LastSheetCounterexample()
    ensures Run(true, ["A", "B"], [Table(ExampleA, true), Table(ExampleB, true)]) == Mismatch([])
    ensures Run(false, ["A", "B"], [Table(ExampleA, true), Table(ExampleB, true)]).Mismatch?
    ensures |Run(false, ["A", "B"], [Table(ExampleA, true), Table(ExampleB, true)]).billed| == 2
  {
    var a, b := Table(ExampleA, true), Table(ExampleB, true);
    assert Gather([a, b][..1]) == a by {
      assert [a, b][..1] == [a] && [a][..0] == [];
      assert Gather([a]) == Append(Table([], false), a);
    }
    assert Gather([a, b]) == Table(ExampleA + ExampleB, true) by {
      assert [a, b][..1] == [a];
    }
    assert MismatchTable(ExampleA) == [] by {
      ExampleAUnflagged();
    }
    RunAsWrittenSkipsLastSheet(["A", "B"], [a, b]);
    assert |MismatchTable(ExampleA + ExampleB)| == 2 by {
      var f := Flagged(DailyTotals(ExampleA + ExampleB));
      ExampleBothFlagged();
      SortRowsSorts(f);
      assert |SortRows(f)| == |multiset(SortRows(f))| == |multiset(f)| == |f|;
    }
    RunFlagsAllSheets(["A", "B"], [a, b]);
  }

  /** A two-sheet workbook whose first sheet has no row left for
      `calculate_time_worked` (every comment empty, say): as written the last
      sheet raises `KeyError`, while the corrected version reports the
      overbilled row of the last sheet. */
  lemma {:induction false} MissingColumnCounterexample()
    ensures Run(true, ["A", "B"], [Table([], false), Table(ExampleB, true)]) == MissingColumn
    ensures Run(false, ["A", "B"], [Table([], false), Table(ExampleB, true)]).Mismatch?
    ensures |Run(false, ["A", "B"], [Table([], false), Table(ExampleB, true)]).billed| == 1
  {
    var a, b := Table([], false), Table(ExampleB, true);
    assert [a, b][..1] == [a];
    RunAsWrittenSkipsLastSheet(["A", "B"], [a, b]);
    assert Gather([a, b]) == Table(ExampleB, true) by {
      assert [a][..0] == [];
      assert Gather([a]) == Append(Table([], false), a);
    }
    assert |MismatchTable(ExampleB)| == 1 by {
      var f := Flagged(DailyTotals(ExampleB));
      ExampleBFlagged();
      SortRowsSorts(f);
      assert |SortRows(f)| == |multiset(SortRows(f))| == |multiset(f)| == |f|;
    }
    RunFlagsAllSheets(["A", "B"], [a, b]);
  }

  lemma {:induction false} ExampleAUnflagged()
    ensures Flagged(DailyTotals(ExampleA)) == []
  {
    var a := ExampleA;
    var key := KeyOf(a[0]);
    assert GroupHours(a, key) == 4.0 && GroupQuarters(a, key) == 16 by {
      assert a[..0] == [];
    }
    assert DailyTotals(a)[..0] == [];
  }

  lemma {:induction false} ExampleBFlagged()
    ensures |Flagged(DailyTotals(ExampleB))| == 1
  {
    var b := ExampleB;
    var key := KeyOf(b[0]);
    assert GroupHours(b, key) == 8.0 && GroupQuarters(b, key) == 16 by {
      assert b[..0] == [];
    }
    var d := DailyTotals(b);
    assert d[0].conflicting;
    assert d[..0] == [];
  }

  lemma {:induction false} ExampleBothFlagged()
    ensures |Flagged(DailyTotals(ExampleA + ExampleB))| == 2
  {
    var w := ExampleA + ExampleB;
    var key := KeyOf(w[0]);
    assert KeyOf(w[1]) == key;
    assert GroupHours(w, key) == 12.0 && GroupQuarters(w, key) == 32 by {
      assert w[..1] == ExampleA && w[..1][..0] == [];
    }
    var d := DailyTotals(w);
    assert d[0].conflicting && d[1].conflicting;
    assert d[..1][..0] == [] && d[..1] == [d[0]];
    assert Flagged(d[..1]) == [d[0]];
    assert Flagged(d) == [d[0], d[1]];
  }

  // ---------------------------------------------------------------- the workbook loop

  /** The `Summary` table of every sheet. */
  function Summaries(sheets: seq<seq<Entry>>): (s: seq<Table>)
    requires forall i :: 0 <= i < |sheets| ==> WeeksDefined(Rows(sheets[i]))
    ensures |s| == |sheets|
    ensures forall i :: 0 <= i < |sheets| ==> s[i] == Table(Classify(sheets[i]).summary, Classify(sheets[i]).worked)
  {
    seq(|sheets|, i requires 0 <= i < |sheets| => Table(Classify(sheets[i]).summary, Classify(sheets[i]).worked))
  }

  /** The driver's loop over the sheets of one workbook: clean each sheet,
      then fold its `Summary` into the gathered table. `ok` false means that
      `calculate_ts` raised on some sheet, which ends the run. A workbook
      without sheets runs the loop zero times and gathers nothing. */
  method RunWorkbook(names: seq<string>, sheets: seq<seq<Entry>>) returns (ok: bool, result: Gathered)
    requires |sheets| == |names|
    ensures ok <==> forall i :: 0 <= i < |sheets| ==> WeeksDefined(Rows(sheets[i]))
    ensures ok ==> result == (if |names| == 0 then Accumulated(Table([], false)) else Run(false, names, Summaries(sheets)))
  {
    result := Accumulated(Table([], false));
    var i := 0;
    while i < |names|
      invariant 0 <= i <= |names|
      invariant forall j :: 0 <= j < i ==> WeeksDefined(Rows(sheets[j]))
      invariant i == 0 ==> result == Accumulated(Table([], false))
      invariant 0 < |names| ==> result == Run(false, names, Summaries(sheets[..i]))
      decreases |names| - i
    {
      var sheetOk, sheet := ProcessSheet(sheets[i]);
      if !sheetOk {
        ok := false;
        return;
      }
      result := CalcTotalBilled(names[i], names, Table(sheet.summary, sheet.worked), Previous(result));
      RunStep(names, sheets, i);
      i := i + 1;
    }
    assert sheets[..i] == sheets;
    ok := true;
  }

  /** One more sheet extends the run by one call. */
  lemma {:induction false} RunStep(names: seq<string>, sheets: seq<seq<Entry>>, i: nat)
    requires 0 < |names| && |sheets| == |names| && i < |names|
    requires forall j :: 0 <= j <= i ==> WeeksDefined(Rows(sheets[j]))
    ensures Run(false, names, Summaries(sheets[..i + 1])) ==
            CalcTotalBilled(names[i], names, Table(Classify(sheets[i]).summary, Classify(sheets[i]).worked),
                            Previous(Run(false, names, Summaries(sheets[..i]))))
  {
    var s := Summaries(sheets[..i + 1]);
    assert sheets[..i + 1][..i] == sheets[..i];
    assert s[..i] == Summaries(sheets[..i]);
  }
}
