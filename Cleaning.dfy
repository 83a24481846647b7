/**
 * The cleaning stages of one invoice sheet (`CleanData`): the week tag, then
 * four filters that each mark the rows with an issue, split them off into a
 * sheet of their own and pass the rest on, and the worked-time columns.
 */
module Cleaning {
  import opened Wrappers
  import opened Strings
  import opened Calendar
  import opened Comments
  import opened Records

  // ---------------------------------------------------------------- week tag

  predicate WeeksDefined(s: seq<Row>) {
    forall k :: 0 <= k < |s| ==> WeekTag(s[k].entry.date).Some?
  }

  /** The `T/S` column: the week of each row's date. */
  function Tagged(s: seq<Row>): (t: seq<Row>)
    requires WeeksDefined(s)
    ensures |t| == |s|
    ensures forall k :: 0 <= k < |s| ==> t[k] == s[k].(period := WeekTag(s[k].entry.date).value)
  {
    seq(|s|, k requires 0 <= k < |s| => s[k].(period := WeekTag(s[k].entry.date).value))
  }

  /** Every `T/S` value names the Sunday on or before the row's date and the
      Saturday that ends that week. */
  lemma {:induction false} TaggedNamesWeek(s: seq<Row>, k: nat)
    requires WeeksDefined(s) && k < |s|
    ensures exists first, last ::
              ValidDate(first) && ValidDate(last) &&
              Tagged(s)[k].period == FormatDate(first) + " - " + FormatDate(last) &&
              Weekday(ToOrdinal(first)) == Sunday && Weekday(ToOrdinal(last)) == Saturday &&
              ToOrdinal(first) <= ToOrdinal(s[k].entry.date) <= ToOrdinal(last) == ToOrdinal(first) + 6
  {
    WeekTagNamesItsWeek(s[k].entry.date);
  }

  // ---------------------------------------------------------------- stage flags

  /** `isna() | == ""`: only a missing comment or the empty string is empty. */
  predicate IsEmptyComment(r: Row) {
    r.entry.comment.None? || r.entry.comment == Some("")
  }

  /** `str(row['Time Period'])`: a missing comment reads as `nan`. */
  function CommentText(r: Row): string {
    match r.entry.comment
    case None => "nan"
    case Some(t) => t
  }

  /** `process_time_entries` applied to a row: the extracted times and the format flag. */
  function Timed(r: Row): (t: Row)
    ensures t.entry == r.entry
  {
    var text := CommentText(r);
    var x := ExtractTimePairs(text);
    r.(ins := x.ins, outs := x.outs, issue := FormatIssue(text))
  }

  /** The distinct `;`-joined in-time lists, and out-time lists, of group `key`. */
  function InStrings(ctx: seq<Row>, key: Key): set<string> {
    set k | 0 <= k < |ctx| && KeyOf(ctx[k]) == key :: Join(";", ctx[k].ins)
  }

  function OutStrings(ctx: seq<Row>, key: Key): set<string> {
    set k | 0 <= k < |ctx| && KeyOf(ctx[k]) == key :: Join(";", ctx[k].outs)
  }

  /** `nunique() > 1` on either column within the group. */
  predicate ConflictingKey(ctx: seq<Row>, key: Key) {
    |InStrings(ctx, key)| > 1 || |OutStrings(ctx, key)| > 1
  }

  datatype Stage = EmptyStage | FormatStage | MilitaryStage | ConflictStage

  /** The flag column a stage writes into a row; the conflict stage looks at
      the row's group in `ctx`. */
  function MarkRow(st: Stage, ctx: seq<Row>, r: Row): (m: Row)
    ensures m.entry == r.entry
  {
    match st
    case EmptyStage => r.(issue := IsEmptyComment(r))
    case FormatStage => Timed(r)
    case MilitaryStage => r.(issue := MilitaryIssue(r.ins, r.outs))
    case ConflictStage => r.(issue := ConflictingKey(ctx, KeyOf(r)))
  }

  function Mark(st: Stage, ctx: seq<Row>, s: seq<Row>): (m: seq<Row>)
    ensures |m| == |s| && forall k :: 0 <= k < |s| ==> m[k] == MarkRow(st, ctx, s[k])
  {
    seq(|s|, k requires 0 <= k < |s| => MarkRow(st, ctx, s[k]))
  }

  /** The rows a stage splits off (`b` true) or passes on (`b` false) are the
      marked rows of its input whose flag is `b`. */
  lemma {:induction false} MarkedSelect(st: Stage, ctx: seq<Row>, s: seq<Row>, b: bool)
    ensures forall r :: r in Select(Mark(st, ctx, s), b) <==>
              exists k :: 0 <= k < |s| && r == MarkRow(st, ctx, s[k]) && r.issue == b
  {
    SelectMembers(Mark(st, ctx, s), b);
  }

  /** The entries a stage splits off and passes on are the entries it was given. */
  lemma {:induction false} MarkedSplit(st: Stage, ctx: seq<Row>, s: seq<Row>)
    ensures multiset(Entries(Select(Mark(st, ctx, s), true))) + multiset(Entries(Select(Mark(st, ctx, s), false)))
            == multiset(Entries(s))
  {
    SelectSplit(Mark(st, ctx, s));
    assert Entries(Mark(st, ctx, s)) == Entries(s);
  }

  /** What a stage passes on keeps the order of its input. */
  lemma {:induction false} MarkedOrder(st: Stage, ctx: seq<Row>, s: seq<Row>, b: bool)
    ensures exists idx :: PicksFrom(Entries(Select(Mark(st, ctx, s), b)), Entries(s), idx)
  {
    var m := Mark(st, ctx, s);
    SelectKeepsOrder(m, b);
    var idx: seq<nat> :| PicksFrom(Select(m, b), m, idx);
    assert PicksFrom(Entries(Select(m, b)), Entries(s), idx);
  }

  // ---------------------------------------------------------------- worked time

  predicate Parsed(s: seq<Row>) {
    forall k :: 0 <= k < |s| ==> AllParse(s[k].ins, s[k].outs)
  }

  /** `Commented Time Worked`, `Formatted Time Comments` and
      `Total Hours Worked`, the last summed over the row's group in `s`. */
  function Worked(s: seq<Row>): (w: seq<Row>)
    requires Parsed(s)
    ensures |w| == |s|
    ensures forall k :: 0 <= k < |s| ==>
              w[k].entry == s[k].entry && w[k].ins == s[k].ins && w[k].outs == s[k].outs && w[k].issue == s[k].issue
    ensures forall k :: 0 <= k < |s| ==>
              w[k] == s[k].(commented := CommentedQuarters(s[k].ins, s[k].outs),
                            formatted := Display(s[k].ins, s[k].outs),
                            totalHours := GroupHours(s, KeyOf(s[k])))
  {
    seq(|s|, k requires 0 <= k < |s| =>
      s[k].(commented := CommentedQuarters(s[k].ins, s[k].outs),
            formatted := Display(s[k].ins, s[k].outs),
            totalHours := GroupHours(s, KeyOf(s[k]))))
  }

  /** The rows that pass the ordering check can have their times parsed. */
  lemma {:induction false} SurvivorsParse(s: seq<Row>)
    ensures Parsed(Select(Mark(MilitaryStage, [], s), false))
  {
    MarkedSelect(MilitaryStage, [], s, false);
  }

  /** `nunique() > 1`: the group holds two rows whose joined in-times, or
      whose joined out-times, differ. */
  lemma {:induction false} ConflictIff(ctx: seq<Row>, key: Key)
    ensures ConflictingKey(ctx, key) <==>
              exists i, j :: 0 <= i < |ctx| && 0 <= j < |ctx| && KeyOf(ctx[i]) == key && KeyOf(ctx[j]) == key &&
                (Join(";", ctx[i].ins) != Join(";", ctx[j].ins) || Join(";", ctx[i].outs) != Join(";", ctx[j].outs))
  {
    TwoValues(InStrings(ctx, key));
    TwoValues(OutStrings(ctx, key));
    if exists i, j :: 0 <= i < |ctx| && 0 <= j < |ctx| && KeyOf(ctx[i]) == key && KeyOf(ctx[j]) == key &&
         (Join(";", ctx[i].ins) != Join(";", ctx[j].ins) || Join(";", ctx[i].outs) != Join(";", ctx[j].outs)) {
      var i, j :| 0 <= i < |ctx| && 0 <= j < |ctx| && KeyOf(ctx[i]) == key && KeyOf(ctx[j]) == key &&
         (Join(";", ctx[i].ins) != Join(";", ctx[j].ins) || Join(";", ctx[i].outs) != Join(";", ctx[j].outs));
      assert Join(";", ctx[i].ins) in InStrings(ctx, key) && Join(";", ctx[j].ins) in InStrings(ctx, key);
      assert Join(";", ctx[i].outs) in OutStrings(ctx, key) && Join(";", ctx[j].outs) in OutStrings(ctx, key);
    }
  }

  /** A set has more than one element exactly when it holds two different ones. */
  lemma {:induction false} TwoValues(s: set<string>)
    ensures |s| > 1 <==> exists a, b :: a in s && b in s && a != b
  {
    if |s| > 1 {
      var a :| a in s;
      assert |s - {a}| == |s| - 1;
      var b :| b in s - {a};
    }
    if exists a, b :: a in s && b in s && a != b {
      var a, b :| a in s && b in s && a != b;
      assert {a, b} <= s;
      assert |{a, b}| == 2;
      SubsetSize({a, b}, s);
    }
  }

  lemma {:induction false} SubsetSize(a: set<string>, b: set<string>)
    requires a <= b
    ensures |a| <= |b|
  {
    assert b == a + (b - a);
  }

  // ---------------------------------------------------------------- one sheet

  /** The sheets one invoice sheet produces (`Empty`, `Format`, `Military`,
      `ConflictingTime`, `Acceptable`, `Summary`), each given as full rows.
      `worked` says whether the `Summary` table has the columns
      `calculate_time_worked` adds (`Commented Time Worked`, `Total Hours
      Worked`, ...); its early return on an empty row list adds none. */
  datatype Sheet = Sheet(
    empty: seq<Row>,
    format: seq<Row>,
    military: seq<Row>,
    conflicting: seq<Row>,
    acceptable: seq<Row>,
    summary: seq<Row>,
    worked: bool)

  function PassEmpty(t: seq<Row>): seq<Row> { Select(Mark(EmptyStage, [], t), false) }
  function PassFormat(s: seq<Row>): seq<Row> { Select(Mark(FormatStage, [], s), false) }
  function PassMilitary(s: seq<Row>): (p: seq<Row>)
    ensures Parsed(p)
  {
    SurvivorsParse(s);
    Select(Mark(MilitaryStage, [], s), false)
  }

  function Conflicts(s: seq<Row>): seq<Row>
    requires Parsed(s)
  {
    Mark(ConflictStage, Worked(s), Worked(s))
  }

  /** The rows that reach `calculate_time_worked`. */
  function Survivors(entries: seq<Entry>): (s: seq<Row>)
    requires WeeksDefined(Rows(entries))
    ensures Parsed(s)
  {
    PassMilitary(PassFormat(PassEmpty(Tagged(Rows(entries)))))
  }

  /** The stages in the order the driver calls them. */
  function Classify(entries: seq<Entry>): Sheet
    requires WeeksDefined(Rows(entries))
  {
    var t := Tagged(Rows(entries));
    var s1 := PassEmpty(t);
    var s2 := PassFormat(s1);
    var c := Conflicts(Survivors(entries));
    Sheet(Select(Mark(EmptyStage, [], t), true),
          Select(Mark(FormatStage, [], s1), true),
          Select(Mark(MilitaryStage, [], s2), true),
          Select(c, true),
          Select(c, false),
          Select(c, false),
          |Survivors(entries)| > 0)
  }

  /** `CleanData`: the rows still under consideration, and whether they
      have the columns `calculate_time_worked` adds. */
  class CleanData {
    var df: seq<Row>
    var worked: bool

    constructor (entries: seq<Entry>)
      ensures df == Rows(entries) && !worked
    {
      df := Rows(entries);
      worked := false;
    }

    /** `calculate_ts`; `ok` false stands for the `OverflowError` a week
        reaching past the calendar raises, which leaves the rows as they were. */
    method CalculateTs() returns (ok: bool)
      modifies this
      ensures ok == WeeksDefined(old(df))
      ensures df == if ok then Tagged(old(df)) else old(df)
      ensures worked == old(worked)
    {
      ok := forall k :: 0 <= k < |df| ==> WeekTag(df[k].entry.date).Some?;
      if ok {
        df := Tagged(df);
      }
    }

    /** `find_empty_comments`. */
    method FindEmptyComments() returns (empty: seq<Row>)
      modifies this
      ensures empty == Select(Mark(EmptyStage, [], old(df)), true)
      ensures df == PassEmpty(old(df))
      ensures worked == old(worked)
    {
      var marked := Mark(EmptyStage, [], df);
      empty := Select(marked, true);
      df := Select(marked, false);
    }

    /** `extract_times`. */
    method ExtractTimes() returns (format: seq<Row>)
      modifies this
      ensures format == Select(Mark(FormatStage, [], old(df)), true)
      ensures df == PassFormat(old(df))
      ensures worked == old(worked)
    {
      if |df| == 0 {
        format := df;
        return;
      }
      var marked := Mark(FormatStage, [], df);
      format := Select(marked, true);
      df := Select(marked, false);
    }

    /** `check_military_time_format`. */
    method CheckMilitaryTimeFormat() returns (military: seq<Row>)
      modifies this
      ensures military == Select(Mark(MilitaryStage, [], old(df)), true)
      ensures df == PassMilitary(old(df))
      ensures worked == old(worked)
    {
      if |df| == 0 {
        military := df;
        return;
      }
      var marked := Mark(MilitaryStage, [], df);
      military := Select(marked, true);
      df := Select(marked, false);
    }

    /** `calculate_time_worked`: the worked-time columns, then the conflict
        filter; the rows kept are the acceptable comments. An empty row list
        is returned at once and gets no new column. */
    method CalculateTimeWorked() returns (conflicting: seq<Row>, acceptable: seq<Row>)
      requires Parsed(df)
      modifies this
      ensures conflicting == Select(Conflicts(old(df)), true)
      ensures acceptable == df == Select(Conflicts(old(df)), false)
      ensures worked == (old(worked) || |old(df)| > 0)
    {
      if |df| == 0 {
        conflicting, acceptable := df, df;
        return;
      }
      var marked := Conflicts(df);
      conflicting := Select(marked, true);
      df := Select(marked, false);
      worked := true;
      acceptable := df;
    }
  }

  /** One pass of the driver's loop body over an invoice sheet, up to the
      `Summary` sheet (the rows left after `calculate_time_worked`). `ok`
      false means `calculate_ts` raised. */
  method ProcessSheet(entries: seq<Entry>) returns (ok: bool, sheet: Sheet)
    ensures ok == WeeksDefined(Rows(entries))
    ensures ok ==> sheet == Classify(entries)
  {
    var clean := new CleanData(entries);
    ok := clean.CalculateTs();
    if !ok {
      sheet := Sheet([], [], [], [], [], [], false);
      return;
    }
    var empty := clean.FindEmptyComments();
    var format := clean.ExtractTimes();
    var military := clean.CheckMilitaryTimeFormat();
    var conflicting, acceptable := clean.CalculateTimeWorked();
    var summary := clean.df;
    sheet := Sheet(empty, format, military, conflicting, acceptable, summary, clean.worked);
  }
  // ---------------------------------------------------------------- properties of one sheet

  /** The format flag and the ordering flag, as functions of the comment. */
  predicate FormatFlag(r: Row) { FormatIssue(CommentText(r)) }

  predicate MilitaryFlag(r: Row) {
    MilitaryIssue(ExtractTimePairs(CommentText(r)).ins, ExtractTimePairs(CommentText(r)).outs)
  }

  /** Every entry of the sheet ends up in exactly one of the five output
      sheets (`Summary` repeats `Acceptable`). */
  lemma {:induction false} ClassifyPartitions(entries: seq<Entry>)
    requires WeeksDefined(Rows(entries))
    ensures var b := Classify(entries);
      multiset(entries) ==
        multiset(Entries(b.empty)) + multiset(Entries(b.format)) + multiset(Entries(b.military))
        + multiset(Entries(b.conflicting)) + multiset(Entries(b.acceptable))
  {
    var t := Tagged(Rows(entries));
    TaggedEntries(entries);
    SheetsSplit(t);
    var c := Classify(entries);
    assert c.empty == Select(Mark(EmptyStage, [], t), true);
    assert c.format == Select(Mark(FormatStage, [], PassEmpty(t)), true);
    assert c.military == Select(Mark(MilitaryStage, [], PassFormat(PassEmpty(t))), true);
    assert c.conflicting == Select(Conflicts(PassMilitary(PassFormat(PassEmpty(t)))), true);
    assert c.acceptable == Select(Conflicts(PassMilitary(PassFormat(PassEmpty(t)))), false);
  }

  /** Running the classifier again on its own `Acceptable` table gives that
      table back: those rows pass the empty, format and ordering checks,
      which depend on the comment alone, and the rows of one person and date
      still agree on their times. */
  lemma {:induction false} ClassifyIdempotent(entries: seq<Entry>)
    requires WeeksDefined(Rows(entries))
    ensures var acc := Entries(Classify(entries).acceptable);
      WeeksDefined(Rows(acc)) && Entries(Classify(acc).acceptable) == acc
  {
    var a := Classify(entries).acceptable;
    AcceptedWeeks(entries);
    ConflictSheetsClean(entries);
    AcceptedAgree(entries);
    AcceptedRows(entries);
    Reclassify(a);
  }

  /** Rows that pass the three checks, carry the times of their comments and
      agree within each person and date come back whole from the classifier. */
  lemma {:induction false} Reclassify(a: seq<Row>)
    requires WeeksDefined(Rows(Entries(a)))
    requires forall r :: r in a ==> !IsEmptyComment(r) && !FormatFlag(r) && !MilitaryFlag(r)
    requires forall r :: r in a ==> r.ins == ExtractTimePairs(CommentText(r)).ins && r.outs == ExtractTimePairs(CommentText(r)).outs
    requires forall i, j :: 0 <= i < |a| && 0 <= j < |a| && KeyOf(a[i]) == KeyOf(a[j]) ==>
               Join(";", a[i].ins) == Join(";", a[j].ins) && Join(";", a[i].outs) == Join(";", a[j].outs)
    ensures Entries(Classify(Entries(a)).acceptable) == Entries(a)
  {
    var acc := Entries(a);
    ForallBlank(a);
    ReclassifySurvives(acc);
    var s := Survivors(acc);
    KeptAll(a, s);
    assert Classify(acc).acceptable == Select(Conflicts(s), false);
  }

  /** The conflict filter keeps every row whose group agrees, as the rows of `a` do. */
  lemma {:induction false} KeptAll(a: seq<Row>, s: seq<Row>)
    requires Entries(s) == Entries(a)
    requires forall i, j :: 0 <= i < |a| && 0 <= j < |a| && KeyOf(a[i]) == KeyOf(a[j]) ==>
               Join(";", a[i].ins) == Join(";", a[j].ins) && Join(";", a[i].outs) == Join(";", a[j].outs)
    requires forall r :: r in a ==> r.ins == ExtractTimePairs(CommentText(r)).ins && r.outs == ExtractTimePairs(CommentText(r)).outs
    requires forall r :: r in s ==> r.ins == ExtractTimePairs(CommentText(r)).ins && r.outs == ExtractTimePairs(CommentText(r)).outs
    requires Parsed(s)
    ensures Entries(Select(Conflicts(s), false)) == Entries(s)
  {
    WorkedEntries(s);
    AcceptedAgain(a, s);
    AllKept(Worked(s));
  }

  /** The checks of a row of `a` are the checks of its entry on a fresh row. */
  lemma {:induction false} ForallBlank(a: seq<Row>)
    requires forall r :: r in a ==> !IsEmptyComment(r) && !FormatFlag(r) && !MilitaryFlag(r)
    ensures var acc := Entries(a);
      forall k :: 0 <= k < |acc| ==> !IsEmptyComment(Blank(acc[k])) && !FormatFlag(Blank(acc[k])) && !MilitaryFlag(Blank(acc[k]))
  {
    forall k | 0 <= k < |a| ensures !IsEmptyComment(Blank(a[k].entry)) && !FormatFlag(Blank(a[k].entry)) && !MilitaryFlag(Blank(a[k].entry)) {
      assert a[k] in a;
      SameComment(a[k], Blank(a[k].entry));
    }
  }

  /** The worked-time columns leave the entries alone. */
  lemma {:induction false} WorkedEntries(s: seq<Row>)
    requires Parsed(s)
    ensures Entries(Worked(s)) == Entries(s)
  {
  }

  /** Entries that pass the three checks all reach the conflict stage, with
      the times of their comments. */
  lemma {:induction false} ReclassifySurvives(acc: seq<Entry>)
    requires WeeksDefined(Rows(acc))
    requires forall k :: 0 <= k < |acc| ==> !IsEmptyComment(Blank(acc[k])) && !FormatFlag(Blank(acc[k])) && !MilitaryFlag(Blank(acc[k]))
    ensures Entries(Survivors(acc)) == acc
    ensures forall r :: r in Survivors(acc) ==>
              r.ins == ExtractTimePairs(CommentText(r)).ins && r.outs == ExtractTimePairs(CommentText(r)).outs
  {
    var t := Tagged(Rows(acc));
    TaggedEntries(acc);
    TaggedClean(acc);
    CleanRowsSurvive(t);
  }

  /** The week tag leaves the checks of each entry alone. */
  lemma {:induction false} TaggedClean(acc: seq<Entry>)
    requires WeeksDefined(Rows(acc))
    requires forall k :: 0 <= k < |acc| ==> !IsEmptyComment(Blank(acc[k])) && !FormatFlag(Blank(acc[k])) && !MilitaryFlag(Blank(acc[k]))
    ensures var t := Tagged(Rows(acc));
      forall k :: 0 <= k < |t| ==> !IsEmptyComment(t[k]) && !FormatFlag(t[k]) && !MilitaryFlag(t[k])
  {
    var t := Tagged(Rows(acc));
    forall k | 0 <= k < |t| ensures !IsEmptyComment(t[k]) && !FormatFlag(t[k]) && !MilitaryFlag(t[k]) {
      SameComment(t[k], Blank(acc[k]));
    }
  }

  /** Every entry of `Acceptable` is an entry of the sheet, so its week is defined. */
  lemma {:induction false} AcceptedWeeks(entries: seq<Entry>)
    requires WeeksDefined(Rows(entries))
    ensures WeeksDefined(Rows(Entries(Classify(entries).acceptable)))
  {
    var b := Classify(entries);
    ClassifyPartitions(entries);
    assert multiset(Entries(b.acceptable)) <= multiset(entries);
    SubWeeks(Entries(b.acceptable), entries);
  }

  /** A sub-multiset of entries with defined weeks has defined weeks. */
  lemma {:induction false} SubWeeks(es: seq<Entry>, fs: seq<Entry>)
    requires multiset(es) <= multiset(fs) && WeeksDefined(Rows(fs))
    ensures WeeksDefined(Rows(es))
  {
    forall k | 0 <= k < |es| ensures WeekTag(es[k].date).Some? {
      assert es[k] in multiset(es);
      var j :| 0 <= j < |fs| && fs[j] == es[k];
      assert Rows(fs)[j].entry == es[k];
    }
  }

  /** Rows with the entries of `a` and the times of their comments agree,
      within each person and date, whenever the rows of `a` do. */
  lemma {:induction false} AcceptedAgain(a: seq<Row>, s: seq<Row>)
    requires Entries(s) == Entries(a)
    requires forall i, j :: 0 <= i < |a| && 0 <= j < |a| && KeyOf(a[i]) == KeyOf(a[j]) ==>
               Join(";", a[i].ins) == Join(";", a[j].ins) && Join(";", a[i].outs) == Join(";", a[j].outs)
    requires forall r :: r in a ==> r.ins == ExtractTimePairs(CommentText(r)).ins && r.outs == ExtractTimePairs(CommentText(r)).outs
    requires forall r :: r in s ==> r.ins == ExtractTimePairs(CommentText(r)).ins && r.outs == ExtractTimePairs(CommentText(r)).outs
    requires Parsed(s)
    ensures var w := Worked(s);
      forall i, j :: 0 <= i < |w| && 0 <= j < |w| && KeyOf(w[i]) == KeyOf(w[j]) ==>
        Join(";", w[i].ins) == Join(";", w[j].ins) && Join(";", w[i].outs) == Join(";", w[j].outs)
  {
    var w := Worked(s);
    forall i, j | 0 <= i < |w| && 0 <= j < |w| && KeyOf(w[i]) == KeyOf(w[j])
      ensures Join(";", w[i].ins) == Join(";", w[j].ins) && Join(";", w[i].outs) == Join(";", w[j].outs)
    {
      assert a[i] in a && a[j] in a && s[i] in s && s[j] in s;
      SameComment(a[i], s[i]);
      SameComment(a[j], s[j]);
    }
  }

  /** Rows that pass the three checks all reach the conflict stage. */
  lemma {:induction false} CleanRowsSurvive(t: seq<Row>)
    requires forall k :: 0 <= k < |t| ==> !IsEmptyComment(t[k]) && !FormatFlag(t[k]) && !MilitaryFlag(t[k])
    ensures Entries(PassMilitary(PassFormat(PassEmpty(t)))) == Entries(t)
    ensures forall r :: r in PassMilitary(PassFormat(PassEmpty(t))) ==>
              r.ins == ExtractTimePairs(CommentText(r)).ins && r.outs == ExtractTimePairs(CommentText(r)).outs
  {
    PassEmptyAll(t);
    var s1 := PassEmpty(t);
    forall k | 0 <= k < |s1| ensures !FormatFlag(s1[k]) && !MilitaryFlag(s1[k]) {
      SameComment(s1[k], t[k]);
    }
    PassFormatAll(s1);
    var s2 := PassFormat(s1);
    PassMilitaryAll(s2);
    var m := Mark(MilitaryStage, [], s2);
    assert Entries(m) == Entries(t);
    forall r | r in m
      ensures r.ins == ExtractTimePairs(CommentText(r)).ins && r.outs == ExtractTimePairs(CommentText(r)).outs
    {
      var k :| 0 <= k < |m| && m[k] == r;
      assert s2[k] in s2;
      SameComment(r, s2[k]);
    }
  }

  /** Two rows of one entry have the same comment and the same flags. */
  lemma {:induction false} SameComment(r: Row, q: Row)
    requires r.entry == q.entry
    ensures CommentText(r) == CommentText(q) && FormatFlag(r) == FormatFlag(q) && MilitaryFlag(r) == MilitaryFlag(q)
  {
  }

  /** The empty-comment stage passes on every row that has a comment. */
  lemma {:induction false} PassEmptyAll(t: seq<Row>)
    requires forall k :: 0 <= k < |t| ==> !IsEmptyComment(t[k])
    ensures PassEmpty(t) == Mark(EmptyStage, [], t)
  {
    SelectAll(Mark(EmptyStage, [], t), false);
  }

  /** The format stage passes on every row whose comment it does not flag,
      with the times of that comment. */
  lemma {:induction false} PassFormatAll(s: seq<Row>)
    requires forall k :: 0 <= k < |s| ==> !FormatFlag(s[k]) && !MilitaryFlag(s[k])
    ensures |PassFormat(s)| == |s|
    ensures forall k :: 0 <= k < |s| ==> PassFormat(s)[k].entry == s[k].entry
    ensures forall k :: 0 <= k < |s| ==> !MilitaryIssue(PassFormat(s)[k].ins, PassFormat(s)[k].outs)
    ensures forall r :: r in PassFormat(s) ==>
              r.ins == ExtractTimePairs(CommentText(r)).ins && r.outs == ExtractTimePairs(CommentText(r)).outs
  {
    var m := Mark(FormatStage, [], s);
    forall k | 0 <= k < |s| ensures m[k].issue == false {
      assert m[k] == Timed(s[k]);
    }
    SelectAll(m, false);
    forall r | r in m
      ensures r.ins == ExtractTimePairs(CommentText(r)).ins && r.outs == ExtractTimePairs(CommentText(r)).outs
    {
      var k :| 0 <= k < |m| && m[k] == r;
      SameComment(r, s[k]);
    }
  }

  /** The ordering stage passes on every row whose times are in order. */
  lemma {:induction false} PassMilitaryAll(s: seq<Row>)
    requires forall k :: 0 <= k < |s| ==> !MilitaryIssue(s[k].ins, s[k].outs)
    ensures PassMilitary(s) == Mark(MilitaryStage, [], s)
  {
    SelectAll(Mark(MilitaryStage, [], s), false);
  }

  /** A conflict filter whose groups agree on their joined times keeps every row. */
  lemma {:induction false} AllKept(w: seq<Row>)
    requires forall i, j :: 0 <= i < |w| && 0 <= j < |w| && KeyOf(w[i]) == KeyOf(w[j]) ==>
               Join(";", w[i].ins) == Join(";", w[j].ins) && Join(";", w[i].outs) == Join(";", w[j].outs)
    ensures Entries(Select(Mark(ConflictStage, w, w), false)) == Entries(w)
  {
    var m := Mark(ConflictStage, w, w);
    forall k | 0 <= k < |w| ensures !m[k].issue {
      ConflictIff(w, KeyOf(w[k]));
    }
    SelectAll(m, false);
  }

  /** The stages applied to any list of rows split its entries. */
  lemma {:induction false} SheetsSplit(t: seq<Row>)
    ensures var s3 := PassMilitary(PassFormat(PassEmpty(t)));
      multiset(Entries(t)) ==
        multiset(Entries(Select(Mark(EmptyStage, [], t), true)))
        + multiset(Entries(Select(Mark(FormatStage, [], PassEmpty(t)), true)))
        + multiset(Entries(Select(Mark(MilitaryStage, [], PassFormat(PassEmpty(t))), true)))
        + multiset(Entries(Select(Conflicts(s3), true)))
        + multiset(Entries(Select(Conflicts(s3), false)))
  {
    var s1 := PassEmpty(t);
    var s2 := PassFormat(s1);
    var s3 := PassMilitary(s2);
    var w := Worked(s3);
    MarkedSplit(EmptyStage, [], t);
    MarkedSplit(FormatStage, [], s1);
    MarkedSplit(MilitaryStage, [], s2);
    MarkedSplit(ConflictStage, w, w);
    assert Entries(w) == Entries(s3);
  }

  lemma {:induction false} PassEmptyMembers(t: seq<Row>)
    ensures forall r :: r in PassEmpty(t) ==> !IsEmptyComment(r) && r.issue == false
  {
    MarkedSelect(EmptyStage, [], t, false);
  }

  lemma {:induction false} PassFormatMembers(s: seq<Row>)
    ensures forall r :: r in PassFormat(s) ==>
              exists k :: 0 <= k < |s| && r == Timed(s[k]) && !FormatFlag(s[k])
  {
    MarkedSelect(FormatStage, [], s, false);
  }

  lemma {:induction false} PassMilitaryMembers(s: seq<Row>)
    ensures forall r :: r in PassMilitary(s) ==>
              exists k :: 0 <= k < |s| && r == s[k].(issue := false) && !MilitaryIssue(s[k].ins, s[k].outs)
  {
    MarkedSelect(MilitaryStage, [], s, false);
  }

  /** A sheet whose `Summary` lacks the worked-time columns had no row left
      for `calculate_time_worked`, so its `Summary`, `ConflictingTime` and
      `Acceptable` tables are empty; a sheet with them had at least one. */
  lemma {:induction false} UnworkedSheetIsEmpty(entries: seq<Entry>)
    requires WeeksDefined(Rows(entries))
    ensures !Classify(entries).worked ==>
              Classify(entries).summary == [] && Classify(entries).conflicting == [] && Classify(entries).acceptable == []
    ensures Classify(entries).worked ==> exists r :: r in Survivors(entries)
  {
    var s := Survivors(entries);
    if |s| == 0 {
      var c := Conflicts(s);
      assert |c| == 0;
      assert Select(c, true) == [] && Select(c, false) == [];
    } else {
      assert s[0] in s;
    }
  }

  /** What reaches the conflict stage has a comment, no format issue and no
      ordering issue, and carries the times extracted from its comment. */
  lemma {:induction false} SurvivorsAreClean(entries: seq<Entry>)
    requires WeeksDefined(Rows(entries))
    ensures forall r :: r in Survivors(entries) ==>
              && !IsEmptyComment(r) && !FormatFlag(r) && !MilitaryFlag(r) && !r.issue
              && r.ins == ExtractTimePairs(CommentText(r)).ins
              && r.outs == ExtractTimePairs(CommentText(r)).outs
  {
    var s1 := PassEmpty(Tagged(Rows(entries)));
    var s2 := PassFormat(s1);
    PassEmptyMembers(Tagged(Rows(entries)));
    PassFormatMembers(s1);
    PassMilitaryMembers(s2);
    forall r | r in PassMilitary(s2)
      ensures !IsEmptyComment(r) && !FormatFlag(r) && !MilitaryFlag(r) && !r.issue
      ensures r.ins == ExtractTimePairs(CommentText(r)).ins && r.outs == ExtractTimePairs(CommentText(r)).outs
    {
      var k :| 0 <= k < |s2| && r == s2[k].(issue := false) && !MilitaryIssue(s2[k].ins, s2[k].outs);
      assert s2[k] in s2;
      var j :| 0 <= j < |s1| && s2[k] == Timed(s1[j]) && !FormatFlag(s1[j]);
      assert s1[j] in s1;
    }
  }

  /** The empty-comment sheet holds only rows without a comment. */
  lemma {:induction false} EmptySheetFlags(t: seq<Row>)
    ensures forall r :: r in Select(Mark(EmptyStage, [], t), true) ==> IsEmptyComment(r)
  {
    MarkedSelect(EmptyStage, [], t, true);
  }

  /** The format sheet holds rows that have a comment and whose comment the
      format check flags. */
  lemma {:induction false} FormatSheetFlags(t: seq<Row>)
    ensures forall r :: r in Select(Mark(FormatStage, [], PassEmpty(t)), true) ==> !IsEmptyComment(r) && FormatFlag(r)
  {
    var s1 := PassEmpty(t);
    MarkedSelect(FormatStage, [], s1, true);
    PassEmptyMembers(t);
    forall r | r in Select(Mark(FormatStage, [], s1), true) ensures !IsEmptyComment(r) && FormatFlag(r) {
      var k :| 0 <= k < |s1| && r == MarkRow(FormatStage, [], s1[k]) && r.issue;
      assert s1[k] in s1;
    }
  }

  /** The military sheet holds rows that have a comment, pass the format
      check and fail the ordering check. */
  lemma {:induction false} MilitarySheetFlags(t: seq<Row>)
    ensures forall r :: r in Select(Mark(MilitaryStage, [], PassFormat(PassEmpty(t))), true) ==>
              !IsEmptyComment(r) && !FormatFlag(r) && MilitaryFlag(r)
  {
    var s1 := PassEmpty(t);
    var s2 := PassFormat(s1);
    MarkedSelect(MilitaryStage, [], s2, true);
    PassEmptyMembers(t);
    PassFormatMembers(s1);
    forall r | r in Select(Mark(MilitaryStage, [], s2), true) ensures !IsEmptyComment(r) && !FormatFlag(r) && MilitaryFlag(r) {
      var k :| 0 <= k < |s2| && r == MarkRow(MilitaryStage, [], s2[k]) && r.issue;
      assert s2[k] in s2;
      var j :| 0 <= j < |s1| && s2[k] == Timed(s1[j]) && !FormatFlag(s1[j]);
      assert s1[j] in s1;
    }
  }

  /** The conflict stage only rewrites columns of the rows it is given. */
  lemma {:induction false} ConflictSheetsFrom(s: seq<Row>, b: bool)
    requires Parsed(s)
    ensures forall r :: r in Select(Conflicts(s), b) ==> exists k :: 0 <= k < |s| && r.entry == s[k].entry
  {
    var w := Worked(s);
    MarkedSelect(ConflictStage, w, w, b);
  }

  /** The conflicting and acceptable sheets hold rows every earlier stage let through. */
  lemma {:induction false} ConflictSheetsClean(entries: seq<Entry>)
    requires WeeksDefined(Rows(entries))
    ensures forall r :: r in Classify(entries).conflicting ==> !IsEmptyComment(r) && !FormatFlag(r) && !MilitaryFlag(r)
    ensures forall r :: r in Classify(entries).acceptable ==> !IsEmptyComment(r) && !FormatFlag(r) && !MilitaryFlag(r)
  {
    var s := Survivors(entries);
    SurvivorsAreClean(entries);
    ConflictSheetsFrom(s, true);
    ConflictSheetsFrom(s, false);
    forall r | r in Select(Conflicts(s), true) || r in Select(Conflicts(s), false)
      ensures !IsEmptyComment(r) && !FormatFlag(r) && !MilitaryFlag(r)
    {
      var k :| 0 <= k < |s| && r.entry == s[k].entry;
      assert s[k] in s;
    }
  }

  /** The earliest stage that flags a row is the one that takes it: each
      output sheet holds only rows that every earlier stage let through and
      its own stage flags. With `ClassifyPartitions` this fixes the sheet of
      every entry. */
  lemma {:induction false} EarliestStageWins(entries: seq<Entry>)
    requires WeeksDefined(Rows(entries))
    ensures forall r :: r in Classify(entries).empty ==> IsEmptyComment(r)
    ensures forall r :: r in Classify(entries).format ==> !IsEmptyComment(r) && FormatFlag(r)
    ensures forall r :: r in Classify(entries).military ==> !IsEmptyComment(r) && !FormatFlag(r) && MilitaryFlag(r)
    ensures forall r :: r in Classify(entries).conflicting ==> !IsEmptyComment(r) && !FormatFlag(r) && !MilitaryFlag(r)
    ensures forall r :: r in Classify(entries).acceptable ==> !IsEmptyComment(r) && !FormatFlag(r) && !MilitaryFlag(r)
  {
    var t := Tagged(Rows(entries));
    EmptySheetFlags(t);
    FormatSheetFlags(t);
    MilitarySheetFlags(t);
    ConflictSheetsClean(entries);
  }

  /** Each output sheet lists its entries in the order of the invoice sheet. */
  lemma {:induction false} ClassifyKeepsOrder(entries: seq<Entry>)
    requires WeeksDefined(Rows(entries))
    ensures exists idx :: PicksFrom(Entries(Classify(entries).empty), entries, idx)
    ensures exists idx :: PicksFrom(Entries(Classify(entries).format), entries, idx)
    ensures exists idx :: PicksFrom(Entries(Classify(entries).military), entries, idx)
    ensures exists idx :: PicksFrom(Entries(Classify(entries).conflicting), entries, idx)
    ensures exists idx :: PicksFrom(Entries(Classify(entries).acceptable), entries, idx)
  {
    var t := Tagged(Rows(entries));
    TaggedEntries(entries);
    SheetsOrder(t);
    var c := Classify(entries);
    assert c.empty == Select(Mark(EmptyStage, [], t), true);
    assert c.format == Select(Mark(FormatStage, [], PassEmpty(t)), true);
    assert c.military == Select(Mark(MilitaryStage, [], PassFormat(PassEmpty(t))), true);
    assert c.conflicting == Select(Conflicts(PassMilitary(PassFormat(PassEmpty(t)))), true);
    assert c.acceptable == Select(Conflicts(PassMilitary(PassFormat(PassEmpty(t)))), false);
  }

  /** Tagging the rows of an invoice sheet keeps its entries. */
  lemma {:induction false} TaggedEntries(entries: seq<Entry>)
    requires WeeksDefined(Rows(entries))
    ensures Entries(Tagged(Rows(entries))) == entries
  {
  }

  /** The stages applied to any list of rows: every sheet keeps its order. */
  lemma {:induction false} SheetsOrder(t: seq<Row>)
    ensures exists idx :: PicksFrom(Entries(Select(Mark(EmptyStage, [], t), true)), Entries(t), idx)
    ensures exists idx :: PicksFrom(Entries(Select(Mark(FormatStage, [], PassEmpty(t)), true)), Entries(t), idx)
    ensures exists idx :: PicksFrom(Entries(Select(Mark(MilitaryStage, [], PassFormat(PassEmpty(t))), true)), Entries(t), idx)
    ensures exists idx :: PicksFrom(Entries(Select(Conflicts(PassMilitary(PassFormat(PassEmpty(t)))), true)), Entries(t), idx)
    ensures exists idx :: PicksFrom(Entries(Select(Conflicts(PassMilitary(PassFormat(PassEmpty(t)))), false)), Entries(t), idx)
  {
    var s1 := PassEmpty(t);
    var s2 := PassFormat(s1);
    var s3 := PassMilitary(s2);
    MarkedOrder(EmptyStage, [], t, true);
    assert exists idx :: PicksFrom(Entries(s1), Entries(t), idx) by {
      MarkedOrder(EmptyStage, [], t, false);
    }
    StageOrder(FormatStage, [], s1, Entries(t));
    assert exists idx :: PicksFrom(Entries(s2), Entries(t), idx) by {
      MarkedOrder(FormatStage, [], s1, false);
      ChainOrder(Entries(s2), Entries(s1), Entries(t));
    }
    StageOrder(MilitaryStage, [], s2, Entries(t));
    assert exists idx :: PicksFrom(Entries(s3), Entries(t), idx) by {
      MarkedOrder(MilitaryStage, [], s2, false);
      ChainOrder(Entries(s3), Entries(s2), Entries(t));
    }
    ConflictOrder(s3, true, Entries(t));
    ConflictOrder(s3, false, Entries(t));
  }

  /** A sheet split off from a list that keeps the order of `entries` keeps it too. */
  lemma {:induction false} StageOrder(st: Stage, ctx: seq<Row>, s: seq<Row>, entries: seq<Entry>)
    requires exists i :: PicksFrom(Entries(s), entries, i)
    ensures exists idx :: PicksFrom(Entries(Select(Mark(st, ctx, s), true)), entries, idx)
  {
    MarkedOrder(st, ctx, s, true);
    ChainOrder(Entries(Select(Mark(st, ctx, s), true)), Entries(s), entries);
  }

  /** The sheets of the conflict stage keep the order of its input. */
  lemma {:induction false} ConflictOrder(s: seq<Row>, b: bool, entries: seq<Entry>)
    requires Parsed(s)
    requires exists i :: PicksFrom(Entries(s), entries, i)
    ensures exists idx :: PicksFrom(Entries(Select(Conflicts(s), b)), entries, idx)
  {
    var w := Worked(s);
    MarkedOrder(ConflictStage, w, w, b);
    assert Entries(w) == Entries(s);
    ChainOrder(Entries(Select(Conflicts(s), b)), Entries(s), entries);
  }

  lemma {:induction false} ChainOrder<T>(a: seq<T>, b: seq<T>, c: seq<T>)
    requires exists i :: PicksFrom(a, b, i)
    requires exists j :: PicksFrom(b, c, j)
    ensures exists k :: PicksFrom(a, c, k)
  {
    var i: seq<nat> :| PicksFrom(a, b, i);
    var j: seq<nat> :| PicksFrom(b, c, j);
    var k := PicksCompose(a, b, c, i, j);
  }

  /** Picking from a picking is a picking. */
  lemma {:induction false} PicksCompose<T>(a: seq<T>, b: seq<T>, c: seq<T>, i: seq<nat>, j: seq<nat>) returns (k: seq<nat>)
    requires PicksFrom(a, b, i) && PicksFrom(b, c, j)
    ensures PicksFrom(a, c, k)
  {
    k := seq(|i|, n requires 0 <= n < |i| => j[i[n]]);
  }

  /** A row the conflict filter keeps is an input row of a group without
      conflict, its flag cleared. */
  lemma {:induction false} KeptFrom(w: seq<Row>)
    ensures forall r :: r in Select(Mark(ConflictStage, w, w), false) ==>
              exists k :: 0 <= k < |w| && r == w[k].(issue := false) && !ConflictingKey(w, KeyOf(w[k]))
  {
    MarkedSelect(ConflictStage, w, w, false);
  }

  /** The rows the conflict filter keeps, from any input: rows of one date
      and person agree on their joined in- and out-times. */
  lemma {:induction false} KeptRowsAgree(w: seq<Row>)
    ensures var kept := Select(Mark(ConflictStage, w, w), false);
      forall i, j :: 0 <= i < |kept| && 0 <= j < |kept| && KeyOf(kept[i]) == KeyOf(kept[j]) ==>
        Join(";", kept[i].ins) == Join(";", kept[j].ins) && Join(";", kept[i].outs) == Join(";", kept[j].outs)
  {
    var kept := Select(Mark(ConflictStage, w, w), false);
    KeptFrom(w);
    forall i, j | 0 <= i < |kept| && 0 <= j < |kept| && KeyOf(kept[i]) == KeyOf(kept[j])
      ensures Join(";", kept[i].ins) == Join(";", kept[j].ins) && Join(";", kept[i].outs) == Join(";", kept[j].outs)
    {
      assert kept[i] in kept && kept[j] in kept;
      var p :| 0 <= p < |w| && kept[i] == w[p].(issue := false) && !ConflictingKey(w, KeyOf(w[p]));
      var q :| 0 <= q < |w| && kept[j] == w[q].(issue := false) && !ConflictingKey(w, KeyOf(w[q]));
      ConflictIff(w, KeyOf(w[p]));
      assert KeyOf(w[q]) == KeyOf(w[p]);
    }
  }

  /** The acceptable rows of one date and person agree on their joined in-
      and out-times. */
  lemma {:induction false} AcceptedAgree(entries: seq<Entry>)
    requires WeeksDefined(Rows(entries))
    ensures var acc := Classify(entries).acceptable;
      forall i, j :: 0 <= i < |acc| && 0 <= j < |acc| && KeyOf(acc[i]) == KeyOf(acc[j]) ==>
        Join(";", acc[i].ins) == Join(";", acc[j].ins) && Join(";", acc[i].outs) == Join(";", acc[j].outs)
  {
    var w := Worked(Survivors(entries));
    assert Classify(entries).acceptable == Select(Mark(ConflictStage, w, w), false);
    KeptRowsAgree(w);
  }

  /** The conflict filter keeps or drops whole groups, so when every row
      holds the hour total of its group, every kept row still holds the hour
      total of its group among the kept rows. */
  lemma {:induction false} KeptTotals(w: seq<Row>)
    requires forall k :: 0 <= k < |w| ==> w[k].totalHours == GroupHours(w, KeyOf(w[k]))
    ensures var kept := Select(Mark(ConflictStage, w, w), false);
      forall r :: r in kept ==> r.totalHours == GroupHours(kept, KeyOf(r))
  {
    var c := Mark(ConflictStage, w, w);
    var kept := Select(c, false);
    KeptFrom(w);
    assert Entries(c) == Entries(w);
    forall r | r in kept ensures r.totalHours == GroupHours(kept, KeyOf(r)) {
      var p :| 0 <= p < |w| && r == w[p].(issue := false) && !ConflictingKey(w, KeyOf(w[p]));
      assert forall k :: 0 <= k < |c| && KeyOf(c[k]) == KeyOf(r) ==> !c[k].issue;
      SelectKeepsGroupHours(c, false, KeyOf(r));
      GroupHoursOfEntries(c, w, KeyOf(r));
    }
  }

  /** Each row of `Worked(s)` holds the hour total of its group. */
  lemma {:induction false} WorkedTotals(s: seq<Row>)
    requires Parsed(s)
    ensures forall k :: 0 <= k < |s| ==> Worked(s)[k].totalHours == GroupHours(Worked(s), KeyOf(Worked(s)[k]))
  {
    var w := Worked(s);
    assert Entries(w) == Entries(s);
    forall k | 0 <= k < |s| ensures w[k].totalHours == GroupHours(w, KeyOf(w[k])) {
      GroupHoursOfEntries(w, s, KeyOf(s[k]));
    }
  }

  /** `Total Hours Worked` is summed before the conflict filter, yet each
      acceptable row holds the hour total of its group among the acceptable
      rows. */
  lemma {:induction false} AcceptedTotals(entries: seq<Entry>)
    requires WeeksDefined(Rows(entries))
    ensures var acc := Classify(entries).acceptable;
      forall r :: r in acc ==> r.totalHours == GroupHours(acc, KeyOf(r))
  {
    var w := Worked(Survivors(entries));
    assert Classify(entries).acceptable == Select(Mark(ConflictStage, w, w), false);
    WorkedTotals(Survivors(entries));
    KeptTotals(w);
  }

  /** A row the conflict filter keeps carries the entry and times of an input
      row, with the worked-time columns computed from those times. */
  lemma {:induction false} KeptWorked(s: seq<Row>)
    requires Parsed(s)
    ensures forall r :: r in Select(Conflicts(s), false) ==>
              exists k :: 0 <= k < |s| && r.entry == s[k].entry && r.ins == s[k].ins && r.outs == s[k].outs
                && r.commented == CommentedQuarters(s[k].ins, s[k].outs) && r.formatted == Display(s[k].ins, s[k].outs)
  {
    KeptFrom(Worked(s));
  }

  /** With as many in-times as out-times the display string has no trailing
      separator. */
  lemma {:induction false} DisplayOfPairs(ins: seq<string>, outs: seq<string>)
    requires AllParse(ins, outs) && |ins| == |outs|
    ensures Display(ins, outs) == TwoPerLine(Segments(ins, outs))
  {
  }

  /** The acceptable rows carry the times of their comment, an equal number
      of in- and out-times, the rounded commented duration and the display
      string two pairs to a line. */
  lemma {:induction false} AcceptedRows(entries: seq<Entry>)
    requires WeeksDefined(Rows(entries))
    ensures forall r :: r in Classify(entries).acceptable ==>
              && r.ins == ExtractTimePairs(CommentText(r)).ins
              && r.outs == ExtractTimePairs(CommentText(r)).outs
              && 0 < |r.ins| == |r.outs|
              && AllParse(r.ins, r.outs)
              && r.commented == CommentedQuarters(r.ins, r.outs)
              && r.formatted == TwoPerLine(Segments(r.ins, r.outs))
  {
    var s := Survivors(entries);
    KeptWorked(s);
    SurvivorsAreClean(entries);
    forall r | r in Select(Conflicts(s), false)
      ensures r.ins == ExtractTimePairs(CommentText(r)).ins && r.outs == ExtractTimePairs(CommentText(r)).outs
      ensures 0 < |r.ins| == |r.outs| && AllParse(r.ins, r.outs)
      ensures r.commented == CommentedQuarters(r.ins, r.outs) && r.formatted == TwoPerLine(Segments(r.ins, r.outs))
    {
      var k :| 0 <= k < |s| && r.entry == s[k].entry && r.ins == s[k].ins && r.outs == s[k].outs
        && r.commented == CommentedQuarters(s[k].ins, s[k].outs) && r.formatted == Display(s[k].ins, s[k].outs);
      assert s[k] in s;
      FlagOfEqualCounts(ExtractTimePairs(CommentText(s[k])));
      DisplayOfPairs(r.ins, r.outs);
    }
  }
}
