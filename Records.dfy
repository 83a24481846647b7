/**
 * The rows of a timesheet as the cleaning pipeline sees them: the columns
 * read from an invoice sheet, and the columns the stages add.
 */
module Records {
  import opened Wrappers
  import opened Calendar

  /** A calendar date the reader can produce. */
  type Day = d: CalDate | ValidDate(d) witness CalDate(2000, 1, 1)

  /** One line of an invoice sheet: `Name`, `Date`, `Hours Worked`, the
      comment `Time Period` (`None` for an empty cell) and the `Charge Code`,
      which is the name of the sheet. */
  datatype Entry = Entry(name: string, date: Day, hours: real, comment: Option<string>, chargeCode: string)

  /** An entry with the columns the stages add: `T/S`, `In Times`,
      `Out Times`, `Commented Time Worked` (in quarter hours),
      `Formatted Time Comments` and `Total Hours Worked`, and the flag column
      of the stage at work (`Empty Comment`, `Format Issue`, `Military Time
      Issue`, `Conflicting Comment`), which each stage drops again. */
  datatype Row = Row(
    entry: Entry,
    period: string,
    ins: seq<string>,
    outs: seq<string>,
    commented: int,
    formatted: string,
    totalHours: real,
    issue: bool)

  /** A freshly read row: no added column is filled yet. */
  function Blank(e: Entry): (r: Row)
    ensures r.entry == e
  {
    Row(e, "", [], [], 0, "", 0.0, false)
  }

  function Rows(es: seq<Entry>): (s: seq<Row>)
    ensures |s| == |es| && forall k :: 0 <= k < |es| ==> s[k] == Blank(es[k])
  {
    seq(|es|, k requires 0 <= k < |es| => Blank(es[k]))
  }

  /** The entries of a list of rows, in order. */
  function Entries(s: seq<Row>): (es: seq<Entry>)
    ensures |es| == |s| && forall k :: 0 <= k < |s| ==> es[k] == s[k].entry
  {
    seq(|s|, k requires 0 <= k < |s| => s[k].entry)
  }

  /** The grouping key `['Name', 'Date']`. The date column holds the
      `MM/DD/YYYY` string of the date, and different dates have different
      strings (`Calendar.FormatDateInjective`), so the key holds the date
      itself. */
  datatype Key = Key(name: string, date: Day)

  function KeyOf(r: Row): Key {
    Key(r.entry.name, r.entry.date)
  }

  /** `groupby(['Name', 'Date'])['Hours Worked'].transform('sum')` at a row of group `key`. */
  function GroupHours(s: seq<Row>, key: Key): real {
    if |s| == 0 then 0.0
    else GroupHours(s[..|s| - 1], key) + (if KeyOf(s[|s| - 1]) == key then s[|s| - 1].entry.hours else 0.0)
  }

  /** The same sum over `Commented Time Worked`, in quarter hours. */
  function GroupQuarters(s: seq<Row>, key: Key): int {
    if |s| == 0 then 0
    else GroupQuarters(s[..|s| - 1], key) + (if KeyOf(s[|s| - 1]) == key then s[|s| - 1].commented else 0)
  }

  /** `s` keeps the rows of `t` at the strictly increasing positions `idx`. */
  ghost predicate PicksFrom<T>(s: seq<T>, t: seq<T>, idx: seq<nat>) {
    && |idx| == |s|
    && (forall k :: 0 <= k < |idx| ==> idx[k] < |t| && s[k] == t[idx[k]])
    && (forall k, l :: 0 <= k < l < |idx| ==> idx[k] < idx[l])
  }
  /** Keeping the last row of `t` as well. */
  lemma {:induction false} PicksSnoc<T>(s: seq<T>, t: seq<T>, idx: seq<nat>)
    requires |t| > 0 && PicksFrom(s, t[..|t| - 1], idx)
    ensures PicksFrom(s + [t[|t| - 1]], t, idx + [|t| - 1])
  {
    var s', idx' := s + [t[|t| - 1]], idx + [|t| - 1];
    assert forall k :: 0 <= k < |idx| ==> idx'[k] == idx[k] && s'[k] == s[k] && t[idx[k]] == t[..|t| - 1][idx[k]];
  }

  /** Dropping the last row of `t`. */
  lemma {:induction false} PicksSkip<T>(s: seq<T>, t: seq<T>, idx: seq<nat>)
    requires |t| > 0 && PicksFrom(s, t[..|t| - 1], idx)
    ensures PicksFrom(s, t, idx)
  {
    assert forall k :: 0 <= k < |idx| ==> t[idx[k]] == t[..|t| - 1][idx[k]];
  }

  /** `df.loc[df[flag]]` for `b` true and `df.loc[~df[flag]]` for `b` false:
      the rows whose flag column is `b`, in order. */
  function Select(s: seq<Row>, b: bool): seq<Row> {
    if |s| == 0 then []
    else Select(s[..|s| - 1], b) + (if s[|s| - 1].issue == b then [s[|s| - 1]] else [])
  }

  /** A row is selected exactly when it is a row of `s` whose flag is `b`. */
  lemma {:induction false} SelectMembers(s: seq<Row>, b: bool)
    ensures forall r :: r in Select(s, b) <==> r in s && r.issue == b
    decreases |s|
  {
    if |s| > 0 {
      var init := s[..|s| - 1];
      SelectMembers(init, b);
      assert s == init + [s[|s| - 1]];
    }
  }

  /** When every row has flag `b`, selecting on `b` keeps them all. */
  lemma {:induction false} SelectAll(s: seq<Row>, b: bool)
    requires forall k :: 0 <= k < |s| ==> s[k].issue == b
    ensures Select(s, b) == s
    decreases |s|
  {
    if |s| > 0 {
      var init := s[..|s| - 1];
      SelectAll(init, b);
      assert s == init + [s[|s| - 1]];
    }
  }

  /** Filtering on a flag and on its negation splits the entries of `s`. */
  lemma {:induction false} SelectSplit(s: seq<Row>)
    ensures multiset(Entries(Select(s, true))) + multiset(Entries(Select(s, false))) == multiset(Entries(s))
    decreases |s|
  {
    if |s| > 0 {
      var init, last := s[..|s| - 1], s[|s| - 1];
      SelectSplit(init);
      assert s == init + [last];
      EntriesSnoc(init, last);
      var yes, no := Select(init, true), Select(init, false);
      if last.issue {
        assert Select(s, true) == yes + [last] && Select(s, false) == no;
        EntriesSnoc(yes, last);
      } else {
        assert Select(s, true) == yes && Select(s, false) == no + [last];
        EntriesSnoc(no, last);
      }
    }
  }

  lemma {:induction false} EntriesSnoc(s: seq<Row>, r: Row)
    ensures Entries(s + [r]) == Entries(s) + [r.entry]
  {
  }

  /** The selected rows keep the order they have in `s`. */
  lemma {:induction false} SelectKeepsOrder(s: seq<Row>, b: bool)
    ensures exists idx :: PicksFrom(Select(s, b), s, idx)
    decreases |s|
  {
    if |s| == 0 {
      assert PicksFrom(Select(s, b), s, []);
    } else {
      var init, last := s[..|s| - 1], s[|s| - 1];
      SelectKeepsOrder(init, b);
      var idx: seq<nat> :| PicksFrom(Select(init, b), init, idx);
      if last.issue == b {
        PicksSnoc(Select(init, b), s, idx);
        assert PicksFrom(Select(s, b), s, idx + [|init|]);
      } else {
        PicksSkip(Select(init, b), s, idx);
        assert PicksFrom(Select(s, b), s, idx);
      }
    }
  }

  /** When every row of group `key` has flag `b`, selecting on `b` keeps the
      whole group and so its hour total. */
  lemma {:induction false} SelectKeepsGroupHours(s: seq<Row>, b: bool, key: Key)
    requires forall k :: 0 <= k < |s| && KeyOf(s[k]) == key ==> s[k].issue == b
    ensures GroupHours(Select(s, b), key) == GroupHours(s, key)
    decreases |s|
  {
    if |s| > 0 {
      var init, last := s[..|s| - 1], s[|s| - 1];
      assert forall k :: 0 <= k < |init| ==> init[k] == s[k];
      SelectKeepsGroupHours(init, b, key);
      var t := Select(init, b);
      if last.issue == b {
        assert Select(s, b) == t + [last];
        GroupHoursSnoc(t, last, key);
      } else {
        assert Select(s, b) == t;
      }
    }
  }

  /** One more row adds its hours to its own group only. */
  lemma {:induction false} GroupHoursSnoc(t: seq<Row>, r: Row, key: Key)
    ensures GroupHours(t + [r], key) == GroupHours(t, key) + (if KeyOf(r) == key then r.entry.hours else 0.0)
  {
    assert (t + [r])[..|t|] == t;
  }

  /** Group totals depend only on the entries. */
  lemma {:induction false} GroupHoursOfEntries(s: seq<Row>, t: seq<Row>, key: Key)
    requires Entries(s) == Entries(t)
    ensures GroupHours(s, key) == GroupHours(t, key)
    decreases |s|
  {
    if |s| > 0 {
      assert Entries(s[..|s| - 1]) == Entries(t[..|t| - 1]);
      GroupHoursOfEntries(s[..|s| - 1], t[..|t| - 1], key);
    }
  }
}
