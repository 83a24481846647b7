/**
 * What the stages of the cleaning pipeline compute from one comment: the
 * extracted time pairs and the format flag (`extract_times`), the ordering
 * flag (`check_military_time`), the commented duration
 * (`calculate_total_time_difference`) and the display string
 * (`format_time_pair`).
 */
module Comments {
  import opened Wrappers
  import opened Strings
  import opened Clock
  import opened Scanner

  // ---------------------------------------------------------------- extraction

  /** Out-time literals that mean midnight become the end-of-day sentinel. */
  function Midnight(t: string): string {
    if t == "00:00" || t == "24:00" || t == "0:00" then "23:59" else t
  }

  datatype Extracted = Extracted(ins: seq<string>, outs: seq<string>, formatIssue: bool)

  /** What `extract_time_pairs` keeps of the pair matches `ps` of a text with
      `tokens` standalone time tokens: the in-times as written, the out-times
      with midnight substituted, in match order, and the flag that the pair
      and token counts disagree. */
  function ExtractFrom(ps: seq<PairMatch>, tokens: nat): (x: Extracted)
    ensures |x.ins| == |x.outs| == |ps|
    ensures x.formatIssue <==> 2 * |ps| != tokens
    ensures forall i :: 0 <= i < |ps| ==> x.ins[i] == ps[i].timeIn
    ensures forall i :: 0 <= i < |ps| ==>
              x.outs[i] == if ps[i].timeOut in ["00:00", "0:00", "24:00"] then "23:59" else ps[i].timeOut
  {
    var ins := seq(|ps|, i requires 0 <= i < |ps| => ps[i].timeIn);
    var outs := seq(|ps|, i requires 0 <= i < |ps| => Midnight(ps[i].timeOut));
    Extracted(ins, outs, |ins| != |outs| || |ps| * 2 != tokens)
  }

  /** `extract_time_pairs`. */
  function ExtractTimePairs(text: string): Extracted {
    ExtractFrom(Pairs(text), TokenCount(text))
  }

  /** The `i`-th extracted pair is the text of the `i`-th leftmost match of
      the pair pattern; only the out-time is substituted, and only when it
      is written as midnight. */
  lemma {:induction false} ExtractedFromMatches(text: string, i: nat)
    requires i < |Pairs(text)|
    ensures ExtractTimePairs(text).ins[i] == Pairs(text)[i].timeIn
    ensures ExtractTimePairs(text).outs[i] ==
              if Pairs(text)[i].timeOut in ["00:00", "0:00", "24:00"] then "23:59" else Pairs(text)[i].timeOut
    ensures PairAt(text, Pairs(text)[i].start) == Some(Pairs(text)[i])
    ensures forall j :: i < j < |Pairs(text)| ==> Pairs(text)[i].end <= Pairs(text)[j].start
  {
    PairsAreMatches(text);
  }

  const ValidEndings: seq<string> := ["00", "15", "30", "45", "59"]

  /** `t[-2:]`. */
  function Last2(t: string): string { if |t| >= 2 then t[|t| - 2..] else t }

  predicate BadEnding(t: string) { Last2(t) !in ValidEndings }

  /** The format flag of a comment: the in- and out-counts differ, or the
      standalone time tokens are not twice the pairs, or some extracted time
      ends in other than 00, 15, 30, 45 or 59, or no pair was found. */
  predicate FormatIssue(text: string) {
    FormatIssueOf(ExtractTimePairs(text))
  }

  /** The four ways `process_time_entries` flags an extraction `x`. */
  predicate FormatIssueOf(x: Extracted) {
    var all := x.ins + x.outs;
    || x.formatIssue
    || (exists i :: 0 <= i < |all| && BadEnding(all[i]))
    || |x.ins| != |x.outs|
    || (|x.ins| == 0 && |x.outs| == 0)
  }

  /** A comment has a format issue exactly when the standalone time tokens
      are not twice the pair matches, or an extracted time has a bad ending,
      or there is no pair match at all. */
  lemma {:induction false} FormatIssueMeaning(text: string)
    ensures FormatIssue(text) <==>
              || 2 * |Pairs(text)| != TokenCount(text)
              || (exists i :: 0 <= i < |Pairs(text)| && BadEnding(ExtractTimePairs(text).ins[i]))
              || (exists i :: 0 <= i < |Pairs(text)| && BadEnding(ExtractTimePairs(text).outs[i]))
              || |Pairs(text)| == 0
  {
    FlagOfEqualCounts(ExtractTimePairs(text));
  }

  lemma {:induction false} FlagOfEqualCounts(x: Extracted)
    requires |x.ins| == |x.outs|
    ensures FormatIssueOf(x) <==>
              || x.formatIssue
              || (exists i :: 0 <= i < |x.ins| && BadEnding(x.ins[i]))
              || (exists i :: 0 <= i < |x.outs| && BadEnding(x.outs[i]))
              || |x.ins| == 0
  {
    var all, n := x.ins + x.outs, |x.ins|;
    assert forall i :: 0 <= i < n ==> all[i] == x.ins[i];
    assert forall i :: 0 <= i < n ==> all[i + n] == x.outs[i];
    if exists i :: 0 <= i < |all| && BadEnding(all[i]) {
      var i :| 0 <= i < |all| && BadEnding(all[i]);
      if i >= n { assert all[(i - n) + n] == x.outs[i - n]; }
    }
  }

  /** `process_time_entries` on the text of one comment. */
  method ProcessTimeEntries(text: string) returns (ins: seq<string>, outs: seq<string>, formatIssue: bool)
    ensures ins == ExtractTimePairs(text).ins && outs == ExtractTimePairs(text).outs
    ensures formatIssue == FormatIssue(text)
  {
    var x := ExtractTimePairs(text);
    ins, outs := x.ins, x.outs;
    formatIssue := CheckEndings(x);
  }

  /** The checks `process_time_entries` adds to the flag of `extract_time_pairs`. */
  method CheckEndings(x: Extracted) returns (formatIssue: bool)
    ensures formatIssue == FormatIssueOf(x)
  {
    formatIssue := x.formatIssue;
    var all := x.ins + x.outs;
    var i := 0;
    while i < |all|
      invariant 0 <= i <= |all|
      invariant formatIssue == x.formatIssue
      invariant forall j :: 0 <= j < i ==> !BadEnding(all[j])
    {
      if BadEnding(all[i]) {
        formatIssue := true;
        break;
      }
      i := i + 1;
    }
    if !formatIssue && |x.ins| != |x.outs| {
      formatIssue := true;
    } else if !formatIssue && |x.ins| == 0 && |x.outs| == 0 {
      formatIssue := true;
    }
  }

  /** A comment made only of whitespace has no pair, so it is a format issue. */
  lemma {:induction false} WhitespaceIsFormatIssue(text: string)
    requires forall k :: 0 <= k < |text| ==> IsSpace(text[k])
    ensures FormatIssue(text)
  {
    var ends := Table(PairPattern, text);
    forall q | 0 <= q < |text| ensures ends[q].None? {
      if q + 7 <= |text| {
        assert LowerAscii(text[q]) != 't';
      }
    }
    FindAllSpans(ends, 0, FindAll(ends, 0));
    assert |Pairs(text)| == 0;
  }

  // ---------------------------------------------------------------- ordering

  /** One zipped pair is wrong when a time does not parse or out is not after in. */
  predicate PairIssue(timeIn: string, timeOut: string) {
    ParseTime(timeIn).None? || ParseTime(timeOut).None?
    || Minutes(ParseTime(timeOut).value) <= Minutes(ParseTime(timeIn).value)
  }

  predicate MilitaryIssue(ins: seq<string>, outs: seq<string>) {
    exists i :: 0 <= i < |ins| && i < |outs| && PairIssue(ins[i], outs[i])
  }

  /** `check_military_time`: returns at once on a parse failure, keeps scanning
      after an ordering violation; either way the flag says whether some
      zipped pair is wrong. */
  method CheckMilitaryTime(ins: seq<string>, outs: seq<string>) returns (issue: bool)
    ensures issue == MilitaryIssue(ins, outs)
  {
    issue := false;
    var i := 0;
    while i < |ins| && i < |outs|
      invariant 0 <= i <= |ins| && i <= |outs|
      invariant issue <==> exists j :: 0 <= j < i && PairIssue(ins[j], outs[j])
    {
      var timeIn, timeOut := ParseTime(ins[i]), ParseTime(outs[i]);
      if timeIn.None? || timeOut.None? {
        issue := true;
        return;
      }
      if Minutes(timeOut.value) <= Minutes(timeIn.value) {
        issue := true;
      }
      i := i + 1;
    }
  }

  /** `time in: 24:00` passes the format check (it ends in 00 and is not
      substituted, being an in-time) but does not parse as a time. */
  lemma {:induction false} InTime2400()
    ensures Last2("24:00") in ValidEndings
    ensures ParseTime("24:00").None?
    ensures PairIssue("24:00", "23:59")
  {
    assert "24:00"[..2] == "24";
  }

  // ---------------------------------------------------------------- duration

  function ZipLength(ins: seq<string>, outs: seq<string>): nat {
    if |ins| <= |outs| then |ins| else |outs|
  }

  predicate AllParse(ins: seq<string>, outs: seq<string>) {
    forall i :: 0 <= i < |ins| && i < |outs| ==> ParseTime(ins[i]).Some? && ParseTime(outs[i]).Some?
  }

  /** Minutes from in to out, on one day. */
  function Elapsed(timeIn: string, timeOut: string): int
    requires ParseTime(timeIn).Some? && ParseTime(timeOut).Some?
  {
    Minutes(ParseTime(timeOut).value) - Minutes(ParseTime(timeIn).value)
  }

  /** The sum of the elapsed minutes of the first `n` zipped pairs. */
  function TotalMinutes(ins: seq<string>, outs: seq<string>, n: nat): int
    requires AllParse(ins, outs) && n <= ZipLength(ins, outs)
  {
    if n == 0 then 0 else TotalMinutes(ins, outs, n - 1) + Elapsed(ins[n - 1], outs[n - 1])
  }

  /** `round(m / 15)`: the number of quarter hours nearest to `m` minutes.
      A whole number of minutes is never exactly between two quarters, so
      the half-to-even rule of `round` never applies. */
  function RoundQuarter(m: int): (q: int)
    ensures 15 * q - 7 <= m <= 15 * q + 7
    ensures (q as real) - 0.5 < (m as real) / 15.0 < (q as real) + 0.5
  {
    (m + 7) / 15
  }

  function QuartersToHours(q: int): real { (q as real) / 4.0 }

  /** The commented duration of a comment in quarter hours: only the total is rounded. */
  function CommentedQuarters(ins: seq<string>, outs: seq<string>): int
    requires AllParse(ins, outs)
  {
    RoundQuarter(TotalMinutes(ins, outs, ZipLength(ins, outs)))
  }

  /** `calculate_total_time_difference`; the result `q` stands for `q / 4` hours. */
  method CalculateTotalTimeDifference(ins: seq<string>, outs: seq<string>) returns (quarters: int)
    requires AllParse(ins, outs)
    ensures 15 * quarters - 7 <= TotalMinutes(ins, outs, ZipLength(ins, outs)) <= 15 * quarters + 7
    ensures quarters == CommentedQuarters(ins, outs)
  {
    var total := 0;
    var i := 0;
    while i < |ins| && i < |outs|
      invariant 0 <= i <= ZipLength(ins, outs)
      invariant total == TotalMinutes(ins, outs, i)
    {
      assert ParseTime(ins[i]).Some? && ParseTime(outs[i]).Some?;
      var timeIn, timeOut := ParseTime(ins[i]).value, ParseTime(outs[i]).value;
      assert Minutes(timeOut) - Minutes(timeIn) == Elapsed(ins[i], outs[i]);
      total := total + (Minutes(timeOut) - Minutes(timeIn));
      i := i + 1;
    }
    assert i == ZipLength(ins, outs);
    quarters := RoundQuarter(total);
  }

  /** The repository's unit test: 09:00-12:00 and 13:00-17:00 make 7 hours. */
  lemma {:induction false} SevenHourDay()
    ensures AllParse(["09:00", "13:00"], ["12:00", "17:00"])
    ensures CommentedQuarters(["09:00", "13:00"], ["12:00", "17:00"]) == 28
    ensures QuartersToHours(28) == 7.0
  {
    var ins, outs := ["09:00", "13:00"], ["12:00", "17:00"];
    TestDayLiterals();
    assert AllParse(ins, outs);
    assert TotalMinutes(ins, outs, 1) == 180;
    assert TotalMinutes(ins, outs, 2) == 420;
  }

  lemma {:induction false} TestDayLiterals()
    ensures ParseTime("09:00") == Some(Time(9, 0)) && ParseTime("12:00") == Some(Time(12, 0))
    ensures ParseTime("13:00") == Some(Time(13, 0)) && ParseTime("17:00") == Some(Time(17, 0))
  {
    assert "09:00"[..2] == "09" && "09:00"[3..] == "00";
    assert "13:00"[..2] == "13" && "13:00"[3..] == "00";
    assert "12:00"[..2] == "12" && "12:00"[3..] == "00";
    assert "17:00"[..2] == "17" && "17:00"[3..] == "00";
  }

  // ---------------------------------------------------------------- display

  function ShowIn(t: string): string
    requires ParseTime(t).Some?
  {
    ShowTime(ParseTime(t).value)
  }

  /** The end-of-day sentinel 23:59 is shown as 00:00. */
  function ShowOut(t: string): string
    requires ParseTime(t).Some?
  {
    var s := ShowTime(ParseTime(t).value);
    if s == "23:59" then "00:00" else s
  }

  function Segment(timeIn: string, timeOut: string): string
    requires ParseTime(timeIn).Some? && ParseTime(timeOut).Some?
  {
    "Time in: " + ShowIn(timeIn) + " - Time out: " + ShowOut(timeOut)
  }

  /** What follows the `k`-th pair (counting from 1) of `n`. */
  function Separator(k: nat, n: int): string {
    if k % 2 == 0 && k < n then "\n" else if k < n then "; " else ""
  }

  function Segments(ins: seq<string>, outs: seq<string>): (segs: seq<string>)
    requires AllParse(ins, outs)
    ensures |segs| == ZipLength(ins, outs)
  {
    seq(ZipLength(ins, outs), k requires 0 <= k < ZipLength(ins, outs) => Segment(ins[k], outs[k]))
  }

  /** Segments two to a line: `;` between the two of a line, a newline between lines. */
  function TwoPerLine(segs: seq<string>): string
    decreases |segs|
  {
    if |segs| == 0 then ""
    else if |segs| == 1 then segs[0]
    else if |segs| == 2 then segs[0] + "; " + segs[1]
    else segs[0] + "; " + segs[1] + "\n" + TwoPerLine(segs[2..])
  }

  function Pieces(segs: seq<string>, n: int): seq<string> {
    seq(|segs|, k requires 0 <= k < |segs| => segs[k] + Separator(k + 1, n))
  }

  lemma {:induction false} ConcatFront(a: string, rest: seq<string>)
    ensures Concat([a] + rest) == a + Concat(rest)
    decreases |rest|
  {
    if |rest| > 0 {
      var last := rest[|rest| - 1];
      assert ([a] + rest)[..|rest|] == [a] + rest[..|rest| - 1];
      ConcatFront(a, rest[..|rest| - 1]);
    }
  }

  lemma {:induction false} SeparatorShift(k: nat, n: int)
    ensures Separator(k + 2, n) == Separator(k, n - 2)
  {
    assert (k + 2) % 2 == k % 2;
  }

  /** The pieces of the first two segments, then the pieces of the rest. */
  lemma {:induction false} PiecesSplit(segs: seq<string>, n: int)
    requires 2 <= |segs| <= n
    ensures Pieces(segs, n) == [segs[0] + "; ", segs[1] + Separator(2, n)] + Pieces(segs[2..], n - 2)
  {
    var ps, qs := Pieces(segs, n), Pieces(segs[2..], n - 2);
    forall k | 0 <= k < |qs| ensures ps[k + 2] == qs[k] {
      SeparatorShift(k + 1, n);
    }
  }

  lemma {:induction false} ConcatTwo(a: string, b: string, rest: seq<string>)
    ensures Concat([a, b] + rest) == a + b + Concat(rest)
  {
    assert [a, b] + rest == [a] + ([b] + rest);
    ConcatFront(a, [b] + rest);
    ConcatFront(b, rest);
  }

  /** The per-pair separators of `format_time_pair` group the pairs two to a
      line; when there are more in-times than pairs, the last pair keeps its
      separator. */
  lemma {:induction false} PiecesAreTwoPerLine(segs: seq<string>, n: int)
    requires |segs| <= n
    ensures Concat(Pieces(segs, n)) ==
              TwoPerLine(segs) + (if 0 < |segs| < n then Separator(|segs|, n) else "")
    decreases |segs|
  {
    if |segs| == 1 {
      assert Pieces(segs, n) == [] + [segs[0] + Separator(1, n)];
    } else if |segs| == 2 {
      PiecesOfTwo(segs, n);
    } else if |segs| > 2 {
      PiecesAreTwoPerLine(segs[2..], n - 2);
      PiecesOfMore(segs, n);
    }
  }

  lemma {:induction false} PiecesOfTwo(segs: seq<string>, n: int)
    requires |segs| == 2 <= n
    ensures Concat(Pieces(segs, n)) == TwoPerLine(segs) + (if 2 < n then Separator(2, n) else "")
  {
    var a, b := segs[0], segs[1];
    PiecesSplit(segs, n);
    assert Pieces(segs[2..], n - 2) == [];
    ConcatTwo(a + "; ", b + Separator(2, n), []);
    assert (a + "; ") + (b + Separator(2, n)) == a + "; " + b + Separator(2, n);
  }

  /** Two segments on a line, then the lines of the rest. */
  lemma {:induction false} PiecesOfMore(segs: seq<string>, n: int)
    requires 2 < |segs| <= n
    requires Concat(Pieces(segs[2..], n - 2)) ==
               TwoPerLine(segs[2..]) + (if |segs| - 2 < n - 2 then Separator(|segs| - 2, n - 2) else "")
    ensures Concat(Pieces(segs, n)) == TwoPerLine(segs) + (if |segs| < n then Separator(|segs|, n) else "")
  {
    var a, b, rest := segs[0], segs[1], segs[2..];
    var t, s := TwoPerLine(rest), if |segs| < n then Separator(|segs|, n) else "";
    PiecesSplit(segs, n);
    SeparatorShift(|rest|, n);
    assert Separator(2, n) == "\n";
    ConcatTwo(a + "; ", b + "\n", Pieces(rest, n - 2));
    calc {
      Concat(Pieces(segs, n));
      (a + "; ") + (b + "\n") + (t + s);
      { assert (a + "; ") + (b + "\n") == a + "; " + b + "\n"; }
      (a + "; " + b + "\n") + (t + s);
      a + "; " + b + "\n" + t + s;
      TwoPerLine(segs) + s;
    }
  }

  lemma {:induction false} PiecesSnoc(segs: seq<string>, i: nat, n: int)
    requires i < |segs|
    ensures Pieces(segs[..i + 1], n) == Pieces(segs[..i], n) + [segs[i] + Separator(i + 1, n)]
  {
    assert segs[..i + 1][..i] == segs[..i];
  }

  /** `format_time_pair`. */
  method FormatTimePair(ins: seq<string>, outs: seq<string>) returns (r: string)
    requires AllParse(ins, outs)
    ensures r == Display(ins, outs)
  {
    var formatted: seq<string> := [];
    var index := 0;
    while index < |ins| && index < |outs|
      invariant 0 <= index <= ZipLength(ins, outs)
      invariant formatted == Pieces(Segments(ins, outs)[..index], |ins|)
    {
      ghost var segs := Segments(ins, outs);
      var pair := "Time in: " + ShowIn(ins[index]) + " - Time out: " + ShowOut(outs[index]);
      assert pair == segs[index];
      if (index + 1) % 2 == 0 && index < |ins| - 1 {
        pair := pair + "\n";
      } else if index < |ins| - 1 {
        pair := pair + "; ";
      } else {
        assert pair == pair + "";
      }
      assert pair == segs[index] + Separator(index + 1, |ins|);
      PiecesSnoc(segs, index, |ins|);
      formatted := formatted + [pair];
      index := index + 1;
    }
    ghost var segs := Segments(ins, outs);
    assert index == |segs| && segs[..index] == segs;
    PiecesAreTwoPerLine(segs, |ins|);
    r := Concat(formatted);
  }

  /** The display string of a comment: its segments two to a line, with the
      separator of the last pair kept when some in-time has no out-time. */
  function Display(ins: seq<string>, outs: seq<string>): string
    requires AllParse(ins, outs)
  {
    TwoPerLine(Segments(ins, outs)) +
    (if 0 < ZipLength(ins, outs) < |ins| then Separator(ZipLength(ins, outs), |ins|) else "")
  }

  /** A segment shows the in-time and the out-time zero-padded, and reading
      the fields back gives the parsed times, except that an out-time of
      23:59 reads back as 00:00. */
  lemma {:induction false} SegmentShowsTimes(timeIn: string, timeOut: string)
    requires ParseTime(timeIn).Some? && ParseTime(timeOut).Some?
    ensures |Segment(timeIn, timeOut)| == 32
    ensures ParseTime(Segment(timeIn, timeOut)[9..14]) == ParseTime(timeIn)
    ensures ParseTime(Segment(timeIn, timeOut)[27..32]) ==
              if ParseTime(timeOut) == Some(Time(23, 59)) then Some(Time(0, 0)) else ParseTime(timeOut)
  {
    SegmentFields(timeIn, timeOut);
    ShowTimeParses(ParseTime(timeIn).value);
    ShowOutParses(timeOut);
  }

  /** Where the two times sit in a segment. */
  lemma {:induction false} SegmentFields(timeIn: string, timeOut: string)
    requires ParseTime(timeIn).Some? && ParseTime(timeOut).Some?
    ensures |Segment(timeIn, timeOut)| == 32
    ensures Segment(timeIn, timeOut)[9..14] == ShowIn(timeIn)
    ensures Segment(timeIn, timeOut)[27..32] == ShowOut(timeOut)
  {
    var a, b := ShowIn(timeIn), ShowOut(timeOut);
    assert |a| == 5 && |b| == 5;
    var seg := "Time in: " + a + " - Time out: " + b;
    assert seg == Segment(timeIn, timeOut);
    assert seg[9..14] == a;
    assert seg[27..32] == b;
  }

  /** Reading back a shown out-time gives the time read, except 23:59. */
  lemma {:induction false} ShowOutParses(t: string)
    requires ParseTime(t).Some?
    ensures ParseTime(ShowOut(t)) ==
              if ParseTime(t) == Some(Time(23, 59)) then Some(Time(0, 0)) else ParseTime(t)
  {
    var b := ParseTime(t).value;
    ShowTimeParses(b);
    EndOfDayLiterals();
  }

  lemma {:induction false} EndOfDayLiterals()
    ensures ShowTime(Time(23, 59)) == "23:59"
    ensures ParseTime("23:59") == Some(Time(23, 59))
    ensures ParseTime("00:00") == Some(Time(0, 0))
  {
    assert "23:59"[..2] == "23" && "23:59"[3..] == "59";
    assert "00:00"[..2] == "00" && "00:00"[3..] == "00";
  }
  // ------------------------------------------------------------------ examples

  /** A comment holding one pair written the usual way, with a two-digit
      in-hour, yields that pair and exactly two standalone time tokens. */
  lemma {:induction false} OnePairComment(text: string, a: string)
    requires |a| == 5 && IsTimeShape(a) && text == "time in: " + a + " - time out: 17:00"
    ensures Pairs(text) == [PairMatch(0, 32, a, "17:00")]
    ensures TokenCount(text) == 2
  {
    ExamplePairAt(text, a);
    var pends := Table(PairPattern, text);
    assert FindAll(pends, 0) == [Span(0, 32)] + FindAll(pends, 32);
    assert Pairs(text) == [PairAt(text, 0).value];
    ExampleTokens(text, a);
  }

  lemma {:induction false} ExamplePairAt(s: string, a: string)
    requires |a| == 5 && IsTimeShape(a) && s == "time in: " + a + " - time out: 17:00"
    ensures PairAt(s, 0) == Some(PairMatch(0, 32, a, "17:00"))
  {
    ExamplePieces();
    assert s[0..9] == "time in: ";
    assert s[9..14] == a;
    var t := s[14..32];
    assert t == " - time out: 17:00";
    assert s[14..17] == t[..3];
    assert s[17..27] == t[3..13];
    assert s[27..32] == t[13..];
    PairWrittenAt(s, 0, 9, 14, 17, 27, 32, "time in", ":", " ", a, " ", "-", " ", "time out", ":", " ", "17:00");
  }

  lemma {:induction false} ExamplePieces()
    ensures "time in: " == "time in" + ":" + " "
    ensures " - time out: 17:00"[..3] == " " + "-" + " "
    ensures " - time out: 17:00"[3..13] == "time out" + ":" + " "
    ensures " - time out: 17:00"[13..] == "17:00"
  {
  }

  lemma {:induction false} ExampleTokens(s: string, a: string)
    requires |a| == 5 && IsTimeShape(a) && s == "time in: " + a + " - time out: 17:00"
    ensures TokenCount(s) == 2
  {
    var tends := Table(TokenPattern, s);
    assert s[..9] == "time in: ";
    NoTokensIn(s, 0, "time in: ");
    TokenFound(s[..9], a, s[14..]);
    assert s == s[..9] + a + s[14..];
    assert s[14..27] == " - time out: ";
    NoTokensIn(s, 14, " - time out: ");
    TokenFound(s[..27], "17:00", "");
    assert s == s[..27] + "17:00" + "";
    assert IsFindAll(tends, 32, []);
    assert IsFindAll(tends, 14, [Span(27, 32)]);
    FindAllUnique(tends, 0, [Span(9, 14), Span(27, 32)]);
  }

  /** Such a comment is flagged exactly when its in-time has a bad ending. */
  lemma {:induction false} OnePairFlag(text: string, a: string)
    requires |a| == 5 && IsTimeShape(a) && text == "time in: " + a + " - time out: 17:00"
    ensures FormatIssue(text) <==> BadEnding(a)
  {
    OnePairComment(text, a);
    var x := ExtractTimePairs(text);
    assert |x.ins| == |x.outs| == 1 && x.ins[0] == a && x.outs[0] == "17:00" && !x.formatIssue;
    assert Last2("17:00") == ValidEndings[0];
    FlagOfEqualCounts(x);
    if BadEnding(a) {
      assert BadEnding(x.ins[0]);
    }
  }

  /** A pair on the hour passes the format check. */
  lemma {:induction false} OnTheHourPasses()
    ensures !FormatIssue("time in: 09:00 - time out: 17:00")
  {
    assert "time in: 09:00 - time out: 17:00" == "time in: " + "09:00" + " - time out: 17:00";
    OnePairFlag("time in: 09:00 - time out: 17:00", "09:00");
    assert Last2("09:00") == ValidEndings[0];
  }

  /** A pair at ten past the hour fails it: 10 is no quarter-hour ending. */
  lemma {:induction false} TenPastIsFlagged()
    ensures FormatIssue("time in: 09:10 - time out: 17:00")
  {
    assert "time in: 09:10 - time out: 17:00" == "time in: " + "09:10" + " - time out: 17:00";
    OnePairFlag("time in: 09:10 - time out: 17:00", "09:10");
    assert Last2("09:10") == "10";
  }
}
