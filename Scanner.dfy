/**
 * A left-to-right scanner for the two regular expressions of
 * `extract_time_pairs`:
 *
 *   the pair pattern   time in:?\s*(\d{1,2}:\d{2})\s*[-,–]?\s*time out:?\s*(\d{1,2}:\d{2})
 *                      (case-insensitive), and
 *   the token pattern  \b\d{1,2}:\d{2}\b.
 *
 * Neither pattern can match in two different ways at one position (every
 * optional or repeated part is followed by a character it cannot consume),
 * so each is written as a function giving the one match, if any, that starts
 * at a position. `FindAll` is `re.findall`: leftmost matches, not
 * overlapping, in text order.
 */
module Scanner {
  import opened Wrappers
  import opened Strings
  import opened Clock

  /** `\d{1,2}:\d{2}` at position `q`; the end of the match. */
  function TimeEnd(s: string, q: nat): (r: Option<nat>)
    ensures r.Some? ==> q < r.value <= |s| && IsTimeShape(s[q..r.value])
  {
    if q + 5 <= |s| && IsDigit(s[q]) && IsDigit(s[q + 1]) && s[q + 2] == ':'
       && IsDigit(s[q + 3]) && IsDigit(s[q + 4]) then Some(q + 5)
    else if q + 4 <= |s| && IsDigit(s[q]) && s[q + 1] == ':'
       && IsDigit(s[q + 2]) && IsDigit(s[q + 3]) then Some(q + 4)
    else None
  }

  /** `\s*` at position `q`: the first position at or after `q` that is not whitespace. */
  function SkipSpaces(s: string, q: nat): (r: nat)
    requires q <= |s|
    ensures q <= r <= |s| && (r == |s| || !IsSpace(s[r]))
    ensures forall k :: q <= k < r ==> IsSpace(s[k])
    decreases |s| - q
  {
    if q < |s| && IsSpace(s[q]) then SkipSpaces(s, q + 1) else q
  }

  /** The lower-case literal `lit` at position `q`, letters compared without case. */
  predicate LiteralAt(s: string, q: nat, lit: string) {
    q + |lit| <= |s| && forall k :: 0 <= k < |lit| ==> LowerAscii(s[q + k]) == lit[k]
  }

  /** `:?` at position `q`. */
  function OptColon(s: string, q: nat): (r: nat)
    requires q <= |s|
    ensures q <= r <= |s|
  {
    if q < |s| && s[q] == ':' then q + 1 else q
  }

  predicate IsSeparator(c: char) { c == '-' || c == ',' || c == '\U{2013}' }

  /** One match of the pair pattern: where it starts and ends and the text of
      its two groups. */
  datatype PairMatch = PairMatch(start: nat, end: nat, timeIn: string, timeOut: string)

  /** The pair pattern at position `q`. */
  function PairAt(s: string, q: nat): (r: Option<PairMatch>)
    ensures r.Some? ==> r.value.start == q < r.value.end <= |s|
    ensures r.Some? ==> IsTimeShape(r.value.timeIn) && IsTimeShape(r.value.timeOut)
    ensures r.Some? ==> LiteralAt(s, q, "time in")
  {
    if q > |s| || !LiteralAt(s, q, "time in") then None
    else InTimeFrom(s, q, SkipSpaces(s, OptColon(s, q + 7)))
  }

  /** The rest of the pair pattern from the in-time, which should start at `a`. */
  function InTimeFrom(s: string, q: nat, a: nat): (r: Option<PairMatch>)
    requires q <= a <= |s|
    ensures r.Some? ==> r.value.start == q < r.value.end <= |s|
    ensures r.Some? ==> IsTimeShape(r.value.timeIn) && IsTimeShape(r.value.timeOut)
  {
    match TimeEnd(s, a)
    case None => None
    case Some(b) => OutFrom(s, q, s[a..b], SeparatorEnd(s, b))
  }

  /** `\s*[-,–]?\s*` at position `p`: where the text after it starts. */
  function SeparatorEnd(s: string, p: nat): (d: nat)
    requires p <= |s|
    ensures p <= d <= |s|
  {
    var c := SkipSpaces(s, p);
    SkipSpaces(s, if c < |s| && IsSeparator(s[c]) then c + 1 else c)
  }

  /** The rest from the `time out` literal, which should start at `d`, once
      the in-time `timeIn` is matched. */
  function OutFrom(s: string, q: nat, timeIn: string, d: nat): (r: Option<PairMatch>)
    requires q < d <= |s| && IsTimeShape(timeIn)
    ensures r.Some? ==> r.value.start == q < r.value.end <= |s|
    ensures r.Some? ==> IsTimeShape(r.value.timeIn) && IsTimeShape(r.value.timeOut)
  {
    if !LiteralAt(s, d, "time out") then None
    else
      var e := SkipSpaces(s, OptColon(s, d + 8));
      match TimeEnd(s, e)
      case None => None
      case Some(f) => Some(PairMatch(q, f, timeIn, s[e..f]))
  }

  /** `\b` before a digit at `q` and after a digit before `e`. */
  predicate WordBoundaryBefore(s: string, q: nat) { q == 0 || (q <= |s| && !IsWordChar(s[q - 1])) }
  predicate WordBoundaryAfter(s: string, e: nat) { e == |s| || (e < |s| && !IsWordChar(s[e])) }

  /** The token pattern at position `q`; the end of the match. */
  function TokenEnd(s: string, q: nat): (r: Option<nat>)
    ensures r.Some? ==> q < r.value <= |s| && IsTimeShape(s[q..r.value])
    ensures r.Some? ==> WordBoundaryBefore(s, q) && WordBoundaryAfter(s, r.value)
  {
    if !WordBoundaryBefore(s, q) then None
    else match TimeEnd(s, q)
      case Some(e) => if WordBoundaryAfter(s, e) then Some(e) else None
      case None => None
  }

  datatype Pattern = PairPattern | TokenPattern

  function MatchEnd(pat: Pattern, s: string, q: nat): (r: Option<nat>)
    ensures r.Some? ==> q < r.value <= |s|
  {
    match pat
    case PairPattern => (match PairAt(s, q) case Some(m) => Some(m.end) case None => None)
    case TokenPattern => TokenEnd(s, q)
  }

  datatype Span = Span(start: nat, end: nat)

  /** The end of the match, if any, that starts at each position of a text. */
  type MatchTable = seq<Option<nat>>

  ghost predicate Advancing(ends: MatchTable) {
    forall q :: 0 <= q < |ends| && ends[q].Some? ==> q < ends[q].value <= |ends|
  }

  function Table(pat: Pattern, s: string): (ends: MatchTable)
    ensures |ends| == |s| && Advancing(ends)
    ensures forall q :: 0 <= q < |s| ==> ends[q] == MatchEnd(pat, s, q)
  {
    seq(|s|, q requires 0 <= q < |s| => MatchEnd(pat, s, q))
  }

  ghost predicate NoMatchIn(ends: MatchTable, a: nat, b: nat) {
    forall q :: a <= q < b && q < |ends| ==> ends[q].None?
  }

  /** `ms` is what `re.findall` finds from position `p`: the first span starts
      at the leftmost match at or after `p`, no match starts between `p` and
      it, and the rest is what is found from the end of that match on; with
      no span, no match starts at or after `p`. */
  ghost predicate IsFindAll(ends: MatchTable, p: nat, ms: seq<Span>)
    decreases |ms|
  {
    p <= |ends| &&
    if |ms| == 0 then NoMatchIn(ends, p, |ends|)
    else
      && p <= ms[0].start < |ends|
      && NoMatchIn(ends, p, ms[0].start)
      && ends[ms[0].start] == Some(ms[0].end)
      && IsFindAll(ends, ms[0].end, ms[1..])
  }

  /** `re.findall` over a text whose match table is `ends`, from position `p`. */
  function FindAll(ends: MatchTable, p: nat): (ms: seq<Span>)
    requires Advancing(ends) && p <= |ends|
    ensures IsFindAll(ends, p, ms)
    decreases |ends| - p
  {
    if p == |ends| then []
    else match ends[p]
      case Some(e) => [Span(p, e)] + FindAll(ends, e)
      case None => FindAll(ends, p + 1)
  }

  /** Only one sequence of spans meets the description of `re.findall`. */
  lemma {:induction false} FindAllUnique(ends: MatchTable, p: nat, ms: seq<Span>)
    requires Advancing(ends) && IsFindAll(ends, p, ms)
    ensures ms == FindAll(ends, p)
    decreases |ends| - p
  {
    if p < |ends| {
      match ends[p]
      case Some(e) =>
        assert |ms| > 0 && ms[0].start == p;
        FindAllUnique(ends, e, ms[1..]);
        assert ms == [Span(p, e)] + ms[1..];
      case None =>
        assert |ms| > 0 ==> p < ms[0].start;
        FindAllUnique(ends, p + 1, ms);
    }
  }

  /** Every span of a `re.findall` result is a match, and the spans follow
      one another in text order. */
  lemma {:induction false} FindAllSpans(ends: MatchTable, p: nat, ms: seq<Span>)
    requires Advancing(ends) && IsFindAll(ends, p, ms)
    ensures forall i :: 0 <= i < |ms| ==> p <= ms[i].start < |ends| && ends[ms[i].start] == Some(ms[i].end)
    ensures forall i, j :: 0 <= i < j < |ms| ==> ms[i].end <= ms[j].start
    decreases |ms|
  {
    if |ms| > 0 {
      FindAllSpans(ends, ms[0].end, ms[1..]);
      assert forall i :: 1 <= i < |ms| ==> ms[i] == ms[1..][i - 1];
    }
  }

  /** The matches of the pair pattern in `text`, in text order. */
  function Pairs(text: string): (r: seq<PairMatch>) {
    var ends := Table(PairPattern, text);
    var spans := FindAll(ends, 0);
    FindAllSpans(ends, 0, spans);
    assert forall i :: 0 <= i < |spans| ==> PairMatchesSpan(text, spans[i]);
    seq(|spans|, i requires 0 <= i < |spans| => PairAt(text, spans[i].start).value)
  }

  /** Every element of `Pairs(text)` is the pair match starting where it
      starts, and the matches do not overlap and come in text order. */
  lemma {:induction false} PairsAreMatches(text: string)
    ensures forall i :: 0 <= i < |Pairs(text)| ==> PairAt(text, Pairs(text)[i].start) == Some(Pairs(text)[i])
    ensures forall i, j :: 0 <= i < j < |Pairs(text)| ==> Pairs(text)[i].end <= Pairs(text)[j].start
  {
    var ends := Table(PairPattern, text);
    var spans := FindAll(ends, 0);
    FindAllSpans(ends, 0, spans);
    var ps := Pairs(text);
    assert |ps| == |spans|;
    forall i | 0 <= i < |ps| ensures PairMatchesSpan(text, spans[i]) && ps[i] == PairAt(text, spans[i].start).value {
      assert ends[spans[i].start] == Some(spans[i].end);
    }
    forall i | 0 <= i < |ps| ensures PairAt(text, ps[i].start) == Some(ps[i]) {
      assert ps[i].start == spans[i].start;
    }
    forall i, j | 0 <= i < j < |ps| ensures ps[i].end <= ps[j].start {
      assert ps[i].end == spans[i].end && ps[j].start == spans[j].start;
    }
  }

  predicate PairMatchesSpan(text: string, sp: Span) {
    && PairAt(text, sp.start).Some?
    && PairAt(text, sp.start).value.start == sp.start
    && PairAt(text, sp.start).value.end == sp.end
  }

  // ---------------------------------------------------------------- what the patterns find

  predicate AllSpaces(w: string) { forall k :: 0 <= k < |w| ==> IsSpace(w[k]) }

  /** Nothing, or one colon: what `:?` matches. */
  predicate IsOptColon(c: string) { |c| <= 1 && (|c| == 1 ==> c[0] == ':') }

  /** Nothing, or one of `-`, `,` and `–`: what `[-,–]?` matches. */
  predicate IsOptSeparator(x: string) { |x| <= 1 && (|x| == 1 ==> IsSeparator(x[0])) }

  /** `w` is the literal `lit` written in any mix of upper and lower case. */
  predicate Spells(w: string, lit: string) {
    |w| == |lit| && forall k :: 0 <= k < |w| ==> LowerAscii(w[k]) == lit[k]
  }

  /** A run of whitespace followed by a non-space (or the end) is skipped whole. */
  lemma {:induction false} SkipRun(s: string, q: nat, n: nat)
    requires q + n <= |s| && (forall k :: q <= k < q + n ==> IsSpace(s[k]))
    requires q + n == |s| || !IsSpace(s[q + n])
    ensures SkipSpaces(s, q) == q + n
    decreases n
  {
    if n > 0 {
      SkipRun(s, q + 1, n - 1);
    }
  }

  /** The whitespace `w`, written at `p` and followed by a non-space, is skipped whole. */
  lemma {:induction false} SpacesAt(s: string, p: nat, w: string)
    requires AllSpaces(w) && p + |w| <= |s| && s[p..p + |w|] == w
    requires p + |w| == |s| || !IsSpace(s[p + |w|])
    ensures SkipSpaces(s, p) == p + |w|
  {
    assert forall k :: p <= k < p + |w| ==> s[k] == w[k - p];
    SkipRun(s, p, |w|);
  }

  /** A time written `H:MM` or `HH:MM` at `p` is matched whole by `\d{1,2}:\d{2}`. */
  lemma {:induction false} TimeAt(s: string, p: nat, a: string)
    requires IsTimeShape(a) && p + |a| <= |s| && s[p..p + |a|] == a
    ensures TimeEnd(s, p) == Some(p + |a|)
  {
    assert forall k :: 0 <= k < |a| ==> s[p + k] == a[k];
  }

  /** A keyword spelling `lit`, an optional colon and whitespace, written at
      `q` before a character that is neither whitespace nor a colon. */
  lemma {:induction false} KeywordAt(s: string, q: nat, lit: string, k: string, c: string, w: string)
    requires Spells(k, lit) && IsOptColon(c) && AllSpaces(w)
    requires q + |k + c + w| < |s| && s[q..q + |k + c + w|] == k + c + w
    requires !IsSpace(s[q + |k + c + w|]) && s[q + |k + c + w|] != ':'
    ensures LiteralAt(s, q, lit) && SkipSpaces(s, OptColon(s, q + |lit|)) == q + |k + c + w|
  {
    var h := k + c + w;
    var p := q + |h|;
    var p2 := q + |k| + |c|;
    assert s[q..q + |k|] == h[..|k|] == k;
    assert forall n :: 0 <= n < |k| ==> s[q + n] == k[n];
    if c == "" {
      assert s[q + |k|] == if |w| > 0 then w[0] else s[p];
    } else {
      assert s[q + |k|] == h[|k|] == ':';
    }
    assert s[p2..p] == h[|k| + |c|..] == w;
    SpacesAt(s, p2, w);
  }

  /** `\s*[-,–]?\s*`, written at `p` before a `t` or `T`, is skipped whole. */
  lemma {:induction false} SeparatorAt(s: string, p: nat, w2: string, sep: string, w3: string)
    requires IsOptSeparator(sep) && AllSpaces(w2) && AllSpaces(w3)
    requires p + |w2 + sep + w3| < |s| && s[p..p + |w2 + sep + w3|] == w2 + sep + w3
    requires LowerAscii(s[p + |w2 + sep + w3|]) == 't'
    ensures SeparatorEnd(s, p) == p + |w2 + sep + w3|
  {
    LetterT(s[p + |w2 + sep + w3|]);
    if |sep| == 0 {
      assert w2 + sep + w3 == w2 + w3;
      NoSeparatorAt(s, p, w2, w3);
    } else {
      OneSeparatorAt(s, p, w2, sep[0], w3);
      assert w2 + sep + w3 == w2 + [sep[0]] + w3;
    }
  }

  lemma {:induction false} NoSeparatorAt(s: string, p: nat, w2: string, w3: string)
    requires AllSpaces(w2) && AllSpaces(w3)
    requires p + |w2 + w3| < |s| && s[p..p + |w2 + w3|] == w2 + w3
    requires !IsSpace(s[p + |w2 + w3|]) && !IsSeparator(s[p + |w2 + w3|])
    ensures SeparatorEnd(s, p) == p + |w2 + w3|
  {
    var m := w2 + w3;
    assert AllSpaces(m) by {
      assert forall k :: 0 <= k < |m| ==> m[k] == if k < |w2| then w2[k] else w3[k - |w2|];
    }
    SpacesAt(s, p, m);
  }

  lemma {:induction false} OneSeparatorAt(s: string, p: nat, w2: string, x: char, w3: string)
    requires IsSeparator(x) && AllSpaces(w2) && AllSpaces(w3)
    requires p + |w2 + [x] + w3| < |s| && s[p..p + |w2 + [x] + w3|] == w2 + [x] + w3
    requires !IsSpace(s[p + |w2 + [x] + w3|])
    ensures SeparatorEnd(s, p) == p + |w2 + [x] + w3|
  {
    var m := w2 + [x] + w3;
    var c := p + |w2|;
    assert s[p..c] == m[..|w2|] == w2;
    assert s[c] == m[|w2|] == x;
    assert s[c + 1..p + |m|] == m[|w2| + 1..] == w3;
    SpacesAt(s, p, w2);
    SpacesAt(s, c + 1, w3);
  }

  /** A `t` or `T` is neither whitespace nor a separator. */
  lemma {:induction false} LetterT(c: char)
    requires LowerAscii(c) == 't'
    ensures !IsSpace(c) && !IsSeparator(c)
  {
    assert c == 't' || c == 'T';
  }

  /** The pair pattern finds every pair written in its form: `time in` in any
      case, an optional colon, whitespace, the in-time, whitespace, at most
      one of `-`, `,` and `–`, whitespace, `time out`, an optional colon,
      whitespace and the out-time. The match spans exactly that text and its
      groups are the two times as written, whatever text comes before or
      after. */
  lemma {:induction false} PairFound(pre: string, kin: string, c1: string, w1: string, a: string, w2: string,
                                     sep: string, w3: string, kout: string, c2: string, w4: string, b: string, post: string)
    requires Spells(kin, "time in") && Spells(kout, "time out")
    requires IsOptColon(c1) && IsOptColon(c2) && IsOptSeparator(sep)
    requires AllSpaces(w1) && AllSpaces(w2) && AllSpaces(w3) && AllSpaces(w4)
    requires IsTimeShape(a) && IsTimeShape(b)
    ensures var s := pre + kin + c1 + w1 + a + w2 + sep + w3 + kout + c2 + w4 + b + post;
            PairAt(s, |pre|) == Some(PairMatch(|pre|, |s| - |post|, a, b))
  {
    var s := pre + kin + c1 + w1 + a + w2 + sep + w3 + kout + c2 + w4 + b + post;
    var head, between, tail := kin + c1 + w1, w2 + sep + w3, kout + c2 + w4;
    var t := pre + head + a + between + tail + b + post;
    Regroup(pre, kin, c1, w1, a, w2, sep, w3, kout, c2, w4, b, post);
    assert s == t;
    Slices(pre, head, a, between, tail, b, post);
    var p3 := |pre| + |head|;
    var p4 := p3 + |a|;
    var d := p4 + |between|;
    var p10 := d + |tail|;
    PairWrittenAt(t, |pre|, p3, p4, d, p10, p10 + |b|, kin, c1, w1, a, w2, sep, w3, kout, c2, w4, b);
  }

  /** `PairFound` by position: the pieces of a pair laid out in `s` from `q`. */
  lemma {:induction false} PairWrittenAt(s: string, q: nat, p3: nat, p4: nat, d: nat, p10: nat, p11: nat,
                                         kin: string, c1: string, w1: string, a: string, w2: string, sep: string,
                                         w3: string, kout: string, c2: string, w4: string, b: string)
    requires Spells(kin, "time in") && Spells(kout, "time out")
    requires IsOptColon(c1) && IsOptColon(c2) && IsOptSeparator(sep)
    requires AllSpaces(w1) && AllSpaces(w2) && AllSpaces(w3) && AllSpaces(w4)
    requires IsTimeShape(a) && IsTimeShape(b)
    requires p3 == q + |kin + c1 + w1| && p4 == p3 + |a| && d == p4 + |w2 + sep + w3|
    requires p10 == d + |kout + c2 + w4| && p11 == p10 + |b| && p11 <= |s|
    requires s[q..p3] == kin + c1 + w1 && s[p3..p4] == a && s[p4..d] == w2 + sep + w3
    requires s[d..p10] == kout + c2 + w4 && s[p10..p11] == b
    ensures PairAt(s, q) == Some(PairMatch(q, p11, a, b))
  {
    InHalfAt(s, q, p3, p4, "time in", 7, kin, c1, w1, a);
    SeparatorAndOutAt(s, q, a, p4, d, p10, p11, w2, sep, w3, kout, c2, w4, b);
    assert InTimeFrom(s, q, p3) == Some(PairMatch(q, p11, a, b));
  }

  /** What follows the in-time: the separator and the out-half. */
  lemma {:induction false} SeparatorAndOutAt(s: string, q: nat, timeIn: string, p4: nat, d: nat, p10: nat, p11: nat,
                                             w2: string, sep: string, w3: string, kout: string, c2: string,
                                             w4: string, b: string)
    requires q < p4 && IsTimeShape(timeIn)
    requires Spells(kout, "time out") && IsOptColon(c2) && IsOptSeparator(sep)
    requires AllSpaces(w2) && AllSpaces(w3) && AllSpaces(w4) && IsTimeShape(b)
    requires d == p4 + |w2 + sep + w3| && p10 == d + |kout + c2 + w4| && p11 == p10 + |b| && p11 <= |s|
    requires s[p4..d] == w2 + sep + w3 && s[d..p10] == kout + c2 + w4 && s[p10..p11] == b
    ensures SeparatorEnd(s, p4) == d
    ensures OutFrom(s, q, timeIn, d) == Some(PairMatch(q, p11, timeIn, b))
  {
    assert s[d] == kout[0];
    SeparatorAt(s, p4, w2, sep, w3);
    OutAt(s, q, timeIn, d, p10, p11, kout, c2, w4, b);
  }

  /** The out-half: `time out`, an optional colon, whitespace and the out-time. */
  lemma {:induction false} OutAt(s: string, q: nat, timeIn: string, d: nat, p10: nat, p11: nat,
                                 kout: string, c2: string, w4: string, b: string)
    requires q < d && IsTimeShape(timeIn)
    requires Spells(kout, "time out") && IsOptColon(c2) && AllSpaces(w4) && IsTimeShape(b)
    requires p10 == d + |kout + c2 + w4| && p11 == p10 + |b| && p11 <= |s|
    requires s[d..p10] == kout + c2 + w4 && s[p10..p11] == b
    ensures OutFrom(s, q, timeIn, d) == Some(PairMatch(q, p11, timeIn, b))
  {
    InHalfAt(s, d, p10, p11, "time out", 8, kout, c2, w4, b);
  }

  lemma {:induction false} Regroup(pre: string, kin: string, c1: string, w1: string, a: string, w2: string,
                                   sep: string, w3: string, kout: string, c2: string, w4: string, b: string, post: string)
    ensures pre + kin + c1 + w1 + a + w2 + sep + w3 + kout + c2 + w4 + b + post ==
            pre + (kin + c1 + w1) + a + (w2 + sep + w3) + (kout + c2 + w4) + b + post
  {
  }

  /** The seven pieces of a pair's text, by position. */
  lemma {:induction false} Slices(pre: string, head: string, a: string, between: string, tail: string, b: string, post: string)
    ensures var s := pre + head + a + between + tail + b + post;
            var p3 := |pre| + |head|;
            var p4 := p3 + |a|;
            var d := p4 + |between|;
            var p10 := d + |tail|;
            && s[|pre|..p3] == head && s[p3..p4] == a && s[p4..d] == between
            && s[d..p10] == tail && s[p10..p10 + |b|] == b && |s| - |post| == p10 + |b|
  {
    var s := pre + head + a + between + tail + b + post;
    var p3 := |pre| + |head|;
    var p4 := p3 + |a|;
    var d := p4 + |between|;
    var p10 := d + |tail|;
    assert s[..p10 + |b|] == pre + head + a + between + tail + b;
    assert s[..p10] == pre + head + a + between + tail;
    assert s[..d] == pre + head + a + between;
    assert s[..p4] == pre + head + a;
    assert s[..p3] == pre + head;
  }

  /** A keyword spelling `lit`, an optional colon, whitespace and a time,
      written at `q`: the literal is found, the scan reaches the time at `p`,
      and the time ends at `e`. */
  lemma {:induction false} InHalfAt(s: string, q: nat, p: nat, e: nat, lit: string, n: nat, k: string, c: string, w: string, a: string)
    requires n == |lit| && Spells(k, lit) && IsOptColon(c) && AllSpaces(w) && IsTimeShape(a)
    requires p == q + |k + c + w| && e == p + |a| <= |s|
    requires s[q..p] == k + c + w && s[p..e] == a
    ensures LiteralAt(s, q, lit) && SkipSpaces(s, OptColon(s, q + n)) == p && TimeEnd(s, p) == Some(e)
  {
    assert s[p] == a[0];
    KeywordAt(s, q, lit, k, c, w);
    TimeAt(s, p, a);
  }

  /** The token pattern finds every time written `H:MM` or `HH:MM` that has
      no letter, digit or underscore right before or right after it. */
  lemma {:induction false} TokenFound(pre: string, a: string, post: string)
    requires IsTimeShape(a)
    requires |pre| == 0 || !IsWordChar(pre[|pre| - 1])
    requires |post| == 0 || !IsWordChar(post[0])
    ensures TokenEnd(pre + a + post, |pre|) == Some(|pre| + |a|)
  {
    var s := pre + a + post;
    assert s[|pre|..|pre| + |a|] == a;
    TimeAt(s, |pre|, a);
    if |pre| > 0 { assert s[|pre| - 1] == pre[|pre| - 1]; }
    if |post| > 0 { assert s[|pre| + |a|] == post[0]; }
  }

  /** No token starts inside text that holds no digit. */
  lemma {:induction false} NoTokensIn(s: string, lo: nat, w: string)
    requires lo + |w| <= |s| && s[lo..lo + |w|] == w
    requires forall k :: 0 <= k < |w| ==> !IsDigit(w[k])
    ensures NoMatchIn(Table(TokenPattern, s), lo, lo + |w|)
  {
    forall q | lo <= q < lo + |w| ensures TokenEnd(s, q).None? {
      assert s[q] == w[q - lo];
    }
  }

  /** The number of standalone `H:MM` / `HH:MM` tokens in `text`. */
  function TokenCount(text: string): nat {
    |FindAll(Table(TokenPattern, text), 0)|
  }
}
