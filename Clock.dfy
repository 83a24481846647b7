/**
 * Times of day as `pd.to_datetime(t, format='%H:%M').time()` reads them and
 * as `strftime('%H:%M')` writes them.
 */
module Clock {
  import opened Wrappers
  import opened Strings

  datatype Time = Time(hour: nat, minute: nat)

  predicate IsClockTime(t: Time) { t.hour <= 23 && t.minute <= 59 }

  /** Minutes since midnight. */
  function Minutes(t: Time): nat { 60 * t.hour + t.minute }

  /** The value of one or two decimal digits. */
  function FieldValue(ds: string): nat
    requires 1 <= |ds| <= 2 && forall k :: 0 <= k < |ds| ==> IsDigit(ds[k])
  {
    if |ds| == 1 then DigitValue(ds[0]) else 10 * DigitValue(ds[0]) + DigitValue(ds[1])
  }

  predicate IsField(ds: string) {
    1 <= |ds| <= 2 && forall k :: 0 <= k < |ds| ==> IsDigit(ds[k])
  }

  /** The shape `\d{1,2}:\d{2}` of every time the comment scanner extracts. */
  predicate IsTimeShape(t: string) {
    (|t| == 4 && IsDigit(t[0]) && t[1] == ':' && IsDigit(t[2]) && IsDigit(t[3])) ||
    (|t| == 5 && IsDigit(t[0]) && IsDigit(t[1]) && t[2] == ':' && IsDigit(t[3]) && IsDigit(t[4]))
  }

  /** Parsing with format `%H:%M`: the whole string must be an hour of one or
      two digits (00..23), a colon and a minute of one or two digits (00..59);
      anything else raises, which is `None` here. */
  function ParseTime(t: string): (r: Option<Time>)
    ensures r.Some? ==> IsClockTime(r.value)
    ensures IsTimeShape(t) ==>
              (r.Some? <==> FieldValue(t[..|t| - 3]) <= 23 && FieldValue(t[|t| - 2..]) <= 59)
    ensures IsTimeShape(t) && r.Some? ==> r.value == Time(FieldValue(t[..|t| - 3]), FieldValue(t[|t| - 2..]))
  {
    var c := if |t| >= 2 && t[1] == ':' then 1 else if |t| >= 3 && t[2] == ':' then 2 else 0;
    if c == 0 then None
    else
      var h, m := t[..c], t[c + 1..];
      if IsField(h) && IsField(m) && FieldValue(h) <= 23 && FieldValue(m) <= 59
      then Some(Time(FieldValue(h), FieldValue(m)))
      else None
  }

  /** `strftime('%H:%M')`: both fields zero-padded to two digits. */
  function ShowTime(t: Time): (s: string)
    requires IsClockTime(t)
    ensures |s| == 5 && s[2] == ':' && IsTimeShape(s)
  {
    Pad2(t.hour) + ":" + Pad2(t.minute)
  }

  /** Writing a time and reading it back gives the same time. */
  lemma {:induction false} ShowTimeParses(t: Time)
    requires IsClockTime(t)
    ensures ParseTime(ShowTime(t)) == Some(t)
  {
    var s := ShowTime(t);
    assert s[..2] == Pad2(t.hour) && s[3..] == Pad2(t.minute);
  }
}
