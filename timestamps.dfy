/** The timestamp the classifiers look for in a log line: a search for
    `YYYY-MM-DD[ T]HH:MM:SS` with an optional `,<digits>` fraction, the text
    that search returns, and the part of `datetime.strptime(text,
    "%Y-%m-%d %H:%M:%S")` and `isoformat()` applied to that text. */
module Timestamps {
  import opened Strings
  import opened LogTypes

  // ---------------------------------------------------------------------------
  // The search pattern
  // ---------------------------------------------------------------------------

  function DigitValue(c: char): nat
    requires IsDigit(c)
  {
    c as int - '0' as int
  }

  /** `s[i..i + n]` is made of ASCII digits. */
  predicate DigitsAt(s: string, i: int, n: nat) {
    0 <= i && i + n <= |s| && forall k :: i <= k < i + n ==> IsDigit(s[k])
  }

  /** The fixed part of the pattern, `\d{4}-\d{2}-\d{2}[ T]\d{2}:\d{2}:\d{2}`,
      matches at index `i` (19 characters). */
  predicate StampCoreAt(s: string, i: int) {
    0 <= i && i + 19 <= |s|
    && DigitsAt(s, i, 4) && s[i + 4] == '-' && DigitsAt(s, i + 5, 2) && s[i + 7] == '-'
    && DigitsAt(s, i + 8, 2) && (s[i + 10] == ' ' || s[i + 10] == 'T')
    && DigitsAt(s, i + 11, 2) && s[i + 13] == ':' && DigitsAt(s, i + 14, 2) && s[i + 16] == ':'
    && DigitsAt(s, i + 17, 2)
  }

  /** End of the run of digits that starts at `j`. */
  function DigitRunEnd(s: string, j: nat): (e: nat)
    requires j <= |s|
    ensures j <= e <= |s|
    ensures forall k :: j <= k < e ==> IsDigit(s[k])
    ensures e < |s| ==> !IsDigit(s[e])
    decreases |s| - j
  {
    if j < |s| && IsDigit(s[j]) then DigitRunEnd(s, j + 1) else j
  }

  /** End of the match that starts at `i`: the greedy `(?:,\d+)?` takes a comma
      and every digit after it when at least one digit follows the comma. */
  function StampEnd(s: string, i: int): (e: nat)
    requires StampCoreAt(s, i)
    ensures i + 19 <= e <= |s|
  {
    var c := i + 19;
    if c + 1 < |s| && s[c] == ',' && IsDigit(s[c + 1]) then DigitRunEnd(s, c + 1) else c
  }

  /** Leftmost position at or after `from` where the pattern matches. */
  function FindStamp(s: string, from: nat): (r: Option<nat>)
    requires from <= |s|
    ensures r.Some? ==> from <= r.value && StampCoreAt(s, r.value)
    ensures r.Some? ==> forall j :: from <= j < r.value ==> !StampCoreAt(s, j)
    ensures r.None? ==> forall j :: from <= j ==> !StampCoreAt(s, j)
    decreases |s| - from
  {
    if from + 19 > |s| then None
    else if StampCoreAt(s, from) then Some(from)
    else FindStamp(s, from + 1)
  }

  /** A text the search can return. */
  predicate StampText(t: string) {
    StampCoreAt(t, 0)
  }

  /** The fixed part of a match survives cutting the match out of the line. */
  lemma StampCoreSlice(s: string, i: int, e: int)
    requires StampCoreAt(s, i) && i + 19 <= e <= |s|
    ensures StampText(s[i..e])
  {
    var t := s[i..e];
    forall k | 0 <= k < 19 ensures t[k] == s[i + k] { }
    assert DigitsAt(t, 0, 4) && DigitsAt(t, 5, 2) && DigitsAt(t, 8, 2);
    assert DigitsAt(t, 11, 2) && DigitsAt(t, 14, 2) && DigitsAt(t, 17, 2);
  }

  /** `re.search(pattern, s).group()`, or `None` when nothing matches. */
  function SearchStamp(s: string): (r: Option<string>)
    ensures r.Some? ==> StampText(r.value)
  {
    match FindStamp(s, 0)
    case None => None
    case Some(i) =>
      StampCoreSlice(s, i, StampEnd(s, i));
      Some(s[i..StampEnd(s, i)])
  }

  /** What the search returns beyond the 19 fixed characters: nothing, or `,`
      followed by digits only. */
  lemma {:induction false} SearchStampShape(s: string)
    requires SearchStamp(s).Some?
    ensures var t := SearchStamp(s).value;
      (|t| == 19 || (|t| >= 21 && t[19] == ',' && forall k :: 20 <= k < |t| ==> IsDigit(t[k])))
  {
    var i := FindStamp(s, 0).value;
    var e := StampEnd(s, i);
    var t := s[i..e];
    assert |t| == e - i;
    if e != i + 19 {
      assert s[i + 19] == ',' && e >= i + 21;
      assert t[19] == s[i + 19];
      forall k | 20 <= k < |t| ensures IsDigit(t[k]) {
        assert t[k] == s[i + k];
      }
    }
  }

  // ---------------------------------------------------------------------------
  // `datetime.strptime(text, "%Y-%m-%d %H:%M:%S")` on a searched text
  // ---------------------------------------------------------------------------

  datatype DateTime = DateTime(year: nat, month: nat, day: nat, hour: nat, minute: nat, second: nat)

  /** The number written by the `n` digits at `s[i..i + n]`. */
  function Num(s: string, i: int, n: nat): nat
    requires DigitsAt(s, i, n)
  {
    if n == 0 then 0 else 10 * Num(s, i, n - 1) + DigitValue(s[i + n - 1])
  }

  predicate IsLeap(y: nat) {
    y % 4 == 0 && (y % 100 != 0 || y % 400 == 0)
  }

  function DaysInMonth(y: nat, m: nat): nat
    requires 1 <= m <= 12
  {
    if m == 2 then (if IsLeap(y) then 29 else 28)
    else if m == 4 || m == 6 || m == 9 || m == 11 then 30
    else 31
  }

  /** The values `datetime` accepts: year 1 or later, a real day of the
      month, and a time of day without leap seconds. */
  predicate ValidDateTime(d: DateTime) {
    1 <= d.year && 1 <= d.month <= 12 && 1 <= d.day <= DaysInMonth(d.year, d.month)
    && d.hour <= 23 && d.minute <= 59 && d.second <= 59
  }

  /** The six numbers of a searched text. */
  function Fields(t: string): DateTime
    requires StampText(t)
  {
    DateTime(Num(t, 0, 4), Num(t, 5, 2), Num(t, 8, 2), Num(t, 11, 2), Num(t, 14, 2), Num(t, 17, 2))
  }

  /** `datetime.strptime(t, "%Y-%m-%d %H:%M:%S")` for a text the search
      returned; `None` where Python raises `ValueError`. The format's space
      does not match `T`, a `,<digits>` tail is unconverted data, and the
      numbers must form a valid date and time. */
  function Strptime(t: string): Option<DateTime>
    requires StampText(t)
  {
    if |t| == 19 && t[10] == ' ' && ValidDateTime(Fields(t)) then Some(Fields(t)) else None
  }

  // ---------------------------------------------------------------------------
  // `isoformat()`
  // ---------------------------------------------------------------------------

  /** `n` written with exactly `w` digits (`%0wd` for `n < 10^w`). */
  function Pad(n: nat, w: nat): (r: string)
    ensures |r| == w
  {
    if w == 0 then [] else Pad(n / 10, w - 1) + [DigitChar(n % 10)]
  }

  /** `YYYY-MM-DD`. */
  function DatePart(d: DateTime): string {
    Pad(d.year, 4) + "-" + Pad(d.month, 2) + "-" + Pad(d.day, 2)
  }

  /** `HH:MM:SS`; a `datetime` parsed from seconds has no microseconds. */
  function TimePart(d: DateTime): string {
    Pad(d.hour, 2) + ":" + Pad(d.minute, 2) + ":" + Pad(d.second, 2)
  }

  function IsoFormat(d: DateTime): string {
    DatePart(d) + "T" + TimePart(d)
  }

  /** Printing a number read from `n` digits gives those digits back. */
  lemma {:induction false} PadNum(s: string, i: int, n: nat)
    requires DigitsAt(s, i, n)
    ensures Pad(Num(s, i, n), n) == s[i..i + n]
    decreases n
  {
    if n > 0 {
      assert DigitsAt(s, i, n - 1);
      var a := Num(s, i, n - 1);
      var c := s[i + n - 1];
      var d := DigitValue(c);
      assert (10 * a + d) / 10 == a && (10 * a + d) % 10 == d;
      PadNum(s, i, n - 1);
      assert DigitChar(d) == c;
      assert s[i..i + n] == s[i..i + n - 1] + [c];
    }
  }

  lemma SliceSplit(t: string, a: nat, b: nat, c: nat)
    requires a <= b <= c <= |t|
    ensures t[a..c] == t[a..b] + t[b..c]
  {
  }

  /** The date part of a searched text, written back. */
  lemma IsoDate(t: string)
    requires StampText(t)
    ensures DatePart(Fields(t)) == t[..10]
  {
    PadNum(t, 0, 4);
    PadNum(t, 5, 2);
    PadNum(t, 8, 2);
    SliceSplit(t, 0, 4, 10);
    SliceSplit(t, 4, 5, 10);
    SliceSplit(t, 5, 7, 10);
    SliceSplit(t, 7, 8, 10);
    assert t[4..5] == "-" && t[7..8] == "-";
    assert t[..10] == t[0..10];
  }

  /** The time part of a searched text of 19 characters, written back. */
  lemma IsoTime(t: string)
    requires StampText(t) && |t| == 19
    ensures TimePart(Fields(t)) == t[11..]
  {
    PadNum(t, 11, 2);
    PadNum(t, 14, 2);
    PadNum(t, 17, 2);
    SliceSplit(t, 11, 13, 19);
    SliceSplit(t, 13, 14, 19);
    SliceSplit(t, 14, 16, 19);
    SliceSplit(t, 16, 17, 19);
    assert t[13..14] == ":" && t[16..17] == ":";
    assert t[11..] == t[11..19];
  }

  /** Formatting a parsed text gives the same text with `T` between date and
      time, the form `isoformat()` writes. */
  lemma IsoRoundTrip(t: string)
    requires StampText(t) && Strptime(t).Some?
    ensures IsoFormat(Strptime(t).value) == t[..10] + "T" + t[11..]
  {
    IsoDate(t);
    IsoTime(t);
  }

  /** The two shapes `strptime` always refuses. */
  lemma StrptimeRefuses(t: string)
    requires StampText(t)
    requires t[10] == 'T' || |t| > 19
    ensures Strptime(t).None?
  {
  }
}
