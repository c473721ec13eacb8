/** Text helpers shared by the classifiers and the SDK: ASCII case folding,
    substring search, Python-style whitespace stripping, `rstrip` of one
    character, decimal rendering of counters and the code-point order that
    Python uses to compare strings. */
module Strings {

  // ---------------------------------------------------------------------------
  // Case folding (ASCII letters only)
  // ---------------------------------------------------------------------------

  predicate IsUpper(c: char) { 'A' <= c <= 'Z' }

  /** `c.lower()` for an ASCII letter; every other character is kept. */
  function LowerChar(c: char): char {
    if IsUpper(c) then (c as int + 32) as char else c
  }

  /** `s.lower()` restricted to ASCII letters. */
  function Lower(s: string): string {
    seq(|s|, i requires 0 <= i < |s| => LowerChar(s[i]))
  }

  lemma LowerIdempotent(s: string)
    ensures Lower(Lower(s)) == Lower(s)
  {
    assert forall i :: 0 <= i < |s| ==> LowerChar(LowerChar(s[i])) == LowerChar(s[i]);
  }

  lemma LowerSlice(s: string, i: int, j: int)
    requires 0 <= i <= j <= |s|
    ensures Lower(s[i..j]) == Lower(s)[i..j]
  {
  }

  /** Characters of `\w` in an ASCII regular expression. */
  predicate IsWordChar(c: char) {
    ('a' <= c <= 'z') || ('A' <= c <= 'Z') || ('0' <= c <= '9') || c == '_'
  }

  lemma WordCharLower(c: char)
    ensures IsWordChar(LowerChar(c)) == IsWordChar(c)
  {
  }

  // ---------------------------------------------------------------------------
  // Substrings
  // ---------------------------------------------------------------------------

  /** `w` occurs in `s` starting at index `i`. */
  predicate OccursAt(s: string, w: string, i: int) {
    0 <= i && i + |w| <= |s| && s[i..i + |w|] == w
  }

  /** `w in s` for Python strings: `w` occurs at some position of `s`. */
  predicate Contains(s: string, w: string) {
    exists i | 0 <= i <= |s| - |w| :: OccursAt(s, w, i)
  }

  /** `any(k in s for k in ws)`. */
  predicate ContainsAny(s: string, ws: seq<string>) {
    exists k | 0 <= k < |ws| :: Contains(s, ws[k])
  }

  lemma ContainsWitness(s: string, w: string, i: int)
    requires OccursAt(s, w, i)
    ensures Contains(s, w)
  {
  }

  // ---------------------------------------------------------------------------
  // Whitespace stripping (Python's `str.isspace`)
  // ---------------------------------------------------------------------------

  /** The characters Python's `str.strip()` removes. */
  predicate IsSpace(c: char) {
    var n := c as int;
    n == 32 || (9 <= n <= 13) || (28 <= n <= 31) || n == 0x85 || n == 0xA0 || n == 0x1680
    || (0x2000 <= n <= 0x200A) || n == 0x2028 || n == 0x2029 || n == 0x202F || n == 0x205F
    || n == 0x3000
  }

  /** Index where the trailing run of whitespace before `b` begins. */
  function TrimEnd(s: string, b: nat): (e: nat)
    requires b <= |s|
    ensures e <= b
    ensures forall t :: e <= t < b ==> IsSpace(s[t])
    ensures e > 0 ==> !IsSpace(s[e - 1])
    decreases b
  {
    if b > 0 && IsSpace(s[b - 1]) then TrimEnd(s, b - 1) else b
  }

  /** Index of the first non-whitespace character in `s[a..e]`, or `e`. */
  function TrimStart(s: string, a: nat, e: nat): (b: nat)
    requires a <= e <= |s|
    ensures a <= b <= e
    ensures forall t :: a <= t < b ==> IsSpace(s[t])
    ensures b < e ==> !IsSpace(s[b])
    decreases e - a
  {
    if a < e && IsSpace(s[a]) then TrimStart(s, a + 1, e) else a
  }

  /** `s.strip()`. */
  function Strip(s: string): string {
    var e := TrimEnd(s, |s|);
    s[TrimStart(s, 0, e)..e]
  }

  /** What `strip()` promises: it removes whitespace from both ends only, and
      leaves neither end of the result on whitespace. */
  lemma StripShape(s: string)
    ensures var e := TrimEnd(s, |s|); var b := TrimStart(s, 0, e);
      && Strip(s) == s[b..e]
      && (forall t :: 0 <= t < b ==> IsSpace(s[t]))
      && (forall t :: e <= t < |s| ==> IsSpace(s[t]))
      && (Strip(s) != [] ==> !IsSpace(Strip(s)[0]) && !IsSpace(Strip(s)[|Strip(s)| - 1]))
  {
  }

  lemma {:induction false} OccurrenceInsideStrip(s: string, w: string, i: int)
    requires |w| > 0 && forall t :: 0 <= t < |w| ==> !IsSpace(w[t])
    requires OccursAt(s, w, i)
    ensures var e := TrimEnd(s, |s|); var b := TrimStart(s, 0, e);
      b <= i && i + |w| <= e && OccursAt(Strip(s), w, i - b)
  {
    var e := TrimEnd(s, |s|);
    var b := TrimStart(s, 0, e);
    var r := Strip(s);
    assert r == s[b..e];
    var j := i + |w| - 1;
    assert s[i] == s[i..i + |w|][0] == w[0];
    assert s[j] == s[i..i + |w|][|w| - 1] == w[|w| - 1];
    assert !IsSpace(s[i]) && !IsSpace(s[j]);
    assert i < e && b <= i && j < e;
    assert r[i - b..i - b + |w|] == s[i..i + |w|];
  }

  /** An occurrence inside a slice is an occurrence in the whole string. */
  lemma OccurrenceInSlice(s: string, b: int, e: int, w: string, i: int)
    requires 0 <= b <= e <= |s|
    requires OccursAt(s[b..e], w, i)
    ensures OccursAt(s, w, b + i)
  {
    var r := s[b..e];
    assert |r| == e - b;
    forall k | 0 <= k < |w| ensures s[b + i + k] == w[k] {
      assert r[i + k] == r[i..i + |w|][k];
    }
    assert s[b + i..b + i + |w|] == w;
  }

  /** Stripping cannot destroy an occurrence of a word that has no whitespace:
      `w in s.strip()` exactly when `w in s`. */
  lemma {:induction false} ContainsSurvivesStrip(s: string, w: string)
    requires |w| > 0 && forall t :: 0 <= t < |w| ==> !IsSpace(w[t])
    ensures Contains(s, w) <==> Contains(Strip(s), w)
  {
    var e := TrimEnd(s, |s|);
    var b := TrimStart(s, 0, e);
    if Contains(s, w) {
      var i :| 0 <= i <= |s| - |w| && OccursAt(s, w, i);
      OccurrenceInsideStrip(s, w, i);
      ContainsWitness(Strip(s), w, i - b);
    }
    if Contains(Strip(s), w) {
      var i :| 0 <= i <= |Strip(s)| - |w| && OccursAt(Strip(s), w, i);
      OccurrenceInSlice(s, b, e, w, i);
      ContainsWitness(s, w, b + i);
    }
  }

  /** `s.replace(a, b)` for single characters. */
  function ReplaceChar(s: string, a: char, b: char): string {
    seq(|s|, i requires 0 <= i < |s| => if s[i] == a then b else s[i])
  }

  /** `s.rstrip(c)` for a single character `c`. */
  function RStripChar(s: string, c: char): (r: string)
    ensures r <= s
    ensures |r| > 0 ==> r[|r| - 1] != c
    ensures forall t :: |r| <= t < |s| ==> s[t] == c
    decreases |s|
  {
    if |s| > 0 && s[|s| - 1] == c then RStripChar(s[..|s| - 1], c) else s
  }

  // ---------------------------------------------------------------------------
  // Decimal rendering: `str(n)` for a natural number
  // ---------------------------------------------------------------------------

  function DigitChar(d: nat): char
    requires d < 10
  {
    ('0' as int + d) as char
  }

  predicate IsDigit(c: char) { '0' <= c <= '9' }

  function Decimal(n: nat): (r: string)
    ensures |r| >= 1
    ensures n < 10 <==> |r| == 1
    ensures forall t :: 0 <= t < |r| ==> IsDigit(r[t])
    decreases n
  {
    if n < 10 then [DigitChar(n)] else Decimal(n / 10) + [DigitChar(n % 10)]
  }

  /** Different counters never render to the same string. */
  lemma {:induction false} DecimalInjective(a: nat, b: nat)
    requires Decimal(a) == Decimal(b)
    ensures a == b
    decreases a
  {
    var da, db := Decimal(a), Decimal(b);
    if a < 10 && b < 10 {
      assert da[0] == DigitChar(a) && db[0] == DigitChar(b);
    } else if a >= 10 && b >= 10 {
      assert da == Decimal(a / 10) + [DigitChar(a % 10)];
      assert db == Decimal(b / 10) + [DigitChar(b % 10)];
      assert Decimal(a / 10) == da[..|da| - 1];
      assert Decimal(b / 10) == db[..|db| - 1];
      DecimalInjective(a / 10, b / 10);
      assert da[|da| - 1] == DigitChar(a % 10) && db[|db| - 1] == DigitChar(b % 10);
    }
  }

  // ---------------------------------------------------------------------------
  // Python's ordering of strings (lexicographic by code point)
  // ---------------------------------------------------------------------------

  predicate StrLe(a: string, b: string)
    decreases |a|
  {
    if a == [] then true
    else if b == [] then false
    else if a[0] != b[0] then a[0] < b[0]
    else StrLe(a[1..], b[1..])
  }

  lemma {:induction false} StrLeRefl(a: string)
    ensures StrLe(a, a)
    decreases |a|
  {
    if a != [] { StrLeRefl(a[1..]); }
  }

  lemma {:induction false} StrLeTotal(a: string, b: string)
    ensures StrLe(a, b) || StrLe(b, a)
    decreases |a|
  {
    if a != [] && b != [] && a[0] == b[0] { StrLeTotal(a[1..], b[1..]); }
  }

  lemma {:induction false} StrLeTrans(a: string, b: string, c: string)
    requires StrLe(a, b) && StrLe(b, c)
    ensures StrLe(a, c)
    decreases |a|
  {
    if a != [] && b != [] && c != [] && a[0] == b[0] && b[0] == c[0] {
      StrLeTrans(a[1..], b[1..], c[1..]);
    }
  }

  lemma LowerBoundStep(a: string, b: string, ys: seq<string>)
    requires StrLe(a, b) && forall y :: y in ys ==> StrLe(b, y)
    ensures forall y :: y in ys ==> StrLe(a, y)
  {
    forall y | y in ys ensures StrLe(a, y) { StrLeTrans(a, b, y); }
  }

  lemma UpperBoundStep(ys: seq<string>, b: string, a: string)
    requires StrLe(b, a) && forall y :: y in ys ==> StrLe(y, b)
    ensures forall y :: y in ys ==> StrLe(y, a)
  {
    forall y | y in ys ensures StrLe(y, a) { StrLeTrans(y, b, a); }
  }

  /** `min(xs)` over strings. */
  function MinStr(xs: seq<string>): (r: string)
    requires |xs| > 0
    ensures r in xs
    ensures forall x :: x in xs ==> StrLe(r, x)
  {
    StrLeRefl(xs[0]);
    if |xs| == 1 then xs[0]
    else
      var m := MinStr(xs[1..]);
      StrLeTotal(xs[0], m);
      assert forall x :: x in xs ==> x == xs[0] || x in xs[1..];
      if StrLe(xs[0], m) then
        LowerBoundStep(xs[0], m, xs[1..]);
        xs[0]
      else
        m
  }

  /** `max(xs)` over strings. */
  function MaxStr(xs: seq<string>): (r: string)
    requires |xs| > 0
    ensures r in xs
    ensures forall x :: x in xs ==> StrLe(x, r)
  {
    StrLeRefl(xs[0]);
    if |xs| == 1 then xs[0]
    else
      var m := MaxStr(xs[1..]);
      StrLeTotal(xs[0], m);
      assert forall x :: x in xs ==> x == xs[0] || x in xs[1..];
      if StrLe(m, xs[0]) then
        UpperBoundStep(xs[1..], m, xs[0]);
        xs[0]
      else
        m
  }

  lemma MinLeMax(xs: seq<string>)
    requires |xs| > 0
    ensures StrLe(MinStr(xs), MaxStr(xs))
  {
  }
}
