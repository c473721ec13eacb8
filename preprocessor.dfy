/** The rule-based anomaly filter: the level-word and keyword test on a log
    line, the compact one-line summary of an anomaly, and the deduplicating
    pass that numbers the distinct summaries of a log file. */
module Preprocessor {
  import opened Strings
  import opened LogTypes
  import opened Counting

  const ANOMALY_KEYWORDS: seq<string> :=
    ["exception", "failed", "error", "refused", "timeout", "unavailable", "denied",
     "panic", "stacktrace", "crash", "fatal", "killed"]

  /** The alternatives of `\b(INFO|DEBUG|TRACE)\b`, lower-cased. */
  const LEVEL_WORDS: seq<string> := ["info", "debug", "trace"]

  /** The alternatives of the issue group of the summary patterns, lower-cased. */
  const ISSUE_WORDS: seq<string> :=
    ["exception", "failed", "error", "refused", "timeout", "killed", "unavailable",
     "crash", "panic"]

  // ---------------------------------------------------------------------------
  // is_anomalous
  // ---------------------------------------------------------------------------

  /** The lower-case word `w` matches `s` at `i`, ignoring ASCII case. */
  predicate MatchesCI(s: string, i: int, w: string) {
    0 <= i && i + |w| <= |s| && Lower(s[i..i + |w|]) == w
  }

  /** `\bw\b` matches at `i`, for a word `w` made of word characters. */
  predicate WordAt(s: string, i: int, w: string) {
    MatchesCI(s, i, w)
    && (i == 0 || !IsWordChar(s[i - 1]))
    && (i + |w| == |s| || !IsWordChar(s[i + |w|]))
  }

  /** The level pattern finds INFO, DEBUG or TRACE as a whole word, in any case. */
  predicate HasLevelWord(s: string) {
    exists i, k | 0 <= i < |s| && 0 <= k < |LEVEL_WORDS| :: WordAt(s, i, LEVEL_WORDS[k])
  }

  /** The keyword loop, from keyword `k` on, over the lower-cased line. */
  function KeywordScan(low: string, k: nat): (found: bool)
    requires k <= |ANOMALY_KEYWORDS|
    ensures found <==> exists j | k <= j < |ANOMALY_KEYWORDS| :: Contains(low, ANOMALY_KEYWORDS[j])
    decreases |ANOMALY_KEYWORDS| - k
  {
    if k == |ANOMALY_KEYWORDS| then false
    else if Contains(low, ANOMALY_KEYWORDS[k]) then true
    else KeywordScan(low, k + 1)
  }

  function IsAnomalous(line: string): bool {
    if HasLevelWord(line) then false else KeywordScan(Lower(line), 0)
  }

  /** A level word vetoes the line whatever keywords it has; otherwise the line
      is anomalous exactly when its lower-cased text contains a keyword. */
  lemma IsAnomalousSpec(line: string)
    ensures IsAnomalous(line) <==> !HasLevelWord(line) && ContainsAny(Lower(line), ANOMALY_KEYWORDS)
  {
  }

  lemma LowerSliceAgree(a: string, b: string, i: int, j: int)
    requires Lower(a) == Lower(b) && 0 <= i <= j <= |a|
    ensures |a| == |b| && Lower(a[i..j]) == Lower(b[i..j])
  {
    assert |a| == |Lower(a)| == |Lower(b)| == |b|;
    LowerSlice(a, i, j);
    LowerSlice(b, i, j);
  }

  lemma WordCharAgree(a: string, b: string, t: int)
    requires Lower(a) == Lower(b) && 0 <= t < |a|
    ensures |a| == |b| && IsWordChar(a[t]) == IsWordChar(b[t])
  {
    assert |a| == |Lower(a)| == |Lower(b)| == |b|;
    assert LowerChar(a[t]) == Lower(a)[t] == Lower(b)[t] == LowerChar(b[t]);
    WordCharLower(a[t]);
    WordCharLower(b[t]);
  }

  lemma WordAtCaseInvariant(a: string, b: string, i: int, w: string)
    requires Lower(a) == Lower(b)
    ensures WordAt(a, i, w) == WordAt(b, i, w)
  {
    assert |a| == |Lower(a)| == |Lower(b)| == |b|;
    if 0 <= i && i + |w| <= |a| {
      LowerSliceAgree(a, b, i, i + |w|);
      if i > 0 { WordCharAgree(a, b, i - 1); }
      if i + |w| < |a| { WordCharAgree(a, b, i + |w|); }
    }
  }

  /** Changing the ASCII case of any letters of a line never changes the verdict. */
  lemma IsAnomalousCaseInvariant(a: string, b: string)
    requires Lower(a) == Lower(b)
    ensures IsAnomalous(a) == IsAnomalous(b)
  {
    forall i, k | 0 <= k < |LEVEL_WORDS|
      ensures WordAt(a, i, LEVEL_WORDS[k]) == WordAt(b, i, LEVEL_WORDS[k])
    {
      WordAtCaseInvariant(a, b, i, LEVEL_WORDS[k]);
    }
    assert |a| == |Lower(a)| == |Lower(b)| == |b|;
  }

  lemma IsAnomalousOfLower(line: string)
    ensures IsAnomalous(Lower(line)) == IsAnomalous(line)
  {
    LowerIdempotent(line);
    IsAnomalousCaseInvariant(Lower(line), line);
  }

  // ---------------------------------------------------------------------------
  // extract_compact_error
  // ---------------------------------------------------------------------------

  /** Index of the first newline at or after `i`, or the length: where `.*`
      started at `i` stops. */
  function LineEnd(s: string, i: nat): (e: nat)
    requires i <= |s|
    ensures i <= e <= |s|
    ensures forall t :: i <= t < e ==> s[t] != '\n'
    ensures e < |s| ==> s[e] == '\n'
    decreases |s| - i
  {
    if i == |s| || s[i] == '\n' then i else LineEnd(s, i + 1)
  }

  /** One of the issue keywords starts at `r`, in any case. */
  predicate IssueAt(s: string, r: int) {
    exists k | 0 <= k < |ISSUE_WORDS| :: MatchesCI(s, r, ISSUE_WORDS[k])
  }

  /** The leftmost issue keyword at or after `i`. */
  function FirstIssue(s: string, i: nat): (r: Option<nat>)
    requires i <= |s|
    ensures r.Some? ==> i <= r.value < |s| && IssueAt(s, r.value)
                        && forall t :: i <= t < r.value ==> !IssueAt(s, t)
    ensures r.None? ==> forall t :: i <= t ==> !IssueAt(s, t)
    decreases |s| - i
  {
    if i == |s| then None
    else if IssueAt(s, i) then Some(i)
    else FirstIssue(s, i + 1)
  }

  /** No newline in `s[a..b]`: the lazy `.*?` can span it. */
  predicate NoNewline(s: string, a: int, b: int) {
    forall t | a <= t < b && 0 <= t < |s| :: s[t] != '\n'
  }

  /** The summary pattern `\[(.*?)\].*?(Exception|...|Panic)` can match with
      its `[` at `p` and its `]` at `q`. */
  predicate TagMatch(s: string, p: int, q: int) {
    0 <= p < q < |s| && s[p] == '[' && s[q] == ']' && NoNewline(s, p + 1, q)
    && exists r | q < r < |s| :: NoNewline(s, q + 1, r) && IssueAt(s, r)
  }

  /** What `re.search` returns for the summary pattern: the leftmost `[` that
      starts a match and, for it, the shortest group. */
  ghost predicate SearchResult(s: string, p: int, q: int) {
    TagMatch(s, p, q)
    && (forall p', q' :: TagMatch(s, p', q') ==> p <= p')
    && (forall q' :: TagMatch(s, p, q') ==> q <= q')
  }

  /** The first `]` at or after `i` that comes before any newline. */
  function CloseBracket(s: string, i: nat): (q: Option<nat>)
    requires i <= |s|
    ensures q.Some? ==> i <= q.value < |s| && s[q.value] == ']' && NoNewline(s, i, q.value)
                        && forall t :: i <= t < q.value ==> s[t] != ']'
    ensures q.None? ==> forall t :: i <= t < |s| && s[t] == ']' ==> !NoNewline(s, i, t)
    decreases |s| - i
  {
    if i == |s| || s[i] == '\n' then None
    else if s[i] == ']' then Some(i)
    else CloseBracket(s, i + 1)
  }

  /** The group that closes at `q` is followed, on the same line, by an issue keyword. */
  predicate IssueAfter(s: string, q: nat) {
    q < |s| && var r := FirstIssue(s, q + 1); r.Some? && r.value <= LineEnd(s, q + 1)
  }

  /** The scan of the summary pattern from `p` on. */
  function TagFrom(s: string, p: nat): (r: Option<(nat, nat)>)
    requires p <= |s|
    ensures r.Some? ==> p <= r.value.0 < r.value.1 < |s|
    decreases |s| - p
  {
    if p == |s| then None
    else if s[p] == '[' && p + 1 <= |s| && CloseBracket(s, p + 1).Some?
            && IssueAfter(s, CloseBracket(s, p + 1).value)
    then Some((p, CloseBracket(s, p + 1).value))
    else TagFrom(s, p + 1)
  }

  /** A match with its `[` at `p` closes at or after the first `]` of the
      line, and that `]` is followed by an issue keyword on the same line. */
  lemma TagAtNecessary(s: string, p: nat, q': nat)
    requires p < |s| && s[p] == '[' && TagMatch(s, p, q')
    ensures var c := CloseBracket(s, p + 1); c.Some? && IssueAfter(s, c.value) && c.value <= q'
  {
    var r :| q' < r < |s| && NoNewline(s, q' + 1, r) && IssueAt(s, r);
    CloseBefore(s, p + 1, q');
    var q := CloseBracket(s, p + 1).value;
    NoNewlineJoin(s, p + 1, q + 1, q', r);
    IssueWithinLine(s, q, r);
  }

  /** A `]` reachable from `i` without a newline means the first one is found,
      no later than it. */
  lemma CloseBefore(s: string, i: nat, q': nat)
    requires i <= q' < |s| && s[q'] == ']' && NoNewline(s, i, q')
    ensures var c := CloseBracket(s, i); c.Some? && c.value <= q'
  {
  }

  /** Two newline-free stretches around a `]` make one. */
  lemma NoNewlineJoin(s: string, a0: int, a: int, m: int, b: int)
    requires a0 <= a && 0 <= m < |s| && s[m] == ']'
    requires NoNewline(s, a0, m) && NoNewline(s, m + 1, b)
    ensures NoNewline(s, a, b)
  {
    forall t | a <= t < b && 0 <= t < |s| ensures s[t] != '\n' {
      if t < m { assert a0 <= t; } else if t > m { assert m + 1 <= t; }
    }
  }

  /** An issue keyword at `r` on the same line as `q` makes `IssueAfter(s, q)`. */
  lemma IssueWithinLine(s: string, q: nat, r: nat)
    requires q < r < |s| && NoNewline(s, q + 1, r) && IssueAt(s, r)
    ensures IssueAfter(s, q)
  {
    var e := LineEnd(s, q + 1);
    assert r <= e;
    var f := FirstIssue(s, q + 1);
    assert f.Some? && f.value <= r;
  }

  /** The first `]` of the line, followed by an issue keyword on that line,
      closes a match. */
  lemma TagAtSufficient(s: string, p: nat)
    requires p < |s| && s[p] == '['
    requires var c := CloseBracket(s, p + 1); c.Some? && IssueAfter(s, c.value)
    ensures TagMatch(s, p, CloseBracket(s, p + 1).value)
  {
    var q := CloseBracket(s, p + 1).value;
    var r := FirstIssue(s, q + 1).value;
    assert NoNewline(s, q + 1, r);
  }

  /** At one `[`: the pattern matches there exactly when the first `]` of the
      line is followed by an issue keyword on the same line, and the lazy
      group then closes at that first `]`. */
  lemma TagAt(s: string, p: nat)
    requires p < |s| && s[p] == '['
    ensures var c := CloseBracket(s, p + 1);
      ((exists q' :: TagMatch(s, p, q')) <==> c.Some? && IssueAfter(s, c.value))
      && (c.Some? && IssueAfter(s, c.value) ==>
            TagMatch(s, p, c.value) && forall q' :: TagMatch(s, p, q') ==> c.value <= q')
  {
    forall q' | TagMatch(s, p, q')
      ensures var c := CloseBracket(s, p + 1); c.Some? && IssueAfter(s, c.value) && c.value <= q'
    {
      TagAtNecessary(s, p, q');
    }
    var c := CloseBracket(s, p + 1);
    if c.Some? && IssueAfter(s, c.value) {
      TagAtSufficient(s, p);
    }
  }

  lemma {:induction false} TagFromSpec(s: string, p0: nat)
    requires p0 <= |s|
    ensures match TagFrom(s, p0)
      case Some(pq) => TagMatch(s, pq.0, pq.1)
                       && (forall p', q' :: p0 <= p' && TagMatch(s, p', q') ==> pq.0 <= p')
                       && (forall q' :: TagMatch(s, pq.0, q') ==> pq.1 <= q')
      case None => forall p', q' :: p0 <= p' ==> !TagMatch(s, p', q')
    decreases |s| - p0
  {
    if p0 < |s| {
      var c := CloseBracket(s, p0 + 1);
      if s[p0] == '[' {
        TagAt(s, p0);
      }
      if !(s[p0] == '[' && c.Some? && IssueAfter(s, c.value)) {
        TagFromSpec(s, p0 + 1);
        assert forall q' :: !TagMatch(s, p0, q');
      }
    }
  }

  /** The search result of the summary pattern, as `re.search` defines it. */
  lemma TagSearch(s: string)
    ensures match TagFrom(s, 0)
      case Some(pq) => SearchResult(s, pq.0, pq.1)
      case None => forall p, q :: !TagMatch(s, p, q)
  {
    TagFromSpec(s, 0);
  }

  /** Whenever the summary pattern matches, the issue pattern matches too. */
  lemma TagImpliesIssue(s: string)
    ensures TagFrom(s, 0).Some? ==> FirstIssue(s, 0).Some?
  {
    TagFromSpec(s, 0);
    if TagFrom(s, 0).Some? {
      var pq := TagFrom(s, 0).value;
      var r :| pq.1 < r < |s| && NoNewline(s, pq.1 + 1, r) && IssueAt(s, r);
    }
  }

  /** The fallback summary. */
  function AnomalyDetected(line: string): string {
    "Anomaly detected: " + Strip(ReplaceChar(line, '\t', ' '))
  }

  /** "<issue text> in <tag>": the issue keyword's line from `r` on, stripped,
      and the tag between `p` and `q`. */
  function TaggedSummary(line: string, r: nat, p: nat, q: nat): string
    requires r <= |line| && p < q < |line|
  {
    Strip(line[r..LineEnd(line, r)]) + (" in " + line[p + 1..q])
  }

  function ExtractCompactError(line: string): string {
    match TagFrom(line, 0)
    case Some(pq) =>
      (match FirstIssue(line, 0)
       case Some(r) => TaggedSummary(line, r, pq.0, pq.1)
       case None => AnomalyDetected(line))
    case None => AnomalyDetected(line)
  }

  /** Without a bracketed tag followed by an issue keyword, the summary is the
      fallback, and it contains no tab. */
  lemma {:induction false} ExtractFallback(line: string)
    requires forall p, q :: !TagMatch(line, p, q)
    ensures ExtractCompactError(line) == AnomalyDetected(line)
    ensures forall t :: 0 <= t < |ExtractCompactError(line)| ==> ExtractCompactError(line)[t] != '\t'
  {
    TagSearch(line);
    var r := ReplaceChar(line, '\t', ' ');
    var e := TrimEnd(r, |r|);
    var b := TrimStart(r, 0, e);
    assert Strip(r) == r[b..e];
    forall t | 0 <= t < |Strip(r)| ensures Strip(r)[t] != '\t' {
      assert Strip(r)[t] == r[b + t];
    }
    var out := AnomalyDetected(line);
    forall t | 0 <= t < |out| ensures out[t] != '\t' {
      if t >= 18 { assert out[t] == Strip(r)[t - 18]; }
    }
  }

  /** With a bracketed tag, the summary is "<issue text> in <tag>", where the
      tag is the group `re.search` captures. */
  lemma ExtractTagged(line: string, p: nat, q: nat)
    requires TagFrom(line, 0) == Some((p, q))
    ensures SearchResult(line, p, q)
    ensures var tail := " in " + line[p + 1..q];
      |ExtractCompactError(line)| >= |tail|
      && ExtractCompactError(line)[|ExtractCompactError(line)| - |tail|..] == tail
  {
    TagSearch(line);
    TagImpliesIssue(line);
    var r := FirstIssue(line, 0).value;
    assert ExtractCompactError(line) == TaggedSummary(line, r, p, q);
    SuffixOfConcat(Strip(line[r..LineEnd(line, r)]), " in " + line[p + 1..q]);
  }

  lemma SuffixOfConcat(a: string, b: string)
    ensures (a + b)[|a + b| - |b|..] == b
  {
  }

  // ---------------------------------------------------------------------------
  // process_logs: distinct summaries of the anomalous lines, numbered from 1
  // ---------------------------------------------------------------------------

  /** Summaries of the anomalous lines, in line order. */
  function AnomalySummaries(lines: seq<string>): seq<string> {
    if lines == [] then []
    else
      var init := AnomalySummaries(lines[..|lines| - 1]);
      var last := lines[|lines| - 1];
      if IsAnomalous(last) then init + [ExtractCompactError(last)] else init
  }

  /** The result dictionary: `str(i)` ↦ the i-th distinct summary, from 1. */
  function Numbered(xs: seq<string>): map<string, string> {
    if xs == [] then map[]
    else Numbered(xs[..|xs| - 1])[Decimal(|xs|) := xs[|xs| - 1]]
  }

  /** Key str(i) holds the i-th value, for i from 1. */
  lemma {:induction false} NumberedValues(xs: seq<string>)
    ensures forall i | 1 <= i <= |xs| :: Decimal(i) in Numbered(xs) && Numbered(xs)[Decimal(i)] == xs[i - 1]
    decreases |xs|
  {
    if xs != [] {
      var n := |xs|;
      var init := xs[..n - 1];
      NumberedValues(init);
      var m := Numbered(init);
      assert Numbered(xs) == m[Decimal(n) := xs[n - 1]];
      forall i | 1 <= i <= n ensures Decimal(i) in Numbered(xs) && Numbered(xs)[Decimal(i)] == xs[i - 1] {
        if i < n {
          if Decimal(i) == Decimal(n) { DecimalInjective(i, n); }
          assert init[i - 1] == xs[i - 1];
          assert m[Decimal(i)] == xs[i - 1];
        }
      }
    }
  }

  /** There are no other keys than "1".."k". */
  lemma {:induction false} NumberedKeys(xs: seq<string>)
    ensures forall k :: k in Numbered(xs) ==> exists i | 1 <= i <= |xs| :: k == Decimal(i)
    decreases |xs|
  {
    if xs != [] {
      var n := |xs|;
      var init := xs[..n - 1];
      NumberedKeys(init);
      forall k | k in Numbered(xs) ensures exists i | 1 <= i <= n :: k == Decimal(i) {
        if k == Decimal(n) {
          assert 1 <= n <= n && k == Decimal(n);
        } else {
          assert k in Numbered(init);
          var i :| 1 <= i <= n - 1 && k == Decimal(i);
          assert 1 <= i <= n && k == Decimal(i);
        }
      }
      assert forall k :: k in Numbered(xs) ==> exists i | 1 <= i <= n :: k == Decimal(i);
    }
  }

  /** One more line adds its summary to the distinct summaries when the line
      is anomalous and its summary is new. */
  lemma DedupStep(lines: seq<string>, i: nat)
    requires i < |lines|
    ensures var d := Dedup(AnomalySummaries(lines[..i]));
      Dedup(AnomalySummaries(lines[..i + 1]))
      == if IsAnomalous(lines[i]) && ExtractCompactError(lines[i]) !in d
         then d + [ExtractCompactError(lines[i])] else d
  {
    assert lines[..i + 1][..i] == lines[..i];
    if IsAnomalous(lines[i]) {
      var xs := AnomalySummaries(lines[..i]);
      var x := ExtractCompactError(lines[i]);
      assert (xs + [x])[..|xs|] == xs;
    }
  }

  lemma NumberedSnoc(d: seq<string>, x: string)
    ensures Numbered(d + [x]) == Numbered(d)[Decimal(|d| + 1) := x]
  {
    assert (d + [x])[..|d|] == d;
  }

  /** The loop of `process_logs` over the lines of the input file: it returns
      the result dictionary and the final value of its counter. */
  method ProcessLogs(lines: seq<string>) returns (result: map<string, string>, count: nat)
    ensures result == Numbered(Dedup(AnomalySummaries(lines)))
    ensures count == |Dedup(AnomalySummaries(lines))| + 1
  {
    result := map[];
    var seen: set<string> := {};
    count := 1;
    ghost var d: seq<string> := [];
    var i := 0;
    while i < |lines|
      invariant 0 <= i <= |lines|
      invariant d == Dedup(AnomalySummaries(lines[..i]))
      invariant result == Numbered(d)
      invariant count == |d| + 1
      invariant forall x :: x in seen <==> x in d
    {
      var line := lines[i];
      DedupStep(lines, i);
      if IsAnomalous(line) {
        var compact := ExtractCompactError(line);
        if compact !in seen {
          NumberedSnoc(d, compact);
          seen := seen + {compact};
          result := result[Decimal(count) := compact];
          count := count + 1;
          d := d + [compact];
        }
      }
      i := i + 1;
    }
    assert lines[..|lines|] == lines;
  }

  /** Each summary comes from an anomalous line of the input. */
  lemma {:induction false} SummariesFromAnomalies(lines: seq<string>)
    ensures forall x :: x in AnomalySummaries(lines) ==>
      exists k | 0 <= k < |lines| :: IsAnomalous(lines[k]) && x == ExtractCompactError(lines[k])
  {
    if lines != [] {
      var init := lines[..|lines| - 1];
      SummariesFromAnomalies(init);
      forall x | x in AnomalySummaries(lines)
        ensures exists k | 0 <= k < |lines| :: IsAnomalous(lines[k]) && x == ExtractCompactError(lines[k])
      {
        if x in AnomalySummaries(init) {
          var k :| 0 <= k < |init| && IsAnomalous(init[k]) && x == ExtractCompactError(init[k]);
          assert lines[k] == init[k];
        } else {
          assert lines[|lines| - 1] == lines[|lines| - 1];
        }
      }
    }
  }
}
