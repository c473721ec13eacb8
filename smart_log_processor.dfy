/** The dashboard builder of the Sentry backend: each non-blank line of a log
    gets a service (the second bracketed tag), a severity and an error type
    from keyword tables, and a timestamp; the lines are numbered, grouped by
    service, bucketed by ten, and summarised per service. Where the source
    draws a random value, the model takes the draw as an input. */
module SmartLogProcessor {
  import opened Strings
  import opened LogTypes
  import opened Timestamps
  import opened Counting
  import opened KeywordTables
  import Preprocessor

  // ---------------------------------------------------------------------------
  // The bracketed tags, `re.findall(r"\[(.*?)\]", line)`
  // ---------------------------------------------------------------------------

  /** The groups of the non-overlapping matches at or after `p`: each is the
      text between a `[` and the first `]` after it, on the same line. */
  function BracketGroups(s: string, p: nat): (r: seq<string>)
    requires p <= |s|
    ensures forall k :: 0 <= k < |r| ==> ']' !in r[k] && '\n' !in r[k]
    decreases |s| - p
  {
    if p == |s| then []
    else if s[p] == '[' && Preprocessor.CloseBracket(s, p + 1).Some? then
      var q := Preprocessor.CloseBracket(s, p + 1).value;
      var g := s[p + 1..q];
      assert forall t :: 0 <= t < |g| ==> g[t] == s[p + 1 + t];
      [g] + BracketGroups(s, q + 1)
    else BracketGroups(s, p + 1)
  }

  /** A `[` at `i` whose group closes on the same line: where the pattern
      can match. */
  predicate Opens(s: string, i: nat)
    requires i < |s|
  {
    s[i] == '[' && Preprocessor.CloseBracket(s, i + 1).Some?
  }

  /** The positions of the `[` that start the matches of `BracketGroups`. */
  function BracketStarts(s: string, p: nat): seq<nat>
    requires p <= |s|
    decreases |s| - p
  {
    if p == |s| then []
    else if Opens(s, p) then [p] + BracketStarts(s, Preprocessor.CloseBracket(s, p + 1).value + 1)
    else BracketStarts(s, p + 1)
  }

  /** Group `g` is the text of a match whose `[` is at `a`. */
  predicate MatchAt(s: string, a: nat, g: string) {
    a + |g| + 1 < |s| && s[a] == '[' && s[a + |g| + 1] == ']' && g == s[a + 1..a + |g| + 1]
  }

  /** Groups `r` with starts `st`: each a match at or after `p`, left to right
      and not overlapping. */
  predicate Matches(s: string, p: nat, r: seq<string>, st: seq<nat>) {
    && |st| == |r|
    && (forall k :: 0 <= k < |st| ==> p <= st[k] && MatchAt(s, st[k], r[k]))
    && (forall k :: 0 <= k < |st| - 1 ==> st[k] + |r[k]| + 1 < st[k + 1])
  }

  /** The matches as `findall` reports them: group k is the text between the
      `[` at `starts[k]` and the next `]`, and the matches come left to
      right without overlapping. */
  lemma {:induction false} BracketGroupsSpec(s: string, p: nat)
    requires p <= |s|
    ensures Matches(s, p, BracketGroups(s, p), BracketStarts(s, p))
    decreases |s| - p
  {
    if p < |s| {
      if Opens(s, p) {
        var q := Preprocessor.CloseBracket(s, p + 1).value;
        BracketGroupsSpec(s, q + 1);
        BracketCons(s, p);
        MatchesCons(s, p, s[p + 1..q], BracketGroups(s, q + 1), BracketStarts(s, q + 1));
      } else {
        BracketGroupsSpec(s, p + 1);
      }
    }
  }

  /** A match at `p` puts its group and start in front of those after its `]`. */
  lemma BracketCons(s: string, p: nat)
    requires p < |s| && Opens(s, p)
    ensures var q := Preprocessor.CloseBracket(s, p + 1).value;
      && BracketGroups(s, p) == [s[p + 1..q]] + BracketGroups(s, q + 1)
      && BracketStarts(s, p) == [p] + BracketStarts(s, q + 1)
      && MatchAt(s, p, s[p + 1..q])
  {
  }

  /** Where no match starts, the scan moves on by one. */
  lemma BracketSkip(s: string, p: nat)
    requires p < |s| && !Opens(s, p)
    ensures BracketGroups(s, p) == BracketGroups(s, p + 1)
    ensures BracketStarts(s, p) == BracketStarts(s, p + 1)
  {
  }

  lemma MatchesCons(s: string, p: nat, g: string, r: seq<string>, st: seq<nat>)
    requires MatchAt(s, p, g) && Matches(s, p + |g| + 2, r, st)
    ensures Matches(s, p, [g] + r, [p] + st)
  {
    var r', st' := [g] + r, [p] + st;
    forall k | 0 <= k < |st'|
      ensures p <= st'[k] && MatchAt(s, st'[k], r'[k])
    {
      if k > 0 {
        assert st'[k] == st[k - 1] && r'[k] == r[k - 1];
      }
    }
    forall k | 0 <= k < |st'| - 1
      ensures st'[k] + |r'[k]| + 1 < st'[k + 1]
    {
      if k > 0 {
        assert st'[k] == st[k - 1] && r'[k] == r[k - 1] && st'[k + 1] == st[k];
      }
    }
  }

  /** Position `i` lies within one of the matches. */
  predicate Covered(r: seq<string>, st: seq<nat>, i: nat) {
    exists k :: 0 <= k < |st| && k < |r| && st[k] <= i <= st[k] + |r[k]| + 1
  }

  /** None is skipped: every `[` that can open a match starts one or lies
      inside one. */
  lemma {:induction false} BracketGroupsComplete(s: string, p: nat, i: nat)
    requires p <= i < |s| && Opens(s, i)
    ensures Covered(BracketGroups(s, p), BracketStarts(s, p), i)
    decreases |s| - p
  {
    if Opens(s, p) {
      var q := Preprocessor.CloseBracket(s, p + 1).value;
      if i <= q {
        CoveredFirst(s, p, i);
      } else {
        BracketGroupsComplete(s, q + 1, i);
        CoveredLater(s, p, i);
      }
    } else {
      assert p != i;
      BracketSkip(s, p);
      BracketGroupsComplete(s, p + 1, i);
    }
  }

  lemma CoveredFirst(s: string, p: nat, i: nat)
    requires p <= i < |s| && Opens(s, p) && i <= Preprocessor.CloseBracket(s, p + 1).value
    ensures Covered(BracketGroups(s, p), BracketStarts(s, p), i)
  {
    var q := Preprocessor.CloseBracket(s, p + 1).value;
    BracketCons(s, p);
    var r, st := BracketGroups(s, p), BracketStarts(s, p);
    assert st[0] <= i <= st[0] + |r[0]| + 1;
  }

  lemma CoveredLater(s: string, p: nat, i: nat)
    requires p < |s| && Opens(s, p)
    requires Covered(BracketGroups(s, Preprocessor.CloseBracket(s, p + 1).value + 1),
                     BracketStarts(s, Preprocessor.CloseBracket(s, p + 1).value + 1), i)
    ensures Covered(BracketGroups(s, p), BracketStarts(s, p), i)
  {
    var q := Preprocessor.CloseBracket(s, p + 1).value;
    var r0, st0 := BracketGroups(s, q + 1), BracketStarts(s, q + 1);
    CoveredCons(r0, st0, i, s[p + 1..q], p);
    BracketCons(s, p);
  }

  lemma CoveredCons(r: seq<string>, st: seq<nat>, i: nat, g: string, a: nat)
    requires Covered(r, st, i)
    ensures Covered([g] + r, [a] + st, i)
  {
    var k :| 0 <= k < |st| && k < |r| && st[k] <= i <= st[k] + |r[k]| + 1;
    assert ([a] + st)[k + 1] == st[k] && ([g] + r)[k + 1] == r[k];
  }

  function Tags(line: string): seq<string> {
    BracketGroups(line, 0)
  }

  const DEFAULT_SERVICES: seq<string> := [
    "auth-service", "api-gateway", "user-service", "payment-service",
    "notification-service", "inventory-service"
  ]

  /** `extract_service`; `pick` is the draw of `random.choice`. */
  function ExtractService(line: string, known: seq<string>, pick: nat): string {
    var tags := Tags(line);
    if |tags| >= 2 then tags[1]
    else if |known| > 0 then known[pick % |known|]
    else DEFAULT_SERVICES[pick % |DEFAULT_SERVICES|]
  }

  /** The second tag when there are two; otherwise a random known service,
      or a random default name when no line carried a tag. */
  lemma ExtractServiceSpec(line: string, known: seq<string>, pick: nat)
    ensures var r, tags := ExtractService(line, known, pick), Tags(line);
      && (|tags| >= 2 ==> r == tags[1])
      && (|tags| < 2 && |known| > 0 ==> r in known)
      && (|tags| < 2 && |known| == 0 ==> r in DEFAULT_SERVICES)
  {
  }

  // ---------------------------------------------------------------------------
  // Severity and error type
  // ---------------------------------------------------------------------------

  const HIGH_WORDS: seq<string> := ["fatal", "critical", "emergency", "503", "500"]
  const LOW_WORDS: seq<string> := ["warning", "info", "debug"]

  const SEVERITY_TABLE: seq<Rule<SeverityLevel>> := [Rule(HIGH_WORDS, High), Rule(LOW_WORDS, Low)]

  /** `extract_severity`; `pick` is the draw between "High" and "Low". */
  function ExtractSeverity(line: string, pick: nat): SeverityLevel {
    var i := FirstFiring(Lower(line), SEVERITY_TABLE, 0);
    if i < |SEVERITY_TABLE| then SEVERITY_TABLE[i].value
    else if pick % 2 == 0 then High else Low
  }

  /** The high words are tried before the low ones, and the answer is only
      ever "High" or "Low". */
  lemma ExtractSeveritySpec(line: string, pick: nat)
    ensures var r, low := ExtractSeverity(line, pick), Lower(line);
      && r != Medium
      && (ContainsAny(low, HIGH_WORDS) ==> r == High)
      && (!ContainsAny(low, HIGH_WORDS) && ContainsAny(low, LOW_WORDS) ==> r == Low)
  {
    var low := Lower(line);
    assert FirstFiring(low, SEVERITY_TABLE, 1) == if Fires(low, SEVERITY_TABLE[1]) then 1 else 2;
  }

  /** The table without its empty "Unknown" row, which the loop skips. */
  const ERROR_TYPE_TABLE: seq<Rule<ErrorType>> := [
    Rule(["database", "sql", "connection failed", "SQLException"], DatabaseError),
    Rule(["timeout", "connection refused", "unavailable", "503", "502"], NetworkError),
    Rule(["chargeback", "suspended", "payment", "merchant"], PaymentError),
    Rule(["conflict", "optimistic locking"], BusinessLogicError),
    Rule(["smtp", "mail", "messaging"], CommunicationError)
  ]

  /** `extract_error_type`; `pick` is the draw among the five real types. */
  function ExtractErrorType(line: string, pick: nat): ErrorType {
    var i := FirstFiring(Lower(line), ERROR_TYPE_TABLE, 0);
    if i < |ERROR_TYPE_TABLE| then ERROR_TYPE_TABLE[i].value
    else ERROR_TYPE_TABLE[pick % |ERROR_TYPE_TABLE|].value
  }

  /** The first type of the table whose keyword occurs; never "Unknown". */
  lemma ExtractErrorTypeSpec(line: string, pick: nat)
    ensures var r, low, T := ExtractErrorType(line, pick), Lower(line), ERROR_TYPE_TABLE;
      && r != UnknownError
      && (ContainsAny(low, T[0].keywords) ==> r == DatabaseError)
      && (!ContainsAny(low, T[0].keywords) && ContainsAny(low, T[1].keywords) ==> r == NetworkError)
      && ((!ContainsAny(low, T[0].keywords) && !ContainsAny(low, T[1].keywords)
           && ContainsAny(low, T[2].keywords)) ==> r == PaymentError)
      && ((!ContainsAny(low, T[0].keywords) && !ContainsAny(low, T[1].keywords)
           && !ContainsAny(low, T[2].keywords) && ContainsAny(low, T[3].keywords)) ==> r == BusinessLogicError)
      && ((!ContainsAny(low, T[0].keywords) && !ContainsAny(low, T[1].keywords)
           && !ContainsAny(low, T[2].keywords) && !ContainsAny(low, T[3].keywords)
           && ContainsAny(low, T[4].keywords)) ==> r == CommunicationError)
  {
    var low, T := Lower(line), ERROR_TYPE_TABLE;
    assert FirstFiring(low, T, 4) == if Fires(low, T[4]) then 4 else 5;
    assert FirstFiring(low, T, 3) == if Fires(low, T[3]) then 3 else FirstFiring(low, T, 4);
    assert FirstFiring(low, T, 2) == if Fires(low, T[2]) then 2 else FirstFiring(low, T, 3);
    assert FirstFiring(low, T, 1) == if Fires(low, T[1]) then 1 else FirstFiring(low, T, 2);
  }

  /** The keyword "SQLException" is compared against the lowercased line and
      so can never match. */
  lemma UppercaseKeywordNeverMatches(line: string)
    ensures !Contains(Lower(line), "SQLException")
  {
    var low, w := Lower(line), "SQLException";
    forall i | 0 <= i <= |low| - |w| ensures !OccursAt(low, w, i) {
      assert low[i..i + |w|][0] == low[i] == LowerChar(line[i]) != w[0];
    }
  }

  // ---------------------------------------------------------------------------
  // Entries
  // ---------------------------------------------------------------------------

  /** The random draws spent on one line. */
  datatype Draws = Draws(service: nat, severity: nat, errorType: nat)

  /** One processed line: `line_number` counts from 1. */
  datatype Entry = Entry(timestamp: string, service: string, errorType: ErrorType,
                         severity: SeverityLevel, line: string, lineNumber: nat)

  /** The matched timestamp text, or "UNKNOWN". */
  function StampOrUnknown(line: string): string {
    match SearchStamp(line)
    case None => "UNKNOWN"
    case Some(t) => t
  }

  /** The loop body for one line. Of the two severity draws of the file
      version only the second is kept, so one draw stands for both. */
  function MakeEntry(line: string, number: nat, known: seq<string>, d: Draws): Entry {
    Entry(StampOrUnknown(line), ExtractService(line, known, d.service),
          ExtractErrorType(line, d.errorType), ExtractSeverity(line, d.severity), line, number)
  }

  /** `[line.strip() for line in lines if line.strip()]`. */
  function NonBlankLines(raw: seq<string>): (r: seq<string>)
    ensures |r| <= |raw|
    ensures forall k :: 0 <= k < |r| ==> r[k] != []
  {
    if raw == [] then []
    else
      var init := NonBlankLines(raw[..|raw| - 1]);
      var s := Strip(raw[|raw| - 1]);
      if s == [] then init else init + [s]
  }

  /** The first tag of every line that has one: the `known_services` set. */
  function KnownServices(lines: seq<string>): set<string> {
    set l | l in lines && |Tags(l)| > 0 :: Tags(l)[0]
  }

  /** The entries of the non-blank lines, numbered from 1. */
  function Entries(lines: seq<string>, known: seq<string>, draws: nat -> Draws): (es: seq<Entry>)
    ensures |es| == |lines|
  {
    seq(|lines|, k requires 0 <= k < |lines| => MakeEntry(lines[k], k + 1, known, draws(k + 1)))
  }

  /** Entry `k` holds line `k` with line number `k + 1`, and its timestamp is
      the matched text or "UNKNOWN". */
  lemma EntriesNumbered(lines: seq<string>, known: seq<string>, draws: nat -> Draws)
    ensures var es := Entries(lines, known, draws);
      forall k :: 0 <= k < |es| ==>
        && es[k].line == lines[k] && es[k].lineNumber == k + 1
        && (SearchStamp(lines[k]).None? <==> es[k].timestamp == "UNKNOWN")
  {
    var es := Entries(lines, known, draws);
    forall k | 0 <= k < |es|
      ensures SearchStamp(lines[k]).None? <==> es[k].timestamp == "UNKNOWN"
    {
      var m := SearchStamp(lines[k]);
      if m.Some? {
        SearchStampShape(lines[k]);
        assert |m.value| >= 19;
      }
    }
  }

  // ---------------------------------------------------------------------------
  // Grouping by service
  // ---------------------------------------------------------------------------

  function ServicesOf(es: seq<Entry>): (r: seq<string>)
    ensures |r| == |es| && forall k :: 0 <= k < |es| ==> r[k] == es[k].service
  {
    seq(|es|, k requires 0 <= k < |es| => es[k].service)
  }

  /** `grouped[service]`: the entries of one service, in input order. */
  function GroupOf(es: seq<Entry>, service: string): seq<Entry> {
    if es == [] then []
    else
      var init := GroupOf(es[..|es| - 1], service);
      if es[|es| - 1].service == service then init + [es[|es| - 1]] else init
  }

  /** `grouped.keys()`: the services in the order they first appear. */
  function GroupKeys(es: seq<Entry>): seq<string> {
    Dedup(ServicesOf(es))
  }

  lemma ServicesOfAppend(es: seq<Entry>, e: Entry)
    ensures ServicesOf(es + [e]) == ServicesOf(es) + [e.service]
  {
  }

  lemma GroupOfAppend(es: seq<Entry>, e: Entry, s: string)
    ensures GroupOf(es + [e], s) == GroupOf(es, s) + (if e.service == s then [e] else [])
  {
    assert (es + [e])[..|es|] == es;
  }

  /** Grouping keeps input order: the group of a concatenation is the group
      of the first part followed by the group of the second. */
  lemma {:induction false} GroupOfConcat(a: seq<Entry>, b: seq<Entry>, s: string)
    ensures GroupOf(a + b, s) == GroupOf(a, s) + GroupOf(b, s)
    decreases |b|
  {
    if b == [] {
      assert a + b == a;
    } else {
      var n := |b| - 1;
      var init, x := b[..n], b[n];
      assert b == init + [x];
      assert a + b == (a + init) + [x];
      GroupOfConcat(a, init, s);
      GroupOfAppend(a + init, x, s);
      GroupOfAppend(init, x, s);
    }
  }

  lemma GroupKeysAppend(es: seq<Entry>, e: Entry)
    ensures GroupKeys(es + [e]) == if e.service in GroupKeys(es) then GroupKeys(es) else GroupKeys(es) + [e.service]
  {
    ServicesOfAppend(es, e);
    var xs := ServicesOf(es + [e]);
    assert xs[..|xs| - 1] == ServicesOf(es);
  }

  /** A group holds exactly the entries of its service, and as many as the
      service occurs. */
  lemma {:induction false} GroupOfSpec(es: seq<Entry>, s: string)
    ensures forall e :: e in GroupOf(es, s) <==> e in es && e.service == s
    ensures |GroupOf(es, s)| == Count(ServicesOf(es), s)
    decreases |es|
  {
    if es != [] {
      var n := |es| - 1;
      var init, e := es[..n], es[n];
      GroupOfSpec(init, s);
      assert es == init + [e];
      ServicesOfAppend(init, e);
      GroupOfAppend(init, e, s);
      assert multiset(ServicesOf(es)) == multiset(ServicesOf(init)) + multiset{e.service};
    }
  }

  /** The sum of the group sizes over `keys`. */
  function SumGroupSizes(keys: seq<string>, es: seq<Entry>): nat {
    if keys == [] then 0 else SumGroupSizes(keys[..|keys| - 1], es) + |GroupOf(es, keys[|keys| - 1])|
  }

  lemma {:induction false} SumGroupSizesIsSumCounts(keys: seq<string>, es: seq<Entry>)
    ensures SumGroupSizes(keys, es) == SumCounts(keys, ServicesOf(es))
    decreases |keys|
  {
    if keys != [] {
      SumGroupSizesIsSumCounts(keys[..|keys| - 1], es);
      GroupOfSpec(es, keys[|keys| - 1]);
    }
  }

  /** Every entry lies in exactly one group: the one of its own service,
      which is a key; and the group sizes add up to the number of entries. */
  lemma GroupsPartition(es: seq<Entry>)
    ensures forall e :: e in es ==> e.service in GroupKeys(es) && e in GroupOf(es, e.service)
    ensures forall s, e :: e in GroupOf(es, s) ==> e.service == s
    ensures SumGroupSizes(GroupKeys(es), es) == |es|
  {
    forall e | e in es ensures e.service in GroupKeys(es) && e in GroupOf(es, e.service) {
      var k :| 0 <= k < |es| && es[k] == e;
      assert ServicesOf(es)[k] == e.service;
      DedupMembers(ServicesOf(es), e.service);
      GroupOfSpec(es, e.service);
    }
    forall s, e | e in GroupOf(es, s) ensures e.service == s { GroupOfSpec(es, s); }
    SumGroupSizesIsSumCounts(GroupKeys(es), es);
    CountsSumToLength(ServicesOf(es));
  }

  /** A key's group is never empty. */
  lemma GroupOfKeyNonEmpty(es: seq<Entry>, s: string)
    requires s in GroupKeys(es)
    ensures GroupOf(es, s) != []
  {
    DedupMembers(ServicesOf(es), s);
    var k :| 0 <= k < |es| && ServicesOf(es)[k] == s;
    GroupOfSpec(es, s);
    assert es[k] in GroupOf(es, s);
  }

  /** A service without a key has an empty group. */
  lemma GroupOfAbsent(es: seq<Entry>, s: string)
    requires s !in GroupKeys(es)
    ensures GroupOf(es, s) == []
  {
    DedupMembers(ServicesOf(es), s);
    GroupOfSpec(es, s);
  }

  // ---------------------------------------------------------------------------
  // Per-service summary
  // ---------------------------------------------------------------------------

  datatype HealthLabel = HealthyLabel | WarningLabel | UnhealthyLabel

  function HealthLabelValue(h: HealthLabel): string {
    match h
    case HealthyLabel => "healthy"
    case WarningLabel => "warning"
    case UnhealthyLabel => "unhealthy"
  }

  /** Health from the error (High and Medium) and warning (Low) counts. */
  function Health(errors: nat, warnings: nat): HealthLabel {
    if errors == 0 && warnings == 0 then HealthyLabel
    else if errors + warnings <= 5 then WarningLabel
    else UnhealthyLabel
  }

  function SeveritiesOf(es: seq<Entry>): (r: seq<SeverityLevel>)
    ensures |r| == |es| && forall k :: 0 <= k < |es| ==> r[k] == es[k].severity
  {
    seq(|es|, k requires 0 <= k < |es| => es[k].severity)
  }

  function TypesOf(es: seq<Entry>): (r: seq<ErrorType>)
    ensures |r| == |es| && forall k :: 0 <= k < |es| ==> r[k] == es[k].errorType
  {
    seq(|es|, k requires 0 <= k < |es| => es[k].errorType)
  }

  /** The timestamps of the entries that have one, in order. */
  function KnownStamps(es: seq<Entry>): (r: seq<string>)
    ensures forall t :: t in r ==> t != "UNKNOWN"
    ensures (r == []) <==> forall k :: 0 <= k < |es| ==> es[k].timestamp == "UNKNOWN"
  {
    if es == [] then []
    else
      var init := KnownStamps(es[..|es| - 1]);
      var t := es[|es| - 1].timestamp;
      assert forall k :: 0 <= k < |es| - 1 ==> es[..|es| - 1][k] == es[k];
      if t == "UNKNOWN" then init else init + [t]
  }

  /** `entries[-5:]`. */
  function Recent(es: seq<Entry>): seq<Entry> {
    if |es| <= 5 then es else es[|es| - 5..]
  }

  datatype Summary = Summary(
    health: HealthLabel, severityDistribution: map<SeverityLevel, nat>,
    mostCommonError: string, recent: seq<Entry>, firstTimestamp: string,
    latestTimestamp: string, errorTypes: set<ErrorType>)

  /** The dashboard fields of one service's entries. */
  function Summarize(es: seq<Entry>): Summary {
    var sevs := SeveritiesOf(es);
    var types := TypesOf(es);
    var stamps := KnownStamps(es);
    Summary(
      Health(Count(sevs, High) + Count(sevs, Medium), Count(sevs, Low)),
      map s | s in sevs :: Count(sevs, s),
      if |types| > 0 then ErrorTypeValue(MostCommon(types)) else "Other",
      Recent(es),
      if |stamps| > 0 then MinStr(stamps) else "UNKNOWN",
      if |stamps| > 0 then MaxStr(stamps) else "UNKNOWN",
      set t | t in types)
  }

  /** Every severity is one of the three, so their counts add up. */
  lemma {:induction false} SeverityCountsTotal(sevs: seq<SeverityLevel>)
    ensures Count(sevs, High) + Count(sevs, Medium) + Count(sevs, Low) == |sevs|
    decreases |sevs|
  {
    if sevs != [] {
      var n := |sevs| - 1;
      var init, x := sevs[..n], sevs[n];
      SeverityCountsTotal(init);
      assert sevs == init + [x];
      assert multiset(sevs) == multiset(init) + multiset{x};
      assert Count(sevs, x) == Count(init, x) + 1;
      match x
      case High => assert Count(sevs, Medium) == Count(init, Medium) && Count(sevs, Low) == Count(init, Low);
      case Medium => assert Count(sevs, High) == Count(init, High) && Count(sevs, Low) == Count(init, Low);
      case Low => assert Count(sevs, High) == Count(init, High) && Count(sevs, Medium) == Count(init, Medium);
    }
  }

  /** Healthy only with no entries, "warning" up to five entries and
      "unhealthy" beyond: every entry counts as an error or a warning. */
  lemma SummaryHealth(es: seq<Entry>)
    ensures var h := Summarize(es).health;
      && (h == HealthyLabel <==> es == [])
      && (h == WarningLabel <==> 0 < |es| <= 5)
      && (h == UnhealthyLabel <==> |es| > 5)
  {
    SeverityCountsTotal(SeveritiesOf(es));
  }

  /** The severity distribution counts each severity that occurs, and only
      those. */
  lemma SummaryDistribution(es: seq<Entry>)
    ensures var dist, sevs := Summarize(es).severityDistribution, SeveritiesOf(es);
      forall v :: (v in dist <==> v in sevs) && (v in dist ==> dist[v] == Count(sevs, v) > 0)
  {
  }

  /** `entries[-5:]`: the last five entries, or all of them. */
  lemma SummaryRecent(es: seq<Entry>)
    ensures var r := Summarize(es).recent;
      |r| == Min(5, |es|) && r == es[|es| - |r|..]
  {
  }

  /** The most common error type, the first seen among equals, and "Other"
      for no entries. */
  lemma SummaryMostCommon(es: seq<Entry>)
    ensures es == [] ==> Summarize(es).mostCommonError == "Other"
    ensures es != [] ==> var types := TypesOf(es); exists t :: (t in types
      && Summarize(es).mostCommonError == ErrorTypeValue(t)
      && (forall y :: y in types ==> Count(types, y) <= Count(types, t))
      && (forall y :: y in types && Count(types, y) == Count(types, t) ==>
            FirstIndex(types, t) <= FirstIndex(types, y)))
  {
    if es != [] {
      var t := MostCommon(TypesOf(es));
      assert t in TypesOf(es);
    }
  }

  /** The first timestamp is the least of the known ones and the latest the
      greatest, so the first is never after the latest; both are "UNKNOWN"
      exactly when no entry has a timestamp. */
  lemma SummaryTimestamps(es: seq<Entry>)
    ensures var m, stamps := Summarize(es), KnownStamps(es);
      && StrLe(m.firstTimestamp, m.latestTimestamp)
      && (forall t :: t in stamps ==> StrLe(m.firstTimestamp, t) && StrLe(t, m.latestTimestamp))
      && (m.firstTimestamp == "UNKNOWN" <==> forall k :: 0 <= k < |es| ==> es[k].timestamp == "UNKNOWN")
      && (m.latestTimestamp == "UNKNOWN" <==> forall k :: 0 <= k < |es| ==> es[k].timestamp == "UNKNOWN")
  {
    var stamps := KnownStamps(es);
    if |stamps| > 0 {
      MinLeMax(stamps);
    } else {
      StrLeRefl("UNKNOWN");
    }
  }

  /** Every entry's severity comes from `extract_severity`, which never
      answers "Medium". */
  lemma EntriesNeverMedium(lines: seq<string>, known: seq<string>, draws: nat -> Draws)
    ensures var es := Entries(lines, known, draws);
      forall k :: 0 <= k < |es| ==> es[k].severity != Medium
  {
    var es := Entries(lines, known, draws);
    forall k | 0 <= k < |es| ensures es[k].severity != Medium {
      ExtractSeveritySpec(lines[k], draws(k + 1).severity);
    }
  }

  /** Hence no service's group has a "Medium" entry, and no listed service
      is reported healthy. */
  lemma NoServiceHealthy(lines: seq<string>, known: seq<string>, draws: nat -> Draws, s: string)
    requires s in GroupKeys(Entries(lines, known, draws))
    ensures var g := GroupOf(Entries(lines, known, draws), s);
      Count(SeveritiesOf(g), Medium) == 0 && Summarize(g).health != HealthyLabel
  {
    var es := Entries(lines, known, draws);
    var g := GroupOf(es, s);
    EntriesNeverMedium(lines, known, draws);
    GroupOfSpec(es, s);
    forall k | 0 <= k < |g| ensures g[k].severity != Medium {
      assert g[k] in es;
    }
    assert Medium !in SeveritiesOf(g);
    GroupOfKeyNonEmpty(es, s);
    SummaryHealth(g);
  }

  // ---------------------------------------------------------------------------
  // Errors per ten lines
  // ---------------------------------------------------------------------------

  predicate IsError(e: Entry) { e.severity == High || e.severity == Medium }

  function ErrorsIn(es: seq<Entry>): (c: nat)
    ensures c <= |es|
  {
    if es == [] then 0 else (if IsError(es[0]) then 1 else 0) + ErrorsIn(es[1..])
  }

  lemma {:induction false} ErrorsInAppend(a: seq<Entry>, b: seq<Entry>)
    ensures ErrorsIn(a + b) == ErrorsIn(a) + ErrorsIn(b)
    decreases |a|
  {
    if a != [] {
      assert (a + b)[0] == a[0];
      assert (a + b)[1..] == a[1..] + b;
      ErrorsInAppend(a[1..], b);
    } else {
      assert a + b == b;
    }
  }

  function Sum(xs: seq<nat>): nat {
    if xs == [] then 0 else xs[0] + Sum(xs[1..])
  }

  function Min(a: nat, b: nat): nat { if a <= b then a else b }

  /** The `batches` of `count_errors_per_n_logs`: consecutive slices of `n`
      entries, the last one possibly shorter. */
  function Batches(es: seq<Entry>, n: nat): (b: seq<seq<Entry>>)
    requires n > 0
    ensures (b == []) <==> (es == [])
    ensures forall k :: 0 <= k < |b| ==> 0 < |b[k]| <= n
    ensures forall k :: 0 <= k < |b| - 1 ==> |b[k]| == n
    decreases |es|
  {
    if es == [] then []
    else
      var m := Min(n, |es|);
      [es[..m]] + Batches(es[m..], n)
  }

  function Flatten(b: seq<seq<Entry>>): seq<Entry> {
    if b == [] then [] else b[0] + Flatten(b[1..])
  }

  /** The batches put back together are the entries. */
  lemma {:induction false} BatchesFlatten(es: seq<Entry>, n: nat)
    requires n > 0
    ensures Flatten(Batches(es, n)) == es
    decreases |es|
  {
    if es != [] {
      var m := Min(n, |es|);
      var b := Batches(es, n);
      assert b[1..] == Batches(es[m..], n);
      BatchesFlatten(es[m..], n);
      assert es[..m] + es[m..] == es;
    }
  }

  /** `count_errors_per_n_logs`: the error count of each batch. */
  function CountErrorsPerN(es: seq<Entry>, n: nat): seq<nat>
    requires n > 0
  {
    var b := Batches(es, n);
    seq(|b|, k requires 0 <= k < |b| => ErrorsIn(b[k]))
  }

  lemma CountErrorsStep(es: seq<Entry>, n: nat)
    requires n > 0 && es != []
    ensures CountErrorsPerN(es, n) == [ErrorsIn(es[..Min(n, |es|)])] + CountErrorsPerN(es[Min(n, |es|)..], n)
  {
    var b := Batches(es, n);
    assert b == [es[..Min(n, |es|)]] + Batches(es[Min(n, |es|)..], n);
  }

  /** No batch has more than `n` errors, and the counts add up to the errors
      of all entries. */
  lemma {:induction false} ChunkTotals(es: seq<Entry>, n: nat)
    requires n > 0
    ensures var r := CountErrorsPerN(es, n);
      (forall k :: 0 <= k < |r| ==> r[k] <= n) && Sum(r) == ErrorsIn(es)
    decreases |es|
  {
    if es != [] {
      var m := Min(n, |es|);
      var rest := CountErrorsPerN(es[m..], n);
      var r := [ErrorsIn(es[..m])] + rest;
      CountErrorsStep(es, n);
      ChunkTotals(es[m..], n);
      ErrorsInAppend(es[..m], es[m..]);
      assert es[..m] + es[m..] == es;
      assert r[1..] == rest;
    }
  }

  /** The number of batches: `(|b| - 1) * n < |es| <= |b| * n`. */
  lemma {:induction false} ChunkCount(es: seq<Entry>, n: nat)
    requires n > 0
    ensures var c := |Batches(es, n)|; (c - 1) * n < |es| <= c * n
    decreases |es|
  {
    if es != [] {
      var m := Min(n, |es|);
      var rest := Batches(es[m..], n);
      assert Batches(es, n) == [es[..m]] + rest;
      if |es| <= n {
        assert es[m..] == [];
      } else {
        ChunkCount(es[m..], n);
        var c := |rest|;
        MulSucc(c - 1, n);
        MulSucc(c, n);
      }
    }
  }

  /** An average as an exact fraction `num / den`. */
  datatype Ratio = Ratio(num: nat, den: nat)

  /** `avg_errors_per_full_batches`: 0 without a full chunk, otherwise the
      errors of the full chunks divided by their number. */
  function AvgErrorsPerFullBatches(perChunk: seq<nat>, total: nat, n: nat): Ratio
    requires n > 0
  {
    var full := total / n;
    if full == 0 then Ratio(0, 1) else Ratio(Sum(perChunk[..Min(full, |perChunk|)]), full)
  }

  lemma {:induction false} SumBounded(xs: seq<nat>, n: nat)
    requires forall k :: 0 <= k < |xs| ==> xs[k] <= n
    ensures Sum(xs) <= |xs| * n
    decreases |xs|
  {
    if xs != [] {
      SumBounded(xs[1..], n);
      MulSucc(|xs| - 1, n);
    }
  }

  lemma MulSucc(c: int, n: int)
    ensures (c + 1) * n == c * n + n
  {
  }

  lemma DivFloor(t: nat, n: nat)
    requires n > 0
    ensures (t / n) * n <= t
  {
  }

  lemma MulLeCancel(a: nat, b: nat, n: nat)
    requires n > 0 && a * n <= b * n
    ensures a <= b
  {
  }

  /** There are at least as many batches as full chunks. */
  lemma FullBatchesWithin(es: seq<Entry>, n: nat)
    requires n > 0
    ensures |es| / n <= |CountErrorsPerN(es, n)|
  {
    var c := |Batches(es, n)|;
    assert |CountErrorsPerN(es, n)| == c;
    ChunkCount(es, n);
    DivFloor(|es|, n);
    MulLeCancel(|es| / n, c, n);
  }

  lemma FullChunks(t: nat, n: nat)
    requires n > 0
    ensures (t < n) <==> (t / n == 0)
  {
  }

  /** The first `full` counts, each at most `n`, add up to at most `n * full`. */
  lemma PrefixBounded(r: seq<nat>, full: nat, n: nat)
    requires full <= |r|
    requires forall k :: 0 <= k < |r| ==> r[k] <= n
    ensures Sum(r[..full]) <= n * full
  {
    var pre := r[..full];
    forall k | 0 <= k < |pre| ensures pre[k] <= n { assert pre[k] == r[k]; }
    SumBounded(pre, n);
  }

  /** On the chunk counts of `es`: zero when there is no full chunk;
      otherwise every full chunk has its count, the average is their sum over
      their number, and it is at most `n`. */
  lemma AvgErrorsSpec(es: seq<Entry>, n: nat)
    requires n > 0
    ensures var r := CountErrorsPerN(es, n); var a := AvgErrorsPerFullBatches(r, |es|, n);
      && (|es| < n ==> a == Ratio(0, 1))
      && (|es| >= n ==> |es| / n <= |r| && a == Ratio(Sum(r[..|es| / n]), |es| / n) && a.num <= n * a.den)
  {
    var r := CountErrorsPerN(es, n);
    var full := |es| / n;
    FullChunks(|es|, n);
    if |es| >= n {
      FullBatchesWithin(es, n);
      ChunkTotals(es, n);
      PrefixBounded(r, full, n);
    }
  }

  // ---------------------------------------------------------------------------
  // The whole pass
  // ---------------------------------------------------------------------------

  datatype Dashboard = Dashboard(
    processed: seq<Entry>, services: seq<string>, totalServices: nat,
    summaries: map<string, Summary>, errorsPer10: seq<nat>, avgErrorsPer10: Ratio)

  lemma TakeSnoc<T>(s: seq<T>, i: nat)
    requires i < |s|
    ensures s[..i + 1] == s[..i] + [s[i]]
  {
  }

  /** The `defaultdict` of groups with its keys in insertion order. */
  ghost predicate GroupedBy(processed: seq<Entry>, keys: seq<string>, grouped: map<string, seq<Entry>>) {
    && keys == GroupKeys(processed)
    && (forall s :: s in grouped <==> s in keys)
    && (forall s :: s in grouped ==> grouped[s] == GroupOf(processed, s))
  }

  /** `grouped[service].append(entry)` keeps the groups and keys in step. */
  lemma GroupStep(processed: seq<Entry>, keys: seq<string>, grouped: map<string, seq<Entry>>, e: Entry)
    requires GroupedBy(processed, keys, grouped)
    ensures var s := e.service;
      GroupedBy(processed + [e],
                if s in grouped then keys else keys + [s],
                grouped[s := (if s in grouped then grouped[s] else []) + [e]])
  {
    var s := e.service;
    var keys' := if s in grouped then keys else keys + [s];
    var grouped' := grouped[s := (if s in grouped then grouped[s] else []) + [e]];
    GroupKeysAppend(processed, e);
    assert keys' == GroupKeys(processed + [e]);
    assert forall t :: t in grouped' <==> t in keys';
    forall t | t in grouped' ensures grouped'[t] == GroupOf(processed + [e], t) {
      GroupOfAppend(processed, e, t);
      if t == s && s !in grouped {
        GroupOfAbsent(processed, s);
      }
    }
  }

  /** The first loop of `process_and_summarize_logs`: every line becomes an
      entry that is appended to `processed` and to the group of its service. */
  method GroupEntries(lines: seq<string>, knownOrder: seq<string>, draws: nat -> Draws)
    returns (processed: seq<Entry>, keys: seq<string>, grouped: map<string, seq<Entry>>)
    ensures processed == Entries(lines, knownOrder, draws)
    ensures GroupedBy(processed, keys, grouped)
  {
    ghost var all := Entries(lines, knownOrder, draws);
    processed, keys, grouped := [], [], map[];
    var i := 0;
    while i < |lines|
      invariant 0 <= i <= |lines|
      invariant processed == all[..i]
      invariant GroupedBy(processed, keys, grouped)
    {
      var e := MakeEntry(lines[i], i + 1, knownOrder, draws(i + 1));
      assert e == all[i];
      GroupStep(processed, keys, grouped, e);
      var group := if e.service in grouped then grouped[e.service] else [];
      if e.service !in grouped {
        keys := keys + [e.service];
      }
      grouped := grouped[e.service := group + [e]];
      TakeSnoc(all, i);
      processed := processed + [e];
      i := i + 1;
    }
    assert processed == all;
  }

  /** The second loop: one summary per group, under the group's key;
      `summarize` is the summary of one group (`Summarize`). */
  method SummarizeGroups(keys: seq<string>, grouped: map<string, seq<Entry>>, summarize: seq<Entry> -> Summary)
    returns (summaries: map<string, Summary>)
    requires forall s :: s in keys ==> s in grouped
    ensures forall s :: s in summaries <==> s in keys
    ensures forall s :: s in summaries ==> summaries[s] == summarize(grouped[s])
  {
    summaries := map[];
    var k := 0;
    while k < |keys|
      invariant 0 <= k <= |keys|
      invariant forall s :: s in summaries <==> s in keys[..k]
      invariant forall s :: s in summaries ==> summaries[s] == summarize(grouped[s])
    {
      TakeSnoc(keys, k);
      summaries := summaries[keys[k] := summarize(grouped[keys[k]])];
      k := k + 1;
    }
    assert keys[..|keys|] == keys;
  }

  /** `process_and_summarize_logs` and `process_and_summarize_stream` without
      the file writes: the two differ only in the discarded second severity
      draw. `knownOrder` is the order in which `list(set)` lists the known
      services; `draws` gives the random draws for line number `k`. */
  method ProcessAndSummarize(rawLines: seq<string>, knownOrder: seq<string>, draws: nat -> Draws)
    returns (d: Dashboard)
    requires forall x :: x in knownOrder <==> x in KnownServices(NonBlankLines(rawLines))
    ensures var es := Entries(NonBlankLines(rawLines), knownOrder, draws);
      && d.processed == es
      && d.services == GroupKeys(es)
      && d.totalServices == |d.services|
      && (forall s :: s in d.summaries <==> s in d.services)
      && (forall s :: s in d.summaries ==> d.summaries[s] == Summarize(GroupOf(es, s)))
      && d.errorsPer10 == CountErrorsPerN(es, 10)
      && d.avgErrorsPer10 == AvgErrorsPerFullBatches(d.errorsPer10, |es|, 10)
  {
    var lines := NonBlankLines(rawLines);
    var processed, keys, grouped := GroupEntries(lines, knownOrder, draws);
    var summaries := SummarizeGroups(keys, grouped, Summarize);
    var errorsPer10 := CountErrorsPerN(processed, 10);
    var avg := AvgErrorsPerFullBatches(errorsPer10, |processed|, 10);
    d := Dashboard(processed, keys, |keys|, summaries, errorsPer10, avg);
  }
}
