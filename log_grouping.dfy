/** `group_logs`: classified logs are grouped by service; each group gets a
    summary (its size, the severity counts, the most common error type, the
    first and latest timestamps) and a compacted list with one entry per
    distinct (error type, subtype, description, severity) that counts its
    occurrences and keeps their timestamps. Timestamps are the instants that
    `strptime` parses; the file reads and writes are left out. */
module LogGrouping {
  import opened Counting

  datatype ClassifiedLog = ClassifiedLog(
    service: string, severityLevel: string, errorType: string,
    errorSubType: string, errorDesc: string, timestamp: int)

  // ---------------------------------------------------------------------------
  // Grouping by service
  // ---------------------------------------------------------------------------

  function ServicesOf(logs: seq<ClassifiedLog>): (r: seq<string>)
    ensures |r| == |logs| && forall k :: 0 <= k < |logs| ==> r[k] == logs[k].service
  {
    seq(|logs|, k requires 0 <= k < |logs| => logs[k].service)
  }

  /** `grouped[service]`: the logs of one service, in input order. */
  function GroupOf(logs: seq<ClassifiedLog>, service: string): seq<ClassifiedLog> {
    if logs == [] then []
    else
      var init := GroupOf(logs[..|logs| - 1], service);
      if logs[|logs| - 1].service == service then init + [logs[|logs| - 1]] else init
  }

  /** `grouped.keys()`: the services in the order they first appear. */
  function GroupKeys(logs: seq<ClassifiedLog>): seq<string> {
    Dedup(ServicesOf(logs))
  }

  lemma GroupOfAppend(logs: seq<ClassifiedLog>, l: ClassifiedLog, s: string)
    ensures GroupOf(logs + [l], s) == GroupOf(logs, s) + (if l.service == s then [l] else [])
  {
    assert (logs + [l])[..|logs|] == logs;
  }

  /** Grouping keeps input order: the group of a concatenation is the group
      of the first part followed by the group of the second. */
  lemma {:induction false} GroupOfConcat(a: seq<ClassifiedLog>, b: seq<ClassifiedLog>, s: string)
    ensures GroupOf(a + b, s) == GroupOf(a, s) + GroupOf(b, s)
    decreases |b|
  {
    if b == [] {
      assert a + b == a;
    } else {
      var n := |b| - 1;
      var init, x := b[..n], b[n];
      assert b == init + [x];
      assert a + b == (a + init) + [x];
      GroupOfConcat(a, init, s);
      GroupOfAppend(a + init, x, s);
      GroupOfAppend(init, x, s);
    }
  }

  lemma GroupKeysAppend(logs: seq<ClassifiedLog>, l: ClassifiedLog)
    ensures GroupKeys(logs + [l])
         == if l.service in GroupKeys(logs) then GroupKeys(logs) else GroupKeys(logs) + [l.service]
  {
    var xs := ServicesOf(logs + [l]);
    assert xs[..|xs| - 1] == ServicesOf(logs);
  }

  /** A group holds exactly the logs of its service, as many as the service
      occurs. */
  lemma {:induction false} GroupOfSpec(logs: seq<ClassifiedLog>, s: string)
    ensures forall l :: l in GroupOf(logs, s) <==> l in logs && l.service == s
    ensures |GroupOf(logs, s)| == Count(ServicesOf(logs), s)
    decreases |logs|
  {
    if logs != [] {
      var n := |logs| - 1;
      var init, l := logs[..n], logs[n];
      GroupOfSpec(init, s);
      assert logs == init + [l];
      assert ServicesOf(logs) == ServicesOf(init) + [l.service];
      GroupOfAppend(init, l, s);
      assert multiset(ServicesOf(logs)) == multiset(ServicesOf(init)) + multiset{l.service};
    }
  }

  /** A service has a key exactly when its group is not empty. */
  lemma GroupKeyIffNonEmpty(logs: seq<ClassifiedLog>, s: string)
    ensures s in GroupKeys(logs) <==> GroupOf(logs, s) != []
  {
    DedupMembers(ServicesOf(logs), s);
    GroupOfSpec(logs, s);
    if s in ServicesOf(logs) {
      var k :| 0 <= k < |logs| && ServicesOf(logs)[k] == s;
      assert logs[k] in GroupOf(logs, s);
    }
  }

  /** The sum of the group sizes over `keys`. */
  function SumGroupSizes(keys: seq<string>, logs: seq<ClassifiedLog>): nat {
    if keys == [] then 0 else SumGroupSizes(keys[..|keys| - 1], logs) + |GroupOf(logs, keys[|keys| - 1])|
  }

  lemma {:induction false} SumGroupSizesIsSumCounts(keys: seq<string>, logs: seq<ClassifiedLog>)
    ensures SumGroupSizes(keys, logs) == SumCounts(keys, ServicesOf(logs))
    decreases |keys|
  {
    if keys != [] {
      SumGroupSizesIsSumCounts(keys[..|keys| - 1], logs);
      GroupOfSpec(logs, keys[|keys| - 1]);
    }
  }

  /** Every log is in the group of its own service, whose service is a key,
      and in no other group; the group sizes add up to the number of logs. */
  lemma GroupsPartition(logs: seq<ClassifiedLog>)
    ensures forall l :: l in logs ==> l.service in GroupKeys(logs) && l in GroupOf(logs, l.service)
    ensures forall s, l :: l in GroupOf(logs, s) ==> l.service == s
    ensures SumGroupSizes(GroupKeys(logs), logs) == |logs|
  {
    forall l | l in logs ensures l.service in GroupKeys(logs) && l in GroupOf(logs, l.service) {
      var k :| 0 <= k < |logs| && logs[k] == l;
      assert ServicesOf(logs)[k] == l.service;
      DedupMembers(ServicesOf(logs), l.service);
      GroupOfSpec(logs, l.service);
    }
    forall s, l | l in GroupOf(logs, s) ensures l.service == s { GroupOfSpec(logs, s); }
    SumGroupSizesIsSumCounts(GroupKeys(logs), logs);
    CountsSumToLength(ServicesOf(logs));
  }

  /** The `defaultdict` of groups, with its keys in insertion order. */
  ghost predicate GroupedBy(done: seq<ClassifiedLog>, keys: seq<string>, grouped: map<string, seq<ClassifiedLog>>) {
    && keys == GroupKeys(done)
    && (forall s :: s in grouped <==> s in keys)
    && (forall s :: s in grouped ==> grouped[s] == GroupOf(done, s))
  }

  /** `grouped[log["service"]].append(log)` keeps the groups and keys in step. */
  lemma GroupStep(done: seq<ClassifiedLog>, keys: seq<string>, grouped: map<string, seq<ClassifiedLog>>,
                  l: ClassifiedLog)
    requires GroupedBy(done, keys, grouped)
    ensures var s := l.service;
      GroupedBy(done + [l],
                if s in grouped then keys else keys + [s],
                grouped[s := (if s in grouped then grouped[s] else []) + [l]])
  {
    var s := l.service;
    var keys' := if s in grouped then keys else keys + [s];
    var grouped' := grouped[s := (if s in grouped then grouped[s] else []) + [l]];
    GroupKeysAppend(done, l);
    assert keys' == GroupKeys(done + [l]);
    assert forall t :: t in grouped' <==> t in keys';
    forall t | t in grouped' ensures grouped'[t] == GroupOf(done + [l], t) {
      GroupOfAppend(done, l, t);
      if t == s && s !in grouped {
        GroupKeyIffNonEmpty(done, s);
      }
    }
  }

  /** The first loop of `group_logs`. */
  method GroupByService(logs: seq<ClassifiedLog>)
    returns (keys: seq<string>, grouped: map<string, seq<ClassifiedLog>>)
    ensures GroupedBy(logs, keys, grouped)
  {
    keys, grouped := [], map[];
    for i := 0 to |logs|
      invariant GroupedBy(logs[..i], keys, grouped)
    {
      var l := logs[i];
      GroupStep(logs[..i], keys, grouped, l);
      assert logs[..i + 1] == logs[..i] + [l];
      keys, grouped := if l.service in grouped then keys else keys + [l.service],
                       grouped[l.service := (if l.service in grouped then grouped[l.service] else []) + [l]];
    }
    assert logs[..|logs|] == logs;
  }

  // ---------------------------------------------------------------------------
  // Compaction
  // ---------------------------------------------------------------------------

  /** `(error_type, error_sub_type, error_desc, severity_level)`. */
  datatype CompactKey = CompactKey(errorType: string, errorSubType: string, errorDesc: string, severityLevel: string)

  /** One value of `compacted`: the four key fields, the number of logs with
      that key and their timestamps. */
  datatype Compacted = Compacted(
    errorType: string, errorSubType: string, errorDesc: string, severityLevel: string,
    count: nat, timestamps: seq<int>)

  function KeyOf(l: ClassifiedLog): CompactKey {
    CompactKey(l.errorType, l.errorSubType, l.errorDesc, l.severityLevel)
  }

  function KeyOfCompacted(c: Compacted): CompactKey {
    CompactKey(c.errorType, c.errorSubType, c.errorDesc, c.severityLevel)
  }

  function KeysOf(es: seq<ClassifiedLog>): (r: seq<CompactKey>)
    ensures |r| == |es| && forall k :: 0 <= k < |es| ==> r[k] == KeyOf(es[k])
  {
    seq(|es|, k requires 0 <= k < |es| => KeyOf(es[k]))
  }

  /** The timestamps of the logs with key `key`, in order. */
  function StampsOf(es: seq<ClassifiedLog>, key: CompactKey): seq<int> {
    if es == [] then []
    else
      var init := StampsOf(es[..|es| - 1], key);
      if KeyOf(es[|es| - 1]) == key then init + [es[|es| - 1].timestamp] else init
  }

  /** The compacted entry of `key` after the logs `es`. */
  function CompactedFor(es: seq<ClassifiedLog>, key: CompactKey): Compacted {
    Compacted(key.errorType, key.errorSubType, key.errorDesc, key.severityLevel,
              Count(KeysOf(es), key), StampsOf(es, key))
  }

  function CompactEntries(keys: seq<CompactKey>, es: seq<ClassifiedLog>): (r: seq<Compacted>)
    ensures |r| == |keys| && forall j :: 0 <= j < |keys| ==> r[j] == CompactedFor(es, keys[j])
  {
    seq(|keys|, j requires 0 <= j < |keys| => CompactedFor(es, keys[j]))
  }

  /** `list(compacted.values())`: one entry per distinct key, in the order the
      keys first occur. */
  function Compaction(es: seq<ClassifiedLog>): seq<Compacted> {
    CompactEntries(Dedup(KeysOf(es)), es)
  }

  lemma StampsOfAppend(es: seq<ClassifiedLog>, l: ClassifiedLog, key: CompactKey)
    ensures StampsOf(es + [l], key) == StampsOf(es, key) + (if KeyOf(l) == key then [l.timestamp] else [])
  {
    assert (es + [l])[..|es|] == es;
  }

  /** Each key keeps one timestamp per occurrence. */
  lemma {:induction false} StampsOfCount(es: seq<ClassifiedLog>, key: CompactKey)
    ensures |StampsOf(es, key)| == Count(KeysOf(es), key)
    decreases |es|
  {
    if es != [] {
      var n := |es| - 1;
      var init, l := es[..n], es[n];
      StampsOfCount(init, key);
      assert es == init + [l];
      assert KeysOf(es) == KeysOf(init) + [KeyOf(l)];
      StampsOfAppend(init, l, key);
      assert multiset(KeysOf(es)) == multiset(KeysOf(init)) + multiset{KeyOf(l)};
    }
  }

  /** `compacted` after the logs `done`, with its keys in insertion order. */
  ghost predicate CompactedBy(done: seq<ClassifiedLog>, keys: seq<CompactKey>, compacted: map<CompactKey, Compacted>) {
    && keys == Dedup(KeysOf(done))
    && (forall k :: k in compacted <==> k in keys)
    && (forall k :: k in compacted ==> compacted[k] == CompactedFor(done, k))
  }

  /** The value a key gets when it is first seen. */
  function FreshCompacted(key: CompactKey): Compacted {
    Compacted(key.errorType, key.errorSubType, key.errorDesc, key.severityLevel, 0, [])
  }

  /** `compacted[key]["count"] += 1` and `compacted[key]["timestamps"].append(...)`. */
  function Recorded(c: Compacted, t: int): Compacted {
    c.(count := c.count + 1, timestamps := c.timestamps + [t])
  }

  /** Appending a log adds one occurrence of its key and no other. */
  lemma CompactedForAppend(done: seq<ClassifiedLog>, l: ClassifiedLog, t: CompactKey)
    ensures CompactedFor(done + [l], t)
         == if KeyOf(l) == t then Recorded(CompactedFor(done, t), l.timestamp) else CompactedFor(done, t)
  {
    var ks := KeysOf(done + [l]);
    assert ks == KeysOf(done) + [KeyOf(l)];
    assert multiset(ks) == multiset(KeysOf(done)) + multiset{KeyOf(l)};
    StampsOfAppend(done, l, t);
  }

  /** A key not seen yet starts from the fresh value. */
  lemma CompactedForUnseen(done: seq<ClassifiedLog>, t: CompactKey)
    requires t !in Dedup(KeysOf(done))
    ensures CompactedFor(done, t) == FreshCompacted(t)
  {
    DedupMembers(KeysOf(done), t);
    StampsOfCount(done, t);
  }

  /** One log of the compaction loop keeps `compacted` and its keys in step. */
  lemma CompactStep(done: seq<ClassifiedLog>, keys: seq<CompactKey>, compacted: map<CompactKey, Compacted>,
                    l: ClassifiedLog)
    requires CompactedBy(done, keys, compacted)
    ensures var k := KeyOf(l);
      CompactedBy(done + [l],
                  if k in compacted then keys else keys + [k],
                  compacted[k := Recorded(if k in compacted then compacted[k] else FreshCompacted(k), l.timestamp)])
  {
    var k := KeyOf(l);
    var keys' := if k in compacted then keys else keys + [k];
    var compacted' := compacted[k := Recorded(if k in compacted then compacted[k] else FreshCompacted(k), l.timestamp)];
    var ks := KeysOf(done + [l]);
    assert ks[..|ks| - 1] == KeysOf(done) && ks[|ks| - 1] == k;
    assert keys' == Dedup(ks);
    assert forall t :: t in compacted' <==> t in keys';
    forall t | t in compacted' ensures compacted'[t] == CompactedFor(done + [l], t) {
      CompactedForAppend(done, l, t);
      if t == k && k !in compacted {
        CompactedForUnseen(done, k);
      }
    }
  }

  /** The compaction loop of `group_logs` over the logs of one service. */
  method CompactGroup(entries: seq<ClassifiedLog>) returns (r: seq<Compacted>)
    ensures r == Compaction(entries)
  {
    var keys: seq<CompactKey> := [];
    var compacted: map<CompactKey, Compacted> := map[];
    for i := 0 to |entries|
      invariant CompactedBy(entries[..i], keys, compacted)
    {
      var e := entries[i];
      var key := KeyOf(e);
      CompactStep(entries[..i], keys, compacted, e);
      if key !in compacted {
        compacted := compacted[key := FreshCompacted(key)];
        keys := keys + [key];
      }
      compacted := compacted[key := Recorded(compacted[key], e.timestamp)];
      assert entries[..i + 1] == entries[..i] + [e];
    }
    assert entries[..|entries|] == entries;
    r := seq(|keys|, j requires 0 <= j < |keys| => compacted[keys[j]]);
  }

  /** The sum of the counts of a compacted list. */
  function SumOfCounts(cs: seq<Compacted>): nat {
    if cs == [] then 0 else SumOfCounts(cs[..|cs| - 1]) + cs[|cs| - 1].count
  }

  lemma {:induction false} SumOfCountsIsSumCounts(keys: seq<CompactKey>, es: seq<ClassifiedLog>)
    ensures SumOfCounts(CompactEntries(keys, es)) == SumCounts(keys, KeysOf(es))
    decreases |keys|
  {
    if keys != [] {
      var n := |keys| - 1;
      SumOfCountsIsSumCounts(keys[..n], es);
      assert CompactEntries(keys, es)[..n] == CompactEntries(keys[..n], es);
    }
  }

  /** The key of the `j`-th compacted entry. */
  lemma CompactionKey(es: seq<ClassifiedLog>, j: int)
    requires 0 <= j < |Compaction(es)|
    ensures KeyOfCompacted(Compaction(es)[j]) == Dedup(KeysOf(es))[j]
  {
  }

  /** Every compacted entry keeps one timestamp per occurrence and occurs at
      least once. */
  lemma CompactionCounts(es: seq<ClassifiedLog>)
    ensures var r := Compaction(es);
      forall j :: 0 <= j < |r| ==> r[j].count == |r[j].timestamps| && r[j].count > 0
  {
    var ks := Dedup(KeysOf(es));
    var r := Compaction(es);
    forall j | 0 <= j < |r| ensures r[j].count == |r[j].timestamps| && r[j].count > 0 {
      StampsOfCount(es, ks[j]);
      DedupMembers(KeysOf(es), ks[j]);
    }
  }

  /** The compacted keys are distinct, they cover every log of the group, and
      their counts add up to the size of the group. */
  lemma CompactionKeys(es: seq<ClassifiedLog>)
    ensures var r := Compaction(es);
      && (forall i, j :: 0 <= i < j < |r| ==> KeyOfCompacted(r[i]) != KeyOfCompacted(r[j]))
      && (forall l :: l in es ==> exists j :: 0 <= j < |r| && KeyOfCompacted(r[j]) == KeyOf(l))
      && SumOfCounts(r) == |es|
  {
    var ks := Dedup(KeysOf(es));
    var r := Compaction(es);
    DedupSpec(KeysOf(es));
    forall j | 0 <= j < |r| ensures KeyOfCompacted(r[j]) == ks[j] { CompactionKey(es, j); }
    forall l | l in es ensures exists j :: 0 <= j < |r| && KeyOfCompacted(r[j]) == KeyOf(l) {
      var k :| 0 <= k < |es| && es[k] == l;
      assert KeysOf(es)[k] == KeyOf(l);
      assert KeyOf(l) in ks;
      var j :| 0 <= j < |ks| && ks[j] == KeyOf(l);
      assert KeyOfCompacted(r[j]) == KeyOf(l);
    }
    SumOfCountsIsSumCounts(ks, es);
    CountsSumToLength(KeysOf(es));
  }

  /** The compacted keys come in the order of their first occurrence. */
  lemma CompactionOrder(es: seq<ClassifiedLog>)
    ensures var r := Compaction(es);
      forall i, j :: 0 <= i < j < |r| ==>
        KeyOfCompacted(r[i]) in KeysOf(es) && KeyOfCompacted(r[j]) in KeysOf(es)
        && FirstIndex(KeysOf(es), KeyOfCompacted(r[i])) < FirstIndex(KeysOf(es), KeyOfCompacted(r[j]))
  {
    var ks := Dedup(KeysOf(es));
    var r := Compaction(es);
    DedupSpec(KeysOf(es));
    forall j | 0 <= j < |r| ensures KeyOfCompacted(r[j]) == ks[j] { CompactionKey(es, j); }
  }

  // ---------------------------------------------------------------------------
  // The summary of one group
  // ---------------------------------------------------------------------------

  function SeveritiesOf(es: seq<ClassifiedLog>): (r: seq<string>)
    ensures |r| == |es| && forall k :: 0 <= k < |es| ==> r[k] == es[k].severityLevel
  {
    seq(|es|, k requires 0 <= k < |es| => es[k].severityLevel)
  }

  function TypesOf(es: seq<ClassifiedLog>): (r: seq<string>)
    ensures |r| == |es| && forall k :: 0 <= k < |es| ==> r[k] == es[k].errorType
  {
    seq(|es|, k requires 0 <= k < |es| => es[k].errorType)
  }

  function StampsAll(es: seq<ClassifiedLog>): (r: seq<int>)
    ensures |r| == |es| && forall k :: 0 <= k < |es| ==> r[k] == es[k].timestamp
  {
    seq(|es|, k requires 0 <= k < |es| => es[k].timestamp)
  }

  /** `min(timestamps)`. */
  function MinOf(xs: seq<int>): (m: int)
    requires |xs| > 0
    ensures m in xs && forall x :: x in xs ==> m <= x
  {
    if |xs| == 1 then xs[0]
    else
      var m := MinOf(xs[1..]);
      assert forall x :: x in xs ==> x == xs[0] || x in xs[1..];
      if xs[0] <= m then xs[0] else m
  }

  /** `max(timestamps)`. */
  function MaxOf(xs: seq<int>): (m: int)
    requires |xs| > 0
    ensures m in xs && forall x :: x in xs ==> x <= m
  {
    if |xs| == 1 then xs[0]
    else
      var m := MaxOf(xs[1..]);
      assert forall x :: x in xs ==> x == xs[0] || x in xs[1..];
      if xs[0] >= m then xs[0] else m
  }

  /** `dict(Counter(xs))`. */
  function Distribution(xs: seq<string>): map<string, nat> {
    map x | x in xs :: Count(xs, x)
  }

  datatype GroupSummary = GroupSummary(
    totalErrors: nat, severityDistribution: map<string, nat>, mostCommonErrorType: string,
    firstErrorTimestamp: int, latestErrorTimestamp: int)

  /** `summaries[service]` for the (never empty) group `es`. */
  function SummarizeGroup(es: seq<ClassifiedLog>): GroupSummary
    requires es != []
  {
    GroupSummary(|es|, Distribution(SeveritiesOf(es)), MostCommon(TypesOf(es)),
                 MinOf(StampsAll(es)), MaxOf(StampsAll(es)))
  }

  /** The severity counts: one per severity that occurs, each its number of
      logs, and together, in first-seen order, the size of the group. */
  lemma SummarySeverities(es: seq<ClassifiedLog>)
    requires es != []
    ensures var g := SummarizeGroup(es); var sevs := SeveritiesOf(es);
      && g.totalErrors == |es|
      && (forall v :: v in g.severityDistribution <==> v in sevs)
      && (forall v :: v in g.severityDistribution ==> g.severityDistribution[v] == Count(sevs, v) > 0)
      && SumCounts(Dedup(sevs), sevs) == g.totalErrors
  {
    CountsSumToLength(SeveritiesOf(es));
  }

  /** `most_common(1)`: an error type with the largest count and, among
      those, the one seen first. */
  lemma SummaryMostCommon(es: seq<ClassifiedLog>)
    requires es != []
    ensures var m := SummarizeGroup(es).mostCommonErrorType; var ts := TypesOf(es);
      && m in ts
      && (forall t :: t in ts ==> Count(ts, t) <= Count(ts, m))
      && (forall t :: t in ts && Count(ts, t) == Count(ts, m) ==> FirstIndex(ts, m) <= FirstIndex(ts, t))
  {
  }

  /** The first timestamp is the earliest of the group and the latest the
      latest, so the first is never after the latest. */
  lemma SummaryTimestamps(es: seq<ClassifiedLog>)
    requires es != []
    ensures var g := SummarizeGroup(es);
      && g.firstErrorTimestamp <= g.latestErrorTimestamp
      && (exists k :: 0 <= k < |es| && es[k].timestamp == g.firstErrorTimestamp)
      && (exists k :: 0 <= k < |es| && es[k].timestamp == g.latestErrorTimestamp)
      && (forall k :: 0 <= k < |es| ==> g.firstErrorTimestamp <= es[k].timestamp <= g.latestErrorTimestamp)
  {
    var ts := StampsAll(es);
    var lo, hi := MinOf(ts), MaxOf(ts);
    var i :| 0 <= i < |ts| && ts[i] == lo;
    var j :| 0 <= j < |ts| && ts[j] == hi;
    assert es[i].timestamp == lo && es[j].timestamp == hi;
    forall k | 0 <= k < |es| ensures lo <= es[k].timestamp <= hi {
      assert ts[k] in ts;
    }
  }

  // ---------------------------------------------------------------------------
  // The whole pass
  // ---------------------------------------------------------------------------

  /** The `output` of `group_logs`; `services` is the key order of its dicts. */
  datatype GroupedOutput = GroupedOutput(
    services: seq<string>, grouped: map<string, seq<Compacted>>, summaries: map<string, GroupSummary>)

  /** The second loop of `group_logs`: compaction and summary per service. */
  method SummarizeServices(keys: seq<string>, groups: map<string, seq<ClassifiedLog>>)
    returns (finalGrouped: map<string, seq<Compacted>>, summaries: map<string, GroupSummary>)
    requires forall s :: s in keys ==> s in groups && groups[s] != []
    ensures forall s :: s in finalGrouped <==> s in keys
    ensures forall s :: s in summaries <==> s in keys
    ensures forall s :: s in finalGrouped ==> finalGrouped[s] == Compaction(groups[s])
    ensures forall s :: s in summaries ==> summaries[s] == SummarizeGroup(groups[s])
  {
    finalGrouped, summaries := map[], map[];
    for k := 0 to |keys|
      invariant forall s :: s in finalGrouped <==> s in keys[..k]
      invariant forall s :: s in summaries <==> s in keys[..k]
      invariant forall s :: s in finalGrouped ==> finalGrouped[s] == Compaction(groups[s])
      invariant forall s :: s in summaries ==> summaries[s] == SummarizeGroup(groups[s])
    {
      var service := keys[k];
      var entries := groups[service];
      var compacted := CompactGroup(entries);
      finalGrouped := finalGrouped[service := compacted];
      summaries := summaries[service := SummarizeGroup(entries)];
      assert keys[..k + 1] == keys[..k] + [service];
    }
    assert keys[..|keys|] == keys;
  }

  /** `group_logs` on the list of classified logs, without the file I/O. */
  method GroupLogs(logs: seq<ClassifiedLog>) returns (out: GroupedOutput)
    ensures out.services == GroupKeys(logs)
    ensures forall s :: s in out.grouped <==> s in out.services
    ensures forall s :: s in out.summaries <==> s in out.services
    ensures forall s :: s in out.grouped ==> out.grouped[s] == Compaction(GroupOf(logs, s))
    ensures forall s :: s in out.summaries ==>
      GroupOf(logs, s) != [] && out.summaries[s] == SummarizeGroup(GroupOf(logs, s))
  {
    var keys, groups := GroupByService(logs);
    forall s | s in keys ensures s in groups && groups[s] != [] {
      GroupKeyIffNonEmpty(logs, s);
    }
    var finalGrouped, summaries := SummarizeServices(keys, groups);
    out := GroupedOutput(keys, finalGrouped, summaries);
  }
}
