/** Ordered keyword tables as the classifiers use them: each row names some
    keywords and a value, rows are tried in order, and the first row with a
    keyword in the lowercased line gives the answer. */
module KeywordTables {
  import opened Strings

  /** One row of a table: when any keyword occurs, `value` is the answer. */
  datatype Rule<T> = Rule(keywords: seq<string>, value: T)

  predicate Fires<T>(low: string, r: Rule<T>) {
    ContainsAny(low, r.keywords)
  }

  /** Index of the first row at or after `k` that fires, `|rules|` if none. */
  function FirstFiring<T>(low: string, rules: seq<Rule<T>>, k: nat): (i: nat)
    requires k <= |rules|
    ensures k <= i <= |rules|
    ensures i < |rules| ==> Fires(low, rules[i])
    ensures forall j :: k <= j < i ==> !Fires(low, rules[j])
    decreases |rules| - k
  {
    if k == |rules| || Fires(low, rules[k]) then k else FirstFiring(low, rules, k + 1)
  }

  /** The value of the first row at or after `k` that fires, else `default`. */
  function FirstMatchFrom<T>(low: string, rules: seq<Rule<T>>, k: nat, default: T): T
    requires k <= |rules|
  {
    var i := FirstFiring(low, rules, k);
    if i < |rules| then rules[i].value else default
  }

  function FirstMatch<T>(low: string, rules: seq<Rule<T>>, default: T): T {
    FirstMatchFrom(low, rules, 0, default)
  }

  /** One row at a time: a row that fires decides, one that does not passes
      the question to the rest of the table. */
  lemma FirstMatchStep<T>(low: string, rules: seq<Rule<T>>, k: nat, default: T)
    requires k < |rules|
    ensures FirstMatchFrom(low, rules, k, default)
         == if Fires(low, rules[k]) then rules[k].value else FirstMatchFrom(low, rules, k + 1, default)
  {
  }

  lemma FiresOne<T>(low: string, r: Rule<T>)
    requires |r.keywords| == 1
    ensures Fires(low, r) <==> Contains(low, r.keywords[0])
  {
  }

  lemma FiresTwo<T>(low: string, r: Rule<T>)
    requires |r.keywords| == 2
    ensures Fires(low, r) <==> Contains(low, r.keywords[0]) || Contains(low, r.keywords[1])
  {
    if Contains(low, r.keywords[1]) { assert Contains(low, r.keywords[1]); }
  }
}
