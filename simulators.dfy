/** The five demo services that generate logs. Each keeps a `bad_log_ratio`
    that `set_bad_ratio` replaces only with a valid value, and each iteration
    of its `run` loop counts itself and takes a good or a bad branch from
    the iteration number and the ratio alone. The messages themselves are
    random and are not modelled. */
module Simulators {
  import opened DemoConfig

  /** The two decision rules in use: the API and auth services are bad when
      the count modulo ten is below the ratio; the inventory, notification
      and payment services are good only when it is above the ratio. */
  datatype Rule = BelowRatio | AboveRatio

  datatype Service = Api | Auth | Inventory | Notification | Payment

  function RuleOf(s: Service): Rule {
    match s
    case Api => BelowRatio
    case Auth => BelowRatio
    case _ => AboveRatio
  }

  /** Whether iteration `n` (counted from 1) takes a bad branch. The explicit
      `ratio == 0` test of the below-ratio services selects the same good
      branch the general test would. */
  predicate IsBad(rule: Rule, ratio: int, n: int) {
    match rule
    case BelowRatio => ratio != 0 && n % 10 < ratio
    case AboveRatio => !(n % 10 > ratio)
  }

  /** The number of bad iterations among `n`, `n + 1`, ..., `n + len - 1`. */
  function BadCount(rule: Rule, ratio: int, n: int, len: nat): nat {
    if len == 0 then 0 else BadCount(rule, ratio, n, len - 1) + (if IsBad(rule, ratio, n + len - 1) then 1 else 0)
  }

  /** Shifting the window by one drops one iteration and adds the one ten
      later, which has the same residue. */
  lemma WindowShift(rule: Rule, ratio: int, n: int)
    ensures BadCount(rule, ratio, n + 1, 10) == BadCount(rule, ratio, n, 10)
  {
    assert (n + 10) % 10 == n % 10;
    WindowFront(rule, ratio, n, 10);
  }

  /** Counting from the front instead of the back. */
  lemma {:induction false} WindowFront(rule: Rule, ratio: int, n: int, len: nat)
    requires len >= 1
    ensures BadCount(rule, ratio, n, len)
            == (if IsBad(rule, ratio, n) then 1 else 0) + BadCount(rule, ratio, n + 1, len - 1)
    decreases len
  {
    if len > 1 {
      WindowFront(rule, ratio, n, len - 1);
    }
  }

  lemma {:induction false} WindowFrom(rule: Rule, ratio: int, n: nat)
    ensures BadCount(rule, ratio, n, 10) == BadCount(rule, ratio, 0, 10)
    decreases n
  {
    if n > 0 {
      WindowFrom(rule, ratio, n - 1);
      WindowShift(rule, ratio, n - 1);
    }
  }

  /** Among iterations 0 .. len - 1, with len at most ten, iteration k has
      residue k, so the bad ones are those below the ratio (resp. up to it). */
  lemma {:induction false} PrefixCount(rule: Rule, ratio: int, len: nat)
    requires 0 <= ratio <= 10 && len <= 10
    ensures rule == BelowRatio ==> BadCount(rule, ratio, 0, len) == if len <= ratio then len else ratio
    ensures rule == AboveRatio ==> BadCount(rule, ratio, 0, len) == if len <= ratio + 1 then len else ratio + 1
    decreases len
  {
    if len > 0 {
      PrefixCount(rule, ratio, len - 1);
      assert (len - 1) % 10 == len - 1;
    }
  }

  /** Any ten consecutive iterations of an API or auth service hold exactly
      `ratio` bad ones, as their docstrings say; those of the other three
      services hold `ratio + 1`, at most ten, so even ratio 0 yields one bad
      iteration in ten. */
  lemma BadPerTen(rule: Rule, ratio: int, n: nat)
    requires 0 <= ratio <= 10
    ensures rule == BelowRatio ==> BadCount(rule, ratio, n, 10) == ratio
    ensures rule == AboveRatio ==> BadCount(rule, ratio, n, 10) == if ratio + 1 <= 10 then ratio + 1 else 10
  {
    WindowFrom(rule, ratio, n);
    PrefixCount(rule, ratio, 10);
  }

  /** With ratio 0 the API and auth services never take the bad branch. */
  lemma ZeroRatioAlwaysGood(ratio: int, n: int)
    requires ratio == 0
    ensures !IsBad(BelowRatio, ratio, n)
  {
  }

  /** One simulated service. */
  class Simulator {
    const service: Service
    var badLogRatio: int
    /** `log_count` of the `run` loop. */
    var logCount: nat

    /** `__init__(bad_log_ratio=2)`: the initial ratio is not checked. */
    constructor(service: Service, badLogRatio: int)
      ensures this.service == service && this.badLogRatio == badLogRatio && logCount == 0
    {
      this.service := service;
      this.badLogRatio := badLogRatio;
      logCount := 0;
    }

    /** `set_bad_ratio`: the same test as the shared `Config` setter, but an
        invalid value is logged and ignored instead of raising. */
    method SetBadRatio(v: PyValue)
      modifies this
      ensures badLogRatio == if ValidRatio(v) then IntValue(v) else old(badLogRatio)
      ensures logCount == old(logCount)
    {
      if !ValidRatio(v) {
        return;
      }
      badLogRatio := IntValue(v);
    }

    /** One iteration of `run`: the count goes up and the branch is chosen
        from the new count and the current ratio. */
    method Step() returns (bad: bool)
      modifies this
      ensures logCount == old(logCount) + 1
      ensures bad == IsBad(RuleOf(service), badLogRatio, logCount)
      ensures badLogRatio == old(badLogRatio)
    {
      logCount := logCount + 1;
      match RuleOf(service)
      case BelowRatio =>
        if badLogRatio == 0 {
          bad := false;
        } else {
          bad := logCount % 10 < badLogRatio;
        }
      case AboveRatio =>
        bad := !(logCount % 10 > badLogRatio);
    }
  }
}
