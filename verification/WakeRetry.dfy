/**
The retry around one cold database acquisition: capped exponential backoff within a total budget.

A run is the list of tries the operation makes, each failed try with the clock readings that follow
it. The clock does not run backwards and a sleep lasts at least as long as requested.
 */
module WakeRetry {
  import opened Arithmetic
  import opened Wrappers

  datatype Config = Config(budget: int, base: int, cap: int)

  const DEFAULTS := Config(8000, 100, 1000)

  /** check and measure are read after the failure, wake after the sleep that follows it. */
  datatype Try =
    | Succeeds(v: int)
    | Fails(e: int, permanent: bool, check: int, measure: int, wake: int)

  datatype Outcome = Value(v: int) | Error(e: int)

  function OutcomeOf(t: Try): Outcome {
    match t
    case Succeeds(v) => Value(v)
    case Fails(e, _, _, _, _) => Error(e)
  }

  function Pow2(n: nat): (p: int)
    ensures p >= 1
  {
    if n == 0 then 1 else 2 * Pow2(n - 1)
  }

  function Backoff(cfg: Config, retries: nat): int { Min(cfg.cap, cfg.base * Pow2(retries)) }

  function Wait(cfg: Config, deadline: int, measure: int, retries: nat): int {
    Max(0, Min(Backoff(cfg, retries), deadline - measure))
  }

  /** outcome is None while the acquisition waits for a try that has not come. */
  datatype Report = Report(outcome: Option<Outcome>, made: nat, sleeps: seq<int>)

  function Attempt(cfg: Config, deadline: int, tries: seq<Try>, retries: nat): Report
    decreases |tries|
  {
    if |tries| == 0 then Report(None, 0, [])
    else
      match tries[0]
      case Succeeds(v) => Report(Some(Value(v)), 1, [])
      case Fails(e, permanent, check, measure, wake) =>
        if permanent || check >= deadline then Report(Some(Error(e)), 1, [])
        else
          var wait := Wait(cfg, deadline, measure, retries);
          if wake >= deadline then
            // one final try, whose outcome is reported whatever it is
            if |tries| == 1 then Report(None, 1, [wait]) else Report(Some(OutcomeOf(tries[1])), 2, [wait])
          else
            var rest := Attempt(cfg, deadline, tries[1..], retries + 1);
            Report(rest.outcome, 1 + rest.made, [wait] + rest.sleeps)
  }

  /** An acquisition whose deadline is computed at start. */
  function Acquire(cfg: Config, start: int, tries: seq<Try>): Report {
    Attempt(cfg, start + cfg.budget, tries, 0)
  }

  predicate Clocked(cfg: Config, deadline: int, tries: seq<Try>, retries: nat, now: int)
    decreases |tries|
  {
    |tries| > 0 && tries[0].Fails? ==>
      && now <= tries[0].check <= tries[0].measure
      && tries[0].measure + Wait(cfg, deadline, tries[0].measure, retries) <= tries[0].wake
      && Clocked(cfg, deadline, tries[1..], retries + 1, tries[0].wake)
  }

  predicate Positive(cfg: Config) { cfg.budget > 0 && cfg.base > 0 && cfg.cap > 0 }

  /** The backoffs of n retries in a row, from the given one on. */
  function Backoffs(cfg: Config, retries: nat, n: nat): int
    decreases n
  {
    if n == 0 then 0 else Backoff(cfg, retries) + Backoffs(cfg, retries + 1, n - 1)
  }

  function Sum(s: seq<int>): int { if |s| == 0 then 0 else s[0] + Sum(s[1..]) }

  lemma {:induction false} BackoffPositive(cfg: Config, retries: nat)
    requires Positive(cfg)
    ensures Backoff(cfg, retries) >= 1
  {
    AtLeastOne(cfg.base, Pow2(retries));
  }

  lemma {:induction false} AtLeastOne(a: int, b: int)
    requires a >= 1 && b >= 1
    ensures a * b >= 1
  {
  }

  /** Every sleep but the last is a full backoff: a sleep cut short by the deadline ends at it. */
  lemma {:induction false} AttemptBound(cfg: Config, deadline: int, tries: seq<Try>, retries: nat, now: int)
    requires Positive(cfg) && Clocked(cfg, deadline, tries, retries, now)
    ensures var r := Attempt(cfg, deadline, tries, retries);
            && (|r.sleeps| > 0 ==> Backoffs(cfg, retries, |r.sleeps| - 1) < deadline - now)
            && (|r.sleeps| > 0 ==> Sum(r.sleeps) <= deadline - now)
            && r.made <= |tries|
            && (r.outcome.Some? ==> r.made == |r.sleeps| + 1 && r.outcome == Some(OutcomeOf(tries[r.made - 1])))
            && (r.outcome.None? ==> r.made == |r.sleeps| == |tries|)
    decreases |tries|
  {
    hide Backoff;
    BackoffPositive(cfg, retries);
    if |tries| > 0 && tries[0].Fails? && !tries[0].permanent && tries[0].check < deadline && tries[0].wake < deadline {
      var wait := Wait(cfg, deadline, tries[0].measure, retries);
      assert wait == Backoff(cfg, retries);
      var rest := Attempt(cfg, deadline, tries[1..], retries + 1);
      AttemptBound(cfg, deadline, tries[1..], retries + 1, tries[0].wake);
      assert ([wait] + rest.sleeps)[1..] == rest.sleeps;
    }
  }

  /** A failure after which another try is made: not permanent, and seen before the deadline. */
  predicate Retried(t: Try, deadline: int) { t.Fails? && !t.permanent && t.check < deadline }

  /** What ends an acquisition: a success, a permanent failure, or the deadline, seen after the try or after the sleep before it. */
  predicate Final(tries: seq<Try>, k: nat, deadline: int)
    requires k < |tries|
  {
    || tries[k].Succeeds? || tries[k].permanent || tries[k].check >= deadline
    || (k > 0 && tries[k - 1].Fails? && tries[k - 1].wake >= deadline)
  }

  /** The k-th sleep is the longest that is no more than the base doubled k times, the cap, and what is left. */
  predicate SleepsFor(cfg: Config, deadline: int, t: Try, k: nat, wait: int) {
    t.Fails? &&
    var doubled, left := cfg.base * Pow2(k), deadline - t.measure;
    && wait >= 0
    && (wait > 0 ==> wait <= doubled && wait <= cfg.cap && wait <= left)
    && (wait >= doubled || wait >= cfg.cap || wait >= left)
  }

  lemma {:induction false} AttemptSteps(cfg: Config, deadline: int, tries: seq<Try>, retries: nat)
    ensures var r := Attempt(cfg, deadline, tries, retries);
            && |r.sleeps| <= |tries| && r.made <= |tries|
            && (forall k :: 0 <= k < |r.sleeps| ==>
                  Retried(tries[k], deadline) && SleepsFor(cfg, deadline, tries[k], retries + k, r.sleeps[k]))
            && (forall k :: 0 <= k < |r.sleeps| - 1 ==> tries[k].wake < deadline)
            && (r.outcome.Some? ==> r.made == |r.sleeps| + 1 && r.outcome == Some(OutcomeOf(tries[r.made - 1])))
            && (r.outcome.Some? ==> Final(tries, r.made - 1, deadline))
            && (r.outcome.None? ==> r.made == |r.sleeps| == |tries|)
    decreases |tries|
  {
    hide Pow2;
    if |tries| > 0 && Retried(tries[0], deadline) {
      var wait := Wait(cfg, deadline, tries[0].measure, retries);
      assert SleepsFor(cfg, deadline, tries[0], retries, wait);
      if tries[0].wake < deadline {
        var rest := Attempt(cfg, deadline, tries[1..], retries + 1);
        AttemptSteps(cfg, deadline, tries[1..], retries + 1);
        var r := Attempt(cfg, deadline, tries, retries);
        forall k | 0 <= k < |r.sleeps|
          ensures Retried(tries[k], deadline) && SleepsFor(cfg, deadline, tries[k], retries + k, r.sleeps[k])
          ensures k < |r.sleeps| - 1 ==> tries[k].wake < deadline
        {
          if k > 0 { assert tries[k] == tries[1..][k - 1] && r.sleeps[k] == rest.sleeps[k - 1]; }
        }
        if rest.outcome.Some? {
          assert tries[1..][rest.made - 1] == tries[r.made - 1];
          assert Final(tries[1..], rest.made - 1, deadline);
          if rest.made > 1 { assert tries[1..][rest.made - 2] == tries[r.made - 2]; }
        }
      }
    }
  }

  /**
  What an acquisition does with any tries: it goes on after a failure exactly if that was not permanent and
  seen before the deadline, sleeping the capped doubled backoff cut at the deadline; it ends at the first
  success, permanent failure or passed deadline, with the outcome of that try, after one more try if the
  deadline passed during a sleep.
   */
  lemma {:induction false} AcquireLaw(cfg: Config, start: int, tries: seq<Try>)
    ensures var r, deadline := Acquire(cfg, start, tries), start + cfg.budget;
            && |r.sleeps| <= |tries| && r.made <= |tries|
            && (forall k :: 0 <= k < |r.sleeps| ==>
                  Retried(tries[k], deadline) && SleepsFor(cfg, deadline, tries[k], k, r.sleeps[k]))
            && (forall k :: 0 <= k < |r.sleeps| - 1 ==> tries[k].wake < deadline)
            && (r.outcome.Some? ==>
                  && r.made == |r.sleeps| + 1 && r.outcome == Some(OutcomeOf(tries[r.made - 1]))
                  && Final(tries, r.made - 1, deadline))
            && (r.outcome.None? ==> r.made == |r.sleeps| == |tries|)
  {
    hide Attempt, SleepsFor;
    AttemptSteps(cfg, start + cfg.budget, tries, 0);
  }

  lemma {:induction false} BackoffsGrow(cfg: Config, retries: nat, m: nat, n: nat)
    requires Positive(cfg) && m <= n
    ensures Backoffs(cfg, retries, m) + (n - m) <= Backoffs(cfg, retries, n)
    decreases n
  {
    hide Backoff;
    if n > 0 {
      BackoffPositive(cfg, retries);
      if m > 0 {
        BackoffsGrow(cfg, retries + 1, m - 1, n - 1);
      } else {
        BackoffsGrow(cfg, retries + 1, 0, n - 1);
      }
    }
  }

  /**
  The budget: an acquisition that slept k times spent full backoffs on the first k - 1 sleeps, and
  those add up to less than the budget; all sleeps requested add up to no more than the budget; and
  what it ends with, rejection included, is the outcome of the last try made, one more than it slept.
   */
  lemma {:induction false} RetryBound(cfg: Config, start: int, tries: seq<Try>)
    requires Positive(cfg) && Clocked(cfg, start + cfg.budget, tries, 0, start)
    ensures var r := Acquire(cfg, start, tries);
            && (|r.sleeps| > 0 ==> Backoffs(cfg, 0, |r.sleeps| - 1) < cfg.budget)
            && Sum(r.sleeps) <= cfg.budget
            && (r.outcome.Some? ==>
                  0 < r.made <= |tries| && r.made == |r.sleeps| + 1 && r.outcome == Some(OutcomeOf(tries[r.made - 1])))
  {
    AttemptBound(cfg, start + cfg.budget, tries, 0, start);
  }

  /** It ends: budget + 1 tries are enough, and with the default knobs twelve are. */
  lemma {:induction false} RetryEnds(cfg: Config, start: int, tries: seq<Try>)
    requires Positive(cfg) && Clocked(cfg, start + cfg.budget, tries, 0, start)
    ensures |tries| > cfg.budget ==> Acquire(cfg, start, tries).outcome.Some?
    ensures cfg == DEFAULTS ==>
              && Acquire(cfg, start, tries).made <= 12
              && (|tries| >= 12 ==> Acquire(cfg, start, tries).outcome.Some?)
  {
    var r := Acquire(cfg, start, tries);
    AttemptBound(cfg, start + cfg.budget, tries, 0, start);
    if |r.sleeps| > 0 {
      BackoffsGrow(cfg, 0, 0, |r.sleeps| - 1);
      if cfg == DEFAULTS && |r.sleeps| >= 12 {
        DefaultBackoffs();
        BackoffsGrow(cfg, 0, 11, |r.sleeps| - 1);
      }
    }
  }

  lemma {:induction false} DefaultBackoffs()
    ensures Backoffs(DEFAULTS, 0, 11) == 8500
  {
    forall n: nat | n >= 4
      ensures Backoff(DEFAULTS, n) == 1000
    {
      PowersPast(n);
    }
    assert Backoffs(DEFAULTS, 4, 7) == 7000 by {
      assert Backoffs(DEFAULTS, 8, 3) == 3000;
    }
    assert Pow2(1) == 2 && Pow2(2) == 4 && Pow2(3) == 8;
    assert Backoffs(DEFAULTS, 2, 9) == 400 + 800 + 7000;
  }

  lemma {:induction false} PowersPast(n: nat)
    requires n >= 4
    ensures Pow2(n) >= 16
  {
    if n > 4 { PowersPast(n - 1); } else { assert Pow2(3) == 8 by { assert Pow2(1) == 2; } }
  }

  /** Tries that fail at once, each slept off exactly as requested, and one last success. */
  function Worst(n: nat, retries: nat, now: int): seq<Try>
    decreases n
  {
    if n == 0 then [Succeeds(1)]
    else
      var wait := Wait(DEFAULTS, 8000, now, retries);
      [Fails(0, false, now, now, now + wait)] + Worst(n - 1, retries + 1, now + wait)
  }

  lemma {:induction false} WorstMade(n: nat, retries: nat, now: int)
    requires n > 0 ==> now + Backoffs(DEFAULTS, retries, n - 1) < 8000
    ensures Clocked(DEFAULTS, 8000, Worst(n, retries, now), retries, now)
    ensures |Worst(n, retries, now)| == n + 1
    ensures Attempt(DEFAULTS, 8000, Worst(n, retries, now), retries).made == n + 1
    decreases n
  {
    hide Backoff;
    if n > 0 {
      var wait := Wait(DEFAULTS, 8000, now, retries);
      BackoffsGrow(DEFAULTS, retries, 0, n - 1);
      BackoffPositive(DEFAULTS, retries);
      if n > 1 { BackoffsGrow(DEFAULTS, retries + 1, 0, n - 2); }
      assert Worst(n, retries, now)[1..] == Worst(n - 1, retries + 1, now + wait);
      WorstMade(n - 1, retries + 1, now + wait);
    }
  }

  /** Twelve is met: under the default knobs, tries that keep failing at once are made twelve times. */
  lemma {:induction false} TwelveTries()
    ensures Clocked(DEFAULTS, DEFAULTS.budget, Worst(11, 0, 0), 0, 0)
    ensures Acquire(DEFAULTS, 0, Worst(11, 0, 0)).made == 12
  {
    hide Clocked, Attempt, Worst;
    DefaultBackoffs();
    BackoffsGrow(DEFAULTS, 0, 10, 11);
    BackoffsLast(DEFAULTS, 0, 10);
    PowersPast(10);
    WorstMade(11, 0, 0);
  }

  lemma {:induction false} BackoffsLast(cfg: Config, retries: nat, n: nat)
    ensures Backoffs(cfg, retries, n + 1) == Backoffs(cfg, retries, n) + Backoff(cfg, retries + n)
    decreases n
  {
    hide Backoff;
    if n > 0 { BackoffsLast(cfg, retries + 1, n - 1); }
  }
}
