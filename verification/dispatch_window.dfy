/** How long one outbox marker must live to cover a Cloud Tasks retry chain. */
module DispatchWindow {
  import opened Types

  const MARGIN: nat := 60

  function AtLeastOne(attempts: int): (n: nat)
    ensures 1 <= n && (1 <= attempts ==> n == attempts)
  {
    if attempts < 1 then 1 else attempts
  }

  /** The dispatch deadline of one attempt. */
  function AttemptLength(taskTimeout: nat): nat {
    taskTimeout + 5
  }

  function ByAttempts(taskTimeout: nat, attempts: int, maxBackoff: nat): nat {
    AtLeastOne(attempts) * AttemptLength(taskTimeout) + (AtLeastOne(attempts) - 1) * maxBackoff
  }

  /** dispatchWindow, in seconds. */
  function Window(taskTimeout: nat, attempts: int, maxBackoff: nat, maxRetryDuration: nat): nat {
    var byDuration := maxRetryDuration + AttemptLength(taskTimeout);
    Later(ByAttempts(taskTimeout, attempts, maxBackoff), byDuration) + MARGIN
  }

  function WindowOf(cfg: Config): nat {
    Window(cfg.taskTimeout, cfg.retryAttempts, cfg.retryBackoff, cfg.retryDuration)
  }

  /** One delivery of a task. */
  datatype Run = Run(start: nat, end: nat)

  /** The queue's retry contract, with times counted from the first delivery:
      every delivery is cut at the dispatch deadline, the next one starts within
      the maximum backoff, and a delivery past maxAttempts starts only while the
      retry duration has not elapsed. */
  ghost predicate IsChain(runs: seq<Run>, taskTimeout: nat, attempts: int, maxBackoff: nat, maxRetryDuration: nat) {
    && (|runs| > 0 ==> runs[0].start == 0)
    && (forall i :: 0 <= i < |runs| ==> runs[i].start <= runs[i].end <= runs[i].start + AttemptLength(taskTimeout))
    && (forall i :: 0 < i < |runs| ==> runs[i - 1].end <= runs[i].start <= runs[i - 1].end + maxBackoff)
    && (forall i :: AtLeastOne(attempts) <= i < |runs| ==> runs[i].start < maxRetryDuration)
  }

  /** Deliveries 0..i, back to back, end no later than i+1 attempts and i backoffs. */
  lemma {:induction false} EndByCount(runs: seq<Run>, taskTimeout: nat, attempts: int, maxBackoff: nat,
      maxRetryDuration: nat, i: nat)
    requires IsChain(runs, taskTimeout, attempts, maxBackoff, maxRetryDuration)
    requires i < |runs|
    ensures runs[i].end <= (i + 1) * AttemptLength(taskTimeout) + i * maxBackoff
  {
    if i == 0 {
    } else {
      EndByCount(runs, taskTimeout, attempts, maxBackoff, maxRetryDuration, i - 1);
      var a, b := AttemptLength(taskTimeout), maxBackoff;
      assert i * a + a == (i + 1) * a;
      assert (i - 1) * b + b == i * b;
    }
  }

  lemma CountMonotone(i: nat, n: nat, a: nat, b: nat)
    requires i < n
    ensures (i + 1) * a + i * b <= n * a + (n - 1) * b
  {
    var d := n - 1 - i;
    assert n * a == (i + 1) * a + d * a;
    assert (n - 1) * b == i * b + d * b;
  }

  /** Every chain the queue may run for one marker has ended, with at least the
      margin to spare, before the marker expires. */
  lemma {:induction false} ChainEndsInsideWindow(runs: seq<Run>, taskTimeout: nat, attempts: int, maxBackoff: nat,
      maxRetryDuration: nat, i: nat)
    requires IsChain(runs, taskTimeout, attempts, maxBackoff, maxRetryDuration)
    requires i < |runs|
    ensures runs[i].end + MARGIN <= Window(taskTimeout, attempts, maxBackoff, maxRetryDuration)
  {
    if i < AtLeastOne(attempts) {
      EndByCount(runs, taskTimeout, attempts, maxBackoff, maxRetryDuration, i);
      CountMonotone(i, AtLeastOne(attempts), AttemptLength(taskTimeout), maxBackoff);
    }
  }

  /** The k-th delivery of the slowest chain: every delivery runs to its
      deadline and every pause lasts the whole backoff. */
  function Slowest(k: nat, taskTimeout: nat, maxBackoff: nat): Run {
    var start := k * AttemptLength(taskTimeout) + k * maxBackoff;
    Run(start, start + AttemptLength(taskTimeout))
  }

  /** One delivery a second, each handing over to the next, and the last one, started
      just before the retry duration is over, running to its deadline. */
  function Steady(k: nat, taskTimeout: nat, maxRetryDuration: nat): Run {
    Run(k, if k + 1 < maxRetryDuration then k + 1 else k + AttemptLength(taskTimeout))
  }

  lemma SlowestIsChain(taskTimeout: nat, attempts: int, maxBackoff: nat, maxRetryDuration: nat)
    ensures var n := AtLeastOne(attempts);
            var runs := seq(n, k requires 0 <= k => Slowest(k, taskTimeout, maxBackoff));
            && IsChain(runs, taskTimeout, attempts, maxBackoff, maxRetryDuration)
            && runs[n - 1].end == ByAttempts(taskTimeout, attempts, maxBackoff)
  {
    var n := AtLeastOne(attempts);
    var runs := seq(n, k requires 0 <= k => Slowest(k, taskTimeout, maxBackoff));
    forall i | 0 < i < |runs|
      ensures runs[i].start == runs[i - 1].end + maxBackoff
    {
      assert i * AttemptLength(taskTimeout) == (i - 1) * AttemptLength(taskTimeout) + AttemptLength(taskTimeout);
      assert i * maxBackoff == (i - 1) * maxBackoff + maxBackoff;
    }
    assert n * AttemptLength(taskTimeout) == (n - 1) * AttemptLength(taskTimeout) + AttemptLength(taskTimeout);
  }

  /** The window is not generous: with the margin taken off, some chain the queue may
      run fills it exactly where the number of attempts bounds it, and to the last
      second where the retry duration does, before which every delivery must start. */
  lemma WindowIsTight(taskTimeout: nat, attempts: int, maxBackoff: nat, maxRetryDuration: nat) returns (runs: seq<Run>)
    ensures IsChain(runs, taskTimeout, attempts, maxBackoff, maxRetryDuration) && |runs| > 0
    ensures var byAttempts := maxRetryDuration + AttemptLength(taskTimeout)
                           <= ByAttempts(taskTimeout, attempts, maxBackoff);
            runs[|runs| - 1].end + (if byAttempts then 0 else 1) + MARGIN
            == Window(taskTimeout, attempts, maxBackoff, maxRetryDuration)
  {
    if maxRetryDuration + AttemptLength(taskTimeout) <= ByAttempts(taskTimeout, attempts, maxBackoff) {
      SlowestIsChain(taskTimeout, attempts, maxBackoff, maxRetryDuration);
      runs := seq(AtLeastOne(attempts), k requires 0 <= k => Slowest(k, taskTimeout, maxBackoff));
    } else {
      AttemptsTakeTime(taskTimeout, attempts, maxBackoff);
      runs := seq(maxRetryDuration, k requires 0 <= k => Steady(k, taskTimeout, maxRetryDuration));
    }
  }

  lemma AttemptsTakeTime(taskTimeout: nat, attempts: int, maxBackoff: nat)
    ensures AttemptLength(taskTimeout) <= ByAttempts(taskTimeout, attempts, maxBackoff)
  {
    var n, a := AtLeastOne(attempts), AttemptLength(taskTimeout);
    assert n * a == (n - 1) * a + a;
    assert 0 <= (n - 1) * a && 0 <= (n - 1) * maxBackoff;
  }
}
