/** The claim bound is reached: reaped workers that all report late spend every requeue twice. */
module JobWitness {
  import opened Backoff
  import opened JobStore
  import opened JobRuns

  const TARGET: JobId := 0

  /**
   The target is queued and due after `attempts` claims; workers `from` to `to` still hold records of
   those attempts.
   */
  ghost predicate Stalled(c: Config, s: World, attempts: nat, from: nat, to: nat) {
    && TARGET in s.rows
    && s.rows[TARGET].attempts == attempts && s.rows[TARGET].maxAttempts == c.maxAttempts
    && (forall w :: w in s.workers <==> from <= w <= to)
    && (forall w :: from <= w <= to ==> s.workers[w].job == TARGET && s.workers[w].record.attempts == w
                                        && s.workers[w].record.maxAttempts == c.maxAttempts)
  }

  function ReapRound(c: Config, k: nat): seq<Event> {
    [Claim(k + 1, TARGET), Tick(c.lease), ReapStale]
  }

  function LateRound(c: Config, k: nat, n: nat): seq<Event> {
    [Fail(k, "late"), Tick(Delay(k)), Claim(n + 1, TARGET)]
  }

  lemma ThreeSteps(c: Config, s: World, e0: Event, e1: Event, e2: Event)
    ensures var s1 := Step(c, s, e0);
            var s2 := Step(c, s1, e1);
            Run(c, s, [e0, e1, e2]) == Step(c, s2, e2)
            && ClaimCount(c, s, [e0, e1, e2], TARGET)
               == (if Claims(s, e0) && e0.id == TARGET then 1 else 0)
                 + (if Claims(s1, e1) && e1.id == TARGET then 1 else 0)
                  + (if Claims(s2, e2) && e2.id == TARGET then 1 else 0)
  {
    var es := [e0, e1, e2];
    assert es[1..] == [e1, e2] && [e1, e2][1..] == [e2] && [e2][1..] == [];
    var s1 := Step(c, s, e0);
    var s2 := Step(c, s1, e1);
    assert Run(c, s2, [e2]) == Step(c, s2, e2) && Run(c, s1, [e1, e2]) == Run(c, s2, [e2]);
    assert ClaimCount(c, s2, [e2], TARGET) == (if Claims(s2, e2) && e2.id == TARGET then 1 else 0);
    assert ClaimCount(c, s1, [e1, e2], TARGET)
           == (if Claims(s1, e1) && e1.id == TARGET then 1 else 0) + ClaimCount(c, s2, [e2], TARGET);
  }

  lemma ReapRoundStep(c: Config, s: World, k: nat)
    requires k + 1 < c.maxAttempts && Stalled(c, s, k, 1, k) && Ready(s.rows[TARGET], s.now)
    ensures var s' := Run(c, s, ReapRound(c, k));
            Stalled(c, s', k + 1, 1, k + 1) && Ready(s'.rows[TARGET], s'.now)
            && ClaimCount(c, s, ReapRound(c, k), TARGET) == 1
  {
    ThreeSteps(c, s, Claim(k + 1, TARGET), Tick(c.lease), ReapStale);
    var s1 := Step(c, s, Claim(k + 1, TARGET));
    assert Stalled(c, s1, k + 1, 1, k + 1);
  }

  /** Claims and reapings until `n` attempts are used up. */
  lemma {:induction false} ReapPhase(c: Config, s: World, k: nat, n: nat) returns (es: seq<Event>)
    requires k <= n < c.maxAttempts && Stalled(c, s, k, 1, k) && Ready(s.rows[TARGET], s.now)
    ensures var s' := Run(c, s, es);
            Stalled(c, s', n, 1, n) && Ready(s'.rows[TARGET], s'.now) && ClaimCount(c, s, es, TARGET) == n - k
    decreases n - k
  {
    if k == n {
      es := [];
    } else {
      ReapRoundStep(c, s, k);
      var rest := ReapPhase(c, Run(c, s, ReapRound(c, k)), k + 1, n);
      es := ReapRound(c, k) + rest;
      RunAppend(c, s, ReapRound(c, k), rest);
    }
  }

  lemma LateRoundStep(c: Config, s: World, k: nat, n: nat)
    requires 1 <= k < c.maxAttempts && k <= n && Stalled(c, s, n, k, n)
    ensures Stalled(c, Run(c, s, LateRound(c, k, n)), n + 1, k + 1, n + 1)
            && ClaimCount(c, s, LateRound(c, k, n), TARGET) == 1
  {
    ThreeSteps(c, s, Fail(k, "late"), Tick(Delay(k)), Claim(n + 1, TARGET));
    var s1 := Step(c, s, Fail(k, "late"));
    assert Stalled(c, s1, n, k + 1, n);
    var s2 := Step(c, s1, Tick(Delay(k)));
    assert Stalled(c, s2, n, k + 1, n) && Ready(s2.rows[TARGET], s2.now);
    assert Claims(s2, Claim(n + 1, TARGET));
  }

  /** Each outstanding worker below the maximum reports its stale failure and the job is claimed once more. */
  lemma {:induction false} LatePhase(c: Config, s: World, k: nat, n: nat) returns (es: seq<Event>)
    requires 1 <= k <= c.maxAttempts && k <= n && Stalled(c, s, n, k, n)
    ensures ClaimCount(c, s, es, TARGET) == c.maxAttempts - k
    decreases c.maxAttempts - k
  {
    if k == c.maxAttempts {
      es := [];
    } else {
      LateRoundStep(c, s, k, n);
      var rest := LatePhase(c, Run(c, s, LateRound(c, k, n)), k + 1, n + 1);
      es := LateRound(c, k, n) + rest;
      RunAppend(c, s, LateRound(c, k, n), rest);
    }
  }

  lemma FirstPhase(c: Config) returns (es: seq<Event>)
    requires c.maxAttempts >= 1
    ensures Stalled(c, Run(c, START, es), c.maxAttempts, 1, c.maxAttempts)
    ensures ClaimCount(c, START, es, TARGET) == c.maxAttempts
  {
    var s1 := Step(c, START, Create(TARGET));
    assert Run(c, START, [Create(TARGET)]) == s1;
    assert Stalled(c, s1, 0, 1, 0) && Ready(s1.rows[TARGET], s1.now);
    var m := c.maxAttempts - 1;
    var reaps := ReapPhase(c, s1, 0, m);
    var s2 := Run(c, s1, reaps);
    var last := [Claim(m + 1, TARGET)];
    assert Claims(s2, last[0]);
    assert Run(c, s2, last) == Step(c, s2, last[0]) && ClaimCount(c, s2, last, TARGET) == 1 by {
      assert last[1..] == [];
    }
    RunAppend(c, s1, reaps, last);
    RunAppend(c, START, [Create(TARGET)], reaps + last);
    es := [Create(TARGET)] + (reaps + last);
  }

  /** For every max_attempts some run claims one job exactly 2 * max_attempts - 1 times. */
  lemma ClaimBoundIsReached(c: Config)
    requires c.maxAttempts >= 1
    ensures exists es :: ClaimCount(c, START, es, TARGET) == 2 * c.maxAttempts - 1
  {
    var first := FirstPhase(c);
    var late := LatePhase(c, Run(c, START, first), 1, c.maxAttempts);
    RunAppend(c, START, first, late);
    assert ClaimCount(c, START, first + late, TARGET) == 2 * c.maxAttempts - 1;
  }
}
