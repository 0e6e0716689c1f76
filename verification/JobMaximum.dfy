/** Exactly which reports let a job be claimed past its maximum number of attempts. */
module JobMaximum {
  import opened Prelude
  import opened JobStore
  import opened JobRuns
  import opened JobTimely

  /** Queued again although every attempt has been used. */
  predicate Overrun(c: Config, s: World, id: JobId) {
    id in s.rows && s.rows[id].status == Queued && s.rows[id].attempts >= c.maxAttempts
  }

  /** A failure report by a worker whose own attempt was not the last, on a job that has since used its last. */
  predicate StaleFailure(c: Config, s: World, e: Event, id: JobId) {
    && e.Fail? && e.worker in s.workers && s.workers[e.worker].job == id && id in s.rows
    && s.workers[e.worker].record.attempts < c.maxAttempts <= s.rows[id].attempts
  }

  /** Such a report is the one step that overruns a job; completions and all other late reports do not. */
  lemma OverrunExactly(c: Config, s: World, e: Event, id: JobId)
    requires c.maxAttempts >= 1 && Sound(c, s) && !Overrun(c, s, id)
    ensures Overrun(c, Step(c, s, e), id) <==> StaleFailure(c, s, e, id)
  {
    if Reports(s, e) {
      ReportOverruns(c, s, e, id);
    } else if Sweeps(e) {
      SweepOverruns(c, s, e, id);
    } else if !Claims(s, e) && !Creates(s, e) {
      BlockedStep(c, s, e);
    }
  }

  lemma ReportOverruns(c: Config, s: World, e: Event, id: JobId)
    requires Sound(c, s) && Reports(s, e) && !Overrun(c, s, id)
    ensures Overrun(c, Step(c, s, e), id) <==> StaleFailure(c, s, e, id)
  {
    assert s.workers[e.worker].record.maxAttempts == c.maxAttempts;
  }

  lemma SweepOverruns(c: Config, s: World, e: Event, id: JobId)
    requires Sweeps(e) && !Overrun(c, s, id) && (id in s.rows ==> s.rows[id].maxAttempts == c.maxAttempts)
    ensures !Overrun(c, Step(c, s, e), id)
  {
  }

  predicate NoStaleFailure(c: Config, s: World, es: seq<Event>, id: JobId)
    decreases |es|
  {
    es == [] || (!StaleFailure(c, s, es[0], id) && NoStaleFailure(c, Step(c, s, es[0]), es[1..], id))
  }

  /** In any run the job is overrun at some point if and only if such a report is among its steps. */
  lemma {:induction false} NeverOverrunExactly(c: Config, s: World, es: seq<Event>, id: JobId)
    requires c.maxAttempts >= 1 && Sound(c, s) && !Overrun(c, s, id)
    ensures (forall k: nat :: k <= |es| ==> !Overrun(c, Run(c, s, es[..k]), id)) <==> NoStaleFailure(c, s, es, id)
    decreases |es|
  {
    if es == [] {
      assert forall k: nat :: k <= |es| ==> es[..k] == [];
    } else {
      var s' := Step(c, s, es[0]);
      OverrunExactly(c, s, es[0], id);
      RunPrefixes(c, s, es);
      assert Run(c, s, es[..1]) == s';
      if !Overrun(c, s', id) {
        StepSound(c, s, es[0]);
        NeverOverrunExactly(c, s', es[1..], id);
        assert forall k: nat :: k <= |es| - 1 ==> Run(c, s', es[1..][..k]) == Run(c, s, es[..k + 1]);
        assert forall k: nat :: 0 < k <= |es| ==> Run(c, s, es[..k]) == Run(c, s', es[1..][..k - 1]);
      }
    }
  }

  lemma RunPrefixes(c: Config, s: World, es: seq<Event>)
    requires es != []
    ensures es[..0] == [] && Run(c, s, es[..0]) == s && Run(c, s, es[..1]) == Step(c, s, es[0])
    ensures forall k: nat :: 0 < k <= |es| ==> Run(c, s, es[..k]) == Run(c, Step(c, s, es[0]), es[1..][..k - 1])
  {
    forall k: nat | 0 < k <= |es|
      ensures Run(c, s, es[..k]) == Run(c, Step(c, s, es[0]), es[1..][..k - 1])
    {
      assert es[..k][1..] == es[1..][..k - 1];
    }
    assert es[1..][..0] == [];
  }

  predicate WithinMaximum(c: Config, s: World, id: JobId) {
    !Overrun(c, s, id) && (id in s.rows ==> s.rows[id].attempts <= c.maxAttempts)
  }

  lemma StaysWithin(c: Config, s: World, e: Event, id: JobId)
    requires c.maxAttempts >= 1 && Sound(c, s) && WithinMaximum(c, s, id) && !StaleFailure(c, s, e, id)
    ensures WithinMaximum(c, Step(c, s, e), id)
  {
    OverrunExactly(c, s, e, id);
    AttemptsStep(c, s, e, id);
  }

  lemma {:induction false} RunStaysWithin(c: Config, s: World, es: seq<Event>, id: JobId)
    requires c.maxAttempts >= 1 && Sound(c, s) && WithinMaximum(c, s, id) && NoStaleFailure(c, s, es, id)
    ensures WithinMaximum(c, Run(c, s, es), id)
    ensures ClaimCount(c, s, es, id)
            <= (if id in s.rows then c.maxAttempts - s.rows[id].attempts
                else if id in s.used then 0 else c.maxAttempts)
    decreases |es|
  {
    if es == [] {
    } else {
      StepSound(c, s, es[0]);
      StaysWithin(c, s, es[0], id);
      AttemptsStep(c, s, es[0], id);
      RunStaysWithin(c, Step(c, s, es[0]), es[1..], id);
    }
  }

  /** Without one the maximum holds, whatever else comes late. */
  lemma ClaimsWithinMaximum(c: Config, es: seq<Event>, id: JobId)
    requires c.maxAttempts >= 1 && NoStaleFailure(c, START, es, id)
    ensures ClaimCount(c, START, es, id) <= c.maxAttempts && WithinMaximum(c, Run(c, START, es), id)
  {
    RunStaysWithin(c, START, es, id);
  }

  /** With one the very worker that reported can claim the job past its maximum once it is due. */
  lemma StaleFailureLeadsPast(c: Config, es: seq<Event>, e: Event, id: JobId)
    requires c.maxAttempts >= 1 && StaleFailure(c, Run(c, START, es), e, id)
    ensures exists elapsed: nat ::
      ClaimCount(c, START, es + [e, Tick(elapsed), Claim(e.worker, id)], id) > c.maxAttempts
  {
    var s := Run(c, START, es);
    RunSound(c, START, es);
    AttemptsCountClaims(c, START, es, id);
    var s1 := Step(c, s, e);
    StaleFailureRequeues(c, s, e, id);
    var elapsed := Max(0, s1.rows[id].scheduledAt - s1.now);
    var s2 := Step(c, s1, Tick(elapsed));
    assert Claims(s2, Claim(e.worker, id));
    OneClaim(c, s, e, elapsed, id);
    RunAppend(c, START, es, [e, Tick(elapsed), Claim(e.worker, id)]);
  }

  lemma StaleFailureRequeues(c: Config, s: World, e: Event, id: JobId)
    requires Sound(c, s) && StaleFailure(c, s, e, id)
    ensures var s1 := Step(c, s, e);
            e.worker !in s1.workers && id in s1.rows && s1.rows[id].status == Queued
  {
    assert s.workers[e.worker].record.maxAttempts == c.maxAttempts;
  }

  lemma OneClaim(c: Config, s: World, e: Event, elapsed: nat, id: JobId)
    requires e.Fail? && Claims(Step(c, Step(c, s, e), Tick(elapsed)), Claim(e.worker, id))
    ensures ClaimCount(c, s, [e, Tick(elapsed), Claim(e.worker, id)], id) == 1
  {
    var last := [Claim(e.worker, id)];
    assert [e, Tick(elapsed), Claim(e.worker, id)][1..] == [Tick(elapsed)] + last;
    assert ([Tick(elapsed)] + last)[1..] == last && last[1..] == [];
    var s2 := Step(c, Step(c, s, e), Tick(elapsed));
    assert ClaimCount(c, s2, last, id) == 1;
    assert ClaimCount(c, Step(c, s, e), [Tick(elapsed)] + last, id) == 1;
  }

  /** Current reports are never stale. */
  lemma {:induction false} TimelyIsNeverStale(c: Config, s: World, es: seq<Event>, id: JobId)
    requires TimelyRun(c, s, es)
    ensures NoStaleFailure(c, s, es, id)
    decreases |es|
  {
    if es == [] {
    } else {
      TimelyIsNeverStale(c, Step(c, s, es[0]), es[1..], id);
    }
  }

  /** So when reports are current no job is claimed more than max_attempts times. */
  lemma TimelyClaimBound(c: Config, es: seq<Event>, id: JobId)
    requires c.maxAttempts >= 1 && TimelyRun(c, START, es)
    ensures ClaimCount(c, START, es, id) <= c.maxAttempts
  {
    TimelyIsNeverStale(c, START, es, id);
    ClaimsWithinMaximum(c, es, id);
  }
}
