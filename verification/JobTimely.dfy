/** Runs in which workers report only while their claim is current, and what late reports break. */
module JobTimely {
  import opened JobStore
  import opened JobRuns

  predicate TimelyEvent(s: World, e: Event) {
    (e.Complete? || e.Fail?) && e.worker in s.workers ==> Holds(s, e.worker)
  }

  predicate TimelyRun(c: Config, s: World, es: seq<Event>)
    decreases |es|
  {
    es == [] || (TimelyEvent(s, es[0]) && TimelyRun(c, Step(c, s, es[0]), es[1..]))
  }

  predicate Orderly(c: Config, job: Job) {
    && 0 <= job.attempts <= c.maxAttempts == job.maxAttempts
    && (job.status == Queued ==> job.attempts < c.maxAttempts)
    && (job.status == DeadLetter ==> job.attempts == c.maxAttempts)
  }

  ghost predicate AllOrderly(c: Config, s: World) {
    forall id :: id in s.rows ==> Orderly(c, s.rows[id])
  }

  lemma OrderlyReport(c: Config, s: World, e: Event)
    requires Sound(c, s) && AllOrderly(c, s) && Reports(s, e) && TimelyEvent(s, e)
    ensures AllOrderly(c, Step(c, s, e))
  {
  }

  lemma OrderlySweep(c: Config, s: World, e: Event)
    requires AllOrderly(c, s) && Sweeps(e)
    ensures AllOrderly(c, Step(c, s, e))
  {
  }

  lemma StepOrderly(c: Config, s: World, e: Event)
    requires c.maxAttempts >= 1 && Sound(c, s) && AllOrderly(c, s) && TimelyEvent(s, e)
    ensures AllOrderly(c, Step(c, s, e))
  {
    if Reports(s, e) {
      OrderlyReport(c, s, e);
    } else if Sweeps(e) {
      OrderlySweep(c, s, e);
    } else if Claims(s, e) || Creates(s, e) {
      OrderlyStart(c, s, e);
    } else {
      BlockedStep(c, s, e);
    }
  }

  lemma OrderlyStart(c: Config, s: World, e: Event)
    requires c.maxAttempts >= 1 && AllOrderly(c, s) && (Claims(s, e) || Creates(s, e))
    ensures AllOrderly(c, Step(c, s, e))
  {
    var s' := Step(c, s, e);
    assert forall id :: id in s'.rows && id != e.id ==> id in s.rows && s'.rows[id] == s.rows[id];
  }

  lemma {:induction false} RunOrderly(c: Config, s: World, es: seq<Event>)
    requires c.maxAttempts >= 1 && Sound(c, s) && AllOrderly(c, s) && TimelyRun(c, s, es)
    ensures Sound(c, Run(c, s, es)) && AllOrderly(c, Run(c, s, es))
    decreases |es|
  {
    if es == [] {
    } else {
      StepSound(c, s, es[0]);
      StepOrderly(c, s, es[0]);
      RunOrderly(c, Step(c, s, es[0]), es[1..]);
    }
  }

  /** A finished job is the same row for ever, until it is purged for good. */
  ghost predicate Settled(s: World, id: JobId, job: Job) {
    id in s.used && (id in s.rows ==> s.rows[id] == job)
  }

  lemma StepSettled(c: Config, s: World, e: Event, id: JobId, job: Job)
    requires Settled(s, id, job) && Terminal(job) && TimelyEvent(s, e)
    ensures Settled(Step(c, s, e), id, job)
  {
    if Reports(s, e) {
      assert id in s.rows && s.workers[e.worker].job == id ==> !Holds(s, e.worker);
    }
  }

  lemma {:induction false} RunSettled(c: Config, s: World, es: seq<Event>, id: JobId, job: Job)
    requires Settled(s, id, job) && Terminal(job) && TimelyRun(c, s, es)
    ensures Settled(Run(c, s, es), id, job)
    decreases |es|
  {
    if es == [] {
    } else {
      StepSettled(c, s, es[0], id, job);
      RunSettled(c, Step(c, s, es[0]), es[1..], id, job);
    }
  }

  /**
   The life of a job when reports are timely: attempts never pass the maximum, a queued job has
   attempts left, a dead letter has none, and a finished job stays finished.
   */
  lemma TimelyLifecycle(c: Config, es: seq<Event>, more: seq<Event>, id: JobId)
    requires c.maxAttempts >= 1
    requires TimelyRun(c, START, es) && TimelyRun(c, Run(c, START, es), more)
    ensures var s, s' := Run(c, START, es), Run(c, START, es + more);
            id in s.rows ==>
              var job := s.rows[id];
              && 0 <= job.attempts <= c.maxAttempts == job.maxAttempts
              && (job.status == Queued ==> job.attempts < c.maxAttempts)
              && (job.status == DeadLetter ==> job.attempts == c.maxAttempts)
              && ((job.status == Completed || job.status == DeadLetter) && id in s'.rows ==> s'.rows[id] == job)
  {
    RunOrderly(c, START, es);
    RunAppend(c, START, es, more);
    var s := Run(c, START, es);
    if id in s.rows && Terminal(s.rows[id]) {
      RunSettled(c, s, more, id, s.rows[id]);
    }
  }

  /** The attempts column is the number of claims, in every run. */
  lemma {:induction false} AttemptsCountClaims(c: Config, s: World, es: seq<Event>, id: JobId)
    requires s.rows.Keys <= s.used
    ensures var s' := Run(c, s, es);
            id in s'.rows ==>
              s'.rows[id].attempts == ClaimCount(c, s, es, id) + (if id in s.rows then s.rows[id].attempts else 0)
              && (id in s.used ==> id in s.rows)
    decreases |es|
  {
    if es == [] {
    } else {
      AttemptsStep(c, s, es[0], id);
      AttemptsCountClaims(c, Step(c, s, es[0]), es[1..], id);
    }
  }

  lemma AttemptsStep(c: Config, s: World, e: Event, id: JobId)
    requires s.rows.Keys <= s.used
    ensures var s' := Step(c, s, e);
            && s'.rows.Keys <= s'.used && s.used <= s'.used
            && (id in s'.rows ==>
              s'.rows[id].attempts == (if id in s.rows then s.rows[id].attempts else 0)
                + (if Claims(s, e) && e.id == id then 1 else 0)
              && (id in s.used ==> id in s.rows))
            && (id !in s.rows && id in s.used ==> id !in s'.rows)
            && (id !in s.rows ==> !(Claims(s, e) && e.id == id))
            && (id in s.rows || id in s'.rows || id in s.used <==> id in s'.used)
  {
  }

  /** Exactly which events take a finished job out of its final state. */
  lemma TerminalIsLeftExactlyBy(c: Config, s: World, e: Event, id: JobId)
    requires id in s.rows && id in s.used && Terminal(s.rows[id])
    ensures (id in Step(c, s, e).rows && Step(c, s, e).rows[id].status != s.rows[id].status)
            <==> (Reports(s, e) && s.workers[e.worker].job == id
                  && var record := s.workers[e.worker].record;
                  (e.Complete? && s.rows[id].status == DeadLetter)
                  || (e.Fail? && (s.rows[id].status == Completed || record.attempts < record.maxAttempts)))
  {
    if Reports(s, e) {
      assert s.workers[e.worker].job != id ==> id in Step(c, s, e).rows ==> Step(c, s, e).rows[id] == s.rows[id];
    }
  }

  /** Timeliness is needed: a worker that outlives its lease requeues a job another worker completed. */
  lemma LateFailureReopensACompletedJob(c: Config)
    requires c.maxAttempts >= 2
    ensures var es := [Create(7), Claim(1, 7), Tick(c.lease), ReapStale, Claim(2, 7), Complete(2, "done"),
                       Fail(1, "late")];
            var s, s' := Run(c, START, es[..6]), Run(c, START, es);
            7 in s.rows && s.rows[7].status == Completed && 7 in s'.rows && s'.rows[7].status == Queued
  {
    var es := [Create(7), Claim(1, 7), Tick(c.lease), ReapStale, Claim(2, 7), Complete(2, "done"), Fail(1, "late")];
    var s1 := Step(c, START, es[0]);
    var s2 := Step(c, s1, es[1]);
    var s3 := Step(c, s2, es[2]);
    var s4 := Step(c, s3, es[3]);
    assert s4.rows[7].status == Queued && s4.rows[7].attempts == 1 && s4.rows[7].maxAttempts == c.maxAttempts;
    var s5 := Step(c, s4, es[4]);
    var s6 := Step(c, s5, es[5]);
    assert s6.rows[7].status == Completed && 1 in s6.workers;
    var s7 := Step(c, s6, es[6]);
    assert s7.rows[7].status == Queued;
    RunAppend(c, START, es[..6], [es[6]]);
    assert es[..6] + [es[6]] == es;
    SixSteps(c, es[0], es[1], es[2], es[3], es[4], es[5]);
    assert es[..6] == [es[0], es[1], es[2], es[3], es[4], es[5]];
    OneStep(c, s6, es[6]);
  }

  lemma OneStep(c: Config, s: World, e: Event)
    ensures Run(c, s, [e]) == Step(c, s, e)
  {
  }

  lemma SixSteps(c: Config, e0: Event, e1: Event, e2: Event, e3: Event, e4: Event, e5: Event)
    ensures Run(c, START, [e0, e1, e2, e3, e4, e5])
            == Step(c, Step(c, Step(c, Step(c, Step(c, Step(c, START, e0), e1), e2), e3), e4), e5)
  {
    var s1 := Step(c, START, e0);
    var s2 := Step(c, s1, e1);
    var s3 := Step(c, s2, e2);
    RunAppend(c, START, [e0], [e1, e2, e3, e4, e5]);
    RunAppend(c, s1, [e1], [e2, e3, e4, e5]);
    RunAppend(c, s2, [e2], [e3, e4, e5]);
    RunAppend(c, s3, [e3], [e4, e5]);
    RunAppend(c, Step(c, s3, e3), [e4], [e5]);
    OneStep(c, START, e0);
    OneStep(c, s1, e1);
    OneStep(c, s2, e2);
    OneStep(c, s3, e3);
    OneStep(c, Step(c, s3, e3), e4);
    OneStep(c, Step(c, Step(c, s3, e3), e4), e5);
    assert [e0] + [e1, e2, e3, e4, e5] == [e0, e1, e2, e3, e4, e5];
    assert [e1] + [e2, e3, e4, e5] == [e1, e2, e3, e4, e5];
    assert [e2] + [e3, e4, e5] == [e2, e3, e4, e5];
    assert [e3] + [e4, e5] == [e3, e4, e5];
    assert [e4] + [e5] == [e4, e5];
  }
}
