/** How much time a job's recorded failures put between its first failure and its later claims. */
module JobBackoff {
  import opened Prelude
  import opened Backoff
  import opened JobStore
  import opened JobRuns
  import opened JobTimely

  predicate FailsJob(s: World, e: Event, id: JobId) {
    e.Fail? && e.worker in s.workers && s.workers[e.worker].job == id
  }

  function Noted(s: World, e: Event, id: JobId, first: Option<int>): Option<int> {
    if first.None? && FailsJob(s, e, id) then Some(s.now) else first
  }

  /** Time of the first failure recorded for `id`, or `first` if one is already known. */
  function FirstFailure(c: Config, s: World, es: seq<Event>, id: JobId, first: Option<int>): Option<int>
    decreases |es|
  {
    if es == [] then first
    else FirstFailure(c, Step(c, s, es[0]), es[1..], id, Noted(s, es[0], id, first))
  }

  /** If this is a reaper it does not touch the row. */
  predicate LeftAlone(c: Config, s: World, e: Event, id: JobId) {
    e.ReapStale? && id in s.rows ==> id in Step(c, s, e).rows && Step(c, s, e).rows[id] == s.rows[id]
  }

  lemma LeftAloneIsFresh(c: Config, s: World, e: Event, id: JobId)
    requires LeftAlone(c, s, e, id)
    ensures e.ReapStale? ==> id !in s.rows || !Stale(s.rows[id], s.now - c.lease)
  {
  }

  /** Every attempt on `id` ends in a recorded report: the reaper never has to take it back. */
  predicate NeverReaped(c: Config, s: World, es: seq<Event>, id: JobId)
    decreases |es|
  {
    es == []
    || (LeftAlone(c, s, es[0], id)
        && NeverReaped(c, Step(c, s, es[0]), es[1..], id))
  }

  /** Whoever works on `id` holds its current claim. */
  ghost predicate OnlyHolders(s: World, id: JobId) {
    forall w :: w in s.workers && s.workers[w].job == id ==> Holds(s, w)
  }

  /** As long as the reaper leaves a job alone, nobody's claim of it goes stale. */
  lemma OnlyHoldersStep(c: Config, s: World, e: Event, id: JobId)
    requires Sound(c, s) && OnlyHolders(s, id)
    requires e.ReapStale? ==> id !in s.rows || !Stale(s.rows[id], s.now - c.lease)
    ensures OnlyHolders(Step(c, s, e), id)
  {
    if Claims(s, e) {
      ClaimKeepsHolders(c, s, e, id);
    } else if Reports(s, e) {
      ReportKeepsHolders(c, s, e, id);
    } else if Creates(s, e) {
      CreateKeepsHolders(c, s, e, id);
    } else if Sweeps(e) {
      SweepKeepsHeld(c, s, e, id);
    } else {
      BlockedStep(c, s, e);
    }
  }

  lemma CreateKeepsHolders(c: Config, s: World, e: Event, id: JobId)
    requires Sound(c, s) && OnlyHolders(s, id) && Creates(s, e)
    ensures OnlyHolders(Step(c, s, e), id)
  {
    var s' := Step(c, s, e);
    forall w | w in s'.workers && s'.workers[w].job == id
      ensures Holds(s', w)
    {
      assert Holds(s, w) && e.id !in s.rows;
    }
  }

  lemma ClaimKeepsHolders(c: Config, s: World, e: Event, id: JobId)
    requires Sound(c, s) && OnlyHolders(s, id) && Claims(s, e)
    ensures OnlyHolders(Step(c, s, e), id)
  {
    var s' := Step(c, s, e);
    forall w | w in s'.workers && s'.workers[w].job == id
      ensures Holds(s', w)
    {
      assert w != e.worker ==> w in s.workers && s'.workers[w] == s.workers[w] && Holds(s, w);
    }
  }

  lemma ReportKeepsHolders(c: Config, s: World, e: Event, id: JobId)
    requires Sound(c, s) && OnlyHolders(s, id) && Reports(s, e)
    ensures OnlyHolders(Step(c, s, e), id)
  {
    var s' := Step(c, s, e);
    forall w | w in s'.workers && s'.workers[w].job == id
      ensures Holds(s', w)
    {
      assert w != e.worker && s'.workers[w] == s.workers[w] && Holds(s, w);
      assert s.workers[e.worker].job == id ==> Holds(s, e.worker);
    }
  }

  lemma SweepKeepsHeld(c: Config, s: World, e: Event, id: JobId)
    requires Sweeps(e) && OnlyHolders(s, id)
    requires e.ReapStale? ==> id !in s.rows || !Stale(s.rows[id], s.now - c.lease)
    ensures OnlyHolders(Step(c, s, e), id)
  {
    var s' := Step(c, s, e);
    SweepKeepsAttempts(c, s, e);
    forall w | w in s'.workers && s'.workers[w].job == id
      ensures Holds(s', w)
    {
      assert Holds(s, w) && id in s'.rows && s'.rows[id] == s.rows[id];
    }
  }

  ghost predicate Paced(s: World, id: JobId, first: Option<int>) {
    id in s.rows ==> PacedRow(s.rows[id], s.now, first)
  }

  predicate PacedRow(job: Job, now: int, first: Option<int>)
  {
    job.attempts >= 0 &&
      match first
      case None => (job.status == Queued ==> job.attempts == 0) && (job.status == Running ==> job.attempts == 1)
      case Some(at) =>
        && (job.status == Queued ==> job.attempts >= 1 && job.scheduledAt >= at + TotalDelay(job.attempts))
        && (job.status == Running ==> job.attempts >= 2 && now >= at + TotalDelay(job.attempts - 1))
  }

  lemma PacedStep(c: Config, s: World, e: Event, id: JobId, first: Option<int>)
    requires Sound(c, s) && OnlyHolders(s, id) && Paced(s, id, first) && (id !in s.used ==> first.None?)
    requires e.ReapStale? ==> id !in s.rows || !Stale(s.rows[id], s.now - c.lease)
    ensures Paced(Step(c, s, e), id, Noted(s, e, id, first))
  {
    if Reports(s, e) {
      PacedReport(c, s, e, id, first);
    } else {
      OnlyReportsAreNoted(s, e, id, first);
      PacedOtherwise(c, s, e, id, first);
    }
  }

  lemma PacedOtherwise(c: Config, s: World, e: Event, id: JobId, first: Option<int>)
    requires Sound(c, s) && Paced(s, id, first) && (id !in s.used ==> first.None?) && !Reports(s, e)
    requires e.ReapStale? ==> id !in s.rows || !Stale(s.rows[id], s.now - c.lease)
    ensures Paced(Step(c, s, e), id, first)
  {
    if Claims(s, e) {
      PacedClaim(c, s, e, id, first);
    } else if Creates(s, e) {
      PacedCreate(c, s, e, id, first);
    } else if Sweeps(e) {
      PacedSweep(c, s, e, id, first);
    } else {
      BlockedStep(c, s, e);
    }
  }

  lemma PacedCreate(c: Config, s: World, e: Event, id: JobId, first: Option<int>)
    requires Sound(c, s) && Paced(s, id, first) && (id !in s.used ==> first.None?) && Creates(s, e)
    ensures Paced(Step(c, s, e), id, first)
  {
  }

  lemma PacedSweep(c: Config, s: World, e: Event, id: JobId, first: Option<int>)
    requires Paced(s, id, first) && Sweeps(e)
    requires e.ReapStale? ==> id !in s.rows || !Stale(s.rows[id], s.now - c.lease)
    ensures Paced(Step(c, s, e), id, first)
  {
  }

  /** A job nobody has created has no failure to its name. */
  lemma UnusedHasNoFailure(c: Config, s: World, e: Event, id: JobId, first: Option<int>)
    requires Sound(c, s) && (id !in s.used ==> first.None?)
    ensures id !in Step(c, s, e).used ==> Noted(s, e, id, first).None?
  {
    assert FailsJob(s, e, id) ==> id in s.used;
    UsedGrows(c, s, e);
  }

  lemma UsedGrows(c: Config, s: World, e: Event)
    ensures s.used <= Step(c, s, e).used
  {
  }

  lemma OnlyReportsAreNoted(s: World, e: Event, id: JobId, first: Option<int>)
    requires !Reports(s, e)
    ensures Noted(s, e, id, first) == first
  {
  }

  lemma PacedReport(c: Config, s: World, e: Event, id: JobId, first: Option<int>)
    requires Sound(c, s) && OnlyHolders(s, id) && Paced(s, id, first) && Reports(s, e)
    ensures Paced(Step(c, s, e), id, Noted(s, e, id, first))
  {
    if FailsJob(s, e, id) && id in s.rows {
      var a := s.workers[e.worker].record.attempts;
      assert TotalDelay(a) == TotalDelay(a - 1) + Delay(a);
    }
  }

  lemma PacedClaim(c: Config, s: World, e: Event, id: JobId, first: Option<int>)
    requires Sound(c, s) && Paced(s, id, first) && Claims(s, e)
    ensures Paced(Step(c, s, e), id, first)
  {
  }

  lemma {:induction false} PacedRun(c: Config, s: World, es: seq<Event>, id: JobId, first: Option<int>)
    requires Sound(c, s) && OnlyHolders(s, id) && NeverReaped(c, s, es, id)
    requires Paced(s, id, first) && (id !in s.used ==> first.None?)
    ensures Paced(Run(c, s, es), id, FirstFailure(c, s, es, id, first))
    decreases |es|
  {
    if es == [] {
    } else {
      LeftAloneIsFresh(c, s, es[0], id);
      StepSound(c, s, es[0]);
      PacedStep(c, s, es[0], id, first);
      OnlyHoldersStep(c, s, es[0], id);
      UnusedHasNoFailure(c, s, es[0], id, first);
      PacedRun(c, Step(c, s, es[0]), es[1..], id, Noted(s, es[0], id, first));
    }
  }

  /**
   If attempts 1 to m - 1 of a job all ended in a recorded failure, claim m comes at least the
   delays of those attempts after the first failure.
   */
  lemma ClaimWaitsOutEveryBackoff(c: Config, es: seq<Event>, w: nat, id: JobId)
    requires NeverReaped(c, START, es, id)
    requires Claims(Run(c, START, es), Claim(w, id))
    ensures var s := Run(c, START, es);
            var m := s.rows[id].attempts + 1;
            var first := FirstFailure(c, START, es, id, None);
            && m == ClaimCount(c, START, es, id) + 1
            && (m == 1 <==> first.None?)
            && (m > 1 ==> s.now >= first.value + TotalDelay(m - 1))
            && (1 < m <= 9 ==> s.now >= first.value + (Pow2(m) - 2) * SECOND)
            && (m > 9 ==> s.now >= first.value + (510 + 256 * (m - 9)) * SECOND)
  {
    var s := Run(c, START, es);
    PacedRun(c, START, es, id, None);
    RunSound(c, START, es);
    AttemptsCountClaims(c, START, es, id);
    TotalDelayClosedForm(s.rows[id].attempts + 1);
  }
}
