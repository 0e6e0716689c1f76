/** What a claim is worth while its lease runs, and what a completed job keeps. */
module JobLease {
  import opened Prelude
  import opened JobStore
  import opened JobRuns
  import opened JobTimely

  /** ---- The lease ---- */

  /** Worker `w` neither reports nor stops, and no other worker reports on `id`. */
  predicate Unreported(s: World, e: Event, w: nat, id: JobId) {
    && (e.Complete? || e.Fail? || e.Crash? ==> e.worker != w)
    && (e.Complete? || e.Fail? ==> e.worker !in s.workers || s.workers[e.worker].job != id)
  }

  predicate UnreportedRun(c: Config, s: World, es: seq<Event>, w: nat, id: JobId)
    decreases |es|
  {
    es == [] || (Unreported(s, es[0], w, id) && UnreportedRun(c, Step(c, s, es[0]), es[1..], w, id))
  }

  /** Worker `w` claimed `id` at `at` as its attempt `n`, and the row is as that claim left it. */
  predicate Leased(s: World, w: nat, id: JobId, n: int, at: int) {
    && w in s.workers && s.workers[w].job == id && s.workers[w].record.attempts == n
    && id in s.rows && s.rows[id].status == Running && s.rows[id].attempts == n && s.rows[id].startedAt == Some(at)
  }

  lemma {:induction false} TimeIsOrdered(c: Config, s: World, es: seq<Event>)
    ensures s.now <= Run(c, s, es).now
    decreases |es|
  {
    if es == [] {
    } else {
      TimeIsOrdered(c, Step(c, s, es[0]), es[1..]);
    }
  }

  lemma LeaseStep(c: Config, s: World, e: Event, w: nat, id: JobId, n: int, at: int)
    requires Sound(c, s) && Leased(s, w, id, n, at) && Unreported(s, e, w, id) && s.now < at + c.lease
    ensures Leased(Step(c, s, e), w, id, n, at)
  {
    if Sweeps(e) {
      SweepInLease(c, s, e, id, at);
    } else if !Claims(s, e) && !Reports(s, e) && !Creates(s, e) {
      BlockedStep(c, s, e);
    }
  }

  lemma SweepInLease(c: Config, s: World, e: Event, id: JobId, at: int)
    requires Sweeps(e) && id in s.rows && s.rows[id].status == Running && s.rows[id].startedAt == Some(at)
    requires s.now < at + c.lease
    ensures id in Step(c, s, e).rows && Step(c, s, e).rows[id] == s.rows[id] && Step(c, s, e).workers == s.workers
  {
  }

  lemma {:induction false} LeaseRun(c: Config, s: World, es: seq<Event>, w: nat, id: JobId, n: int, at: int)
    requires Sound(c, s) && Leased(s, w, id, n, at) && UnreportedRun(c, s, es, w, id)
    requires Run(c, s, es).now < at + c.lease
    ensures Leased(Run(c, s, es), w, id, n, at)
    decreases |es|
  {
    if es == [] {
    } else {
      TimeIsOrdered(c, s, es);
      LeaseStep(c, s, es[0], w, id, n, at);
      StepSound(c, s, es[0]);
      LeaseRun(c, Step(c, s, es[0]), es[1..], w, id, n, at);
    }
  }

  /**
   Until its lease is over a claim stands: whatever reapers, purges, dispatchers and other workers do,
   the job keeps running under that attempt as long as nobody reports on it.
   */
  lemma LeaseProtectsClaim(c: Config, before: seq<Event>, w: nat, id: JobId, es: seq<Event>)
    requires var s := Run(c, START, before);
             && Claims(s, Claim(w, id)) && UnreportedRun(c, Step(c, s, Claim(w, id)), es, w, id)
             && Run(c, Step(c, s, Claim(w, id)), es).now < s.now + c.lease
    ensures var s := Run(c, START, before);
            var s' := Run(c, Step(c, s, Claim(w, id)), es);
            && id in s'.rows && s'.rows[id].status == Running && s'.rows[id].attempts == s.rows[id].attempts + 1
            && w in s'.workers && s'.workers[w].job == id
            && s'.workers[w].record.attempts == s'.rows[id].attempts && Holds(s', w)
  {
    var s := Run(c, START, before);
    RunSound(c, START, before);
    StepSound(c, s, Claim(w, id));
    ClaimLeases(c, s, w, id);
    LeaseRun(c, Step(c, s, Claim(w, id)), es, w, id, s.rows[id].attempts + 1, s.now);
    LeasedHolds(Run(c, Step(c, s, Claim(w, id)), es), w, id, s.rows[id].attempts + 1, s.now);
  }

  lemma ClaimLeases(c: Config, s: World, w: nat, id: JobId)
    requires Claims(s, Claim(w, id))
    ensures Leased(Step(c, s, Claim(w, id)), w, id, s.rows[id].attempts + 1, s.now)
  {
  }

  lemma LeasedHolds(s: World, w: nat, id: JobId, n: int, at: int)
    requires Leased(s, w, id, n, at)
    ensures id in s.rows && s.rows[id].status == Running && s.rows[id].attempts == n
    ensures w in s.workers && s.workers[w].job == id && s.workers[w].record.attempts == n && Holds(s, w)
  {
  }

  /** While the row is under attempt `n` it shows when that attempt was claimed. */
  predicate StartKnown(s: World, id: JobId, n: int, at: int) {
    && id in s.used
    && (id in s.rows ==> s.rows[id].attempts >= n && (s.rows[id].attempts == n ==> s.rows[id].startedAt == Some(at)))
  }

  lemma StartStaysKnown(c: Config, s: World, e: Event, id: JobId, n: int, at: int)
    requires StartKnown(s, id, n, at) && s.rows.Keys <= s.used
    ensures StartKnown(Step(c, s, e), id, n, at) && Step(c, s, e).rows.Keys <= Step(c, s, e).used
  {
    AttemptsStep(c, s, e, id);
    if Sweeps(e) {
      SweepKeepsStart(c, s, e, id);
    } else if !Claims(s, e) && !Reports(s, e) && !Creates(s, e) {
      BlockedStep(c, s, e);
    }
  }

  lemma SweepKeepsStart(c: Config, s: World, e: Event, id: JobId)
    requires Sweeps(e)
    ensures id in Step(c, s, e).rows ==> id in s.rows && Step(c, s, e).rows[id].startedAt == s.rows[id].startedAt
  {
  }

  lemma {:induction false} StartIsKnown(c: Config, s: World, es: seq<Event>, id: JobId, n: int, at: int)
    requires StartKnown(s, id, n, at) && s.rows.Keys <= s.used
    ensures StartKnown(Run(c, s, es), id, n, at)
    decreases |es|
  {
    if es == [] {
    } else {
      StartStaysKnown(c, s, es[0], id, n, at);
      StartIsKnown(c, Step(c, s, es[0]), es[1..], id, n, at);
    }
  }

  /**
   However much later, a reaper takes the job from a claim that is still current exactly if the lease is
   over: it goes back to the queue if attempts are left and dies otherwise.
   */
  lemma ReaperEndsLeaseExactly(c: Config, before: seq<Event>, w: nat, id: JobId, es: seq<Event>)
    requires Claims(Run(c, START, before), Claim(w, id))
    requires var s := Run(c, START, before);
             var s' := Run(c, Step(c, s, Claim(w, id)), es);
             && id in s'.rows && s'.rows[id].status == Running && s'.rows[id].attempts == s.rows[id].attempts + 1
    ensures var s := Run(c, START, before);
            var s' := Run(c, Step(c, s, Claim(w, id)), es);
            var row := Step(c, s', ReapStale).rows[id];
            && id in Step(c, s', ReapStale).rows
            && (s'.now >= s.now + c.lease && row.attempts < c.maxAttempts ==> row.status == Queued)
            && (s'.now >= s.now + c.lease && row.attempts >= c.maxAttempts ==> row.status == DeadLetter)
            && (s'.now < s.now + c.lease ==> row == s'.rows[id])
  {
    var s := Run(c, START, before);
    var s1 := Step(c, s, Claim(w, id));
    RunSound(c, START, before);
    StepSound(c, s, Claim(w, id));
    StartIsKnown(c, s1, es, id, s.rows[id].attempts + 1, s.now);
    RunSound(c, s1, es);
  }

  /** ---- The result ---- */

  /** The payload of the last completion reported by a worker on `id`, or `known` if there was none. */
  function LastResult(c: Config, s: World, es: seq<Event>, id: JobId, known: Option<string>): Option<string>
    decreases |es|
  {
    if es == [] then known
    else
      var reports := es[0].Complete? && es[0].worker in s.workers && s.workers[es[0].worker].job == id;
      LastResult(c, Step(c, s, es[0]), es[1..], id, if reports then Some(es[0].result) else known)
  }

  predicate ResultKnown(s: World, id: JobId, known: Option<string>) {
    && (id !in s.used ==> known.None?)
    && (id in s.rows ==> s.rows[id].result == known && (s.rows[id].status == Completed ==> known.Some?))
  }

  lemma ResultStep(c: Config, s: World, e: Event, id: JobId, known: Option<string>)
    requires Sound(c, s) && ResultKnown(s, id, known)
    ensures var reports := e.Complete? && e.worker in s.workers && s.workers[e.worker].job == id;
            ResultKnown(Step(c, s, e), id, if reports then Some(e.result) else known)
  {
    if Sweeps(e) {
      SweepKeepsResult(c, s, e, id);
    } else if Reports(s, e) {
      ReportResult(c, s, e, id, known);
    } else if Claims(s, e) || Creates(s, e) {
      StartKeepsResult(c, s, e, id, known);
    } else {
      BlockedStep(c, s, e);
    }
  }

  lemma ReportResult(c: Config, s: World, e: Event, id: JobId, known: Option<string>)
    requires Sound(c, s) && ResultKnown(s, id, known) && Reports(s, e)
    ensures var reports := e.Complete? && s.workers[e.worker].job == id;
            ResultKnown(Step(c, s, e), id, if reports then Some(e.result) else known)
  {
    assert s.workers[e.worker].job in s.used;
  }

  lemma StartKeepsResult(c: Config, s: World, e: Event, id: JobId, known: Option<string>)
    requires Sound(c, s) && ResultKnown(s, id, known) && (Claims(s, e) || Creates(s, e))
    ensures ResultKnown(Step(c, s, e), id, known)
  {
  }

  lemma SweepKeepsResult(c: Config, s: World, e: Event, id: JobId)
    requires Sweeps(e)
    ensures var s' := Step(c, s, e);
            && s'.used == s.used
            && (id in s'.rows ==> id in s.rows && s'.rows[id].result == s.rows[id].result
                                  && (s'.rows[id].status == Completed ==> s.rows[id].status == Completed))
  {
  }

  lemma {:induction false} ResultRun(c: Config, s: World, es: seq<Event>, id: JobId, known: Option<string>)
    requires Sound(c, s) && ResultKnown(s, id, known)
    ensures ResultKnown(Run(c, s, es), id, LastResult(c, s, es, id, known))
    decreases |es|
  {
    if es == [] {
    } else {
      StepSound(c, s, es[0]);
      ResultStep(c, s, es[0], id, known);
      var reports := es[0].Complete? && es[0].worker in s.workers && s.workers[es[0].worker].job == id;
      ResultRun(c, Step(c, s, es[0]), es[1..], id, if reports then Some(es[0].result) else known);
    }
  }

  /** In every run a completed job carries the payload of the last completion reported on it. */
  lemma CompletedJobHasItsResult(c: Config, es: seq<Event>, id: JobId)
    requires var s := Run(c, START, es); id in s.rows && s.rows[id].status == Completed
    ensures LastResult(c, START, es, id, None).Some?
    ensures Run(c, START, es).rows[id].result == LastResult(c, START, es, id, None)
  {
    ResultRun(c, START, es, id, None);
  }

  /** With current reports only it carries it for as long as the row exists. */
  lemma ResultIsKept(c: Config, es: seq<Event>, more: seq<Event>, id: JobId)
    requires c.maxAttempts >= 1 && TimelyRun(c, START, es) && TimelyRun(c, Run(c, START, es), more)
    requires var s := Run(c, START, es); id in s.rows && s.rows[id].status == Completed
    requires id in Run(c, START, es + more).rows
    ensures Run(c, START, es + more).rows[id].status == Completed
    ensures LastResult(c, START, es, id, None).Some?
    ensures Run(c, START, es + more).rows[id].result == LastResult(c, START, es, id, None)
  {
    CompletedJobHasItsResult(c, es, id);
    TimelyLifecycle(c, es, more, id);
  }

  /** ---- Retention ---- */

  /** A finished job stays for its retention and is gone with the first purge after it; no other job is purged. */
  lemma PurgeTakesExactly(c: Config, s: World, id: JobId)
    requires id in s.rows
    ensures var job := s.rows[id];
            var ended := if job.finishedAt.Some? then job.finishedAt.value else job.scheduledAt;
            id !in Step(c, s, PurgeTerminal).rows
            <==> (job.status == Completed || job.status == DeadLetter) && ended + c.retention < s.now
  {
  }
}
