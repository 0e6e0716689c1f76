/**
 Runs of the job lease protocol. A worker is a process_job call between its claim and its
 report; it keeps the row it claimed, which may be stale by the time it reports.
 */
module JobRuns {
  import opened Prelude
  import opened JobStore

  datatype Config = Config(maxAttempts: nat, lease: nat, retention: nat)

  datatype Ticket = Ticket(job: JobId, record: Job)

  /** `used` holds every id ever created, so that new ones are fresh. */
  datatype World = World(now: int, rows: Table, used: set<JobId>, workers: map<nat, Ticket>)

  datatype Event =
    | Tick(elapsed: nat)
    | Create(id: JobId)
    | Claim(worker: nat, id: JobId)
    | Complete(worker: nat, result: string)
    | Fail(worker: nat, message: string)
    | Crash(worker: nat)
    | ReapStale
    | PurgeTerminal

  const START: World := World(0, map[], {}, map[])

  predicate Claims(s: World, e: Event) {
    e.Claim? && e.worker !in s.workers && e.id in s.rows && Ready(s.rows[e.id], s.now)
  }

  /** One atomic step; an event whose guard fails leaves the world as it is. */
  function Step(c: Config, s: World, e: Event): World {
    match e
    case Tick(elapsed) => s.(now := s.now + elapsed)
    case Create(id) =>
      if id in s.used then s
      else s.(rows := s.rows[id := Fresh(c.maxAttempts, s.now)], used := s.used + {id})
    case Claim(w, id) =>
      if !Claims(s, e) then s
      else
        var job := Started(s.rows[id], s.now);
        s.(rows := s.rows[id := job], workers := s.workers[w := Ticket(id, job)])
    case Complete(w, result) =>
      if w !in s.workers then s
      else
        var id := s.workers[w].job;
        s.(rows := if id in s.rows then s.rows[id := Finished(s.rows[id], s.now, result)] else s.rows,
           workers := s.workers - {w})
    case Fail(w, message) =>
      if w !in s.workers then s
      else
        var t := s.workers[w];
        s.(rows := if t.job in s.rows then s.rows[t.job := Failed(s.rows[t.job], t.record, s.now, message)] else s.rows,
           workers := s.workers - {w})
    case Crash(w) => s.(workers := s.workers - {w})
    case ReapStale => s.(rows := Reap(s.rows, s.now, c.lease))
    case PurgeTerminal => s.(rows := Purge(s.rows, s.now, c.retention))
  }

  function Run(c: Config, s: World, es: seq<Event>): World
    decreases |es|
  {
    if es == [] then s else Run(c, Step(c, s, es[0]), es[1..])
  }

  /** How many times job `id` is claimed along a run. */
  function ClaimCount(c: Config, s: World, es: seq<Event>, id: JobId): nat
    decreases |es|
  {
    if es == [] then 0
    else (if Claims(s, es[0]) && es[0].id == id then 1 else 0) + ClaimCount(c, Step(c, s, es[0]), es[1..], id)
  }

  lemma {:induction false} RunAppend(c: Config, s: World, es: seq<Event>, more: seq<Event>)
    ensures Run(c, s, es + more) == Run(c, Run(c, s, es), more)
    ensures forall id ::
      ClaimCount(c, s, es + more, id) == ClaimCount(c, s, es, id) + ClaimCount(c, Run(c, s, es), more, id)
    decreases |es|
  {
    if es == [] {
      assert es + more == more;
    } else {
      assert (es + more)[1..] == es[1..] + more;
      RunAppend(c, Step(c, s, es[0]), es[1..], more);
    }
  }

  /** ---- What holds in every run, late workers included ---- */

  ghost predicate Sound(c: Config, s: World) {
    && s.rows.Keys <= s.used
    && (forall id :: id in s.rows ==> s.rows[id].maxAttempts == c.maxAttempts && s.rows[id].attempts >= 0)
    && (forall w :: w in s.workers ==>
          var t := s.workers[w];
          t.job in s.used && t.record.maxAttempts == c.maxAttempts && t.record.attempts >= 1
          && (t.job in s.rows ==> t.record.attempts <= s.rows[t.job].attempts))
    && (forall v, w :: v in s.workers && w in s.workers && v != w && s.workers[v].job == s.workers[w].job ==>
          s.workers[v].record.attempts != s.workers[w].record.attempts)
  }

  /** Rows may go or change status, workers may go; attempt numbers stay. */
  lemma SoundKept(c: Config, s: World, s': World)
    requires Sound(c, s) && s'.used == s.used
    requires s'.rows.Keys <= s.rows.Keys
    requires forall id :: id in s'.rows ==>
      s'.rows[id].attempts == s.rows[id].attempts && s'.rows[id].maxAttempts == s.rows[id].maxAttempts
    requires forall w :: w in s'.workers ==> w in s.workers && s'.workers[w] == s.workers[w]
    ensures Sound(c, s')
  {
  }

  lemma SoundClaim(c: Config, s: World, e: Event)
    requires Sound(c, s) && Claims(s, e)
    ensures Sound(c, Step(c, s, e))
  {
    var s' := Step(c, s, e);
    assert forall w :: w in s'.workers && w != e.worker ==> s'.workers[w] == s.workers[w];
  }

  predicate Reports(s: World, e: Event) {
    (e.Complete? || e.Fail? || e.Crash?) && e.worker in s.workers
  }

  predicate Creates(s: World, e: Event) {
    e.Create? && e.id !in s.used
  }

  predicate Sweeps(e: Event) {
    e.ReapStale? || e.PurgeTerminal? || e.Tick?
  }

  lemma BlockedStep(c: Config, s: World, e: Event)
    requires !Claims(s, e) && !Reports(s, e) && !Creates(s, e) && !Sweeps(e)
    ensures Step(c, s, e) == s
  {
    if e.Crash? {
      assert s.workers - {e.worker} == s.workers;
    }
  }

  lemma SoundReport(c: Config, s: World, e: Event)
    requires Sound(c, s) && Reports(s, e)
    ensures Sound(c, Step(c, s, e))
  {
    SoundKept(c, s, Step(c, s, e));
  }

  /** The reaper, the purge and the clock leave workers, attempt numbers and limits alone. */
  predicate AttemptsKept(s: World, s': World) {
    && s'.used == s.used && s'.workers == s.workers
    && forall id :: id in s'.rows ==>
         && id in s.rows && s'.rows[id].attempts == s.rows[id].attempts
         && s'.rows[id].maxAttempts == s.rows[id].maxAttempts
  }

  lemma SweepKeepsAttempts(c: Config, s: World, e: Event)
    requires Sweeps(e)
    ensures AttemptsKept(s, Step(c, s, e))
  {
  }

  lemma SoundAttemptsKept(c: Config, s: World, s': World)
    requires Sound(c, s) && AttemptsKept(s, s')
    ensures Sound(c, s')
  {
    SoundKept(c, s, s');
  }

  lemma SoundSweep(c: Config, s: World, e: Event)
    requires Sound(c, s) && Sweeps(e)
    ensures Sound(c, Step(c, s, e))
  {
    SweepKeepsAttempts(c, s, e);
    SoundAttemptsKept(c, s, Step(c, s, e));
  }

  lemma SoundCreate(c: Config, s: World, e: Event)
    requires Sound(c, s) && Creates(s, e)
    ensures Sound(c, Step(c, s, e))
  {
  }

  lemma StepSound(c: Config, s: World, e: Event)
    requires Sound(c, s)
    ensures Sound(c, Step(c, s, e))
  {
    if Claims(s, e) {
      SoundClaim(c, s, e);
    } else if Reports(s, e) {
      SoundReport(c, s, e);
    } else if Creates(s, e) {
      SoundCreate(c, s, e);
    } else if Sweeps(e) {
      SoundSweep(c, s, e);
    } else {
      BlockedStep(c, s, e);
    }
  }

  lemma {:induction false} RunSound(c: Config, s: World, es: seq<Event>)
    requires Sound(c, s)
    ensures Sound(c, Run(c, s, es))
    decreases |es|
  {
    if es == [] {
    } else {
      StepSound(c, s, es[0]);
      RunSound(c, Step(c, s, es[0]), es[1..]);
    }
  }

  /** A worker whose claim is still the current one. */
  predicate Holds(s: World, w: nat) {
    && w in s.workers
    && s.workers[w].job in s.rows
    && s.rows[s.workers[w].job].status == Running
    && s.rows[s.workers[w].job].attempts == s.workers[w].record.attempts
  }

  /** In every run, however late workers are, at most one holds a job. */
  lemma OneHolder(c: Config, es: seq<Event>, v: nat, w: nat)
    ensures var s := Run(c, START, es);
            (v in s.workers && w in s.workers && s.workers[v].job == s.workers[w].job && s.workers[v].job in s.rows
             && s.workers[v].record.attempts == s.rows[s.workers[v].job].attempts
             && s.workers[w].record.attempts == s.rows[s.workers[w].job].attempts) ==> v == w
  {
    RunSound(c, START, es);
  }

  /** Workers on `id` whose failure would put the job back in the queue. */
  function Retriers(c: Config, s: World, id: JobId): set<nat> {
    set w | w in s.workers && s.workers[w].job == id && s.workers[w].record.attempts < c.maxAttempts
  }

  function RowCredit(c: Config, job: Job): int {
    var ahead := c.maxAttempts - 1 - job.attempts;
    (if job.status == Queued then 1 else 0) + Max(0, ahead + (if job.status == Running then 1 else 0)) + Max(0, ahead)
  }

  /**
   Claims a job may still see: one if it is queued, one per attempt number below the maximum that
   the reaper may still requeue, one per such number whose failure report is outstanding or to come.
   */
  ghost function Credit(c: Config, s: World, id: JobId): int {
    if id in s.rows then
      RowCredit(c, s.rows[id]) + |Retriers(c, s, id)|
    else if id in s.used then 0
    else Max(0, 2 * c.maxAttempts - 1)
  }

  lemma WorkerJoins(c: Config, s: World, s': World, w: nat, t: Ticket, id: JobId)
    requires w !in s.workers && s'.workers == s.workers[w := t]
    ensures |Retriers(c, s', id)| == |Retriers(c, s, id)|
      + (if t.job == id && t.record.attempts < c.maxAttempts then 1 else 0)
  {
    if t.job == id && t.record.attempts < c.maxAttempts {
      assert Retriers(c, s', id) == Retriers(c, s, id) + {w};
    } else {
      assert Retriers(c, s', id) == Retriers(c, s, id);
    }
  }

  lemma WorkerLeaves(c: Config, s: World, s': World, w: nat, id: JobId)
    requires w in s.workers && s'.workers == s.workers - {w}
    ensures var t := s.workers[w];
            |Retriers(c, s', id)|
            == |Retriers(c, s, id)| - (if t.job == id && t.record.attempts < c.maxAttempts then 1 else 0)
  {
    assert Retriers(c, s', id) == Retriers(c, s, id) - {w};
  }

  lemma SameWorkers(c: Config, s: World, s': World, id: JobId)
    requires s'.workers == s.workers
    ensures Retriers(c, s', id) == Retriers(c, s, id)
  {
  }

  lemma ClaimSpends(c: Config, s: World, e: Event, id: JobId)
    requires Sound(c, s) && c.maxAttempts >= 1 && Claims(s, e)
    ensures Credit(c, Step(c, s, e), id) + (if e.id == id then 1 else 0) <= Credit(c, s, id)
  {
    WorkerJoins(c, s, Step(c, s, e), e.worker, Ticket(e.id, Started(s.rows[e.id], s.now)), id);
  }

  lemma ReportSpends(c: Config, s: World, e: Event, id: JobId)
    requires Sound(c, s) && Reports(s, e)
    ensures Credit(c, Step(c, s, e), id) <= Credit(c, s, id)
  {
    WorkerLeaves(c, s, Step(c, s, e), e.worker, id);
  }

  lemma SweepSpends(c: Config, s: World, e: Event, id: JobId)
    requires Sound(c, s) && Sweeps(e)
    ensures Credit(c, Step(c, s, e), id) <= Credit(c, s, id)
  {
    SweepRow(c, s, e, id);
    CreditByRow(c, s, Step(c, s, e), id);
  }

  lemma CreditByRow(c: Config, s: World, s': World, id: JobId)
    requires s'.used == s.used && s'.workers == s.workers && (id in s'.rows ==> id in s.rows)
    requires id in s'.rows ==> RowCredit(c, s'.rows[id]) <= RowCredit(c, s.rows[id])
    requires id in s.rows ==> RowCredit(c, s.rows[id]) >= 0 && id in s.used
    ensures Credit(c, s', id) <= Credit(c, s, id)
  {
    SameWorkers(c, s, s', id);
  }

  lemma SweepRow(c: Config, s: World, e: Event, id: JobId)
    requires Sweeps(e) && (id in s.rows ==> s.rows[id].maxAttempts == c.maxAttempts)
    ensures var s' := Step(c, s, e);
            && s'.used == s.used && s'.workers == s.workers && (id in s'.rows ==> id in s.rows)
            && (id in s'.rows ==> RowCredit(c, s'.rows[id]) <= RowCredit(c, s.rows[id]))
            && (id in s.rows ==> RowCredit(c, s.rows[id]) >= 0)
  {
    if id in s.rows {
      ReapedCredit(c, s.rows[id], s.now);
    }
  }

  /** Requeueing a stale job spends its attempt number's reaper credit. */
  lemma ReapedCredit(c: Config, job: Job, now: int)
    requires job.maxAttempts == c.maxAttempts
    ensures job.status == Running ==> RowCredit(c, Reaped(job, now)) <= RowCredit(c, job)
  {
  }

  lemma CreateSpends(c: Config, s: World, e: Event, id: JobId)
    requires Sound(c, s) && c.maxAttempts >= 1 && Creates(s, e)
    ensures Credit(c, Step(c, s, e), id) <= Credit(c, s, id)
  {
    var s' := s.(rows := s.rows[e.id := Fresh(c.maxAttempts, s.now)], used := s.used + {e.id});
    SameWorkers(c, s, s', id);
    assert id !in s.used ==> Retriers(c, s, id) == {};
    FreshCredit(c, s, s', id);
  }

  lemma FreshCredit(c: Config, s: World, s': World, id: JobId)
    requires c.maxAttempts >= 1 && |Retriers(c, s', id)| == |Retriers(c, s, id)|
    requires s.rows.Keys <= s.used && s'.rows.Keys <= s'.used && s.used <= s'.used
    requires id in s.rows ==> id in s'.rows && s'.rows[id] == s.rows[id]
    requires id in s.used && id !in s.rows ==> id !in s'.rows
    requires id !in s.used ==> Retriers(c, s, id) == {}
    requires id !in s.used && id in s'.rows ==> s'.rows[id] == Fresh(c.maxAttempts, s.now)
    ensures Credit(c, s', id) <= Credit(c, s, id)
  {
  }

  /** No step creates credit, and a claim spends one. */
  lemma StepSpends(c: Config, s: World, e: Event, id: JobId)
    requires Sound(c, s) && c.maxAttempts >= 1
    ensures Credit(c, Step(c, s, e), id) + (if Claims(s, e) && e.id == id then 1 else 0) <= Credit(c, s, id)
  {
    if Claims(s, e) {
      ClaimSpends(c, s, e, id);
    } else if Reports(s, e) {
      ReportSpends(c, s, e, id);
    } else if Creates(s, e) {
      CreateSpends(c, s, e, id);
    } else if Sweeps(e) {
      SweepSpends(c, s, e, id);
    } else {
      BlockedStep(c, s, e);
    }
  }

  lemma {:induction false} ClaimsWithinCredit(c: Config, s: World, es: seq<Event>, id: JobId)
    requires Sound(c, s) && c.maxAttempts >= 1
    ensures ClaimCount(c, s, es, id) <= Credit(c, s, id)
    decreases |es|
  {
    if es == [] {
    } else {
      StepSound(c, s, es[0]);
      StepSpends(c, s, es[0], id);
      ClaimsWithinCredit(c, Step(c, s, es[0]), es[1..], id);
    }
  }

  /** In every run no job is claimed more than 2 * max_attempts - 1 times. */
  lemma ClaimBound(c: Config, es: seq<Event>, id: JobId)
    requires c.maxAttempts >= 1
    ensures ClaimCount(c, START, es, id) <= 2 * c.maxAttempts - 1
  {
    ClaimsWithinCredit(c, START, es, id);
  }
}
