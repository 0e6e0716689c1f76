/** The background_jobs table: one method per SQL statement. */
module JobStore {
  import opened Prelude
  import opened Backoff
  import opened Selection

  type JobId = nat

  datatype Status = Queued | Running | Completed | DeadLetter

  datatype Job = Job(status: Status, attempts: int, maxAttempts: int, scheduledAt: int, startedAt: Option<int>,
                     finishedAt: Option<int>, result: Option<string>, lastError: Option<string>)

  type Table = map<JobId, Job>

  predicate Ready(job: Job, now: int) {
    job.status == Queued && job.scheduledAt <= now
  }

  predicate Stale(job: Job, cutoff: int) {
    job.status == Running && job.startedAt.Some? && job.startedAt.value <= cutoff
  }

  predicate Terminal(job: Job) {
    job.status == Completed || job.status == DeadLetter
  }

  predicate Purgeable(job: Job, cutoff: int) {
    Terminal(job) && (match job.finishedAt case Some(at) => at case None => job.scheduledAt) < cutoff
  }

  function Fresh(maxAttempts: int, now: int): Job {
    Job(Queued, 0, maxAttempts, now, None, None, None, None)
  }

  function Started(job: Job, now: int): Job {
    job.(status := Running, attempts := job.attempts + 1, startedAt := Some(now), lastError := None)
  }

  function Reaped(job: Job, now: int): Job {
    var exhausted := job.attempts >= job.maxAttempts;
    job.(status := if exhausted then DeadLetter else Queued, scheduledAt := now,
         finishedAt := if exhausted then Some(now) else job.finishedAt,
         lastError := Some("job lease expired before completion"))
  }

  function Finished(job: Job, now: int, result: string): Job {
    job.(status := Completed, finishedAt := Some(now), result := Some(result))
  }

  /** The row after a failure report that was decided from the worker's own copy of the job. */
  function Failed(job: Job, record: Job, now: int, message: string): Job {
    var exhausted := record.attempts >= record.maxAttempts;
    job.(status := if exhausted then DeadLetter else Queued,
         scheduledAt := if exhausted then now else now + Delay(record.attempts),
         finishedAt := if exhausted then Some(now) else None,
         lastError := Some(message))
  }

  function Reap(rows: Table, now: int, lease: nat): Table {
    map id | id in rows :: if Stale(rows[id], now - lease) then Reaped(rows[id], now) else rows[id]
  }

  function Purge(rows: Table, now: int, retention: nat): Table {
    map id | id in rows && !Purgeable(rows[id], now - retention) :: rows[id]
  }

  function ReadySet(rows: Table, now: int): set<JobId> {
    set id | id in rows && Ready(rows[id], now)
  }

  /** What `ORDER BY scheduled_at ASC LIMIT` may return; ties come in any order. */
  ghost predicate ReadyListing(rows: Table, now: int, limit: nat, ids: seq<JobId>) {
    && |ids| <= limit
    && (forall i :: 0 <= i < |ids| ==> ids[i] in rows && Ready(rows[ids[i]], now))
    && (forall i, j :: 0 <= i < j < |ids| ==> ids[i] != ids[j] && rows[ids[i]].scheduledAt <= rows[ids[j]].scheduledAt)
    && (forall id :: id in ReadySet(rows, now) && id !in ids ==>
          |ids| == limit && forall other :: other in ids ==> rows[other].scheduledAt <= rows[id].scheduledAt)
  }

  /** When each due job is scheduled. */
  function Schedule(rows: Table, now: int): map<JobId, int> {
    map id | id in rows && Ready(rows[id], now) :: rows[id].scheduledAt
  }

  class Store {
    var rows: Table

    constructor ()
      ensures rows == map[]
    {
      rows := map[];
    }

    /** Ids are random; the caller supplies an unused one. */
    method CreateJob(id: JobId, maxAttempts: int, now: int) returns (job: Job)
      requires id !in rows
      modifies this
      ensures job == Fresh(maxAttempts, now) == Job(Queued, 0, maxAttempts, now, None, None, None, None)
      ensures rows == old(rows)[id := job]
    {
      job := Job(Queued, 0, maxAttempts, now, None, None, None, None);
      rows := rows[id := job];
    }

    method ListReadyJobIds(limit: nat, now: int) returns (ids: seq<JobId>)
      ensures ReadyListing(rows, now, limit, ids)
      ensures |ids| <= limit
      ensures forall id :: id in ids ==> id in rows && rows[id].status == Queued && rows[id].scheduledAt <= now
      ensures forall i, j :: 0 <= i < j < |ids| ==>
        ids[i] != ids[j] && rows[ids[i]].scheduledAt <= rows[ids[j]].scheduledAt
      ensures forall id :: id in rows && rows[id].status == Queued && rows[id].scheduledAt <= now && id !in ids ==>
        |ids| == limit && forall other :: other in ids ==> rows[other].scheduledAt <= rows[id].scheduledAt
    {
      ids := SelectLowest(Schedule(rows, now), limit);
      assert forall i :: 0 <= i < |ids| ==> ids[i] in Schedule(rows, now);
      assert forall id :: id in ids ==> id in Schedule(rows, now);
    }

    /** Recovers jobs whose lease ran out and reports what became of each. */
    method RequeueStaleJobs(now: int, lease: nat) returns (reclaimed: map<JobId, Status>)
      modifies this
      ensures rows == Reap(old(rows), now, lease) && rows.Keys == old(rows).Keys
      ensures forall id :: id in old(rows) ==>
        (id in reclaimed <==> old(rows)[id].status == Running && old(rows)[id].startedAt.Some?
                              && old(rows)[id].startedAt.value <= now - lease)
      ensures reclaimed.Keys <= old(rows).Keys
      ensures forall id :: id in rows && id !in reclaimed ==> rows[id] == old(rows)[id]
      ensures forall id :: id in reclaimed ==>
        var job := old(rows)[id];
        rows[id] == job.(status := reclaimed[id], scheduledAt := now,
                         finishedAt := if job.attempts >= job.maxAttempts then Some(now) else job.finishedAt,
                         lastError := Some("job lease expired before completion"))
      ensures forall id :: id in reclaimed ==>
        reclaimed[id] == (if old(rows)[id].attempts >= old(rows)[id].maxAttempts then DeadLetter else Queued)
    {
      var cutoff := now - lease;
      var stale := set id | id in rows && Stale(rows[id], cutoff);
      rows := map id | id in rows :: if id in stale then Reaped(rows[id], now) else rows[id];
      reclaimed := map id | id in stale :: rows[id].status;
    }

    /** The guarded claim: only a queued job that is due starts, and the caller keeps a copy of the row. */
    method MarkJobRunning(id: JobId, now: int) returns (claimed: Option<Job>)
      modifies this
      ensures claimed.Some? <==> id in old(rows) && Ready(old(rows)[id], now)
      ensures claimed.Some? <==>
        id in old(rows) && old(rows)[id].status == Queued && old(rows)[id].scheduledAt <= now
      ensures claimed.Some? ==> claimed.value == Started(old(rows)[id], now) && rows == old(rows)[id := claimed.value]
      ensures claimed.Some? ==>
        claimed.value == old(rows)[id].(status := Running, attempts := old(rows)[id].attempts + 1,
                                        startedAt := Some(now), lastError := None)
      ensures claimed.None? ==> rows == old(rows)
    {
      if id in rows && rows[id].status == Queued && rows[id].scheduledAt <= now {
        var job := rows[id];
        job := job.(status := Running, attempts := job.attempts + 1, startedAt := Some(now), lastError := None);
        rows := rows[id := job];
        claimed := Some(job);
      } else {
        claimed := None;
      }
    }

    /** No status guard: whoever reports last decides. */
    method CompleteJob(id: JobId, now: int, result: string)
      modifies this
      ensures rows == if id in old(rows) then old(rows)[id := Finished(old(rows)[id], now, result)] else old(rows)
      ensures id in old(rows) ==>
        rows[id] == old(rows)[id].(status := Completed, result := Some(result), finishedAt := Some(now))
    {
      if id in rows {
        rows := rows[id := rows[id].(status := Completed, finishedAt := Some(now), result := Some(result))];
      }
    }

    /** Decides from the worker's record, not from the row. */
    method FailJob(id: JobId, record: Job, now: int, message: string)
      modifies this
      ensures rows == if id in old(rows) then old(rows)[id := Failed(old(rows)[id], record, now, message)]
        else old(rows)
      ensures id in old(rows) && record.attempts >= record.maxAttempts ==>
        rows[id] == old(rows)[id].(status := DeadLetter, scheduledAt := now, finishedAt := Some(now),
                                   lastError := Some(message))
      ensures id in old(rows) && record.attempts < record.maxAttempts ==>
        rows[id] == old(rows)[id].(status := Queued, scheduledAt := now + Delay(record.attempts), finishedAt := None,
                                   lastError := Some(message))
    {
      var status := if record.attempts >= record.maxAttempts then DeadLetter else Queued;
      var nextTime := if status == DeadLetter then now else now + Delay(record.attempts);
      if id in rows {
        rows := rows[id := rows[id].(status := status, scheduledAt := nextTime,
                                     finishedAt := if status == DeadLetter then Some(now) else None,
                                     lastError := Some(message))];
      }
    }

    method PurgeTerminalJobs(now: int, retention: nat) returns (purged: nat)
      modifies this
      ensures rows == Purge(old(rows), now, retention)
      ensures purged == |old(rows)| - |rows|
      ensures forall id :: id in old(rows) ==>
        var job := old(rows)[id];
        var ended := if job.finishedAt.Some? then job.finishedAt.value else job.scheduledAt;
        id in rows <==> !((job.status == Completed || job.status == DeadLetter) && ended < now - retention)
      ensures forall id :: id in rows ==> id in old(rows) && rows[id] == old(rows)[id]
    {
      var before := |rows|;
      var kept := map id | id in rows && !Purgeable(rows[id], now - retention) :: rows[id];
      PurgeCount(rows, now, retention);
      rows := kept;
      purged := before - |rows|;
    }
  }

  lemma PurgeCount(rows: Table, now: int, retention: nat)
    ensures |Purge(rows, now, retention)| <= |rows|
  {
    var kept := Purge(rows, now, retention);
    SubsetSize(kept.Keys, rows.Keys);
  }
}
