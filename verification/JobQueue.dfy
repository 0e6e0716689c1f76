/**
 The Redis dispatch list in front of the job table. The list may hold duplicates, lose
 entries and name jobs that are no longer claimable.
 */
module JobQueue {
  import opened Prelude
  import opened JobStore
  import opened JobRuns

  /** ---- The list is only a hint ---- */

  /** `hands` are ids popped by a worker that has not yet tried to claim them. */
  datatype QueueWorld = QueueWorld(store: World, items: seq<JobId>, hands: map<nat, JobId>)

  datatype QueueEvent =
    | Database(event: Event)
    | Push(id: JobId)
    | Lose(index: nat)
    | Pop(popper: nat)
    | StartPopped(starter: nat)

  function QueueStep(c: Config, q: QueueWorld, e: QueueEvent): QueueWorld {
    match e
    case Database(event) => if event.Claim? then q else q.(store := Step(c, q.store, event))
    case Push(id) => q.(items := q.items + [id])
    case Lose(i) => if i < |q.items| then q.(items := q.items[..i] + q.items[i + 1..]) else q
    case Pop(w) => if q.items == [] then q else q.(items := q.items[1..], hands := q.hands[w := q.items[0]])
    case StartPopped(w) =>
      if w !in q.hands then q
      else q.(store := Step(c, q.store, Claim(w, q.hands[w])), hands := q.hands - {w})
  }

  /** The list is first in, first out. */
  lemma ListIsFifo(c: Config, q: QueueWorld, id: JobId, w: nat)
    ensures QueueStep(c, q, Push(id)).items == q.items + [id]
    ensures q.items != [] ==>
      var q' := QueueStep(c, q, Pop(w)); q.items == [q'.hands[w]] + q'.items && q'.store == q.store
    ensures q.items == [] ==> QueueStep(c, q, Pop(w)) == q
  {
  }

  function QueueRun(c: Config, q: QueueWorld, es: seq<QueueEvent>): QueueWorld
    decreases |es|
  {
    if es == [] then q else QueueRun(c, QueueStep(c, q, es[0]), es[1..])
  }

  function Projected(q: QueueWorld, e: QueueEvent): seq<Event> {
    match e
    case Database(event) => if event.Claim? then [] else [event]
    case StartPopped(w) => if w in q.hands then [Claim(w, q.hands[w])] else []
    case _ => []
  }

  function Projection(c: Config, q: QueueWorld, es: seq<QueueEvent>): seq<Event>
    decreases |es|
  {
    if es == [] then [] else Projected(q, es[0]) + Projection(c, QueueStep(c, q, es[0]), es[1..])
  }

  /** Forgetting the list turns every run of the whole system into a run of the job table alone. */
  lemma {:induction false} ListIsOnlyAHint(c: Config, q: QueueWorld, es: seq<QueueEvent>)
    ensures Run(c, q.store, Projection(c, q, es)) == QueueRun(c, q, es).store
    decreases |es|
  {
    if es == [] {
    } else {
      var q' := QueueStep(c, q, es[0]);
      ListIsOnlyAHint(c, q', es[1..]);
      RunAppend(c, q.store, Projected(q, es[0]), Projection(c, q', es[1..]));
      ProjectedStep(c, q, es[0]);
    }
  }

  lemma ProjectedStep(c: Config, q: QueueWorld, e: QueueEvent)
    ensures Run(c, q.store, Projected(q, e)) == QueueStep(c, q, e).store
  {
    var p := Projected(q, e);
    if p != [] {
      assert p[1..] == [];
      assert Run(c, Step(c, q.store, p[0]), p[1..]) == Step(c, q.store, p[0]);
    }
  }

  /** Whatever the list does, no job is claimed more than 2 * max_attempts - 1 times. */
  lemma QueuedClaimBound(c: Config, es: seq<QueueEvent>, id: JobId)
    requires c.maxAttempts >= 1
    ensures var q := QueueWorld(START, [], map[]);
            Run(c, START, Projection(c, q, es)) == QueueRun(c, q, es).store
            && ClaimCount(c, START, Projection(c, q, es), id) <= 2 * c.maxAttempts - 1
            && (id in QueueRun(c, q, es).store.rows ==>
                 QueueRun(c, q, es).store.rows[id].attempts <= 2 * c.maxAttempts - 1)
  {
    var q := QueueWorld(START, [], map[]);
    ListIsOnlyAHint(c, q, es);
    ClaimBound(c, Projection(c, q, es), id);
    AttemptsWithinClaims(c, START, Projection(c, q, es), id);
  }

  lemma {:induction false} AttemptsWithinClaims(c: Config, s: World, es: seq<Event>, id: JobId)
    ensures var s' := Run(c, s, es);
            var before := if id in s.rows then Max(0, s.rows[id].attempts) else 0;
            id in s'.rows ==> s'.rows[id].attempts <= ClaimCount(c, s, es, id) + before
    decreases |es|
  {
    if es == [] {
    } else {
      AttemptsWithinStep(c, s, es[0], id);
      AttemptsWithinClaims(c, Step(c, s, es[0]), es[1..], id);
    }
  }

  lemma AttemptsWithinStep(c: Config, s: World, e: Event, id: JobId)
    ensures var s' := Step(c, s, e);
            (if id in s'.rows then Max(0, s'.rows[id].attempts) else 0)
            <= (if id in s.rows then Max(0, s.rows[id].attempts) else 0) + (if Claims(s, e) && e.id == id then 1 else 0)
  {
  }

  /** A step that puts a job which was not queued back in the queue: a reap or a recorded failure. */
  predicate Requeues(c: Config, s: World, e: Event, id: JobId) {
    && id in s.rows && s.rows[id].status != Queued
    && id in Step(c, s, e).rows && Step(c, s, e).rows[id].status == Queued
    && (e.ReapStale? || e.Fail?)
  }

  lemma {:induction false} RequeueOnTheWay(c: Config, s: World, es: seq<Event>, id: JobId) returns (k: nat)
    requires s.rows.Keys <= s.used && id in s.used
    requires id in s.rows ==> s.rows[id].status != Queued
    requires id in Run(c, s, es).rows && Run(c, s, es).rows[id].status == Queued
    ensures k < |es| && Requeues(c, Run(c, s, es[..k]), es[k], id)
    decreases |es|
  {
    var s' := Step(c, s, es[0]);
    if Requeues(c, s, es[0], id) {
      k := 0;
    } else {
      StaysOut(c, s, es[0], id);
      var k' := RequeueOnTheWay(c, s', es[1..], id);
      k := k' + 1;
      assert es[..k][1..] == es[1..][..k'];
    }
  }

  lemma StaysOut(c: Config, s: World, e: Event, id: JobId)
    requires s.rows.Keys <= s.used && id in s.used
    requires id in s.rows ==> s.rows[id].status != Queued
    requires !Requeues(c, s, e, id)
    ensures var s' := Step(c, s, e);
            s'.rows.Keys <= s'.used && id in s'.used && (id in s'.rows ==> s'.rows[id].status != Queued)
  {
  }

  /** Between two claims of one job there is always a requeue, however often the list repeats its id. */
  lemma RequeueBetweenClaims(c: Config, before: seq<Event>, v: nat, between: seq<Event>, w: nat, id: JobId)
    requires Claims(Run(c, START, before), Claim(v, id))
    requires Claims(Run(c, Step(c, Run(c, START, before), Claim(v, id)), between), Claim(w, id))
    ensures exists k: nat :: k < |between| &&
              Requeues(c, Run(c, Step(c, Run(c, START, before), Claim(v, id)), between[..k]), between[k], id)
  {
    var s := Run(c, START, before);
    RunSound(c, START, before);
    var k := RequeueOnTheWay(c, Step(c, s, Claim(v, id)), between, id);
  }

  /** ---- Dispatch and drain ---- */

  class Queue {
    var items: seq<JobId>

    constructor ()
      ensures items == []
    {
      items := [];
    }

    method EnqueueJob(id: JobId)
      modifies this
      ensures items == old(items) + [id]
    {
      items := items + [id];
    }

    method DequeueJob() returns (id: Option<JobId>)
      modifies this
      ensures old(items) == [] ==> id.None? && items == []
      ensures old(items) != [] ==> id == Some(old(items)[0]) && items == old(items)[1..]
    {
      if items == [] {
        id := None;
      } else {
        id := Some(items[0]);
        items := items[1..];
      }
    }
  }

  /** The guarded claim of one id; an id that cannot be claimed is skipped. */
  function ClaimOne(rows: Table, now: int, id: JobId): Table {
    if id in rows && Ready(rows[id], now) then rows[id := Started(rows[id], now)] else rows
  }

  /** One claim after another, the i-th at `clock[i]`. */
  function ClaimAll(rows: Table, clock: seq<int>, ids: seq<JobId>): Table
    requires |clock| == |ids|
    decreases |ids|
  {
    if ids == [] then rows else ClaimAll(ClaimOne(rows, clock[0], ids[0]), clock[1..], ids[1..])
  }

  /** Pushes the ids of due jobs, earliest first. */
  method DispatchReadyJobs(store: Store, queue: Queue, limit: nat, now: int) returns (ids: seq<JobId>)
    modifies queue
    ensures ReadyListing(store.rows, now, limit, ids)
    ensures queue.items == old(queue.items) + ids
  {
    ids := store.ListReadyJobIds(limit, now);
    for i := 0 to |ids|
      invariant queue.items == old(queue.items) + ids[..i]
    {
      queue.EnqueueJob(ids[i]);
    }
    assert ids[..|ids|] == ids;
  }

  /** Workers pop and claim until the list is empty, the i-th at `clock[i]`. */
  method Drain(store: Store, queue: Queue, clock: seq<int>)
    requires |clock| == |queue.items|
    modifies store, queue
    ensures queue.items == []
    ensures store.rows == ClaimAll(old(store.rows), clock, old(queue.items))
  {
    ghost var given := queue.items;
    var i := 0;
    while queue.items != []
      invariant i <= |given| && queue.items == given[i..]
      invariant ClaimAll(store.rows, clock[i..], given[i..]) == ClaimAll(old(store.rows), clock, given)
      decreases |queue.items|
    {
      var id := queue.DequeueJob();
      var job := store.MarkJobRunning(id.value, clock[i]);
      assert given[i..][1..] == given[i + 1..] && clock[i..][1..] == clock[i + 1..];
      i := i + 1;
    }
  }

  datatype Outcome = Succeeded(result: string) | Errored(message: string)

  /** One worker's whole turn with a job id, undisturbed: claim, work, report. */
  method ProcessJob(store: Store, id: JobId, started: int, outcome: Outcome, ended: int)
    modifies store
    ensures !(id in old(store.rows) && Ready(old(store.rows)[id], started)) ==> store.rows == old(store.rows)
    ensures id in old(store.rows) && Ready(old(store.rows)[id], started) ==>
      var job := Started(old(store.rows)[id], started);
      store.rows == old(store.rows)[id := match outcome
                                          case Succeeded(result) => Finished(job, ended, result)
                                          case Errored(message) => Failed(job, job, ended, message)]
  {
    var claimed := store.MarkJobRunning(id, started);
    if claimed.Some? {
      match outcome
      case Succeeded(result) => store.CompleteJob(id, ended, result);
      case Errored(message) => store.FailJob(id, claimed.value, ended, message);
    }
  }
}
