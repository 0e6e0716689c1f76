/**
 How many rounds of dispatch and drain empty a backlog, in runs where reapers, late workers,
 purges and new jobs come in between at any point.
 */
module JobBacklog {
  import opened Prelude
  import opened JobStore
  import opened JobRuns
  import opened JobTimely
  import opened JobQueue

  /** Jobs that were due at `t0` and still wait in the queue state they had then. */
  function Waiting(rows: Table, t0: int): set<JobId> {
    ReadySet(rows, t0)
  }

  /** If dispatch leaves a job out, everything it lists was at least as overdue. */
  lemma FullListing(rows: Table, t0: int, now: int, limit: nat, ids: seq<JobId>)
    requires t0 <= now && ReadyListing(rows, now, limit, ids)
    requires Waiting(rows, t0) - Elements(ids) != {}
    ensures |Elements(ids)| == limit && Elements(ids) <= Waiting(rows, t0)
  {
    var p :| p in Waiting(rows, t0) && p !in ids;
    assert p in ReadySet(rows, now);
    DistinctSize(ids);
    forall id | id in ids
      ensures id in Waiting(rows, t0)
    {
      var i :| 0 <= i < |ids| && ids[i] == id;
      assert rows[id].scheduledAt <= rows[p].scheduledAt;
    }
  }

  /** After the clock has passed `t0`, no step of the protocol makes another job due by `t0`. */
  lemma StepsBringNoEarlierWork(c: Config, s: World, e: Event, t0: int)
    requires Sound(c, s) && t0 < s.now
    ensures Waiting(Step(c, s, e).rows, t0) <= Waiting(s.rows, t0)
    ensures t0 < Step(c, s, e).now
  {
    var s' := Step(c, s, e);
    TimeMovesOn(c, s, e);
    forall id | id in s'.rows && Ready(s'.rows[id], t0)
      ensures id in s.rows && Ready(s.rows[id], t0)
    {
      DueRowIsOld(c, s, e, t0, id);
    }
    WaitingShrinks(s.rows, s'.rows, t0);
  }

  lemma WaitingShrinks(rows: Table, rows': Table, t0: int)
    requires forall id :: id in rows' && Ready(rows'[id], t0) ==> id in rows && Ready(rows[id], t0)
    ensures Waiting(rows', t0) <= Waiting(rows, t0)
  {
  }

  lemma TimeMovesOn(c: Config, s: World, e: Event)
    ensures s.now <= Step(c, s, e).now
  {
  }

  lemma DueRowIsOld(c: Config, s: World, e: Event, t0: int, id: JobId)
    requires Sound(c, s) && t0 < s.now
    requires id in Step(c, s, e).rows && Ready(Step(c, s, e).rows[id], t0)
    ensures id in s.rows && Ready(s.rows[id], t0)
  {
    if Sweeps(e) {
      SweptDueRowIsOld(c, s, e, t0, id);
    } else if Reports(s, e) {
      ReportedDueRowIsOld(c, s, e, t0, id);
    } else if !Claims(s, e) && !Creates(s, e) {
      BlockedStep(c, s, e);
    }
  }

  lemma SweptDueRowIsOld(c: Config, s: World, e: Event, t0: int, id: JobId)
    requires Sweeps(e) && t0 < s.now && id in Step(c, s, e).rows && Ready(Step(c, s, e).rows[id], t0)
    ensures id in s.rows && Ready(s.rows[id], t0)
  {
  }

  lemma ReportedDueRowIsOld(c: Config, s: World, e: Event, t0: int, id: JobId)
    requires Sound(c, s) && Reports(s, e) && t0 < s.now
    requires id in Step(c, s, e).rows && Ready(Step(c, s, e).rows[id], t0)
    ensures id in s.rows && Ready(s.rows[id], t0)
  {
    assert s.workers[e.worker].record.attempts >= 1;
  }

  lemma {:induction false} RunsBringNoEarlierWork(c: Config, s: World, es: seq<Event>, t0: int)
    requires Sound(c, s) && t0 < s.now
    ensures Waiting(Run(c, s, es).rows, t0) <= Waiting(s.rows, t0) && t0 < Run(c, s, es).now
    decreases |es|
  {
    if es == [] {
    } else {
      StepSound(c, s, es[0]);
      StepsBringNoEarlierWork(c, s, es[0], t0);
      RunsBringNoEarlierWork(c, Step(c, s, es[0]), es[1..], t0);
    }
  }

  /** ---- A round ---- */

  /** A free worker tries to claim `id`; the guard decides whether it gets it. */
  predicate Tries(s: World, e: Event, id: JobId) {
    e.Claim? && e.id == id && e.worker !in s.workers
  }

  ghost predicate Attempted(c: Config, s: World, es: seq<Event>, id: JobId) {
    exists k: nat :: k < |es| && Tries(Run(c, s, es[..k]), es[k], id)
  }

  /** `ids` is what dispatch listed in the state the round began in. */
  datatype Round = Round(ids: seq<JobId>, events: seq<Event>)

  /** Whatever else happens in the round, some free worker tries every listed id before it ends. */
  ghost predicate Drains(c: Config, s: World, r: Round, limit: nat) {
    && ReadyListing(s.rows, s.now, limit, r.ids)
    && forall id :: id in r.ids ==> Attempted(c, s, r.events, id)
  }

  lemma TriedIsTaken(c: Config, s: World, e: Event, id: JobId, t0: int)
    requires t0 < s.now && Tries(s, e, id)
    ensures id !in Waiting(Step(c, s, e).rows, t0)
  {
  }

  lemma SplitAt(c: Config, s: World, es: seq<Event>, k: nat)
    requires k < |es|
    ensures Run(c, s, es) == Run(c, Step(c, Run(c, s, es[..k]), es[k]), es[k + 1..])
  {
    assert es == es[..k] + es[k..];
    RunAppend(c, s, es[..k], es[k..]);
    assert es[k..][1..] == es[k + 1..];
  }

  lemma AttemptedIsTaken(c: Config, s: World, es: seq<Event>, id: JobId, t0: int)
    requires Sound(c, s) && t0 < s.now && Attempted(c, s, es, id)
    ensures id !in Waiting(Run(c, s, es).rows, t0)
  {
    var k: nat :| k < |es| && Tries(Run(c, s, es[..k]), es[k], id);
    var s0 := Run(c, s, es[..k]);
    RunsBringNoEarlierWork(c, s, es[..k], t0);
    RunSound(c, s, es[..k]);
    TriedIsTaken(c, s0, es[k], id, t0);
    StepSound(c, s0, es[k]);
    TimeMovesOn(c, s0, es[k]);
    RunsBringNoEarlierWork(c, Step(c, s0, es[k]), es[k + 1..], t0);
    SplitAt(c, s, es, k);
  }

  /** A round takes `limit` jobs off the backlog, or all of it. */
  lemma RoundShrinksBacklog(c: Config, s: World, r: Round, limit: nat, t0: int)
    requires Sound(c, s) && t0 < s.now && Drains(c, s, r, limit)
    ensures var s' := Run(c, s, r.events);
            && Waiting(s'.rows, t0) <= Waiting(s.rows, t0) - Elements(r.ids)
            && |Waiting(s'.rows, t0)| <= Max(0, |Waiting(s.rows, t0)| - limit)
  {
    var before, after := Waiting(s.rows, t0), Waiting(Run(c, s, r.events).rows, t0);
    RunsBringNoEarlierWork(c, s, r.events, t0);
    forall id | id in after
      ensures id in before - Elements(r.ids)
    {
      if id in r.ids {
        AttemptedIsTaken(c, s, r.events, id, t0);
      }
    }
    if after != {} {
      var some :| some in after;
      assert some in before - Elements(r.ids);
      FullListing(s.rows, t0, s.now, limit, r.ids);
      SubsetSize(after, before - Elements(r.ids));
    }
  }

  /** ---- Round after round ---- */

  function AfterRounds(c: Config, s: World, rs: seq<Round>): World
    decreases |rs|
  {
    if rs == [] then s else AfterRounds(c, Run(c, s, rs[0].events), rs[1..])
  }

  ghost predicate AllDrain(c: Config, s: World, rs: seq<Round>, limit: nat)
    decreases |rs|
  {
    rs == [] || (Drains(c, s, rs[0], limit) && AllDrain(c, Run(c, s, rs[0].events), rs[1..], limit))
  }

  function Events(rs: seq<Round>): seq<Event> {
    if rs == [] then [] else rs[0].events + Events(rs[1..])
  }

  lemma {:induction false} RoundsAreOneRun(c: Config, s: World, rs: seq<Round>)
    ensures AfterRounds(c, s, rs) == Run(c, s, Events(rs))
    decreases |rs|
  {
    if rs == [] {
    } else {
      RoundsAreOneRun(c, Run(c, s, rs[0].events), rs[1..]);
      RunAppend(c, s, rs[0].events, Events(rs[1..]));
    }
  }

  /** What at most remains of `a` when `n` rounds each take `limit` off it. */
  function Left(a: nat, n: nat, limit: nat): nat
    decreases n
  {
    if n == 0 then a else Left(Max(0, a - limit), n - 1, limit)
  }

  lemma {:induction false} LeftIsMonotone(a: nat, b: nat, n: nat, limit: nat)
    requires a <= b
    ensures Left(a, n, limit) <= Left(b, n, limit)
    decreases n
  {
    if n == 0 {
    } else {
      LeftIsMonotone(Max(0, a - limit), Max(0, b - limit), n - 1, limit);
    }
  }

  lemma {:induction false} LeftIsWhatRemains(a: nat, n: nat, limit: nat)
    ensures Left(a, n, limit) == Max(0, a - n * limit)
    decreases n
  {
    if n == 0 {
    } else {
      LeftIsWhatRemains(Max(0, a - limit), n - 1, limit);
      assert n * limit == (n - 1) * limit + limit;
      assert (n - 1) * limit >= 0;
    }
  }

  lemma {:induction false} BacklogAfter(c: Config, s: World, rs: seq<Round>, limit: nat, t0: int)
    requires Sound(c, s) && t0 < s.now && AllDrain(c, s, rs, limit)
    ensures |Waiting(AfterRounds(c, s, rs).rows, t0)| <= Left(|Waiting(s.rows, t0)|, |rs|, limit)
    decreases |rs|
  {
    hide Sound, Drains, Waiting;
    if rs == [] {
    } else {
      var s' := Run(c, s, rs[0].events);
      OneRound(c, s, rs[0], limit, t0);
      BacklogAfter(c, s', rs[1..], limit, t0);
      LeftAfterOne(|Waiting(s.rows, t0)|, |Waiting(s'.rows, t0)|, |rs|, limit);
    }
  }

  lemma OneRound(c: Config, s: World, r: Round, limit: nat, t0: int)
    requires Sound(c, s) && t0 < s.now && Drains(c, s, r, limit)
    ensures var s' := Run(c, s, r.events);
            Sound(c, s') && t0 < s'.now && |Waiting(s'.rows, t0)| <= Max(0, |Waiting(s.rows, t0)| - limit)
  {
    RoundShrinksBacklog(c, s, r, limit, t0);
    RunSound(c, s, r.events);
    RunsBringNoEarlierWork(c, s, r.events, t0);
  }

  lemma LeftAfterOne(a: nat, b: nat, n: nat, limit: nat)
    requires b <= Max(0, a - limit) && n > 0
    ensures Left(b, n - 1, limit) <= Left(a, n, limit)
  {
    LeftIsMonotone(b, Max(0, a - limit), n - 1, limit);
  }

  lemma EnoughRounds(n: nat, rounds: nat, limit: nat)
    requires limit > 0 && rounds >= CeilDiv(n, limit)
    ensures n <= rounds * limit
  {
    var d := CeilDiv(n, limit);
    assert rounds * limit == d * limit + (rounds - d) * limit;
  }

  /** ---- Where the jobs went ---- */

  /** A worker reports on `id` although its claim is not the current one. */
  predicate LateReport(s: World, e: Event, id: JobId) {
    (e.Complete? || e.Fail?) && e.worker in s.workers && s.workers[e.worker].job == id && !Holds(s, e.worker)
  }

  predicate ClaimOf(s: World, e: Event, id: JobId) {
    Claims(s, e) && e.id == id
  }

  lemma LeavesByClaimOrLateReport(c: Config, s: World, e: Event, id: JobId, t0: int)
    requires Sound(c, s) && t0 < s.now && id in Waiting(s.rows, t0) && id !in Waiting(Step(c, s, e).rows, t0)
    ensures ClaimOf(s, e, id) || LateReport(s, e, id)
  {
    if Sweeps(e) {
      SweepLeavesQueued(c, s, e, id);
    } else if !Claims(s, e) && !Reports(s, e) && !Creates(s, e) {
      BlockedStep(c, s, e);
    }
  }

  lemma SweepLeavesQueued(c: Config, s: World, e: Event, id: JobId)
    requires Sweeps(e) && id in s.rows && s.rows[id].status == Queued
    ensures id in Step(c, s, e).rows && Step(c, s, e).rows[id] == s.rows[id]
  {
  }

  /** The step of a run at which `id` stops waiting. */
  lemma {:induction false} LeavingStep(c: Config, s: World, es: seq<Event>, id: JobId, t0: int) returns (k: nat)
    requires Sound(c, s) && t0 < s.now && id in Waiting(s.rows, t0) && id !in Waiting(Run(c, s, es).rows, t0)
    ensures k < |es|
    ensures var s' := Run(c, s, es[..k]); ClaimOf(s', es[k], id) || LateReport(s', es[k], id)
    decreases |es|
  {
    var s' := Step(c, s, es[0]);
    if id !in Waiting(s'.rows, t0) {
      LeavesByClaimOrLateReport(c, s, es[0], id, t0);
      k := 0;
    } else {
      StepSound(c, s, es[0]);
      TimeMovesOn(c, s, es[0]);
      var k' := LeavingStep(c, s', es[1..], id, t0);
      k := k' + 1;
      assert es[..k][1..] == es[1..][..k'];
    }
  }

  lemma {:induction false} TimelyAt(c: Config, s: World, es: seq<Event>, k: nat)
    requires TimelyRun(c, s, es) && k < |es|
    ensures TimelyEvent(Run(c, s, es[..k]), es[k])
    decreases |es|
  {
    if k == 0 {
    } else {
      TimelyAt(c, Step(c, s, es[0]), es[1..], k - 1);
      assert es[..k][1..] == es[1..][..k - 1];
    }
  }

  /** Every job that stops waiting during a run is claimed, or reported on by a worker too late. */
  lemma HowTheyLeft(c: Config, s: World, es: seq<Event>, t0: int)
    requires Sound(c, s) && t0 < s.now
    ensures forall id :: id in Waiting(s.rows, t0) && id !in Waiting(Run(c, s, es).rows, t0) ==>
      exists k: nat :: k < |es|
        && (ClaimOf(Run(c, s, es[..k]), es[k], id) || LateReport(Run(c, s, es[..k]), es[k], id))
  {
    forall id | id in Waiting(s.rows, t0) && id !in Waiting(Run(c, s, es).rows, t0)
      ensures exists k: nat :: k < |es|
                && (ClaimOf(Run(c, s, es[..k]), es[k], id) || LateReport(Run(c, s, es[..k]), es[k], id))
    {
      var k := LeavingStep(c, s, es, id, t0);
    }
  }

  lemma NoneIsLateInTime(c: Config, s: World, es: seq<Event>, k: nat, id: JobId)
    requires TimelyRun(c, s, es) && k < |es|
    ensures !LateReport(Run(c, s, es[..k]), es[k], id)
  {
    TimelyAt(c, s, es, k);
  }

  /**
   From any reachable state, ceil(n / limit) rounds of dispatch and full drain leave none of the n
   jobs due at `t0` waiting, whatever runs in between. Each left by a claim, or by the report of a
   worker that no longer held it; with current reports only, each left by a claim.
   */
  lemma BacklogIsCleared(c: Config, before: seq<Event>, rs: seq<Round>, limit: nat, t0: int)
    requires limit > 0 && t0 < Run(c, START, before).now && AllDrain(c, Run(c, START, before), rs, limit)
    requires |rs| >= CeilDiv(|Waiting(Run(c, START, before).rows, t0)|, limit)
    ensures var s := Run(c, START, before);
            var es := Events(rs);
            && Waiting(Run(c, s, es).rows, t0) == {}
            && (forall id :: id in Waiting(s.rows, t0) ==>
                  exists k: nat :: k < |es|
                    && (ClaimOf(Run(c, s, es[..k]), es[k], id) || LateReport(Run(c, s, es[..k]), es[k], id)))
            && (TimelyRun(c, s, es) ==> forall k: nat, id :: k < |es| ==> !LateReport(Run(c, s, es[..k]), es[k], id))
  {
    var s := Run(c, START, before);
    RunSound(c, START, before);
    NothingLeft(c, s, rs, limit, t0);
    HowTheyLeft(c, s, Events(rs), t0);
    if TimelyRun(c, s, Events(rs)) {
      forall k: nat, id | k < |Events(rs)|
        ensures !LateReport(Run(c, s, Events(rs)[..k]), Events(rs)[k], id)
      {
        NoneIsLateInTime(c, s, Events(rs), k, id);
      }
    }
  }

  lemma NothingLeft(c: Config, s: World, rs: seq<Round>, limit: nat, t0: int)
    requires Sound(c, s) && t0 < s.now && AllDrain(c, s, rs, limit)
    requires limit > 0 && |rs| >= CeilDiv(|Waiting(s.rows, t0)|, limit)
    ensures Waiting(Run(c, s, Events(rs)).rows, t0) == {}
  {
    BacklogAfter(c, s, rs, limit, t0);
    NoneRemain(|Waiting(s.rows, t0)|, |rs|, limit);
    RoundsAreOneRun(c, s, rs);
  }

  lemma NoneRemain(a: nat, n: nat, limit: nat)
    requires limit > 0 && n >= CeilDiv(a, limit)
    ensures Left(a, n, limit) == 0
  {
    LeftIsWhatRemains(a, n, limit);
    EnoughRounds(a, n, limit);
  }

  /** ---- What makes a round ---- */

  /** Nothing is lost, nobody pops with an id still in hand, and whoever tries to claim is free. */
  predicate Careful(q: QueueWorld, e: QueueEvent) {
    && !e.Lose?
    && (e.Pop? ==> e.popper !in q.hands)
    && (e.StartPopped? ==> e.starter !in q.store.workers)
  }

  predicate CarefulRun(c: Config, q: QueueWorld, es: seq<QueueEvent>)
    decreases |es|
  {
    es == [] || (Careful(q, es[0]) && CarefulRun(c, QueueStep(c, q, es[0]), es[1..]))
  }

  predicate Empty(q: QueueWorld) {
    q.items == [] && q.hands == map[]
  }

  predicate InTheList(q: QueueWorld, id: JobId) {
    id in q.items || id in q.hands.Values
  }

  lemma StaysInTheList(c: Config, q: QueueWorld, e: QueueEvent, id: JobId)
    requires Careful(q, e) && InTheList(q, id)
    ensures InTheList(QueueStep(c, q, e), id) || (e.StartPopped? && e.starter in q.hands && q.hands[e.starter] == id)
  {
    var q' := QueueStep(c, q, e);
    match e
    case Pop(w) =>
      if q.items != [] {
        assert forall v :: v in q.hands ==> v in q'.hands && q'.hands[v] == q.hands[v];
        assert q'.hands[w] == q.items[0];
      }
    case StartPopped(w) =>
      assert forall v :: v in q.hands && v != w ==> v in q'.hands && q'.hands[v] == q.hands[v];
    case _ =>
  }

  lemma AttemptedLater(c: Config, s: World, first: seq<Event>, es: seq<Event>, id: JobId)
    requires Attempted(c, Run(c, s, first), es, id)
    ensures Attempted(c, s, first + es, id)
  {
    var s' := Run(c, s, first);
    var k: nat :| k < |es| && Tries(Run(c, s', es[..k]), es[k], id);
    RunAppend(c, s, first, es[..k]);
    assert (first + es)[..|first| + k] == first + es[..k];
    assert (first + es)[|first| + k] == es[k];
  }

  /** When the list has run empty again, a free worker has tried every id that was in it. */
  lemma {:induction false} EmptiedMeansAttempted(c: Config, q: QueueWorld, es: seq<QueueEvent>, id: JobId)
    requires CarefulRun(c, q, es) && Empty(QueueRun(c, q, es)) && InTheList(q, id)
    ensures Attempted(c, q.store, Projection(c, q, es), id)
    decreases |es|
  {
    var e, q' := es[0], QueueStep(c, q, es[0]);
    var rest := Projection(c, q', es[1..]);
    if e.StartPopped? && e.starter in q.hands && q.hands[e.starter] == id {
      assert Projection(c, q, es) == [Claim(e.starter, id)] + rest;
      var all := Projection(c, q, es);
      assert Tries(Run(c, q.store, all[..0]), all[0], id);
    } else {
      StaysInTheList(c, q, e, id);
      EmptiedMeansAttempted(c, q', es[1..], id);
      ProjectedStep(c, q, e);
      AttemptedLater(c, q.store, Projected(q, e), rest, id);
    }
  }

  /** The same for an id pushed on the way. */
  lemma {:induction false} PushedMeansAttempted(c: Config, q: QueueWorld, es: seq<QueueEvent>, id: JobId)
    requires CarefulRun(c, q, es) && Empty(QueueRun(c, q, es)) && Push(id) in es
    ensures Attempted(c, q.store, Projection(c, q, es), id)
    decreases |es|
  {
    var q' := QueueStep(c, q, es[0]);
    var rest := Projection(c, q', es[1..]);
    if es[0] == Push(id) {
      assert InTheList(q', id);
      EmptiedMeansAttempted(c, q', es[1..], id);
    } else {
      assert es == [es[0]] + es[1..];
      PushedMeansAttempted(c, q', es[1..], id);
    }
    ProjectedStep(c, q, es[0]);
    AttemptedLater(c, q.store, Projected(q, es[0]), rest, id);
  }

  /** What dispatch listed when the round began, and everything that happens until the list is empty. */
  datatype ListRound = ListRound(ids: seq<JobId>, events: seq<QueueEvent>)

  /** Dispatch pushes its listing, nothing is lost, and the round ends with the list empty and no id in hand. */
  ghost predicate Empties(c: Config, q: QueueWorld, r: ListRound, limit: nat) {
    && ReadyListing(q.store.rows, q.store.now, limit, r.ids)
    && (forall id :: id in r.ids ==> Push(id) in r.events)
    && CarefulRun(c, q, r.events) && Empty(QueueRun(c, q, r.events))
  }

  /** What such a round does to the job table is a round of the protocol. */
  lemma EmptyingTheListIsARound(c: Config, q: QueueWorld, r: ListRound, limit: nat)
    requires Empties(c, q, r, limit)
    ensures Drains(c, q.store, Round(r.ids, Projection(c, q, r.events)), limit)
    ensures Run(c, q.store, Projection(c, q, r.events)) == QueueRun(c, q, r.events).store
  {
    ListIsOnlyAHint(c, q, r.events);
    forall id | id in r.ids
      ensures Attempted(c, q.store, Projection(c, q, r.events), id)
    {
      PushedMeansAttempted(c, q, r.events, id);
    }
  }

  ghost predicate AllEmpty(c: Config, q: QueueWorld, rs: seq<ListRound>, limit: nat)
    decreases |rs|
  {
    rs == [] || (Empties(c, q, rs[0], limit) && AllEmpty(c, QueueRun(c, q, rs[0].events), rs[1..], limit))
  }

  function AfterListRounds(c: Config, q: QueueWorld, rs: seq<ListRound>): QueueWorld
    decreases |rs|
  {
    if rs == [] then q else AfterListRounds(c, QueueRun(c, q, rs[0].events), rs[1..])
  }

  function StoreRounds(c: Config, q: QueueWorld, rs: seq<ListRound>): (out: seq<Round>)
    ensures |out| == |rs|
    decreases |rs|
  {
    if rs == [] then []
    else [Round(rs[0].ids, Projection(c, q, rs[0].events))] + StoreRounds(c, QueueRun(c, q, rs[0].events), rs[1..])
  }

  lemma {:induction false} ListRoundsAreRounds(c: Config, q: QueueWorld, rs: seq<ListRound>, limit: nat)
    requires AllEmpty(c, q, rs, limit)
    ensures AllDrain(c, q.store, StoreRounds(c, q, rs), limit)
    ensures AfterRounds(c, q.store, StoreRounds(c, q, rs)) == AfterListRounds(c, q, rs).store
    decreases |rs|
  {
    hide Drains, Empties;
    if rs == [] {
    } else {
      var q' := QueueRun(c, q, rs[0].events);
      EmptyingTheListIsARound(c, q, rs[0], limit);
      ListRoundsAreRounds(c, q', rs[1..], limit);
      assert StoreRounds(c, q, rs)[1..] == StoreRounds(c, q', rs[1..]);
    }
  }

  /**
   The whole system, list included: from any reachable state, ceil(n / limit) rounds, each a dispatch
   followed by whatever happens until the list is empty, leave none of the n jobs due at `t0` waiting.
   */
  lemma ListRoundsClearBacklog(c: Config, before: seq<QueueEvent>, rs: seq<ListRound>, limit: nat, t0: int)
    requires var q := QueueRun(c, QueueWorld(START, [], map[]), before);
             && limit > 0 && t0 < q.store.now && AllEmpty(c, q, rs, limit)
             && |rs| >= CeilDiv(|Waiting(q.store.rows, t0)|, limit)
    ensures var q := QueueRun(c, QueueWorld(START, [], map[]), before);
            var q' := AfterListRounds(c, q, rs);
            Waiting(q'.store.rows, t0) == {} && (rs != [] ==> Empty(q'))
  {
    var q0 := QueueWorld(START, [], map[]);
    var q := QueueRun(c, q0, before);
    ListIsOnlyAHint(c, q0, before);
    ListRoundsAreRounds(c, q, rs, limit);
    BacklogIsCleared(c, Projection(c, q0, before), StoreRounds(c, q, rs), limit, t0);
    RoundsAreOneRun(c, q.store, StoreRounds(c, q, rs));
    EndsEmpty(c, q, rs, limit);
  }

  lemma {:induction false} EndsEmpty(c: Config, q: QueueWorld, rs: seq<ListRound>, limit: nat)
    requires AllEmpty(c, q, rs, limit)
    ensures rs != [] ==> Empty(AfterListRounds(c, q, rs))
    decreases |rs|
  {
    if rs == [] {
    } else {
      EndsEmpty(c, QueueRun(c, q, rs[0].events), rs[1..], limit);
    }
  }

  predicate Ascending(now: int, clock: seq<int>)
    decreases |clock|
  {
    clock == [] || (now <= clock[0] && Ascending(clock[0], clock[1..]))
  }

  /** Workers numbered from `w` take one id each. */
  function DrainEvents(now: int, clock: seq<int>, ids: seq<JobId>, w: nat): seq<Event>
    requires |clock| == |ids| && Ascending(now, clock)
    decreases |ids|
  {
    if ids == [] then []
    else [Tick(clock[0] - now), Claim(w, ids[0])] + DrainEvents(clock[0], clock[1..], ids[1..], w + 1)
  }

  /** Draining by itself does to the table what a run of the protocol does, and tries every id. */
  lemma {:induction false} DrainIsARun(c: Config, s: World, clock: seq<int>, ids: seq<JobId>, w: nat)
    requires |clock| == |ids| && Ascending(s.now, clock) && forall v :: v in s.workers ==> v < w
    ensures var es := DrainEvents(s.now, clock, ids, w);
            && Run(c, s, es).rows == ClaimAll(s.rows, clock, ids)
            && forall id :: id in ids ==> Attempted(c, s, es, id)
    decreases |ids|
  {
    if ids == [] {
    } else {
      var first := [Tick(clock[0] - s.now), Claim(w, ids[0])];
      var s1 := Step(c, s, first[0]);
      var s2 := Step(c, s1, first[1]);
      TwoSteps(c, s, first[0], first[1]);
      DrainIsARun(c, s2, clock[1..], ids[1..], w + 1);
      var rest := DrainEvents(clock[0], clock[1..], ids[1..], w + 1);
      RunAppend(c, s, first, rest);
      forall id | id in ids
        ensures Attempted(c, s, first + rest, id)
      {
        if id == ids[0] {
          assert (first + rest)[..1] == [first[0]];
          TwoSteps(c, s, first[0], first[1]);
          assert Tries(Run(c, s, (first + rest)[..1]), (first + rest)[1], id);
        } else {
          AttemptedLater(c, s, first, rest, id);
        }
      }
    }
  }

  lemma TwoSteps(c: Config, s: World, e0: Event, e1: Event)
    ensures Run(c, s, [e0]) == Step(c, s, e0)
    ensures Run(c, s, [e0, e1]) == Step(c, Step(c, s, e0), e1)
  {
    assert [e0][1..] == [] && [e0, e1][1..] == [e1] && [e1][1..] == [];
    assert Run(c, Step(c, s, e0), [e1]) == Step(c, Step(c, s, e0), e1);
  }
}
