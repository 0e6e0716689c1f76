/**
 Runs of the outbox protocol with any number of dispatchers, row locks made explicit. A claim
 statement begins, locks due rows it finds unlocked and commits; its rows then belong to the
 dispatcher that issued it, as tickets carrying the rows it was given.
 */
module OutboxRuns {
  import opened Prelude
  import opened Backoff
  import opened OutboxStore

  /** A claim statement in progress; `now()` inside it is its start. */
  datatype Txn = Txn(start: int, limit: nat, locked: set<RowId>)

  datatype Ticket = Ticket(record: Row, sent: bool)

  datatype World = World(now: int, rows: Table, usedRows: set<RowId>, open: map<nat, Txn>, usedTxns: set<nat>,
                         tickets: map<(nat, RowId), Ticket>)

  const START: World := World(0, map[], {}, map[], {}, map[])

  datatype Event =
    | Tick(elapsed: nat)
    | Enqueue(id: RowId, maxAttempts: nat)
    | Begin(txn: nat, limit: nat)
    | Lock(txn: nat, id: RowId)
    | Commit(txn: nat)
    | Abort(txn: nat)
    | SendOk(txn: nat, id: RowId)
    | MarkSent(txn: nat, id: RowId)
    | RecordFailure(txn: nat, id: RowId, message: string)
    | Drop(txn: nat, id: RowId)
    | Redeliver(id: RowId)
    | Purge(retention: nat)
    | Discard(ids: set<RowId>)

  predicate Locked(s: World, id: RowId) {
    exists t :: t in s.open && id in s.open[t].locked
  }

  /** Deleting a webhook takes its deliveries with it, pending ones too; the delete waits for row locks. */
  predicate CanDiscard(s: World, e: Event) {
    e.Discard? && forall id :: id in e.ids ==> !Locked(s, id)
  }

  predicate CanLock(s: World, t: nat, id: RowId) {
    && t in s.open && |s.open[t].locked| < s.open[t].limit
    && id in s.rows && Due(s.rows[id], s.open[t].start)
    && !Locked(s, id)
  }

  predicate HasTicket(s: World, t: nat, id: RowId) {
    (t, id) in s.tickets
  }

  /** Updates wait for row locks, so an outcome is recorded only on an unlocked row. */
  predicate CanRecord(s: World, e: Event) {
    && (e.MarkSent? || e.RecordFailure?) && HasTicket(s, e.txn, e.id) && !Locked(s, e.id)
    && (e.MarkSent? <==> s.tickets[(e.txn, e.id)].sent)
  }

  predicate CanRedeliver(s: World, e: Event) {
    e.Redeliver? && e.id in s.rows && s.rows[e.id].status != Pending
  }

  function Tickets(s: World, t: nat): map<(nat, RowId), Ticket>
    requires t in s.open
  {
    map id | id in s.open[t].locked && id in s.rows :: (t, id) := Ticket(Claimed(s.rows[id], s.open[t].start), false)
  }

  function Purged(rows: Table, cutoff: int): Table {
    map id | id in rows && !(rows[id].status != Pending && rows[id].createdAt < cutoff) :: rows[id]
  }

  function Outcome(s: World, e: Event): Row
    requires CanRecord(s, e) && e.id in s.rows
  {
    match e
    case MarkSent(t, id) => Sent(s.rows[id], s.now)
    case RecordFailure(t, id, message) => Failed(s.rows[id], s.tickets[(t, id)].record, s.now, message)
  }

  function Step(s: World, e: Event): World {
    match e
    case Tick(elapsed) => s.(now := s.now + elapsed)
    case Enqueue(id, m) =>
      if id in s.usedRows || m == 0 then s
      else s.(rows := s.rows[id := Enqueued(m, s.now)], usedRows := s.usedRows + {id})
    case Begin(t, limit) =>
      if t in s.usedTxns then s
      else s.(open := s.open[t := Txn(s.now, limit, {})], usedTxns := s.usedTxns + {t})
    case Lock(t, id) =>
      if !CanLock(s, t, id) then s
      else s.(open := s.open[t := s.open[t].(locked := s.open[t].locked + {id})])
    case Commit(t) =>
      if t !in s.open then s
      else s.(rows := ClaimBatch(s.rows, s.open[t].locked, s.open[t].start),
              tickets := s.tickets + Tickets(s, t), open := s.open - {t})
    case Abort(t) => s.(open := s.open - {t})
    case SendOk(t, id) =>
      if !HasTicket(s, t, id) then s else s.(tickets := s.tickets[(t, id) := s.tickets[(t, id)].(sent := true)])
    case MarkSent(t, id) =>
      if !CanRecord(s, e) then s
      else s.(rows := if id in s.rows then s.rows[id := Outcome(s, e)] else s.rows, tickets := s.tickets - {(t, id)})
    case RecordFailure(t, id, message) =>
      if !CanRecord(s, e) then s
      else s.(rows := if id in s.rows then s.rows[id := Outcome(s, e)] else s.rows, tickets := s.tickets - {(t, id)})
    case Drop(t, id) => s.(tickets := s.tickets - {(t, id)})
    case Redeliver(id) =>
      if !CanRedeliver(s, e) then s else s.(rows := s.rows[id := Renewed(s.rows[id], s.now)])
    case Purge(retention) => s.(rows := Purged(s.rows, s.now - retention))
    case Discard(ids) => if !CanDiscard(s, e) then s else s.(rows := s.rows - ids)
  }

  function Run(s: World, es: seq<Event>): World
    decreases |es|
  {
    if es == [] then s else Run(Step(s, es[0]), es[1..])
  }

  /** The commit of a claim statement that returns row `id`. */
  predicate ClaimsRow(s: World, e: Event, id: RowId) {
    e.Commit? && e.txn in s.open && id in s.open[e.txn].locked && id in s.rows
  }

  predicate SendsRow(s: World, e: Event, id: RowId) {
    e.SendOk? && e.id == id && HasTicket(s, e.txn, id)
  }

  function ClaimCount(s: World, es: seq<Event>, id: RowId): nat
    decreases |es|
  {
    if es == [] then 0 else (if ClaimsRow(s, es[0], id) then 1 else 0) + ClaimCount(Step(s, es[0]), es[1..], id)
  }

  function SendCount(s: World, es: seq<Event>, id: RowId): nat
    decreases |es|
  {
    if es == [] then 0 else (if SendsRow(s, es[0], id) then 1 else 0) + SendCount(Step(s, es[0]), es[1..], id)
  }

  /** ---- Every run ---- */

  ghost predicate Sound(s: World) {
    && s.rows.Keys <= s.usedRows && s.open.Keys <= s.usedTxns
    && (forall t, id :: HasTicket(s, t, id) ==> t in s.usedTxns && t !in s.open && id in s.usedRows)
    && (forall t :: t in s.open ==> s.open[t].start <= s.now && |s.open[t].locked| <= s.open[t].limit)
    && LocksDue(s) && LocksApart(s)
  }

  /** Whatever is locked was due when its transaction began, and still is. */
  ghost predicate LocksDue(s: World) {
    forall t, id :: t in s.open && id in s.open[t].locked ==> id in s.rows && Due(s.rows[id], s.open[t].start)
  }

  /** A row is locked by one transaction at a time. */
  ghost predicate LocksApart(s: World) {
    forall t, u, id :: t in s.open && u in s.open && id in s.open[t].locked && id in s.open[u].locked ==> t == u
  }

  /** Row `id` as `e` leaves it, seen from that row alone. */
  lemma RowStep(s: World, e: Event, id: RowId)
    requires Sound(s) && id in s.rows && id in Step(s, e).rows
    ensures Step(s, e).rows[id] ==
      if ClaimsRow(s, e, id) then Claimed(s.rows[id], s.open[e.txn].start)
      else if CanRecord(s, e) && e.id == id then Outcome(s, e)
      else if CanRedeliver(s, e) && e.id == id then Renewed(s.rows[id], s.now)
      else s.rows[id]
  {
  }

  lemma RowsComeAndGo(s: World, e: Event, id: RowId)
    requires Sound(s)
    ensures var s' := Step(s, e);
            && s.usedRows <= s'.usedRows
            && (id in s.usedRows && id !in s.rows ==> id !in s'.rows)
            && (id !in s.usedRows && id in s'.rows ==>
                 e.Enqueue? && e.id == id && e.maxAttempts > 0 && s'.rows[id] == Enqueued(e.maxAttempts, s.now))
            && (id in s.rows && s.rows[id].status == Pending ==> id in s'.rows || (e.Discard? && id in e.ids))
  {
  }

  lemma SoundCommit(s: World, t: nat)
    requires Sound(s) && t in s.open
    ensures Sound(Step(s, Commit(t)))
  {
    var s' := Step(s, Commit(t));
    CommitKeepsTickets(s, t);
    CommitKeepsLocks(s, t);
    assert s'.rows.Keys == s.rows.Keys;
    FewerClaims(s, s');
  }

  lemma FewerClaims(s: World, s': World)
    requires Sound(s) && s'.rows.Keys == s.rows.Keys && s'.usedRows == s.usedRows && s'.usedTxns == s.usedTxns
    requires s'.now == s.now
    requires forall u :: u in s'.open ==> u in s.open && s'.open[u] == s.open[u]
    requires forall u, id :: HasTicket(s', u, id) ==> u in s.usedTxns && u !in s'.open && id in s.usedRows
    requires forall u, id :: u in s'.open && id in s'.open[u].locked ==> id in s'.rows && s'.rows[id] == s.rows[id]
    ensures Sound(s')
  {
    FewerLocks(s, s');
    assert s'.open.Keys <= s.open.Keys;
  }

  lemma FewerLocks(s: World, s': World)
    requires LocksDue(s) && LocksApart(s)
    requires forall u :: u in s'.open ==> u in s.open && s'.open[u] == s.open[u]
    requires forall u, id :: u in s'.open && id in s'.open[u].locked ==> id in s'.rows && s'.rows[id] == s.rows[id]
    ensures LocksDue(s') && LocksApart(s')
  {
  }

  lemma CommitKeepsTickets(s: World, t: nat)
    requires Sound(s) && t in s.open
    ensures forall u, id :: HasTicket(Step(s, Commit(t)), u, id) ==>
      u in s.usedTxns && u !in Step(s, Commit(t)).open && id in s.usedRows
  {
    var s' := Step(s, Commit(t));
    forall u, id | HasTicket(s', u, id)
      ensures u in s.usedTxns && u !in s'.open && id in s.usedRows
    {
      if !HasTicket(s, u, id) {
        assert (u, id) in Tickets(s, t);
      }
    }
  }

  lemma CommitKeepsLocks(s: World, t: nat)
    requires Sound(s) && t in s.open
    ensures var s' := Step(s, Commit(t));
            forall u, id :: u in s'.open && id in s'.open[u].locked ==> id in s'.rows && s'.rows[id] == s.rows[id]
  {
    var s' := Step(s, Commit(t));
    forall u, id | u in s'.open && id in s'.open[u].locked
      ensures id in s'.rows && s'.rows[id] == s.rows[id]
    {
      assert u in s.open && u != t;
    }
  }

  lemma SoundLock(s: World, t: nat, id: RowId)
    requires Sound(s) && CanLock(s, t, id)
    ensures Sound(Step(s, Lock(t, id)))
  {
    var txn := s.open[t].(locked := s.open[t].locked + {id});
    LockKeepsLocks(s, t, id, txn);
    MoreLocked(s, t, txn);
  }

  lemma LockKeepsLocks(s: World, t: nat, id: RowId, txn: Txn)
    requires LocksDue(s) && LocksApart(s) && CanLock(s, t, id) && txn == s.open[t].(locked := s.open[t].locked + {id})
    ensures LocksDue(s.(open := s.open[t := txn])) && LocksApart(s.(open := s.open[t := txn]))
    ensures |txn.locked| == |s.open[t].locked| + 1
  {
    assert forall u :: u in s.open ==> id !in s.open[u].locked;
  }

  lemma MoreLocked(s: World, t: nat, txn: Txn)
    requires Sound(s) && t in s.open && txn.start <= s.now && |txn.locked| <= txn.limit
    requires var s' := s.(open := s.open[t := txn]); LocksDue(s') && LocksApart(s')
    ensures Sound(s.(open := s.open[t := txn]))
  {
    var s' := s.(open := s.open[t := txn]);
    assert s'.tickets == s.tickets && s'.open.Keys == s.open.Keys;
    assert forall u, i :: HasTicket(s', u, i) ==> HasTicket(s, u, i);
  }

  lemma SoundRecord(s: World, e: Event)
    requires Sound(s) && CanRecord(s, e)
    ensures Sound(Step(s, e))
  {
    var s' := Step(s, e);
    assert forall t, id :: HasTicket(s', t, id) ==> HasTicket(s, t, id);
    assert forall t, id :: t in s.open && id in s.open[t].locked ==> Locked(s, id) && id != e.id;
  }

  lemma SoundOther(s: World, e: Event)
    requires Sound(s)
    requires e.Tick? || e.Enqueue? || e.Begin? || e.Abort? || e.SendOk? || e.Drop? || e.Redeliver? || e.Purge?
    ensures Sound(Step(s, e))
  {
    var s' := Step(s, e);
    assert forall t, id :: HasTicket(s', t, id) ==> HasTicket(s, t, id);
  }

  lemma SoundDiscard(s: World, ids: set<RowId>)
    requires Sound(s) && CanDiscard(s, Discard(ids))
    ensures Sound(Step(s, Discard(ids)))
  {
    var s' := Step(s, Discard(ids));
    assert forall t, id :: HasTicket(s', t, id) ==> HasTicket(s, t, id);
    assert forall t, id :: t in s.open && id in s.open[t].locked ==> Locked(s, id) && id !in ids;
  }

  lemma StepSound(s: World, e: Event)
    requires Sound(s)
    ensures Sound(Step(s, e))
  {
    match e
    case Commit(t) => if t in s.open { SoundCommit(s, t); }
    case Lock(t, id) => if CanLock(s, t, id) { SoundLock(s, t, id); }
    case MarkSent(t, id) => if CanRecord(s, e) { SoundRecord(s, e); }
    case RecordFailure(t, id, message) => if CanRecord(s, e) { SoundRecord(s, e); }
    case Discard(ids) => if CanDiscard(s, e) { SoundDiscard(s, ids); }
    case _ => SoundOther(s, e);
  }

  lemma {:induction false} RunSound(s: World, es: seq<Event>)
    requires Sound(s)
    ensures Sound(Run(s, es))
    decreases |es|
  {
    if es == [] {
    } else {
      StepSound(s, es[0]);
      RunSound(Step(s, es[0]), es[1..]);
    }
  }

  /** In every reachable state, claim statements in progress hold disjoint batches within their limits. */
  lemma BatchesAreDisjoint(es: seq<Event>, t: nat, u: nat)
    ensures var s := Run(START, es);
            t in s.open && u in s.open && t != u ==>
              s.open[t].locked !! s.open[u].locked && |s.open[t].locked| <= s.open[t].limit
  {
    RunSound(START, es);
  }

  /**
   The holder of a claim, once no statement has the row locked, records what came of it: a send that
   went through delivers the row, any other failure reschedules it or kills it by the claimed copy.
   Either way the claim is over. A claim that is dropped leaves the row as it is.
   */
  lemma OutcomesAreRecorded(s: World, t: nat, id: RowId, message: string)
    requires HasTicket(s, t, id) && id in s.rows && forall u :: u in s.open ==> id !in s.open[u].locked
    ensures var record := s.tickets[(t, id)].record;
            var sent, failed := Step(s, MarkSent(t, id)), Step(s, RecordFailure(t, id, message));
            && (s.tickets[(t, id)].sent ==>
                  && sent.rows
                     == s.rows[id := s.rows[id].(status := Delivered, deliveredAt := Some(s.now), lastError := None)]
                  && sent.tickets == s.tickets - {(t, id)} && failed == s)
            && (!s.tickets[(t, id)].sent ==>
                  var exhausted := record.attempts >= record.maxAttempts;
                  && failed.rows
                     == s.rows[id := s.rows[id].(
                                 status := if exhausted then DeadLetter else Pending,
                                 scheduledAt := if exhausted then s.now else s.now + Delay(record.attempts),
                                 lastError := Some(message))]
                  && failed.tickets == s.tickets - {(t, id)} && sent == s)
    ensures Step(s, SendOk(t, id)).tickets == s.tickets[(t, id) := Ticket(s.tickets[(t, id)].record, true)]
    ensures Step(s, Drop(t, id)) == s.(tickets := s.tickets - {(t, id)})
  {
  }

  /** A finished row goes with the first purge after its retention; a pending one is never purged. */
  lemma PurgeTakesExactly(s: World, retention: nat, id: RowId)
    requires id in s.rows
    ensures id !in Step(s, Purge(retention)).rows
            <==> (s.rows[id].status == Delivered || s.rows[id].status == DeadLetter)
                 && s.rows[id].createdAt + retention < s.now
  {
  }

  /** ---- The visibility window ---- */

  predicate TouchesOutcome(s: World, e: Event, id: RowId) {
    (CanRecord(s, e) || CanRedeliver(s, e)) && e.id == id
  }

  /** No outcome or redelivery of `id` happens along the run. */
  predicate NoOutcome(s: World, es: seq<Event>, id: RowId)
    decreases |es|
  {
    es == [] || (!TouchesOutcome(s, es[0], id) && NoOutcome(Step(s, es[0]), es[1..], id))
  }

  /** Since a claim at `at`, row `id` is invisible to any statement that starts within the window. */
  ghost predicate Hidden(s: World, id: RowId, at: int) {
    id in s.usedRows && (id in s.rows && s.rows[id].status == Pending ==> s.rows[id].scheduledAt >= at + WINDOW)
  }

  lemma HiddenStep(s: World, e: Event, id: RowId, at: int)
    requires Sound(s) && Hidden(s, id, at) && !TouchesOutcome(s, e, id)
    ensures Hidden(Step(s, e), id, at)
    ensures ClaimsRow(s, e, id) ==> s.open[e.txn].start >= at + WINDOW
  {
    RowsComeAndGo(s, e, id);
    if id in s.rows && id in Step(s, e).rows {
      RowStep(s, e, id);
    }
  }

  lemma {:induction false} HiddenRun(s: World, es: seq<Event>, id: RowId, at: int)
    requires Sound(s) && Hidden(s, id, at) && NoOutcome(s, es, id)
    ensures Sound(Run(s, es)) && Hidden(Run(s, es), id, at)
    decreases |es|
  {
    if es == [] {
    } else {
      StepSound(s, es[0]);
      HiddenStep(s, es[0], id, at);
      HiddenRun(Step(s, es[0]), es[1..], id, at);
    }
  }

  /**
   Two claims that return the same row started at least 60 seconds apart, unless an outcome was
   recorded or a redelivery asked for in between.
   */
  lemma ClaimsKeepTheirDistance(before: seq<Event>, t: nat, between: seq<Event>, u: nat, id: RowId)
    requires ClaimsRow(Run(START, before), Commit(t), id)
    requires NoOutcome(Step(Run(START, before), Commit(t)), between, id)
    requires ClaimsRow(Run(Step(Run(START, before), Commit(t)), between), Commit(u), id)
    ensures Run(Step(Run(START, before), Commit(t)), between).open[u].start >= Run(START, before).open[t].start + WINDOW
  {
    var s := Run(START, before);
    RunSound(START, before);
    StepSound(s, Commit(t));
    var s1 := Step(s, Commit(t));
    var at := s.open[t].start;
    assert Hidden(s1, id, at);
    HiddenRun(s1, between, id, at);
    HiddenStep(Run(s1, between), Commit(u), id, at) by {
      assert !TouchesOutcome(Run(s1, between), Commit(u), id);
    }
  }

  /** ---- What the final states say about the past ---- */

  /** `claims` and `sends` bound what the state shows for `id`. */
  ghost predicate Accounted(s: World, id: RowId, claims: nat, sends: nat) {
    && (id !in s.usedRows ==> claims == 0)
    && (id in s.rows ==> s.rows[id].attempts <= claims && s.rows[id].maxAttempts > 0
                         && (s.rows[id].status == DeadLetter ==> claims >= s.rows[id].maxAttempts)
                         && (s.rows[id].status == Delivered ==> sends >= 1))
    && (forall t :: HasTicket(s, t, id) ==>
          var k := s.tickets[(t, id)];
          k.record.attempts <= claims && (k.sent ==> sends >= 1)
          && (id in s.rows ==> k.record.maxAttempts == s.rows[id].maxAttempts))
  }

  lemma TicketStep(s: World, e: Event, t: nat, id: RowId)
    requires Sound(s) && HasTicket(Step(s, e), t, id)
    ensures ClaimsRow(s, e, id) && e.txn == t ==>
      Step(s, e).tickets[(t, id)] == Ticket(Claimed(s.rows[id], s.open[t].start), false)
    ensures !(ClaimsRow(s, e, id) && e.txn == t) ==>
      (HasTicket(s, t, id)
       && Step(s, e).tickets[(t, id)].record == s.tickets[(t, id)].record
       && Step(s, e).tickets[(t, id)].sent == (s.tickets[(t, id)].sent || (SendsRow(s, e, id) && e.txn == t)))
  {
  }

  lemma AccountedStep(s: World, e: Event, id: RowId, claims: nat, sends: nat)
    requires Sound(s) && Accounted(s, id, claims, sends)
    ensures Accounted(Step(s, e), id, claims + (if ClaimsRow(s, e, id) then 1 else 0),
                      sends + (if SendsRow(s, e, id) then 1 else 0))
  {
    var s' := Step(s, e);
    RowsComeAndGo(s, e, id);
    if id in s.rows && id in s'.rows {
      RowStep(s, e, id);
    }
    forall t | HasTicket(s', t, id)
      ensures var k := s'.tickets[(t, id)];
              k.record.attempts <= claims + (if ClaimsRow(s, e, id) then 1 else 0)
              && (k.sent ==> sends + (if SendsRow(s, e, id) then 1 else 0) >= 1)
              && (id in s'.rows ==> k.record.maxAttempts == s'.rows[id].maxAttempts)
    {
      TicketStep(s, e, t, id);
    }
  }

  lemma {:induction false} AccountedRun(s: World, es: seq<Event>, id: RowId, claims: nat, sends: nat)
    requires Sound(s) && Accounted(s, id, claims, sends)
    ensures Accounted(Run(s, es), id, claims + ClaimCount(s, es, id), sends + SendCount(s, es, id))
    decreases |es|
  {
    if es == [] {
    } else {
      StepSound(s, es[0]);
      AccountedStep(s, es[0], id, claims, sends);
      AccountedRun(Step(s, es[0]), es[1..], id,
                   claims + (if ClaimsRow(s, es[0], id) then 1 else 0),
                   sends + (if SendsRow(s, es[0], id) then 1 else 0));
    }
  }

  /**
   In every run, crashing and late dispatchers included: a dead letter has been claimed at least
   max_attempts times, and a delivered row has been sent successfully at least once.
   */
  lemma FinalStatesAreEarned(es: seq<Event>, id: RowId)
    requires id in Run(START, es).rows
    ensures var row := Run(START, es).rows[id];
            && (row.status == DeadLetter ==> ClaimCount(START, es, id) >= row.maxAttempts >= 1)
            && (row.status == Delivered ==> SendCount(START, es, id) >= 1)
            && row.attempts <= ClaimCount(START, es, id)
  {
    AccountedRun(START, es, id, 0, 0);
  }
}
