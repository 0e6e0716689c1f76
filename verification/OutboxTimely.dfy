/** Outbox runs in which every claim's outcome is recorded inside the window. */
module OutboxTimely {
  import opened Prelude
  import opened Backoff
  import opened OutboxStore
  import opened OutboxRuns

  /** Whoever holds a claim of `id` still holds it inside the window the claim gave it. */
  predicate InsideWindow(s: World, id: RowId) {
    forall k :: k in s.tickets && k.1 == id ==> s.now < s.tickets[k].record.scheduledAt
  }

  predicate KeepsTickets(s: World, e: Event, id: RowId) {
    e.Drop? && e.id == id ==> !HasTicket(s, e.txn, id)
  }

  /** No claim of `id` is dropped, and each has its outcome recorded before its window closes. */
  predicate PunctualRun(s: World, es: seq<Event>, id: RowId)
    decreases |es|
  {
    InsideWindow(s, id) && (es == [] || (KeepsTickets(s, es[0], id) && PunctualRun(Step(s, es[0]), es[1..], id)))
  }

  /** While a claim awaits its outcome it is the only one, and its row is hidden until the window closes. */
  ghost predicate Shielded(s: World, id: RowId) {
    && (forall t, u :: HasTicket(s, t, id) && HasTicket(s, u, id) ==> t == u)
    && (forall t :: HasTicket(s, t, id) && id in s.rows ==>
          && s.rows[id].status == Pending
          && s.rows[id].scheduledAt == s.tickets[(t, id)].record.scheduledAt)
  }

  /** So no row is claimed while an earlier claim of it awaits its outcome. */
  lemma ShieldedIsTimely(s: World, e: Event, id: RowId)
    requires Sound(s) && Shielded(s, id) && InsideWindow(s, id) && KeepsTickets(s, e, id)
    ensures TimelyEvent(s, e, id)
  {
    if ClaimsRow(s, e, id) {
      assert Due(s.rows[id], s.open[e.txn].start) && s.open[e.txn].start <= s.now;
      forall k | k in s.tickets
        ensures k.1 != id
      {
        assert k.1 == id ==> HasTicket(s, k.0, id);
      }
    }
  }

  lemma ShieldedStep(s: World, e: Event, id: RowId)
    requires Sound(s) && Shielded(s, id) && TimelyEvent(s, e, id)
    ensures Shielded(Step(s, e), id)
  {
    if ClaimsRow(s, e, id) {
      RowStep(s, e, id);
      OnlyTheNewTicket(s, e, id);
    } else if CanRecord(s, e) && e.id == id {
      RecordSpendsTicket(s, e, id);
    } else if CanRedeliver(s, e) && e.id == id {
      assert forall t :: HasTicket(Step(s, e), t, id) ==> HasTicket(s, t, id);
    } else {
      SameTickets(s, e, id);
      RowsComeAndGo(s, e, id);
      if id in s.rows && id in Step(s, e).rows {
        RowStep(s, e, id);
      }
    }
  }

  lemma RecordSpendsTicket(s: World, e: Event, id: RowId)
    requires Shielded(s, id) && CanRecord(s, e) && e.id == id
    ensures forall t :: !HasTicket(Step(s, e), t, id)
  {
    var held := e.txn;
    assert Step(s, e).tickets == s.tickets - {(held, id)};
    forall t
      ensures !HasTicket(Step(s, e), t, id)
    {
      assert HasTicket(s, held, id);
      assert HasTicket(s, t, id) ==> t == held;
    }
  }

  /** Outcomes inside the window keep claims of one row apart. */
  lemma {:induction false} PunctualIsTimely(s: World, es: seq<Event>, id: RowId)
    requires Sound(s) && Shielded(s, id) && PunctualRun(s, es, id)
    ensures TimelyRun(s, es, id) && Sound(Run(s, es)) && Shielded(Run(s, es), id) && InsideWindow(Run(s, es), id)
    decreases |es|
  {
    if es == [] {
    } else {
      ShieldedIsTimely(s, es[0], id);
      StepSound(s, es[0]);
      ShieldedStep(s, es[0], id);
      PunctualIsTimely(Step(s, es[0]), es[1..], id);
    }
  }

  /** No ticket is dropped, and no row is claimed while an earlier claim of it awaits its outcome. */
  predicate TimelyEvent(s: World, e: Event, id: RowId) {
    KeepsTickets(s, e, id) && (ClaimsRow(s, e, id) ==> forall k :: k in s.tickets ==> k.1 != id)
  }

  predicate TimelyRun(s: World, es: seq<Event>, id: RowId)
    decreases |es|
  {
    es == [] || (TimelyEvent(s, es[0], id) && TimelyRun(Step(s, es[0]), es[1..], id))
  }

  /** The first recorded failure since the row was enqueued or last redelivered. */
  function Noted(s: World, e: Event, id: RowId, first: Option<int>): Option<int> {
    if CanRedeliver(s, e) && e.id == id then None
    else if first.None? && CanRecord(s, e) && e.RecordFailure? && e.id == id then Some(s.now)
    else first
  }

  function FirstFailure(s: World, es: seq<Event>, id: RowId, first: Option<int>): Option<int>
    decreases |es|
  {
    if es == [] then first else FirstFailure(Step(s, es[0]), es[1..], id, Noted(s, es[0], id, first))
  }

  predicate Waits(row: Row, first: Option<int>) {
    row.attempts < row.maxAttempts
    && match first
       case None => row.attempts == 0
       case Some(at) => row.attempts >= 1 && row.scheduledAt >= at + TotalDelay(row.attempts)
  }

  predicate InHand(row: Row, record: Row, now: int, first: Option<int>) {
    && row.status == Pending && 1 <= row.attempts <= row.maxAttempts
    && record.attempts == row.attempts && record.maxAttempts == row.maxAttempts
    && match first
       case None => row.attempts == 1
       case Some(at) => row.attempts >= 2 && now >= at + TotalDelay(row.attempts - 1)
  }

  ghost predicate Paced(s: World, id: RowId, first: Option<int>) {
    && (id !in s.usedRows ==> first.None?)
    && (forall t, u :: HasTicket(s, t, id) && HasTicket(s, u, id) ==> t == u)
    && (forall t :: HasTicket(s, t, id) && id in s.rows ==>
          InHand(s.rows[id], s.tickets[(t, id)].record, s.now, first))
    && (forall t :: HasTicket(s, t, id) ==> id in s.usedRows)
    && (id in s.rows && s.rows[id].status == Pending ==> (exists t :: HasTicket(s, t, id)) || Waits(s.rows[id], first))
    && (id in s.rows ==> 0 <= s.rows[id].attempts <= s.rows[id].maxAttempts && s.rows[id].maxAttempts > 0)
    && (id in s.rows && s.rows[id].status == DeadLetter ==> s.rows[id].attempts == s.rows[id].maxAttempts)
  }

  /** Row `id` before and after one of its claims, the only ticket on it being the new one. */
  lemma ClaimPaces(s: World, s': World, e: Event, id: RowId, first: Option<int>)
    requires Paced(s, id, first) && id in s.rows && s.rows[id].status == Pending && id in s.usedRows
    requires !exists t :: HasTicket(s, t, id)
    requires id in s'.rows && id in s'.usedRows
    requires exists start :: s'.rows[id] == Claimed(s.rows[id], start) && s'.now >= start >= s.rows[id].scheduledAt
    requires e.Commit? && HasTicket(s', e.txn, id) && s'.tickets[(e.txn, id)].record == s'.rows[id]
    requires forall t :: HasTicket(s', t, id) ==> t == e.txn
    ensures Paced(s', id, first) && Waits(s.rows[id], first)
  {
  }

  lemma PacedClaim(s: World, e: Event, id: RowId, first: Option<int>)
    requires Sound(s) && Paced(s, id, first) && TimelyEvent(s, e, id) && ClaimsRow(s, e, id)
    ensures Paced(Step(s, e), id, first)
    ensures Waits(s.rows[id], first)
  {
    var s' := Step(s, e);
    RowStep(s, e, id);
    OnlyTheNewTicket(s, e, id);
    assert Due(s.rows[id], s.open[e.txn].start);
    ClaimPaces(s, s', e, id, first);
  }

  lemma OnlyTheNewTicket(s: World, e: Event, id: RowId)
    requires Sound(s) && TimelyEvent(s, e, id) && ClaimsRow(s, e, id)
    ensures var s' := Step(s, e);
            && HasTicket(s', e.txn, id) && s'.tickets[(e.txn, id)].record == Claimed(s.rows[id], s.open[e.txn].start)
            && (forall t :: HasTicket(s', t, id) ==> t == e.txn)
  {
    var s' := Step(s, e);
    assert (e.txn, id) in Tickets(s, e.txn);
    assert HasTicket(s', e.txn, id);
    TicketStep(s, e, e.txn, id);
    forall t | HasTicket(s', t, id)
      ensures t == e.txn
    {
      if t != e.txn { TicketStep(s, e, t, id); }
    }
  }

  lemma PacedRecord(s: World, e: Event, id: RowId, first: Option<int>)
    requires Sound(s) && Paced(s, id, first) && CanRecord(s, e) && e.id == id
    ensures Paced(Step(s, e), id, Noted(s, e, id, first))
  {
    var s' := Step(s, e);
    assert !HasTicket(s', e.txn, id) && forall t :: HasTicket(s', t, id) ==> HasTicket(s, t, id);
    if id in s.rows {
      RowStep(s, e, id);
      var a := s.tickets[(e.txn, id)].record.attempts;
      assert TotalDelay(a) == TotalDelay(a - 1) + Delay(a);
    }
  }

  lemma PacedElsewhere(s: World, e: Event, id: RowId, first: Option<int>)
    requires Sound(s) && Paced(s, id, first) && TimelyEvent(s, e, id)
    requires !ClaimsRow(s, e, id) && !TouchesOutcome(s, e, id)
    ensures Paced(Step(s, e), id, first)
  {
    var s' := Step(s, e);
    RowsComeAndGo(s, e, id);
    if id in s.rows && id in s'.rows {
      RowStep(s, e, id);
    }
    SameTickets(s, e, id);
  }

  lemma SameTickets(s: World, e: Event, id: RowId)
    requires Sound(s) && TimelyEvent(s, e, id) && !ClaimsRow(s, e, id) && !TouchesOutcome(s, e, id)
    ensures forall t :: HasTicket(Step(s, e), t, id) <==> HasTicket(s, t, id)
    ensures forall t :: HasTicket(s, t, id) ==> Step(s, e).tickets[(t, id)].record == s.tickets[(t, id)].record
    ensures s.now <= Step(s, e).now && s.usedRows <= Step(s, e).usedRows
  {
    forall t
      ensures HasTicket(Step(s, e), t, id) <==> HasTicket(s, t, id)
      ensures HasTicket(s, t, id) ==> Step(s, e).tickets[(t, id)].record == s.tickets[(t, id)].record
    {
      if HasTicket(Step(s, e), t, id) {
        TicketStep(s, e, t, id);
      }
    }
  }

  lemma PacedRedeliver(s: World, e: Event, id: RowId, first: Option<int>)
    requires Sound(s) && Paced(s, id, first) && CanRedeliver(s, e) && e.id == id
    ensures Paced(Step(s, e), id, None)
  {
    var s' := Step(s, e);
    RowStep(s, e, id);
    assert forall t :: HasTicket(s', t, id) ==> HasTicket(s, t, id);
  }

  lemma PacedStep(s: World, e: Event, id: RowId, first: Option<int>)
    requires Sound(s) && Paced(s, id, first) && TimelyEvent(s, e, id)
    ensures Paced(Step(s, e), id, Noted(s, e, id, first))
  {
    if ClaimsRow(s, e, id) {
      PacedClaim(s, e, id, first);
    } else if CanRecord(s, e) && e.id == id {
      PacedRecord(s, e, id, first);
    } else if CanRedeliver(s, e) && e.id == id {
      PacedRedeliver(s, e, id, first);
    } else {
      PacedElsewhere(s, e, id, first);
    }
  }

  lemma {:induction false} PacedRun(s: World, es: seq<Event>, id: RowId, first: Option<int>)
    requires Sound(s) && Paced(s, id, first) && TimelyRun(s, es, id)
    ensures Sound(Run(s, es)) && Paced(Run(s, es), id, FirstFailure(s, es, id, first))
    decreases |es|
  {
    if es == [] {
    } else {
      StepSound(s, es[0]);
      PacedStep(s, es[0], id, first);
      PacedRun(Step(s, es[0]), es[1..], id, Noted(s, es[0], id, first));
    }
  }

  /**
   When every outcome lands inside the window a row never has more attempts than its maximum, and a
   dead letter has exactly that many.
   */
  lemma TimelyAttempts(es: seq<Event>, id: RowId)
    requires PunctualRun(START, es, id) && id in Run(START, es).rows
    ensures var row := Run(START, es).rows[id];
            0 <= row.attempts <= row.maxAttempts && (row.status == DeadLetter ==> row.attempts == row.maxAttempts)
  {
    PunctualIsTimely(START, es, id);
    PacedRun(START, es, id, None);
  }

  /**
   Then claim m of a row starts at least the delays of attempts 1 to m - 1 after its first failure,
   and m never passes the maximum.
   */
  lemma ClaimWaitsOutEveryBackoff(es: seq<Event>, t: nat, id: RowId)
    requires PunctualRun(START, es, id) && ClaimsRow(Run(START, es), Commit(t), id)
    ensures var s := Run(START, es);
            var m := s.rows[id].attempts + 1;
            var first := FirstFailure(START, es, id, None);
            var start := s.open[t].start;
            && 1 <= m <= s.rows[id].maxAttempts
            && (m == 1 <==> first.None?)
            && (m > 1 ==> start >= first.value + TotalDelay(m - 1))
            && (1 < m <= 9 ==> start >= first.value + (Pow2(m) - 2) * SECOND)
            && (m > 9 ==> start >= first.value + (510 + 256 * (m - 9)) * SECOND)
  {
    var s := Run(START, es);
    PunctualIsTimely(START, es, id);
    ShieldedIsTimely(s, Commit(t), id);
    PacedRun(START, es, id, None);
    ClaimStartsLate(s, t, id, FirstFailure(START, es, id, None));
    TotalDelayClosedForm(s.rows[id].attempts + 1);
  }

  lemma ClaimStartsLate(s: World, t: nat, id: RowId, first: Option<int>)
    requires Sound(s) && Paced(s, id, first) && TimelyEvent(s, Commit(t), id) && ClaimsRow(s, Commit(t), id)
    ensures Waits(s.rows[id], first) && s.rows[id].scheduledAt <= s.open[t].start && s.rows[id].attempts >= 0
  {
    PacedClaim(s, Commit(t), id, first);
    assert Due(s.rows[id], s.open[t].start);
  }

  /** ---- Without timeliness nothing bounds the attempts ---- */

  /** Still pending although every attempt has been used. */
  predicate UsedUp(s: World, id: RowId) {
    id in s.rows && s.rows[id].status == Pending && s.rows[id].attempts >= s.rows[id].maxAttempts
  }

  /** A failure recorded for an earlier attempt on a row that has since used its last. */
  predicate StaleFailure(s: World, e: Event, id: RowId) {
    && CanRecord(s, e) && e.RecordFailure? && e.id == id && id in s.rows
    && var record := s.tickets[(e.txn, id)].record;
    record.attempts < record.maxAttempts && s.rows[id].attempts >= s.rows[id].maxAttempts
  }

  predicate PositiveMaximum(s: World, id: RowId) {
    id in s.rows ==> s.rows[id].maxAttempts > 0
  }

  lemma {:induction false} RunPositive(s: World, es: seq<Event>, id: RowId)
    requires Sound(s) && PositiveMaximum(s, id)
    ensures Sound(Run(s, es)) && PositiveMaximum(Run(s, es), id)
    decreases |es|
  {
    if es == [] {
    } else {
      StepSound(s, es[0]);
      StepPositive(s, es[0], id);
      RunPositive(Step(s, es[0]), es[1..], id);
    }
  }

  lemma StepPositive(s: World, e: Event, id: RowId)
    requires Sound(s) && PositiveMaximum(s, id)
    ensures PositiveMaximum(Step(s, e), id)
  {
    if id in s.rows && id in Step(s, e).rows {
      RowStep(s, e, id);
    }
    RowsComeAndGo(s, e, id);
  }

  /** In any run a row gets there by the claim for its last attempt or by a stale failure, and by nothing else. */
  lemma UsedUpExactly(es: seq<Event>, e: Event, id: RowId)
    requires !UsedUp(Run(START, es), id)
    ensures var s := Run(START, es);
            UsedUp(Step(s, e), id) <==>
            (ClaimsRow(s, e, id) && s.rows[id].attempts + 1 >= s.rows[id].maxAttempts) || StaleFailure(s, e, id)
  {
    RunPositive(START, es, id);
    StepUsesUp(Run(START, es), e, id);
  }

  lemma StepUsesUp(s: World, e: Event, id: RowId)
    requires Sound(s) && PositiveMaximum(s, id) && !UsedUp(s, id)
    ensures UsedUp(Step(s, e), id) <==>
      (ClaimsRow(s, e, id) && s.rows[id].attempts + 1 >= s.rows[id].maxAttempts) || StaleFailure(s, e, id)
  {
    RowsComeAndGo(s, e, id);
    if id in s.rows && id in Step(s, e).rows {
      RowStep(s, e, id);
    }
    if ClaimsRow(s, e, id) {
      assert Due(s.rows[id], s.open[e.txn].start);
    }
    if id in s.rows && (ClaimsRow(s, e, id) || (CanRecord(s, e) && e.id == id)) {
      assert id in Step(s, e).rows;
    }
  }

  /** And it passes its maximum exactly when it is claimed while it is used up. */
  lemma MaximumIsPassedExactly(es: seq<Event>, e: Event, id: RowId)
    requires var s := Run(START, es); id in s.rows && s.rows[id].attempts <= s.rows[id].maxAttempts
    ensures var s := Run(START, es);
            (id in Step(s, e).rows && Step(s, e).rows[id].attempts > Step(s, e).rows[id].maxAttempts)
            <==> (ClaimsRow(s, e, id) && UsedUp(s, id))
  {
    RunPositive(START, es, id);
    var s := Run(START, es);
    if id in Step(s, e).rows {
      RowStep(s, e, id);
    }
    if ClaimsRow(s, e, id) {
      assert Due(s.rows[id], s.open[e.txn].start) && id in Step(s, e).rows;
    }
  }

  ghost predicate CrashLooping(s: World, id: RowId, n: nat, m: nat) {
    && id in s.rows && s.rows[id].attempts == n && s.rows[id].maxAttempts == m && Due(s.rows[id], s.now)
    && s.open == map[] && forall t :: t in s.usedTxns ==> t < n
  }

  function CrashRound(n: nat, id: RowId): seq<Event> {
    [Begin(n, 50), Lock(n, id), Commit(n), Drop(n, id), Tick(WINDOW)]
  }

  lemma CrashRoundStep(s: World, id: RowId, n: nat, m: nat)
    requires CrashLooping(s, id, n, m)
    ensures CrashLooping(Run(s, CrashRound(n, id)), id, n + 1, m)
  {
    var es := CrashRound(n, id);
    var s1 := Step(s, es[0]);
    var s2 := Step(s1, es[1]);
    assert !Locked(s1, id);
    var s3 := Step(s2, es[2]);
    assert s3.rows[id] == Claimed(s.rows[id], s.now);
    var s4 := Step(s3, es[3]);
    var s5 := Step(s4, es[4]);
    assert s3.open == map[] && CrashLooping(s5, id, n + 1, m);
    FiveSteps(s, es[0], es[1], es[2], es[3], es[4]);
  }

  lemma FiveSteps(s: World, e0: Event, e1: Event, e2: Event, e3: Event, e4: Event)
    ensures Run(s, [e0, e1, e2, e3, e4]) == Step(Step(Step(Step(Step(s, e0), e1), e2), e3), e4)
  {
    var s1 := Step(s, e0);
    var s2 := Step(s1, e1);
    var s3 := Step(s2, e2);
    var s4 := Step(s3, e3);
    assert Run(s4, [e4]) == Step(s4, e4);
    assert [e3, e4][1..] == [e4] && Run(s3, [e3, e4]) == Run(s4, [e4]);
    assert [e2, e3, e4][1..] == [e3, e4] && Run(s2, [e2, e3, e4]) == Run(s3, [e3, e4]);
    assert [e1, e2, e3, e4][1..] == [e2, e3, e4] && Run(s1, [e1, e2, e3, e4]) == Run(s2, [e2, e3, e4]);
    assert [e0, e1, e2, e3, e4][1..] == [e1, e2, e3, e4];
  }

  lemma {:induction false} RunAppend(s: World, es: seq<Event>, more: seq<Event>)
    ensures Run(s, es + more) == Run(Run(s, es), more)
    decreases |es|
  {
    if es == [] {
      assert es + more == more;
    } else {
      assert (es + more)[1..] == es[1..] + more;
      RunAppend(Step(s, es[0]), es[1..], more);
    }
  }

  lemma {:induction false} CrashLoop(n: nat, m: nat) returns (es: seq<Event>)
    requires m > 0
    ensures CrashLooping(Run(START, es), 0, n, m)
  {
    if n == 0 {
      es := [Enqueue(0, m)];
      assert es[1..] == [];
      assert Run(Step(START, es[0]), []) == Step(START, es[0]);
    } else {
      var before := CrashLoop(n - 1, m);
      CrashRoundStep(Run(START, before), 0, n - 1, m);
      RunAppend(START, before, CrashRound(n - 1, 0));
      es := before + CrashRound(n - 1, 0);
    }
  }

  /**
   A dispatcher that crashes after each claim leaves a row pending with any number of attempts,
   whatever its maximum.
   */
  lemma CrashesExceedAnyMaximum(n: nat, m: nat)
    requires m > 0
    ensures exists es :: 0 in Run(START, es).rows && Run(START, es).rows[0].status == Pending
                         && Run(START, es).rows[0].attempts == n && Run(START, es).rows[0].maxAttempts == m
  {
    var es := CrashLoop(n, m);
    assert Run(START, es).rows[0].status == Pending;
  }
}
