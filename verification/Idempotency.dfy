/** Idempotency keys: the claim, execute, store-or-delete pattern of the create handlers. */
module Idempotency {
  import opened Prelude

  datatype Response = Response(status: nat, body: string)

  datatype Cell = Empty | Pending | Ready(response: Response)

  /** The status is the handler's: 201 for the creates, 202 for an export. */
  datatype ServiceOutcome = Done(response: Response) | Refused

  /** What a caller gets back. */
  datatype Answer = Success(response: Response) | Replay(response: Response) | Conflict | ServiceError

  /** What one Redis key holds and when it expires. */
  datatype Slot = Slot(cell: Cell, deadline: int)

  /** The keys in Redis, and the handler over them. */
  class IdempotencyStore {
    var slots: map<string, Slot>

    constructor ()
      ensures slots == map[]
    {
      slots := map[];
    }

    /** idempotency_state: a key past its deadline is gone. */
    function State(key: string, now: int): Cell
      reads this
    {
      if key in slots && now < slots[key].deadline then slots[key].cell else Empty
    }

    /** No key holds nothing: a key is pending or ready until it is deleted or expires. */
    predicate Valid()
      reads this
    {
      forall key :: key in slots ==> slots[key].cell != Empty
    }

    /** SET NX, then EXPIRE for the winner. */
    method Claim(key: string, ttl: nat, now: int) returns (claimed: bool)
      requires Valid()
      modifies this
      ensures Valid()
      ensures claimed <==> !(key in old(slots) && now < old(slots)[key].deadline)
      ensures slots == if claimed then old(slots)[key := Slot(Pending, now + ttl)] else old(slots)
      ensures claimed <==> old(State(key, now)) == Empty
      ensures claimed ==> forall t :: State(key, t) == if t < now + ttl then Pending else Empty
      ensures forall other, t :: other != key || !claimed ==> State(other, t) == old(State(other, t))
    {
      claimed := !(key in slots && now < slots[key].deadline);
      if claimed {
        slots := slots[key := Slot(Pending, now + ttl)];
      }
    }

    /** SETEX: the response lives for a full ttl of its own. */
    method StoreResponse(key: string, response: Response, ttl: nat, now: int)
      requires Valid()
      modifies this
      ensures Valid()
      ensures slots == old(slots)[key := Slot(Ready(response), now + ttl)]
      ensures forall t :: State(key, t) == if t < now + ttl then Ready(response) else Empty
      ensures forall other, t :: other != key ==> State(other, t) == old(State(other, t))
    {
      slots := slots[key := Slot(Ready(response), now + ttl)];
    }

    method DeleteKey(key: string)
      requires Valid()
      modifies this
      ensures Valid()
      ensures slots == old(slots) - {key}
      ensures forall t :: State(key, t) == Empty
      ensures forall other, t :: other != key ==> State(other, t) == old(State(other, t))
    {
      slots := slots - {key};
    }

    /** replay_idempotent */
    method Replay(key: string, now: int) returns (r: Option<Response>)
      ensures r == match State(key, now) case Ready(response) => Some(response) case _ => None
      ensures r.Some? <==> key in slots && now < slots[key].deadline && slots[key].cell.Ready?
      ensures r.Some? ==> slots[key].cell == Ready(r.value)
    {
      r := match State(key, now) case Ready(response) => Some(response) case _ => None;
    }

    /** Two claims of one key: the second fails while the first one's time to live lasts, and wins from then on. */
    method ClaimTwice(key: string, ttl: nat, now: int, later: int) returns (first: bool, second: bool)
      requires Valid() && now <= later
      modifies this
      ensures Valid()
      ensures first ==> (second <==> later >= now + ttl)
      ensures !first && second ==> key in old(slots) && old(slots)[key].deadline <= later
    {
      first := Claim(key, ttl, now);
      second := Claim(key, ttl, later);
    }

    /** A response stored at `now` is replayed exactly until its time to live is over; then the key is free again. */
    method StoreThenReplay(key: string, response: Response, ttl: nat, now: int, later: int)
      returns (replayed: Option<Response>, claimed: bool)
      requires Valid()
      modifies this
      ensures Valid()
      ensures later < now + ttl ==> replayed == Some(response) && !claimed
      ensures later >= now + ttl ==> replayed == None && claimed
    {
      StoreResponse(key, response, ttl, now);
      replayed := Replay(key, later);
      claimed := Claim(key, ttl, later);
    }

    /**
     The handler at one instant. `meanwhile` is what another request, the one holding the claim, stores
     before the second look, if anything. Replay, or run the service at most once and keep its answer;
     an error frees the key.
     */
    method Create(key: string, outcome: ServiceOutcome, meanwhile: Option<Response>, ttl: nat, now: int)
      returns (answer: Answer, executed: bool)
      requires Valid() && ttl > 0
      modifies this
      ensures Valid()
      ensures executed <==> old(State(key, now)).Empty?
      ensures forall other, at :: other != key ==> State(other, at) == old(State(other, at))
      ensures old(State(key, now)).Ready? ==>
        answer == Answer.Replay(old(State(key, now)).response) && slots == old(slots)
      ensures old(State(key, now)).Pending? && meanwhile.None? ==> answer == Conflict && slots == old(slots)
      ensures old(State(key, now)).Pending? && meanwhile.Some? ==>
        answer == Answer.Replay(meanwhile.value) && slots == old(slots)[key := Slot(Ready(meanwhile.value), now + ttl)]
      ensures executed && outcome.Done? ==>
        answer == Success(outcome.response) && slots == old(slots)[key := Slot(Ready(outcome.response), now + ttl)]
      ensures executed && outcome.Refused? ==> answer == ServiceError && slots == old(slots) - {key}
      ensures meanwhile.None? ==>
        Settled(old(State(key, now)), outcome)
        == After(State(key, now), Finished(answer), if executed && outcome.Done? then [outcome.response] else [])
    {
      var replay := Replay(key, now);
      if replay.Some? {
        return Answer.Replay(replay.value), false;
      }
      var claimed := Claim(key, ttl, now);
      if !claimed {
        if meanwhile.Some? {
          StoreResponse(key, meanwhile.value, ttl, now);
        }
        replay := Replay(key, now);
        return if replay.Some? then Answer.Replay(replay.value) else Conflict, false;
      }
      executed := true;
      match outcome
      case Done(response) =>
        StoreResponse(key, response, ttl, now);
        answer := Success(response);
      case Refused =>
        DeleteKey(key);
        answer := ServiceError;
    }
  }

  /** ---- Any number of interleaved requests with one key ---- */

  datatype Phase =
    | Arrived
    | Unanswered
    | Beaten
    | Working
    | Made(response: Response)
    | Failing
    | Finished(answer: Answer)

  /** `made` lists the responses of all creates that took effect. */
  datatype World = World(cell: Cell, requests: map<nat, Phase>, made: seq<Response>)

  const START: World := World(Empty, map[], [])

  /** Abandon is a handler returning early with an error after its claim, Crash a process that stops. */
  datatype Event =
    | Arrive(request: nat)
    | FirstReplay(request: nat)
    | TryClaim(request: nat)
    | SecondReplay(request: nat)
    | Execute(request: nat, outcome: ServiceOutcome)
    | Save(request: nat)
    | Release(request: nat)
    | Abandon(request: nat)
    | Crash(request: nat)
    | Expire

  function Replayed(cell: Cell, otherwise: Phase): Phase {
    match cell
    case Ready(response) => Finished(Replay(response))
    case _ => otherwise
  }

  predicate At(s: World, r: nat, p: Phase) {
    r in s.requests && s.requests[r] == p
  }

  function Step(s: World, e: Event): World {
    match e
    case Arrive(r) => if r in s.requests then s else s.(requests := s.requests[r := Arrived])
    case FirstReplay(r) =>
      if !At(s, r, Arrived) then s else s.(requests := s.requests[r := Replayed(s.cell, Unanswered)])
    case TryClaim(r) =>
      if !At(s, r, Unanswered) then s
      else if s.cell == Empty then s.(cell := Pending, requests := s.requests[r := Working])
      else s.(requests := s.requests[r := Beaten])
    case SecondReplay(r) =>
      if !At(s, r, Beaten) then s else s.(requests := s.requests[r := Replayed(s.cell, Finished(Conflict))])
    case Execute(r, outcome) =>
      if !At(s, r, Working) then s
      else (match outcome
            case Done(response) =>
              s.(made := s.made + [response], requests := s.requests[r := Made(response)])
            case Refused => s.(requests := s.requests[r := Failing]))
    case Save(r) =>
      if r !in s.requests || !s.requests[r].Made? then s
      else
        var response := s.requests[r].response;
        s.(cell := Ready(response), requests := s.requests[r := Finished(Success(response))])
    case Release(r) =>
      if !At(s, r, Failing) then s else s.(cell := Empty, requests := s.requests[r := Finished(ServiceError)])
    case Abandon(r) => if !At(s, r, Working) then s else s.(requests := s.requests[r := Finished(ServiceError)])
    case Crash(r) => s.(requests := s.requests - {r})
    case Expire => s.(cell := Empty)
  }

  function Run(s: World, es: seq<Event>): World
    decreases |es|
  {
    if es == [] then s else Run(Step(s, es[0]), es[1..])
  }

  /** One request from arrival to answer; events that do not apply change nothing. */
  function Alone(r: nat, outcome: ServiceOutcome): seq<Event> {
    [Arrive(r), FirstReplay(r), TryClaim(r), SecondReplay(r), Execute(r, outcome), Save(r), Release(r)]
  }

  function After(cell: Cell, p: Phase, made: seq<Response>): World {
    World(cell, map[0 := p], made)
  }

  /** What is left once a lone request has its answer. */
  function Settled(cell: Cell, outcome: ServiceOutcome): World {
    match cell
    case Ready(response) => After(cell, Finished(Replay(response)), [])
    case Pending => After(cell, Finished(Conflict), [])
    case Empty =>
      match outcome
      case Done(response) =>
        After(Ready(response), Finished(Success(response)), [response])
      case Refused => After(Empty, Finished(ServiceError), [])
  }

  /** Running the handler by itself comes to what the interleaved protocol does with one request. */
  lemma AloneAnswers(cell: Cell, outcome: ServiceOutcome)
    ensures Run(World(cell, map[], []), Alone(0, outcome)) == Settled(cell, outcome)
  {
    AloneStarts(cell, [SecondReplay(0), Execute(0, outcome), Save(0), Release(0)]);
    AloneEnds(Claimed(cell), outcome);
    ClaimedSettles(cell, outcome);
    assert Alone(0, outcome)
        == [Arrive(0), FirstReplay(0), TryClaim(0)] + [SecondReplay(0), Execute(0, outcome), Save(0), Release(0)];
  }

  function LastSteps(s: World, outcome: ServiceOutcome): World {
    if At(s, 0, Beaten) then Step(s, SecondReplay(0))
    else if At(s, 0, Working) then Step(Step(Step(s, Execute(0, outcome)), Save(0)), Release(0))
    else s
  }

  lemma ClaimedSettles(cell: Cell, outcome: ServiceOutcome)
    ensures LastSteps(Claimed(cell), outcome) == Settled(cell, outcome)
  {
    var s := Claimed(cell);
    match cell
    case Ready(_) =>
    case Pending => assert Step(s, SecondReplay(0)) == Settled(cell, outcome);
    case Empty =>
      match outcome
      case Done(response) =>
        assert Step(s, Execute(0, outcome)) == After(Pending, Made(response), [response]);
      case Refused =>
        assert Step(s, Execute(0, outcome)) == After(Pending, Failing, []);
  }

  /** The world once a single request has looked and tried to claim. */
  function Claimed(cell: Cell): World {
    match cell
    case Ready(response) => After(cell, Finished(Replay(response)), [])
    case Pending => After(cell, Beaten, [])
    case Empty => After(Pending, Working, [])
  }

  lemma AloneStarts(cell: Cell, tail: seq<Event>)
    ensures Run(World(cell, map[], []), [Arrive(0), FirstReplay(0), TryClaim(0)] + tail) == Run(Claimed(cell), tail)
  {
    var s0 := World(cell, map[], []);
    var s1 := After(cell, Arrived, []);
    var s2 := After(cell, Replayed(cell, Unanswered), []);
    assert Step(s0, Arrive(0)) == s1 && Step(s1, FirstReplay(0)) == s2 && Step(s2, TryClaim(0)) == Claimed(cell);
    RunFirst(s2, TryClaim(0), tail);
    RunFirst(s1, FirstReplay(0), [TryClaim(0)] + tail);
    RunFirst(s0, Arrive(0), [FirstReplay(0)] + ([TryClaim(0)] + tail));
    assert [Arrive(0), FirstReplay(0), TryClaim(0)] + tail == [Arrive(0)] + ([FirstReplay(0)] + ([TryClaim(0)] + tail));
  }

  lemma AloneEnds(s: World, outcome: ServiceOutcome)
    requires At(s, 0, Beaten) || At(s, 0, Working) || (0 in s.requests && s.requests[0].Finished?)
    ensures Run(s, [SecondReplay(0), Execute(0, outcome), Save(0), Release(0)]) == LastSteps(s, outcome)
  {
    var s1 := Step(s, SecondReplay(0));
    var s2 := Step(s1, Execute(0, outcome));
    RunFirst(Step(s2, Save(0)), Release(0), []);
    RunFirst(s2, Save(0), [Release(0)]);
    RunFirst(s1, Execute(0, outcome), [Save(0), Release(0)]);
    RunFirst(s, SecondReplay(0), [Execute(0, outcome), Save(0), Release(0)]);
    assert [SecondReplay(0)] + [Execute(0, outcome), Save(0), Release(0)]
        == [SecondReplay(0), Execute(0, outcome), Save(0), Release(0)];
  }

  function Expiries(es: seq<Event>): nat {
    if es == [] then 0 else (if es[0].Expire? then 1 else 0) + Expiries(es[1..])
  }

  /** Requests that may still create something or free the key. */
  function Owners(s: World): set<nat> {
    set r | r in s.requests && (s.requests[r] == Working || s.requests[r] == Failing)
  }

  function Exposure(s: World): nat {
    |s.made| + |Owners(s)| + (if s.cell == Empty then 1 else 0)
  }

  lemma OwnerJoins(s: World, s': World, r: nat)
    requires r !in Owners(s) && s'.requests == s.requests[r := Working]
    ensures |Owners(s')| == |Owners(s)| + 1
  {
    assert Owners(s') == Owners(s) + {r};
  }

  ghost predicate OthersSame(s: World, s': World, r: nat) {
    forall o :: o != r ==>
      (o in s'.requests <==> o in s.requests) && (o in s.requests ==> s'.requests[o] == s.requests[o])
  }

  lemma OwnerLeaves(s: World, s': World, r: nat)
    requires r in Owners(s)
    requires OthersSame(s, s', r)
    requires r in s'.requests ==> s'.requests[r] != Working && s'.requests[r] != Failing
    ensures |Owners(s')| == |Owners(s)| - 1
  {
    assert Owners(s') == Owners(s) - {r};
  }

  lemma OwnersSame(s: World, s': World, r: nat)
    requires OthersSame(s, s', r)
    requires r in Owners(s) <==> r in Owners(s')
    ensures Owners(s') == Owners(s)
  {
  }

  lemma ExposureStep(s: World, e: Event)
    ensures Exposure(Step(s, e)) <= Exposure(s) + (if e.Expire? then 1 else 0)
  {
    var s' := Step(s, e);
    if e.TryClaim? && At(s, e.request, Unanswered) && s.cell == Empty {
      OwnerJoins(s, s', e.request);
    } else if e.Expire? {
      OwnersSame(s, s', 0);
    } else if e.request in Owners(s) && !(e.request in Owners(s')) {
      OwnerLeaves(s, s', e.request);
    } else {
      OwnersSame(s, s', e.request);
    }
  }

  lemma {:induction false} ExposureRun(s: World, es: seq<Event>)
    ensures Exposure(Run(s, es)) <= Exposure(s) + Expiries(es)
    decreases |es|
  {
    if es == [] {
    } else {
      ExposureStep(s, es[0]);
      ExposureRun(Step(s, es[0]), es[1..]);
    }
  }

  /**
   Whatever the interleaving, crashes and early returns included, at most one create takes effect
   per lifetime of the key.
   */
  lemma AtMostOneCreatePerLifetime(es: seq<Event>)
    ensures |Run(START, es).made| <= 1 + Expiries(es)
  {
    assert Owners(START) == {};
    ExposureRun(START, es);
  }

  /** Every response anyone holds or was given is that of a create that took effect. */
  ghost predicate Honest(s: World) {
    && (s.cell.Ready? ==> s.cell.response in s.made)
    && (forall r :: r in s.requests && s.requests[r].Made? ==> s.requests[r].response in s.made)
    && (forall r :: Answered(s, r) ==> s.requests[r].answer.response in s.made)
  }

  lemma HonestStep(s: World, e: Event)
    requires Honest(s)
    ensures Honest(Step(s, e))
  {
  }

  lemma {:induction false} HonestRun(s: World, es: seq<Event>)
    requires Honest(s)
    ensures Honest(Run(s, es))
    decreases |es|
  {
    if es == [] {
    } else {
      HonestStep(s, es[0]);
      HonestRun(Step(s, es[0]), es[1..]);
    }
  }

  predicate Answered(s: World, r: nat) {
    r in s.requests && s.requests[r].Finished? && (s.requests[r].answer.Success? || s.requests[r].answer.Replay?)
  }

  /** While the key lives, every success and every replay carries one and the same response, that of the only create. */
  lemma EveryoneGetsTheSameAnswer(es: seq<Event>, r: nat)
    requires Expiries(es) == 0 && r in Run(START, es).requests && Run(START, es).requests[r].Finished?
    requires var answer := Run(START, es).requests[r].answer; answer.Success? || answer.Replay?
    ensures Run(START, es).made == [Run(START, es).requests[r].answer.response]
  {
    AtMostOneCreatePerLifetime(es);
    HonestRun(START, es);
  }

  /** The bound is exact: for every k, k expiries allow k + 1 creates. */
  lemma ExpiryAllowsAnotherCreate(k: nat)
    ensures exists es :: Expiries(es) == k && |Run(START, es).made| == k + 1
  {
    var es := LifetimesAllowThatMany(k);
  }

  lemma {:induction false} LifetimesAllowThatMany(k: nat) returns (es: seq<Event>)
    ensures Expiries(es) == k && |Run(START, es).made| == k + 1
    ensures forall r :: r in Run(START, es).requests ==> r <= k
  {
    if k == 0 {
      es := OneCreate(0);
      CreateOnce(START, 0);
    } else {
      var before := LifetimesAllowThatMany(k - 1);
      var s := Run(START, before);
      var s' := Step(s, Expire);
      CreateOnce(s', k);
      RunAppend(START, before, [Expire]);
      assert Run(s, [Expire]) == s' by { assert [Expire][1..] == []; }
      RunAppend(START, before + [Expire], OneCreate(k));
      es := before + [Expire] + OneCreate(k);
    }
  }

  function OneCreate(r: nat): seq<Event> {
    [Arrive(r), FirstReplay(r), TryClaim(r), Execute(r, Done(Response(201, "made")))]
  }

  lemma CreateOnce(s: World, r: nat)
    requires s.cell == Empty && r !in s.requests
    ensures |Run(s, OneCreate(r)).made| == |s.made| + 1 && Expiries(OneCreate(r)) == 0
    ensures Run(s, OneCreate(r)).requests.Keys == s.requests.Keys + {r}
  {
    var es := OneCreate(r);
    var s1 := Step(s, es[0]);
    var s2 := Step(s1, es[1]);
    var s3 := Step(s2, es[2]);
    assert At(s3, r, Working);
    RunFirst(s3, es[3], []);
    RunFirst(s2, es[2], [es[3]]);
    RunFirst(s1, es[1], [es[2], es[3]]);
    RunFirst(s, es[0], [es[1], es[2], es[3]]);
    assert es == [es[0], es[1], es[2], es[3]];
  }

  lemma RunFirst(s: World, e: Event, es: seq<Event>)
    ensures Run(s, [e] + es) == Run(Step(s, e), es)
    ensures Expiries([e] + es) == (if e.Expire? then 1 else 0) + Expiries(es)
  {
    assert ([e] + es)[1..] == es;
  }

  lemma {:induction false} RunAppend(s: World, es: seq<Event>, more: seq<Event>)
    ensures Run(s, es + more) == Run(Run(s, es), more)
    ensures Expiries(es + more) == Expiries(es) + Expiries(more)
    decreases |es|
  {
    if es == [] {
      assert es + more == more;
    } else {
      assert (es + more)[1..] == es[1..] + more;
      RunAppend(Step(s, es[0]), es[1..], more);
    }
  }

  /** A handler that returns early after its claim, or crashes, leaves the key pending: others get a conflict. */
  lemma AbandonedKeyStaysPending(s: World, r: nat, other: nat)
    requires s.cell == Pending && At(s, r, Working) && At(s, other, Beaten) && r != other
    ensures Step(s, Abandon(r)) == s.(requests := s.requests[r := Finished(ServiceError)])
    ensures Step(s, Crash(r)) == s.(requests := s.requests - {r})
    ensures At(Step(Step(s, Abandon(r)), SecondReplay(other)), other, Finished(Conflict))
    ensures At(Step(Step(s, Crash(r)), SecondReplay(other)), other, Finished(Conflict))
  {
  }

  /** ---- A failed create frees its key ---- */

  /** Events of the create_project handler: after its claim it stores or releases, and nobody crashes. */
  predicate Orderly(es: seq<Event>) {
    forall i :: 0 <= i < |es| ==> !es[i].Abandon? && !es[i].Crash? && !es[i].Expire?
  }

  predicate Busy(s: World, r: nat) {
    r in s.requests && (s.requests[r] == Working || s.requests[r] == Failing || s.requests[r].Made?)
  }

  ghost predicate Tidy(s: World) {
    match s.cell
    case Empty => s.made == [] && forall r :: !Busy(s, r)
    case Pending =>
      exists r :: Busy(s, r) && (forall o :: Busy(s, o) ==> o == r) && (s.requests[r].Made? <==> s.made != [])
    case Ready(_) => s.made != [] && forall r :: !Busy(s, r)
  }

  /** A step makes or keeps busy only the request it belongs to. */
  lemma OthersUntouched(s: World, e: Event, o: nat)
    requires !e.Expire? && o != e.request
    ensures Busy(Step(s, e), o) <==> Busy(s, o)
  {
  }

  /** What the one busy request can do next. */
  lemma OwnersTurn(s: World, e: Event)
    requires s.cell == Pending && !e.Abandon? && !e.Crash? && !e.Expire? && Busy(s, e.request)
    requires s.requests[e.request].Made? <==> s.made != []
    ensures var s' := Step(s, e);
            if Busy(s', e.request) then s'.cell == Pending && (s'.requests[e.request].Made? <==> s'.made != [])
            else (s'.cell.Ready? && s'.made != []) || (s'.cell == Empty && s'.made == [])
  {
  }

  lemma TidyStep(s: World, e: Event)
    requires Tidy(s) && !e.Abandon? && !e.Crash? && !e.Expire?
    ensures Tidy(Step(s, e))
  {
    var s' := Step(s, e);
    forall o | o != e.request
      ensures Busy(s', o) <==> Busy(s, o)
    {
      OthersUntouched(s, e, o);
    }
    if e.TryClaim? && At(s, e.request, Unanswered) && s.cell == Empty {
      assert Busy(s', e.request);
    } else if s.cell == Pending {
      var r :| Busy(s, r) && (forall o :: Busy(s, o) ==> o == r) && (s.requests[r].Made? <==> s.made != []);
      if e.request == r {
        OwnersTurn(s, e);
        assert s'.cell == Pending ==> Busy(s', r);
      } else {
        assert !Busy(s, e.request);
        assert s'.cell == s.cell && s'.made == s.made && s'.requests[r] == s.requests[r];
        assert Busy(s', r) && !Busy(s', e.request);
      }
    } else {
      assert !Busy(s, e.request);
      assert s' == s || !Busy(s', e.request);
    }
  }

  lemma {:induction false} TidyRun(s: World, es: seq<Event>)
    requires Tidy(s) && Orderly(es)
    ensures Tidy(Run(s, es))
    decreases |es|
  {
    if es == [] {
    } else {
      TidyStep(s, es[0]);
      TidyRun(Step(s, es[0]), es[1..]);
    }
  }

  /**
   Once every request has been answered the key is free if and only if no create took effect, so a
   client whose create failed can use its key again, and one whose create succeeded cannot.
   */
  lemma FailedKeyIsReusable(es: seq<Event>, r: nat)
    requires Orderly(es) && forall q :: q in Run(START, es).requests ==> Run(START, es).requests[q].Finished?
    requires r !in Run(START, es).requests
    ensures var s := Run(START, es);
            (s.cell == Empty <==> s.made == [])
            && (s.made == [] ==> At(Run(s, [Arrive(r), FirstReplay(r), TryClaim(r)]), r, Working))
            && (s.made != [] ==> At(Run(s, [Arrive(r), FirstReplay(r)]), r, Finished(Replay(s.made[0]))))
  {
    var s := Run(START, es);
    TidyRun(START, es);
    HonestRun(START, es);
    NoExpiries(es);
    AtMostOneCreatePerLifetime(es);
    assert forall q :: !Busy(s, q);
    NextRequest(s, r);
  }

  /** What a fresh request meets at an idle key. */
  lemma NextRequest(s: World, r: nat)
    requires r !in s.requests
    ensures s.cell == Empty ==> At(Run(s, [Arrive(r), FirstReplay(r), TryClaim(r)]), r, Working)
    ensures s.cell.Ready? ==> At(Run(s, [Arrive(r), FirstReplay(r)]), r, Finished(Replay(s.cell.response)))
  {
    var s1 := Step(s, Arrive(r));
    var s2 := Step(s1, FirstReplay(r));
    RunFirst(s2, TryClaim(r), []);
    RunFirst(s1, FirstReplay(r), [TryClaim(r)]);
    RunFirst(s, Arrive(r), [FirstReplay(r), TryClaim(r)]);
    assert [Arrive(r)] + ([FirstReplay(r)] + [TryClaim(r)]) == [Arrive(r), FirstReplay(r), TryClaim(r)];
    RunFirst(s1, FirstReplay(r), []);
    RunFirst(s, Arrive(r), [FirstReplay(r)]);
    assert [Arrive(r)] + [FirstReplay(r)] == [Arrive(r), FirstReplay(r)];
  }

  lemma {:induction false} NoExpiries(es: seq<Event>)
    requires Orderly(es)
    ensures Expiries(es) == 0
  {
    if es == [] {
    } else {
      NoExpiries(es[1..]);
    }
  }
}
