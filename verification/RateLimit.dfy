/**
 The Redis token bucket: the Lua script, key expiry and the decisions drawn from it. The script is
 stamped by the calling host; keys expire on Redis's own clock. All times are milliseconds.
 */
module RateLimit {
  import opened Prelude

  /** What the hash at one key holds, in milli-tokens and host time, and when Redis may drop it. */
  datatype Bucket = Bucket(tokens: int, ts: int, deadline: int)

  /** The script's reply: allowed flag, tokens left and milliseconds to wait. */
  datatype Reply = Reply(allowed: bool, tokens: int, retryAfter: int)

  datatype Decision = Decision(allowed: bool, remainingTokens: int, retryAfter: int)

  function Ttl(capacity: nat, refill: nat): int
    requires refill > 0
  {
    Max(capacity / refill + 1000, 1000)
  }

  function Refilled(b: Option<Bucket>, capacity: nat, refill: nat, now: int): int {
    match b
    case None => capacity
    case Some(b) => Min(capacity, b.tokens + Max(0, now - b.ts) * refill)
  }

  /** The Lua script on one key, stamped `now` and run when Redis's clock shows `at`; None is a missing key. */
  function Script(b: Option<Bucket>, capacity: nat, refill: nat, now: int, at: int, cost: nat): (Bucket, Reply)
    requires refill > 0
  {
    var tokens := Refilled(b, capacity, refill, now);
    var deadline := at + Ttl(capacity, refill);
    if tokens >= cost then
      (Bucket(tokens - cost, now, deadline), Reply(true, tokens - cost, 0))
    else
      (Bucket(tokens, now, deadline), Reply(false, tokens, CeilDiv(cost - tokens, refill)))
  }

  /** The level a bucket has refilled to: what it held plus `refill` a millisecond since its stamp, up to capacity. */
  function LevelAt(b: Bucket, capacity: nat, refill: nat, now: int): (level: int)
    ensures level <= capacity
    ensures now <= b.ts ==> level == (if b.tokens < capacity then b.tokens else capacity)
    ensures now > b.ts && b.tokens + (now - b.ts) * refill <= capacity ==> level == b.tokens + (now - b.ts) * refill
    ensures now > b.ts && b.tokens + (now - b.ts) * refill > capacity ==> level == capacity
  {
    Refilled(Some(b), capacity, refill, now)
  }

  /** The limiter's keys in Redis. */
  class RateLimiter {
    var keys: map<string, Bucket>

    constructor ()
      ensures keys == map[]
    {
      keys := map[];
    }

    /** Redis hides a key once its deadline has passed. */
    function Visible(key: string, at: int): Option<Bucket>
      reads this
    {
      if key in keys && at <= keys[key].deadline then Some(keys[key]) else None
    }

    /** Runs the script on `key` with the limits scaled to milli-tokens; no other key changes. */
    method Limit(key: string, capacity: nat, refillPerSec: nat, cost: nat, now: int, at: int)
      returns (d: Decision)
      requires refillPerSec > 0
      modifies this
      ensures keys - {key} == old(keys) - {key} && key in keys
      ensures var held := key in old(keys) && at <= old(keys)[key].deadline;
              var full := capacity * 1000;
              var level := if held then LevelAt(old(keys)[key], full, refillPerSec, now) else full;
              && (d.allowed <==> level >= cost * 1000)
              && keys[key].tokens == (if d.allowed then level - cost * 1000 else level)
              && keys[key].ts == now && keys[key].deadline == at + capacity * 1000 / refillPerSec + 1000
      ensures d.remainingTokens == (if keys[key].tokens > 0 then keys[key].tokens / 1000 else 0)
      ensures d.allowed ==> d.retryAfter == 0
      ensures !d.allowed ==>
        (d.retryAfter - 1) * refillPerSec < cost * 1000 - keys[key].tokens <= d.retryAfter * refillPerSec
      ensures keys[key] == Script(old(Visible(key, at)), capacity * 1000, refillPerSec, now, at, cost * 1000).0
    {
      var capacityMilli := capacity * 1000;
      var costMilli := cost * 1000;
      var (bucket, reply) := Script(Visible(key, at), capacityMilli, refillPerSec, now, at, costMilli);
      keys := keys[key := bucket];
      d := Decision(reply.allowed, Max(0, reply.tokens) / 1000, Max(0, reply.retryAfter));
      if !reply.allowed {
        PositiveQuotient(costMilli - reply.tokens, refillPerSec);
      }
    }
  }

  lemma PositiveQuotient(a: int, b: int)
    requires b > 0 && a > 0
    ensures CeilDiv(a, b) >= 1
  {
    var q := CeilDiv(a, b);
    assert q <= 0 ==> q * b <= 0;
  }

  /**
   One call on a key: the host's stamp, Redis's time and the cost. `swept` says whether Redis had
   already dropped the key when the call arrived, which it may only do from the deadline on.
   */
  datatype Call = Call(now: int, at: int, cost: nat, swept: bool)

  function Seen(b: Option<Bucket>, c: Call): Option<Bucket> {
    if b.Some? && c.swept && c.at >= b.value.deadline then None else b
  }

  function After(b: Option<Bucket>, capacity: nat, refill: nat, c: Call): Option<Bucket>
    requires refill > 0
  {
    Some(Script(Seen(b, c), capacity, refill, c.now, c.at, c.cost).0)
  }

  function ReplyTo(b: Option<Bucket>, capacity: nat, refill: nat, c: Call): Reply
    requires refill > 0
  {
    Script(Seen(b, c), capacity, refill, c.now, c.at, c.cost).1
  }

  /** Replies to a sequence of calls on one key. */
  function Serve(b: Option<Bucket>, capacity: nat, refill: nat, calls: seq<Call>): (replies: seq<Reply>)
    requires refill > 0
    ensures |replies| == |calls|
    decreases |calls|
  {
    if calls == [] then [] else
      [ReplyTo(b, capacity, refill, calls[0])]
      + Serve(After(b, capacity, refill, calls[0]), capacity, refill, calls[1..])
  }

  function FinalBucket(b: Option<Bucket>, capacity: nat, refill: nat, calls: seq<Call>): Option<Bucket>
    requires refill > 0
    decreases |calls|
  {
    if calls == [] then b else FinalBucket(After(b, capacity, refill, calls[0]), capacity, refill, calls[1..])
  }

  /** Total cost of the calls that were allowed. */
  function Spent(b: Option<Bucket>, capacity: nat, refill: nat, calls: seq<Call>): nat
    requires refill > 0
    decreases |calls|
  {
    if calls == [] then 0 else
      (if ReplyTo(b, capacity, refill, calls[0]).allowed then calls[0].cost else 0)
      + Spent(After(b, capacity, refill, calls[0]), capacity, refill, calls[1..])
  }

  /** The host clock never runs backwards, starting from the bucket's own stamp. */
  ghost predicate Forward(b: Option<Bucket>, calls: seq<Call>) {
    && (forall i, j :: 0 <= i < j < |calls| ==> calls[i].now <= calls[j].now)
    && (b.Some? && calls != [] ==> b.value.ts <= calls[0].now)
  }

  /** Redis's clock never runs backwards. */
  ghost predicate RedisForward(calls: seq<Call>) {
    forall i, j :: 0 <= i < j < |calls| ==> calls[i].at <= calls[j].at
  }

  /** Buckets the script can leave behind. */
  ghost predicate WellFormed(b: Option<Bucket>, capacity: nat, refill: nat)
    requires refill > 0
  {
    b.Some? ==> 0 <= b.value.tokens <= capacity
  }

  /** ---- Two clocks ---- */

  /** If Redis waited out the time to live between two calls, the host clock fell behind by at most `drift`. */
  predicate InStep(capacity: nat, refill: nat, now: int, at: int, c: Call, drift: int)
    requires refill > 0
  {
    c.at - at >= Ttl(capacity, refill) ==> (c.at - at) - (c.now - now) <= drift
  }

  ghost predicate Steady(capacity: nat, refill: nat, calls: seq<Call>, drift: int)
    requires refill > 0
  {
    forall i, j :: 0 <= i && j == i + 1 && j < |calls| ==>
      InStep(capacity, refill, calls[i].now, calls[i].at, calls[j], drift)
  }

  /** The same from the call that left `b` on. */
  ghost predicate OnPace(b: Option<Bucket>, capacity: nat, refill: nat, calls: seq<Call>, drift: int)
    requires refill > 0
  {
    && Steady(capacity, refill, calls, drift)
    && (b.Some? && calls != [] ==>
          InStep(capacity, refill, b.value.ts, b.value.deadline - Ttl(capacity, refill), calls[0], drift))
  }

  lemma OnPaceStep(b: Option<Bucket>, capacity: nat, refill: nat, calls: seq<Call>, drift: int)
    requires refill > 0 && calls != [] && OnPace(b, capacity, refill, calls, drift)
    ensures OnPace(After(b, capacity, refill, calls[0]), capacity, refill, calls[1..], drift)
  {
    assert |calls| > 1 ==> InStep(capacity, refill, calls[0].now, calls[0].at, calls[1], drift);
    forall i, j | 0 <= i && j == i + 1 && j < |calls[1..]|
      ensures InStep(capacity, refill, calls[1..][i].now, calls[1..][i].at, calls[1..][j], drift)
    {
      assert InStep(capacity, refill, calls[i + 1].now, calls[i + 1].at, calls[j + 1], drift);
    }
  }

  /** How far the host clock may fall behind: the time to live less the time an empty bucket takes to fill. */
  function Slack(capacity: nat, refill: nat): int
    requires refill > 0
  {
    Ttl(capacity, refill) - CeilDiv(capacity, refill)
  }

  lemma SlackIsASecond(capacity: nat, refill: nat)
    requires refill > 0
    ensures 999 <= Slack(capacity, refill) <= 1000
  {
    var q, d := capacity / refill, CeilDiv(capacity, refill);
    QuotientSpan(capacity, refill, q);
    if d >= q + 2 {
      Scale(q + 1, d - 1, refill);
    } else if d < q {
      Scale(d + 1, q, refill);
    }
  }

  /** One clock for both is always steady. */
  lemma SharedClockIsSteady(capacity: nat, refill: nat, calls: seq<Call>)
    requires refill > 0 && forall i :: 0 <= i < |calls| ==> calls[i].at == calls[i].now
    ensures Steady(capacity, refill, calls, Slack(capacity, refill))
  {
    SlackIsASecond(capacity, refill);
  }

  /** The same calls against a store that never drops a key. */
  function Kept(calls: seq<Call>): (r: seq<Call>)
    ensures |r| == |calls|
    ensures forall i :: 0 <= i < |calls| ==> r[i] == calls[i].(swept := false)
  {
    if calls == [] then [] else [calls[0].(swept := false)] + Kept(calls[1..])
  }

  lemma AfterStep(b: Option<Bucket>, capacity: nat, refill: nat, c: Call)
    requires refill > 0 && WellFormed(b, capacity, refill)
    ensures WellFormed(After(b, capacity, refill, c), capacity, refill)
  {
    var seen := Seen(b, c);
    if seen.Some? {
      assert Max(0, c.now - seen.value.ts) * refill >= 0;
    }
  }

  lemma AfterForward(b: Option<Bucket>, capacity: nat, refill: nat, calls: seq<Call>)
    requires refill > 0 && calls != [] && Forward(b, calls)
    ensures Forward(After(b, capacity, refill, calls[0]), calls[1..])
  {
  }

  /** By the time Redis may drop a key its bucket would have been full again, host clocks being within the slack. */
  lemma ExpiredIsFull(b: Bucket, capacity: nat, refill: nat, c: Call)
    requires refill > 0 && WellFormed(Some(b), capacity, refill) && c.at >= b.deadline
    requires InStep(capacity, refill, b.ts, b.deadline - Ttl(capacity, refill), c, Slack(capacity, refill))
    ensures Refilled(Some(b), capacity, refill, c.now) == capacity
  {
    Scale(CeilDiv(capacity, refill), c.now - b.ts, refill);
    CeilDivCovers(capacity, refill);
  }

  lemma CeilDivCovers(a: nat, b: nat)
    requires b > 0
    ensures CeilDiv(a, b) >= 0 && CeilDiv(a, b) * b >= a
  {
    if CeilDiv(a, b) < 0 {
      Scale(CeilDiv(a, b), -1, b);
    }
  }

  /** Whether Redis dropped the key before a call makes no difference to it. */
  lemma SweepIsInvisible(b: Option<Bucket>, capacity: nat, refill: nat, c: Call)
    requires refill > 0 && WellFormed(b, capacity, refill)
    requires OnPace(b, capacity, refill, [c], Slack(capacity, refill))
    ensures ReplyTo(b, capacity, refill, c) == ReplyTo(b, capacity, refill, c.(swept := false))
    ensures After(b, capacity, refill, c) == After(b, capacity, refill, c.(swept := false))
  {
    if Seen(b, c) != b {
      ExpiredIsFull(b.value, capacity, refill, c);
    }
  }

  /** Expiring keys refine immortal ones: every call gets the same reply, whatever Redis drops. */
  lemma {:induction false} ExpiryIsInvisible(b: Option<Bucket>, capacity: nat, refill: nat, calls: seq<Call>)
    requires refill > 0 && WellFormed(b, capacity, refill)
    requires OnPace(b, capacity, refill, calls, Slack(capacity, refill))
    ensures Serve(b, capacity, refill, calls) == Serve(b, capacity, refill, Kept(calls))
    ensures Spent(b, capacity, refill, calls) == Spent(b, capacity, refill, Kept(calls))
    ensures FinalBucket(b, capacity, refill, calls) == FinalBucket(b, capacity, refill, Kept(calls))
    decreases |calls|
  {
    if calls == [] {
    } else {
      var c := calls[0];
      assert Kept(calls)[0] == c.(swept := false) && Kept(calls)[1..] == Kept(calls[1..]);
      SweepIsInvisible(b, capacity, refill, c);
      AfterStep(b, capacity, refill, c);
      OnPaceStep(b, capacity, refill, calls, Slack(capacity, refill));
      ExpiryIsInvisible(After(b, capacity, refill, c), capacity, refill, calls[1..]);
    }
  }

  /** Key expiry changes no reply in any run whose host clock never falls behind by more than `drift`. */
  ghost predicate InvisibleWithin(capacity: nat, refill: nat, drift: int)
    requires refill > 0
  {
    forall calls :: RedisForward(calls) && Steady(capacity, refill, calls, drift) ==>
      Serve(None, capacity, refill, calls) == Serve(None, capacity, refill, Kept(calls))
  }

  /** That is so exactly up to the slack of 999 or 1000 ms that the time to live leaves. */
  lemma ExpiryIsInvisibleExactly(capacity: nat, refill: nat, drift: int)
    requires capacity > 0 && refill > 0
    ensures InvisibleWithin(capacity, refill, drift) <==> drift <= Slack(capacity, refill)
  {
    if drift <= Slack(capacity, refill) {
      forall calls | RedisForward(calls) && Steady(capacity, refill, calls, drift)
        ensures Serve(None, capacity, refill, calls) == Serve(None, capacity, refill, Kept(calls))
      {
        Relax(capacity, refill, calls, drift, Slack(capacity, refill));
        ExpiryIsInvisible(None, capacity, refill, calls);
      }
    } else {
      var calls := Forgetful(capacity, refill);
      ForgetfulForgets(capacity, refill);
      Relax(capacity, refill, calls, Slack(capacity, refill) + 1, drift);
    }
  }

  lemma Relax(capacity: nat, refill: nat, calls: seq<Call>, drift: int, more: int)
    requires refill > 0 && drift <= more && Steady(capacity, refill, calls, drift)
    ensures Steady(capacity, refill, calls, more)
  {
    forall i, j | 0 <= i && j == i + 1 && j < |calls|
      ensures InStep(capacity, refill, calls[i].now, calls[i].at, calls[j], more)
    {
      assert InStep(capacity, refill, calls[i].now, calls[i].at, calls[j], drift);
    }
  }

  /** The capacity spent twice: Redis drops the key one host millisecond before the bucket is full again. */
  function Forgetful(capacity: nat, refill: nat): seq<Call>
    requires refill > 0
  {
    [Call(0, 0, capacity, false), Call(CeilDiv(capacity, refill) - 1, Ttl(capacity, refill), capacity, true)]
  }

  lemma ForgetfulForgets(capacity: nat, refill: nat)
    requires capacity > 0 && refill > 0
    ensures var calls := Forgetful(capacity, refill);
            && Forward(None, calls) && RedisForward(calls)
            && Steady(capacity, refill, calls, Slack(capacity, refill) + 1)
            && Serve(None, capacity, refill, calls)[1].allowed
            && !Serve(None, capacity, refill, Kept(calls))[1].allowed
  {
    var calls := Forgetful(capacity, refill);
    var d := CeilDiv(capacity, refill);
    PositiveQuotient(capacity, refill);
    var b := Some(Bucket(0, 0, Ttl(capacity, refill)));
    assert After(None, capacity, refill, calls[0]) == b;
    assert Kept(calls) == [calls[0], calls[1].(swept := false)];
    assert calls[1..] == [calls[1]] && Kept(calls)[1..] == [calls[1].(swept := false)];
    assert Serve(b, capacity, refill, [calls[1]])[0] == ReplyTo(b, capacity, refill, calls[1]);
    assert (d - 1) * refill < capacity && Max(0, d - 1 - 0) == d - 1;
    assert Refilled(b, capacity, refill, d - 1) == (d - 1) * refill;
  }

  /** ---- What one key may spend ---- */

  /** One call never spends more than the level it found, nor leaves more than it did not spend. */
  lemma CallPays(b: Bucket, capacity: nat, refill: nat, c: Call)
    requires refill > 0 && WellFormed(Some(b), capacity, refill)
    requires OnPace(Some(b), capacity, refill, [c], Slack(capacity, refill))
    ensures var next := After(Some(b), capacity, refill, c).value;
            var paid := if ReplyTo(Some(b), capacity, refill, c).allowed then c.cost else 0;
            next.ts == c.now && next.tokens + paid <= b.tokens + Max(0, c.now - b.ts) * refill
  {
    if Seen(Some(b), c) != Some(b) {
      ExpiredIsFull(b, capacity, refill, c);
    }
  }

  function Stamps(calls: seq<Call>): (stamps: seq<int>)
    ensures |stamps| == |calls| && forall i :: 0 <= i < |calls| ==> stamps[i] == calls[i].now
  {
    if calls == [] then [] else [calls[0].now] + Stamps(calls[1..])
  }

  /** Milliseconds by which successive stamps move the clock forward, starting from `at`. */
  function Advance(at: int, stamps: seq<int>): nat
    decreases |stamps|
  {
    if stamps == [] then 0 else Max(0, stamps[0] - at) + Advance(stamps[0], stamps[1..])
  }

  /** Milliseconds by which they move it back. */
  function Retreat(at: int, stamps: seq<int>): nat
    decreases |stamps|
  {
    if stamps == [] then 0 else Max(0, at - stamps[0]) + Retreat(stamps[0], stamps[1..])
  }

  /** All forward, and all backward, movement of the host clock inside a stretch of calls. */
  function Forwards(stamps: seq<int>): nat {
    if stamps == [] then 0 else Advance(stamps[0], stamps[1..])
  }

  function Backwards(stamps: seq<int>): nat {
    if stamps == [] then 0 else Retreat(stamps[0], stamps[1..])
  }

  lemma {:induction false} AdvanceIsDistance(at: int, stamps: seq<int>)
    ensures Advance(at, stamps) == (if stamps == [] then 0 else stamps[|stamps| - 1] - at) + Retreat(at, stamps)
    decreases |stamps|
  {
    if stamps == [] {
    } else {
      AdvanceIsDistance(stamps[0], stamps[1..]);
    }
  }

  lemma {:induction false} NoRetreat(at: int, stamps: seq<int>)
    requires stamps != [] ==> at <= stamps[0]
    requires forall i, j :: 0 <= i < j < |stamps| ==> stamps[i] <= stamps[j]
    ensures Retreat(at, stamps) == 0
    decreases |stamps|
  {
    if stamps == [] {
    } else {
      assert forall i :: 0 <= i < |stamps| - 1 ==> stamps[1..][i] == stamps[i + 1];
      NoRetreat(stamps[0], stamps[1..]);
    }
  }

  lemma Distributes(refill: int, a: int, b: int)
    ensures a * refill + b * refill == (a + b) * refill
  {
  }

  lemma {:induction false} SpentBelowLevel(b: Bucket, capacity: nat, refill: nat, calls: seq<Call>)
    requires refill > 0 && WellFormed(Some(b), capacity, refill)
    requires OnPace(Some(b), capacity, refill, calls, Slack(capacity, refill))
    ensures Spent(Some(b), capacity, refill, calls) <= b.tokens + Advance(b.ts, Stamps(calls)) * refill
    decreases |calls|
  {
    if calls == [] {
    } else {
      var c := calls[0];
      var next := After(Some(b), capacity, refill, c);
      CallPays(b, capacity, refill, c);
      AfterStep(Some(b), capacity, refill, c);
      OnPaceStep(Some(b), capacity, refill, calls, Slack(capacity, refill));
      SpentBelowLevel(next.value, capacity, refill, calls[1..]);
      assert Stamps(calls)[1..] == Stamps(calls[1..]);
      Distributes(refill, Max(0, c.now - b.ts), Advance(c.now, Stamps(calls[1..])));
    }
  }

  /** Whatever bucket it starts from, a stretch of calls spends at most capacity plus what its clock refills. */
  lemma StretchBound(b: Option<Bucket>, capacity: nat, refill: nat, calls: seq<Call>)
    requires refill > 0 && WellFormed(b, capacity, refill)
    requires OnPace(b, capacity, refill, calls, Slack(capacity, refill))
    ensures Spent(b, capacity, refill, calls) <= capacity + Forwards(Stamps(calls)) * refill
  {
    if calls != [] {
      AfterStep(b, capacity, refill, calls[0]);
      FirstCallPays(b, capacity, refill, calls[0]);
      OnPaceStep(b, capacity, refill, calls, Slack(capacity, refill));
      SpentBelowLevel(After(b, capacity, refill, calls[0]).value, capacity, refill, calls[1..]);
      assert Stamps(calls)[1..] == Stamps(calls[1..]);
    }
  }

  lemma FirstCallPays(b: Option<Bucket>, capacity: nat, refill: nat, c: Call)
    requires refill > 0 && WellFormed(b, capacity, refill)
    ensures var next := After(b, capacity, refill, c).value;
            var paid := if ReplyTo(b, capacity, refill, c).allowed then c.cost else 0;
            next.ts == c.now && next.tokens + paid <= capacity
  {
  }

  lemma {:induction false} ReachableBucket(b: Option<Bucket>, capacity: nat, refill: nat, calls: seq<Call>, k: nat)
    requires refill > 0 && WellFormed(b, capacity, refill) && k <= |calls|
    requires OnPace(b, capacity, refill, calls, Slack(capacity, refill))
    ensures WellFormed(FinalBucket(b, capacity, refill, calls[..k]), capacity, refill)
    ensures OnPace(FinalBucket(b, capacity, refill, calls[..k]), capacity, refill, calls[k..], Slack(capacity, refill))
    decreases |calls|
  {
    if k == 0 {
      assert calls[0..] == calls;
    } else {
      AfterStep(b, capacity, refill, calls[0]);
      OnPaceStep(b, capacity, refill, calls, Slack(capacity, refill));
      ReachableBucket(After(b, capacity, refill, calls[0]), capacity, refill, calls[1..], k - 1);
      assert calls[..k][1..] == calls[1..][..k - 1];
      assert calls[1..][k - 1..] == calls[k..];
    }
  }

  lemma OnPacePrefix(b: Option<Bucket>, capacity: nat, refill: nat, calls: seq<Call>, k: nat, drift: int)
    requires refill > 0 && k <= |calls| && OnPace(b, capacity, refill, calls, drift)
    ensures OnPace(b, capacity, refill, calls[..k], drift)
  {
    forall i, j | 0 <= i && j == i + 1 && j < k
      ensures InStep(capacity, refill, calls[..k][i].now, calls[..k][i].at, calls[..k][j], drift)
    {
      assert InStep(capacity, refill, calls[i].now, calls[i].at, calls[j], drift);
    }
  }

  /** A stretch of a run, from the bucket the calls before it left. */
  lemma RunStretchBound(capacity: nat, refill: nat, calls: seq<Call>, from: nat, to: nat)
    requires refill > 0 && from <= to <= |calls| && Steady(capacity, refill, calls, Slack(capacity, refill))
    ensures Spent(FinalBucket(None, capacity, refill, calls[..from]), capacity, refill, calls[from..to])
            <= capacity + Forwards(Stamps(calls[from..to])) * refill
  {
    var b := FinalBucket(None, capacity, refill, calls[..from]);
    ReachableBucket(None, capacity, refill, calls, from);
    OnPacePrefix(b, capacity, refill, calls[from..], to - from, Slack(capacity, refill));
    assert calls[from..][..to - from] == calls[from..to];
    StretchBound(b, capacity, refill, calls[from..to]);
  }

  /**
   In any stretch of calls that falls in an interval of `length` ms, one key is never allowed more
   than its capacity plus the refill of that interval and of every step its clock took backward.
   */
  lemma UnsteadyWindowBound(capacity: nat, refill: nat, calls: seq<Call>, from: nat, to: nat, start: int, length: nat)
    requires refill > 0 && from <= to <= |calls| && Steady(capacity, refill, calls, Slack(capacity, refill))
    requires forall i :: from <= i < to ==> start <= calls[i].now <= start + length
    ensures Spent(FinalBucket(None, capacity, refill, calls[..from]), capacity, refill, calls[from..to])
            <= capacity + (length + Backwards(Stamps(calls[from..to]))) * refill
  {
    var stamps := Stamps(calls[from..to]);
    RunStretchBound(capacity, refill, calls, from, to);
    if stamps != [] {
      AdvanceIsDistance(stamps[0], stamps[1..]);
      assert stamps[0] == calls[from].now && stamps[|stamps| - 1] == calls[to - 1].now;
    }
    Scale(Forwards(stamps), length + Backwards(stamps), refill);
  }

  /** With a host clock that never runs backwards the bound is capacity plus the refill of the interval. */
  lemma WindowBound(capacity: nat, refill: nat, calls: seq<Call>, from: nat, to: nat, start: int, length: nat)
    requires refill > 0 && from <= to <= |calls| && Forward(None, calls)
    requires Steady(capacity, refill, calls, Slack(capacity, refill))
    requires forall i :: from <= i < to ==> start <= calls[i].now <= start + length
    ensures Spent(FinalBucket(None, capacity, refill, calls[..from]), capacity, refill, calls[from..to])
            <= capacity + length * refill
  {
    UnsteadyWindowBound(capacity, refill, calls, from, to, start, length);
    var stamps := Stamps(calls[from..to]);
    if stamps != [] {
      assert forall i :: 0 <= i < |stamps| ==> stamps[i] == calls[from + i].now;
      NoRetreat(stamps[0], stamps[1..]);
    }
  }

  /** Calls with these stamps never spend more than capacity plus `length` ms of refill, whatever limits and costs. */
  ghost predicate KeepsBound(stamps: seq<int>, length: nat) {
    forall capacity: nat, refill: nat, calls: seq<Call> ::
      refill > 0 && Stamps(calls) == stamps && RedisForward(calls)
      && Steady(capacity, refill, calls, Slack(capacity, refill)) ==>
        Spent(None, capacity, refill, calls) <= capacity + length * refill
  }

  /** They keep it exactly if the host clock moves forward by no more than `length` in all. */
  lemma BoundIsKeptExactly(stamps: seq<int>, length: nat)
    ensures KeepsBound(stamps, length) <==> Forwards(stamps) <= length
  {
    if Forwards(stamps) <= length {
      forall capacity: nat, refill: nat, calls: seq<Call> |
        refill > 0 && Stamps(calls) == stamps && RedisForward(calls)
        && Steady(capacity, refill, calls, Slack(capacity, refill))
        ensures Spent(None, capacity, refill, calls) <= capacity + length * refill
      {
        StretchBound(None, capacity, refill, calls);
        Scale(Forwards(stamps), length, refill);
      }
    } else {
      var a := Forwards(stamps);
      var calls := SpendingRises(a, stamps);
      RisesAreSpent(a, stamps);
      assert Spent(None, a, 1, calls) > a + length * 1;
    }
  }

  /** Each call after `at` costs just what its step forward refills at one token a millisecond. */
  function RiseCalls(at: int, stamps: seq<int>): (calls: seq<Call>)
    ensures Stamps(calls) == stamps && forall i :: 0 <= i < |calls| ==> calls[i].at == 0
    decreases |stamps|
  {
    if stamps == [] then []
    else [Call(stamps[0], 0, Max(0, stamps[0] - at), false)] + RiseCalls(stamps[0], stamps[1..])
  }

  lemma {:induction false} EachRiseIsSpent(at: int, stamps: seq<int>, capacity: nat, deadline: int)
    requires Advance(at, stamps) <= capacity
    ensures Spent(Some(Bucket(0, at, deadline)), capacity, 1, RiseCalls(at, stamps)) == Advance(at, stamps)
    decreases |stamps|
  {
    if stamps == [] {
    } else {
      var calls := RiseCalls(at, stamps);
      assert calls[1..] == RiseCalls(stamps[0], stamps[1..]);
      EachRiseIsSpent(stamps[0], stamps[1..], capacity, Ttl(capacity, 1));
    }
  }

  /** Redis drops nothing while its clock stands still. */
  lemma StoppedClock(capacity: nat, refill: nat, calls: seq<Call>)
    requires refill > 0 && forall i :: 0 <= i < |calls| ==> calls[i].at == 0
    ensures RedisForward(calls) && Steady(capacity, refill, calls, Slack(capacity, refill))
  {
  }

  /** The capacity at once, then every rise. */
  function SpendingRises(capacity: nat, stamps: seq<int>): seq<Call>
    requires stamps != []
  {
    [Call(stamps[0], 0, capacity, false)] + RiseCalls(stamps[0], stamps[1..])
  }

  lemma RisesAreSpent(capacity: nat, stamps: seq<int>)
    requires stamps != [] && capacity == Forwards(stamps)
    ensures var calls := SpendingRises(capacity, stamps);
            && Stamps(calls) == stamps && RedisForward(calls)
            && Steady(capacity, 1, calls, Slack(capacity, 1))
            && Spent(None, capacity, 1, calls) == capacity + Forwards(stamps)
  {
    var calls := SpendingRises(capacity, stamps);
    assert forall i :: 0 <= i < |calls| ==> calls[i].at == 0;
    StoppedClock(capacity, 1, calls);
    assert calls[1..] == RiseCalls(stamps[0], stamps[1..]);
    EachRiseIsSpent(stamps[0], stamps[1..], capacity, Ttl(capacity, 1));
  }

  /** Four calls inside one second, the clock rising twice: costs 2000, 1000, 0 and 1000 are all allowed. */
  lemma BackwardClockBreaksTheBound()
    ensures var stamps := [0, 1000, 0, 1000];
            var calls := SpendingRises(2000, stamps);
            && (forall i :: 0 <= i < |stamps| ==> 0 <= stamps[i] <= 0 + 1000)
            && Stamps(calls) == stamps && RedisForward(calls) && Steady(2000, 1, calls, Slack(2000, 1))
            && Spent(None, 2000, 1, calls) == 4000 > 2000 + 1000 * 1
            && 4000 == 2000 + (1000 + Backwards(stamps)) * 1
  {
    RisesTwice();
    RisesAreSpent(2000, [0, 1000, 0, 1000]);
  }

  lemma RisesTwice()
    ensures Forwards([0, 1000, 0, 1000]) == 2000 && Backwards([0, 1000, 0, 1000]) == 1000
  {
    var stamps := [0, 1000, 0, 1000];
    assert stamps[1..] == [1000, 0, 1000] && stamps[1..][1..] == [0, 1000] && stamps[1..][1..][1..] == [1000];
    assert Retreat(0, [1000]) == 0 && Retreat(1000, [0, 1000]) == 1000 && Retreat(0, [1000, 0, 1000]) == 1000;
    assert Advance(0, [1000]) == 1000 && Advance(1000, [0, 1000]) == 1000 && Advance(0, [1000, 0, 1000]) == 2000;
  }

  function Select<T>(xs: seq<T>, mask: seq<bool>): seq<T>
    requires |xs| == |mask|
  {
    if xs == [] then [] else (if mask[0] then [xs[0]] else []) + Select(xs[1..], mask[1..])
  }

  /** Two buckets that refill to the same level at every instant from the later stamp on. */
  ghost predicate SameLevel(probed: Option<Bucket>, quiet: Option<Bucket>, capacity: nat, refill: nat) {
    match (probed, quiet)
    case (None, None) => true
    case (Some(p), None) => p.tokens == capacity
    case (None, Some(q)) => false
    case (Some(p), Some(q)) => q.ts <= p.ts && p.tokens == Min(capacity, q.tokens + (p.ts - q.ts) * refill)
  }

  lemma CappedRefillComposes(tokens: int, capacity: nat, refill: nat, a: nat, b: nat)
    ensures Min(capacity, Min(capacity, tokens + a * refill) + b * refill) == Min(capacity, tokens + (a + b) * refill)
  {
    assert b * refill >= 0;
    assert (a + b) * refill == a * refill + b * refill;
  }

  lemma SameLevelRefills(p: Option<Bucket>, q: Option<Bucket>, capacity: nat, refill: nat, now: int)
    requires SameLevel(p, q, capacity, refill)
    requires p.Some? ==> p.value.ts <= now
    ensures Refilled(p, capacity, refill, now) == Refilled(q, capacity, refill, now)
  {
    if p.Some? && q.Some? {
      CappedRefillComposes(q.value.tokens, capacity, refill, p.value.ts - q.value.ts, now - p.value.ts);
      assert (p.value.ts - q.value.ts) + (now - p.value.ts) == now - q.value.ts;
    } else if p.Some? {
      assert Max(0, now - p.value.ts) * refill >= 0;
    }
  }

  /** A kept call, or a skipped denied one, leaves the two buckets at the same level. */
  lemma SameLevelStep(p: Option<Bucket>, q: Option<Bucket>, capacity: nat, refill: nat, c: Call, keep: bool)
    requires refill > 0 && SameLevel(p, q, capacity, refill) && !c.swept
    requires p.Some? ==> p.value.ts <= c.now
    requires !keep ==> !ReplyTo(p, capacity, refill, c).allowed
    ensures ReplyTo(p, capacity, refill, c) == ReplyTo(q, capacity, refill, c)
    ensures SameLevel(After(p, capacity, refill, c),
                      if keep then After(q, capacity, refill, c) else q, capacity, refill)
  {
    SameLevelRefills(p, q, capacity, refill, c.now);
    var p' := After(p, capacity, refill, c).value;
    if !keep && q.Some? {
      assert p'.tokens == Refilled(q, capacity, refill, c.now);
    }
  }

  lemma {:induction false} ErasureFrom(p: Option<Bucket>, q: Option<Bucket>, capacity: nat, refill: nat,
                                       calls: seq<Call>, mask: seq<bool>)
    requires refill > 0 && |calls| == |mask| && SameLevel(p, q, capacity, refill) && Forward(p, calls)
    requires forall i :: 0 <= i < |calls| ==> !calls[i].swept
    requires forall i :: 0 <= i < |calls| && !mask[i] ==> !Serve(p, capacity, refill, calls)[i].allowed
    ensures |Select(calls, mask)| == |Select(Serve(p, capacity, refill, calls), mask)|
    ensures Serve(q, capacity, refill, Select(calls, mask)) == Select(Serve(p, capacity, refill, calls), mask)
    decreases |calls|
  {
    if calls == [] {
    } else {
      var c := calls[0];
      var replies := Serve(p, capacity, refill, calls);
      var p' := After(p, capacity, refill, c);
      assert replies[0] == ReplyTo(p, capacity, refill, c);
      assert replies[1..] == Serve(p', capacity, refill, calls[1..]);
      SameLevelStep(p, q, capacity, refill, c, mask[0]);
      var q' := if mask[0] then After(q, capacity, refill, c) else q;
      AfterForward(p, capacity, refill, calls);
      forall i | 0 <= i < |calls[1..]| && !mask[1..][i]
        ensures !Serve(p', capacity, refill, calls[1..])[i].allowed
      {
        assert replies[1..][i] == replies[i + 1];
      }
      ErasureFrom(p', q', capacity, refill, calls[1..], mask[1..]);
      var rest := Select(calls[1..], mask[1..]);
      if mask[0] {
        assert Select(calls, mask) == [c] + rest;
        assert ([c] + rest)[1..] == rest;
      } else {
        assert Select(calls, mask) == rest;
      }
    }
  }

  lemma {:induction false} SelectKept(calls: seq<Call>, mask: seq<bool>)
    requires |calls| == |mask|
    ensures Kept(Select(calls, mask)) == Select(Kept(calls), mask)
    decreases |calls|
  {
    if calls == [] {
    } else {
      SelectKept(calls[1..], mask[1..]);
      assert Kept(calls)[1..] == Kept(calls[1..]);
      var rest := Select(calls[1..], mask[1..]);
      assert ([calls[0]] + rest)[1..] == rest;
    }
  }

  lemma {:induction false} SelectIsPart(calls: seq<Call>, mask: seq<bool>)
    requires |calls| == |mask|
    ensures forall c :: c in Select(calls, mask) ==> c in calls
    decreases |calls|
  {
    if calls == [] {
    } else {
      SelectIsPart(calls[1..], mask[1..]);
      assert forall c :: c in calls[1..] ==> c in calls;
    }
  }

  lemma ForwardTail(c: Call, calls: seq<Call>)
    requires Forward(None, calls) && forall d :: d in calls ==> c.now <= d.now
    ensures Forward(None, [c] + calls)
  {
    assert forall i :: 0 <= i < |calls| ==> calls[i] in calls;
  }

  lemma ForwardHead(calls: seq<Call>)
    requires calls != [] && Forward(None, calls)
    ensures Forward(None, calls[1..]) && forall d :: d in calls[1..] ==> calls[0].now <= d.now
  {
    forall d | d in calls[1..]
      ensures calls[0].now <= d.now
    {
      var i :| 0 <= i < |calls[1..]| && calls[1..][i] == d;
      assert d == calls[i + 1];
    }
  }

  lemma {:induction false} SelectForward(calls: seq<Call>, mask: seq<bool>)
    requires |calls| == |mask| && Forward(None, calls)
    ensures Forward(None, Select(calls, mask))
    decreases |calls|
  {
    if calls == [] {
    } else {
      ForwardHead(calls);
      SelectForward(calls[1..], mask[1..]);
      SelectIsPart(calls[1..], mask[1..]);
      ForwardTail(calls[0], Select(calls[1..], mask[1..]));
    }
  }

  /** Dropping any of the denied calls from a history changes no other reply. */
  lemma DeniedProbesAreInvisible(capacity: nat, refill: nat, calls: seq<Call>, mask: seq<bool>)
    requires refill > 0 && |calls| == |mask| && Forward(None, calls)
    requires Steady(capacity, refill, calls, Slack(capacity, refill))
    requires Steady(capacity, refill, Select(calls, mask), Slack(capacity, refill))
    requires forall i :: 0 <= i < |calls| && !mask[i] ==> !Serve(None, capacity, refill, calls)[i].allowed
    ensures Serve(None, capacity, refill, Select(calls, mask)) == Select(Serve(None, capacity, refill, calls), mask)
  {
    ExpiryIsInvisible(None, capacity, refill, calls);
    assert Forward(None, Kept(calls));
    ErasureFrom(None, None, capacity, refill, Kept(calls), mask);
    SelectKept(calls, mask);
    SelectForward(calls, mask);
    ExpiryIsInvisible(None, capacity, refill, Select(calls, mask));
  }

  /** Whether repeating the denied call alone, `wait` ms later by the host and at `at` by Redis, is allowed. */
  predicate AllowedAfter(b: Option<Bucket>, capacity: nat, refill: nat, c: Call, wait: nat, at: int, swept: bool)
    requires refill > 0
  {
    ReplyTo(After(b, capacity, refill, c), capacity, refill, Call(c.now + wait, at, c.cost, swept)).allowed
  }

  /** The two clocks agree to within the slack while the caller waits. */
  predicate WaitInStep(capacity: nat, refill: nat, c: Call, wait: nat, at: int)
    requires refill > 0
  {
    (at - c.at) - wait <= Slack(capacity, refill)
  }

  lemma RetryAfterWait(b: Option<Bucket>, capacity: nat, refill: nat, c: Call, wait: nat, at: int, swept: bool)
    requires refill > 0 && WellFormed(b, capacity, refill) && WaitInStep(capacity, refill, c, wait, at)
    requires !ReplyTo(b, capacity, refill, c).allowed
    ensures c.cost <= capacity ==>
      (AllowedAfter(b, capacity, refill, c, wait, at, swept) <==> wait >= ReplyTo(b, capacity, refill, c).retryAfter)
    ensures c.cost > capacity ==> !AllowedAfter(b, capacity, refill, c, wait, at, swept)
  {
    AfterStep(b, capacity, refill, c);
    var next := After(b, capacity, refill, c).value;
    var second := Call(c.now + wait, at, c.cost, swept);
    assert Refilled(Seen(Some(next), second), capacity, refill, second.now)
      == Min(capacity, next.tokens + wait * refill) by {
      if Seen(Some(next), second) != Some(next) {
        ExpiredIsFull(next, capacity, refill, second);
      }
    }
    CeilDivIsLeast(c.cost - next.tokens, refill, wait);
  }

  lemma CeilDivIsLeast(a: int, b: int, q: int)
    requires b > 0
    ensures q >= CeilDiv(a, b) <==> q * b >= a
  {
    var d := CeilDiv(a, b);
    if q >= d {
      assert q * b >= d * b;
    } else {
      assert q * b <= (d - 1) * b;
    }
  }

  /**
   The advertised wait is exact, no shorter wait succeeds and every longer one does, if and
   only if the call could ever be paid for.
   */
  lemma RetryAfterIsExact(b: Option<Bucket>, capacity: nat, refill: nat, c: Call)
    requires refill > 0 && WellFormed(b, capacity, refill)
    requires !ReplyTo(b, capacity, refill, c).allowed
    ensures c.cost <= capacity <==>
      forall wait: nat, at, swept :: WaitInStep(capacity, refill, c, wait, at) ==>
        (AllowedAfter(b, capacity, refill, c, wait, at, swept)
         <==> wait >= ReplyTo(b, capacity, refill, c).retryAfter)
  {
    forall wait: nat, at, swept | WaitInStep(capacity, refill, c, wait, at)
      ensures c.cost <= capacity ==>
        (AllowedAfter(b, capacity, refill, c, wait, at, swept)
         <==> wait >= ReplyTo(b, capacity, refill, c).retryAfter)
      ensures c.cost > capacity ==> !AllowedAfter(b, capacity, refill, c, wait, at, swept)
    {
      RetryAfterWait(b, capacity, refill, c, wait, at, swept);
    }
    var d := Max(0, ReplyTo(b, capacity, refill, c).retryAfter);
    SlackIsASecond(capacity, refill);
    assert WaitInStep(capacity, refill, c, d, c.at);
    assert c.cost > capacity ==> !AllowedAfter(b, capacity, refill, c, d, c.at, false);
  }
}
