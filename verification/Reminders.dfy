/** Reminder sweeps against retention: one notification per kind, task, assignee and dedupe bucket. */
module Reminders {
  import opened Prelude

  /** Instants and windows are counted in microseconds since the epoch, the database's resolution. */
  type Instant = nat
  type Id = nat

  datatype Kind = TaskOverdue | TaskDueSoon
  datatype Subject = Subject(kind: Kind, task: Id, assignee: Id)
  datatype Key = Key(subject: Subject, bucket: nat)
  datatype Row = Row(createdAt: Instant, terminal: bool)
  datatype Candidate = Candidate(task: Id, assignee: Id, dueAt: Option<Instant>)

  /** Rows with a dedupe key; the unique index makes the key theirs alone. */
  type Table = map<Key, Row>

  function SubjectOf(c: Candidate, now: Instant): Subject {
    var overdue := c.dueAt.Some? && c.dueAt.value <= now;
    Subject(if overdue then TaskOverdue else TaskDueSoon, c.task, c.assignee)
  }

  /** A task due by now is overdue, any other due soon. */
  lemma DueDecidesKind(c: Candidate, now: Instant)
    ensures SubjectOf(c, now)
      == Subject(if c.dueAt.Some? && c.dueAt.value <= now then TaskOverdue else TaskDueSoon, c.task, c.assignee)
  {
  }

  function KeyOf(window: nat, subject: Subject, captured: Instant): Key
    requires window > 0
  {
    Key(subject, captured / window)
  }

  predicate Stale(r: Row, retention: nat, now: Instant) {
    r.terminal && r.createdAt + retention < now
  }

  /** The service counts whole seconds: the same bucket as over microseconds. */
  lemma BucketInSeconds(t: Instant, seconds: nat)
    requires seconds > 0
    ensures (t / 1_000_000) / seconds == t / (seconds * 1_000_000)
  {
    var q := (t / 1_000_000) / seconds;
    var w := seconds * 1_000_000;
    QuotientSpan(t / 1_000_000, seconds, q);
    Regroup(q, seconds);
    Regroup(q + 1, seconds);
    QuotientIs(t, q, w);
  }

  lemma Regroup(q: nat, seconds: nat)
    ensures q * (seconds * 1_000_000) == (q * seconds) * 1_000_000
  {
  }

  lemma QuotientIs(t: nat, q: nat, w: nat)
    requires w > 0 && q * w <= t < (q + 1) * w
    ensures t / w == q
  {
    QuotientBelow(t, q + 1, w);
    QuotientMonotone(q * w, t, w);
    ExactQuotient(q, w);
  }

  lemma ExactQuotient(q: nat, w: nat)
    requires w > 0
    ensures (q * w) / w == q
  {
    QuotientBelow(q * w, q + 1, w);
    assert q * w < ((q * w) / w + 1) * w;
    QuotientBelow(q * w, (q * w) / w + 1, w);
    if (q * w) / w < q {
      Scale((q * w) / w + 1, q, w);
    }
  }

  function Purged(rows: Table, retention: nat, now: Instant): Table {
    map k | k in rows && !Stale(rows[k], retention, now) :: rows[k]
  }

  /** ---- Runs ---- */

  /** `captured` is the clock reading a sweep took its bucket from; Mark is any delivery outcome. */
  datatype Action =
    | Remind(subject: Subject, captured: Instant)
    | Mark(key: Key, terminal: bool)
    | Purge

  datatype Event = Event(at: Instant, action: Action)

  datatype Sent = Sent(key: Key, captured: Instant, at: Instant)

  /** `sent` lists every reminder ever inserted. */
  datatype World = World(rows: Table, sent: seq<Sent>)

  const START: World := World(map[], [])

  datatype Settings = Settings(window: nat, retention: nat)

  predicate ValidSettings(c: Settings) {
    c.window > 0
  }

  function Step(c: Settings, s: World, e: Event): World
    requires ValidSettings(c)
  {
    match e.action
    case Remind(subject, captured) =>
      var key := KeyOf(c.window, subject, captured);
      if key in s.rows then s
      else World(s.rows[key := Row(e.at, false)], s.sent + [Sent(key, captured, e.at)])
    case Mark(key, terminal) =>
      if key !in s.rows then s else s.(rows := s.rows[key := s.rows[key].(terminal := terminal)])
    case Purge => s.(rows := Purged(s.rows, c.retention, e.at))
  }

  function Run(c: Settings, s: World, es: seq<Event>): World
    requires ValidSettings(c)
    decreases |es|
  {
    if es == [] then s else Run(c, Step(c, s, es[0]), es[1..])
  }

  predicate Ordered(clock: Instant, es: seq<Event>)
    decreases |es|
  {
    es != [] ==> clock <= es[0].at && Ordered(es[0].at, es[1..])
  }

  /** Every sweep inserts within `stall` of reading its clock. */
  predicate Prompt(stall: nat, es: seq<Event>) {
    forall i :: 0 <= i < |es| ==> PromptEvent(stall, es[i])
  }

  predicate PromptEvent(stall: nat, e: Event) {
    e.action.Remind? ==> e.action.captured <= e.at <= e.action.captured + stall
  }

  ghost predicate NoRepeat(s: World) {
    forall i, j :: 0 <= i < j < |s.sent| ==> s.sent[i].key != s.sent[j].key
  }

  /** A reminder's row is still there, or retention has passed since it was inserted. */
  predicate Covered(c: Settings, s: World, clock: Instant, x: Sent) {
    (x.key in s.rows && s.rows[x.key].createdAt == x.at) || x.at + c.retention < clock
  }

  predicate InItsBucket(c: Settings, stall: nat, x: Sent)
    requires ValidSettings(c)
  {
    x.key.bucket == x.captured / c.window && x.captured <= x.at <= x.captured + stall
  }

  ghost predicate Guarded(c: Settings, stall: nat, s: World, clock: Instant)
    requires ValidSettings(c)
  {
    && NoRepeat(s)
    && forall i :: 0 <= i < |s.sent| ==> Covered(c, s, clock, s.sent[i]) && InItsBucket(c, stall, s.sent[i])
  }

  /** No sweep can land in a bucket whose first reminder is already past retention. */
  lemma TooLateForItsBucket(c: Settings, stall: nat, x: Sent, y: Sent)
    requires ValidSettings(c) && c.window + stall <= c.retention + 1
    requires InItsBucket(c, stall, x) && InItsBucket(c, stall, y) && x.key == y.key
    ensures y.at <= x.at + c.retention
  {
    var b := x.key.bucket;
    assert b * c.window <= x.captured;
    assert y.captured < b * c.window + c.window;
  }

  lemma StepGuards(c: Settings, stall: nat, s: World, clock: Instant, e: Event)
    requires ValidSettings(c) && c.window + stall <= c.retention + 1
    requires Guarded(c, stall, s, clock) && clock <= e.at && PromptEvent(stall, e)
    ensures Guarded(c, stall, Step(c, s, e), e.at)
  {
    var s' := Step(c, s, e);
    match e.action
    case Remind(subject, captured) =>
      var y := Sent(KeyOf(c.window, subject, captured), captured, e.at);
      if y.key !in s.rows {
        forall i | 0 <= i < |s.sent|
          ensures s.sent[i].key != y.key
        {
          if s.sent[i].key == y.key {
            TooLateForItsBucket(c, stall, s.sent[i], y);
          }
        }
        assert s'.sent == s.sent + [y];
      }
    case Mark(_, _) =>
    case Purge =>
  }

  lemma {:induction false} RunGuards(c: Settings, stall: nat, s: World, clock: Instant, es: seq<Event>)
    requires ValidSettings(c) && c.window + stall <= c.retention + 1
    requires Guarded(c, stall, s, clock) && Ordered(clock, es) && Prompt(stall, es)
    ensures NoRepeat(Run(c, s, es))
    ensures forall x :: x in Run(c, s, es).sent ==> InItsBucket(c, stall, x)
    decreases |es|
  {
    if es == [] {
    } else {
      assert PromptEvent(stall, es[0]);
      StepGuards(c, stall, s, clock, es[0]);
      assert Prompt(stall, es[1..]) by {
        assert forall i :: 0 <= i < |es| - 1 ==> es[1..][i] == es[i + 1];
      }
      RunGuards(c, stall, Step(c, s, es[0]), es[0].at, es[1..]);
    }
  }

  /** In every run each subject gets at most one reminder per bucket. */
  ghost predicate OncePerBucket(c: Settings, stall: nat)
    requires ValidSettings(c)
  {
    forall es :: Ordered(0, es) && Prompt(stall, es) ==> NoRepeat(Run(c, START, es))
  }

  /**
   Exactly when the dedupe window and the longest stall together stay within retention: W + S <= N + 1.
   With inserts that never stall, a window one microsecond longer than retention is still safe.
   */
  lemma OncePerBucketExactly(c: Settings, stall: nat)
    requires ValidSettings(c)
    ensures OncePerBucket(c, stall) <==> c.window + stall <= c.retention + 1
  {
    if c.window + stall <= c.retention + 1 {
      forall es | Ordered(0, es) && Prompt(stall, es)
        ensures NoRepeat(Run(c, START, es))
      {
        RunGuards(c, stall, START, 0, es);
      }
    } else {
      var es := RepeatingRun(c, stall);
      RepeatingRunRepeats(c, stall);
      RepeatingRunIsPossible(c, stall);
      assert Ordered(0, es) && Prompt(stall, es) && !NoRepeat(Run(c, START, es));
    }
  }

  const SOMEONE: Subject := Subject(TaskOverdue, 0, 0)

  function LateReading(c: Settings, stall: nat): nat {
    Max(0, c.retention + 1 - stall)
  }

  /** A reminder, its delivery, its purge the instant retention allows, and a sweep that read its clock before. */
  function RepeatingRun(c: Settings, stall: nat): seq<Event> {
    var key := Key(SOMEONE, 0);
    [Event(0, Remind(SOMEONE, 0)), Event(0, Mark(key, true)), Event(c.retention + 1, Purge),
     Event(c.retention + 1, Remind(SOMEONE, LateReading(c, stall)))]
  }

  lemma RunFirst(c: Settings, s: World, e: Event, es: seq<Event>)
    requires ValidSettings(c)
    ensures Run(c, s, [e] + es) == Run(c, Step(c, s, e), es)
  {
    assert ([e] + es)[1..] == es;
  }

  lemma RepeatingRunRepeats(c: Settings, stall: nat)
    requires ValidSettings(c) && c.window + stall > c.retention + 1
    ensures !NoRepeat(Run(c, START, RepeatingRun(c, stall)))
  {
    var es := RepeatingRun(c, stall);
    var key := Key(SOMEONE, 0);
    var late := LateReading(c, stall);
    assert 0 / c.window == 0 && late / c.window == 0;
    var s1 := World(map[key := Row(0, false)], [Sent(key, 0, 0)]);
    var s2 := World(map[key := Row(0, true)], [Sent(key, 0, 0)]);
    var s3 := World(map[], [Sent(key, 0, 0)]);
    var s4 := Step(c, s3, es[3]);
    assert Step(c, START, es[0]) == s1 && Step(c, s1, es[1]) == s2;
    assert Step(c, s2, es[2]) == s3;
    assert s4.sent == [Sent(key, 0, 0), Sent(key, late, c.retention + 1)];
    RunFirst(c, s3, es[3], []);
    RunFirst(c, s2, es[2], [es[3]]);
    RunFirst(c, s1, es[1], [es[2], es[3]]);
    RunFirst(c, START, es[0], [es[1], es[2], es[3]]);
    assert es == [es[0]] + [es[1], es[2], es[3]];
    assert s4.sent[0].key == s4.sent[1].key;
  }

  lemma RepeatingRunIsPossible(c: Settings, stall: nat)
    requires ValidSettings(c) && c.window + stall > c.retention + 1
    ensures Ordered(0, RepeatingRun(c, stall)) && Prompt(stall, RepeatingRun(c, stall))
  {
    var es := RepeatingRun(c, stall);
    assert es[1..] == [es[1], es[2], es[3]] && es[1..][1..] == [es[2], es[3]] && es[1..][1..][1..] == [es[3]];
    assert Ordered(es[2].at, [es[3]]);
    assert Ordered(es[1].at, [es[2], es[3]]);
    assert Ordered(es[0].at, [es[1], es[2], es[3]]);
  }

  /** ---- How many reminders a subject gets ---- */

  /** The bucket of every reminder about `who` inserted during the `length` microseconds from `from`. */
  function Buckets(sent: seq<Sent>, who: Subject, from: Instant, length: nat): seq<nat> {
    if sent == [] then []
    else
      var n := |sent| - 1;
      Buckets(sent[..n], who, from, length)
      + (if sent[n].key.subject == who && from <= sent[n].at < from + length then [sent[n].key.bucket] else [])
  }

  lemma {:induction false} BucketsComeFromSent(sent: seq<Sent>, who: Subject, from: Instant, length: nat)
    ensures forall b :: b in Buckets(sent, who, from, length) ==>
      exists i :: 0 <= i < |sent| && sent[i].key == Key(who, b) && from <= sent[i].at < from + length
  {
    if sent == [] {
    } else {
      var n := |sent| - 1;
      BucketsComeFromSent(sent[..n], who, from, length);
      forall b | b in Buckets(sent[..n], who, from, length)
        ensures exists i :: 0 <= i < |sent| && sent[i].key == Key(who, b) && from <= sent[i].at < from + length
      {
        var i :| 0 <= i < n && sent[..n][i].key == Key(who, b) && from <= sent[..n][i].at < from + length;
        assert sent[i] == sent[..n][i];
      }
    }
  }

  /** No such reminder is missed. */
  lemma {:induction false} EveryReminderIsCounted(sent: seq<Sent>, who: Subject, from: Instant, length: nat, i: nat)
    requires i < |sent| && sent[i].key.subject == who && from <= sent[i].at < from + length
    ensures sent[i].key.bucket in Buckets(sent, who, from, length)
  {
    var n := |sent| - 1;
    if i == n {
    } else {
      EveryReminderIsCounted(sent[..n], who, from, length, i);
    }
  }

  ghost predicate AllDifferent(bs: seq<nat>) {
    forall i, j :: 0 <= i < j < |bs| ==> bs[i] != bs[j]
  }

  lemma AddDifferent(bs: seq<nat>, b: nat)
    requires AllDifferent(bs) && b !in bs
    ensures AllDifferent(bs + [b])
  {
  }

  lemma {:induction false} BucketsDistinct(sent: seq<Sent>, who: Subject, from: Instant, length: nat)
    requires forall i, j :: 0 <= i < j < |sent| ==> sent[i].key != sent[j].key
    ensures AllDifferent(Buckets(sent, who, from, length))
  {
    if sent == [] {
    } else {
      var n := |sent| - 1;
      var before := Buckets(sent[..n], who, from, length);
      assert forall i :: 0 <= i < n ==> sent[..n][i] == sent[i];
      BucketsDistinct(sent[..n], who, from, length);
      BucketsComeFromSent(sent[..n], who, from, length);
      var last := sent[n].key;
      if last.subject == who {
        assert last == Key(who, last.bucket);
        assert last.bucket !in before;
        AddDifferent(before, last.bucket);
      }
    }
  }

  function Interval(lo: int, hi: int): (s: set<int>)
    requires lo <= hi + 1
    ensures |s| == hi + 1 - lo && forall b :: b in s <==> lo <= b <= hi
    decreases hi - lo
  {
    if lo > hi then {} else Interval(lo, hi - 1) + {hi}
  }

  lemma QuotientsApart(x: int, y: int, span: nat, window: nat)
    requires window > 0 && x <= y <= x + span
    ensures y / window - x / window <= CeilDiv(span, window)
  {
    var q, k := x / window, CeilDiv(span, window);
    assert q * window <= x < q * window + window;
    assert y < (q + 1 + k) * window by {
      assert (q + 1 + k) * window == q * window + window + k * window;
    }
    QuotientBelow(y, q + 1 + k, window);
  }

  lemma QuotientBelow(y: int, q: int, window: nat)
    requires window > 0 && y < q * window
    ensures y / window < q
  {
    assert (y / window) * window <= y;
    if y / window >= q {
      Scale(q, y / window, window);
    }
  }

  lemma QuotientMonotone(x: int, y: int, window: nat)
    requires window > 0 && x <= y
    ensures x / window <= y / window
  {
    assert x < (y / window + 1) * window;
    QuotientBelow(x, y / window + 1, window);
  }

  /** Every instant from `from` on, for `length` microseconds, lies in one of the buckets lo..hi. */
  ghost predicate Covers(window: nat, from: int, length: nat, lo: int, hi: int)
    requires window > 0
  {
    forall t: Instant :: from <= t < from + length ==> lo <= t / window <= hi
  }

  lemma BucketsCover(window: nat, from: int, length: nat)
    requires window > 0 && length > 0
    ensures Covers(window, from, length, from / window, (from + length - 1) / window)
    ensures from / window <= (from + length - 1) / window <= from / window + CeilDiv(length - 1, window)
  {
    forall t: Instant | from <= t < from + length
      ensures from / window <= t / window <= (from + length - 1) / window
    {
      QuotientMonotone(from, t, window);
      QuotientMonotone(t, from + length - 1, window);
    }
    QuotientMonotone(from, from + length - 1, window);
    QuotientsApart(from, from + length - 1, length - 1, window);
  }

  lemma BucketsWithin(c: Settings, stall: nat, sent: seq<Sent>, who: Subject, from: Instant, length: nat, lo: int,
                      hi: int)
    requires ValidSettings(c) && forall x :: x in sent ==> InItsBucket(c, stall, x)
    requires Covers(c.window, from - stall, length + stall, lo, hi)
    ensures forall b :: b in Buckets(sent, who, from, length) ==> lo <= b <= hi
  {
    BucketsComeFromSent(sent, who, from, length);
    forall b | b in Buckets(sent, who, from, length)
      ensures lo <= b <= hi
    {
      var i :| 0 <= i < |sent| && sent[i].key == Key(who, b) && from <= sent[i].at < from + length;
      assert InItsBucket(c, stall, sent[i]);
    }
  }

  lemma DistinctBetween(bs: seq<nat>, lo: int, hi: int)
    requires AllDifferent(bs) && lo <= hi && forall b :: b in bs ==> lo <= b <= hi
    ensures |bs| <= hi + 1 - lo
  {
    DistinctSize(bs);
    SizeAsInts(Elements(bs), Interval(lo, hi));
  }

  /**
   So in any L microseconds a subject gets at most ceil((L + S - 1) / W) + 1 reminders, over any number
   of sweeps and purges.
   */
  lemma ReminderRate(c: Settings, stall: nat, es: seq<Event>, who: Subject, from: Instant, length: nat)
    requires ValidSettings(c) && c.window + stall <= c.retention + 1 && length > 0
    requires Ordered(0, es) && Prompt(stall, es)
    ensures |Buckets(Run(c, START, es).sent, who, from, length)| <= CeilDiv(length + stall - 1, c.window) + 1
  {
    var sent := Run(c, START, es).sent;
    RunGuards(c, stall, START, 0, es);
    BucketsDistinct(sent, who, from, length);
    SentBetween(c, stall, sent, who, from, length);
  }

  lemma SentBetween(c: Settings, stall: nat, sent: seq<Sent>, who: Subject, from: Instant, length: nat)
    requires ValidSettings(c) && length > 0 && forall x :: x in sent ==> InItsBucket(c, stall, x)
    requires AllDifferent(Buckets(sent, who, from, length))
    ensures |Buckets(sent, who, from, length)| <= CeilDiv(length + stall - 1, c.window) + 1
  {
    BucketsCover(c.window, from - stall, length + stall);
    var lo, hi := (from - stall) / c.window, (from - stall + (length + stall) - 1) / c.window;
    BucketsWithin(c, stall, sent, who, from, length, lo, hi);
    DistinctBetween(Buckets(sent, who, from, length), lo, hi);
  }

  lemma {:induction false} SizeAsInts(a: set<nat>, b: set<int>)
    requires forall x :: x in a ==> x in b
    ensures |a| <= |b|
    decreases |a|
  {
    if a == {} {
    } else {
      var x :| x in a;
      SizeAsInts(a - {x}, b - {x});
    }
  }

  /** ---- The table and the sweep ---- */

  class NotificationTable {
    const settings: Settings
    var keyed: Table
    var unkeyed: seq<Row>

    constructor (settings: Settings)
      requires ValidSettings(settings)
      ensures this.settings == settings && keyed == map[] && unkeyed == []
    {
      this.settings := settings;
      keyed, unkeyed := map[], [];
    }

    /** Rows without a key never collide. */
    method EnqueueNotification(dedupe: Option<Key>, now: Instant) returns (inserted: bool)
      modifies this
      ensures dedupe.None? ==> inserted && keyed == old(keyed) && unkeyed == old(unkeyed) + [Row(now, false)]
      ensures dedupe.Some? ==> unkeyed == old(unkeyed) && (inserted <==> dedupe.value !in old(keyed))
      ensures dedupe.Some? ==> keyed == if inserted then old(keyed)[dedupe.value := Row(now, false)] else old(keyed)
    {
      if dedupe.None? {
        unkeyed := unkeyed + [Row(now, false)];
        return true;
      }
      inserted := dedupe.value !in keyed;
      if inserted {
        keyed := keyed[dedupe.value := Row(now, false)];
      }
    }

    method PurgeTerminalNotifications(now: Instant) returns (deleted: nat)
      requires ValidSettings(settings)
      modifies this
      ensures forall sent :: keyed == Step(settings, World(old(keyed), sent), Event(now, Purge)).rows
      ensures forall k :: k in keyed <==>
        k in old(keyed) && !(old(keyed)[k].terminal && old(keyed)[k].createdAt + settings.retention < now)
      ensures forall k :: k in keyed ==> keyed[k] == old(keyed)[k]
      ensures forall r: Row ::
        multiset(unkeyed)[r]
        == (if r.terminal && r.createdAt + settings.retention < now then 0 else multiset(old(unkeyed))[r])
      ensures deleted == |old(keyed)| - |keyed| + |old(unkeyed)| - |unkeyed|
    {
      ghost var before := keyed;
      var kept := Purged(keyed, settings.retention, now);
      assert kept.Keys <= keyed.Keys;
      SubsetSize(kept.Keys, keyed.Keys);
      deleted := |keyed| - |kept|;
      keyed := kept;
      var rest := [];
      for i := 0 to |unkeyed|
        invariant unkeyed == old(unkeyed) && keyed == kept && |rest| <= i
        invariant deleted == |before| - |kept| + i - |rest|
        invariant forall r: Row ::
          multiset(rest)[r] == (if Stale(r, settings.retention, now) then 0 else multiset(unkeyed[..i])[r])
      {
        assert unkeyed[..i + 1] == unkeyed[..i] + [unkeyed[i]];
        var r := unkeyed[i];
        if Stale(r, settings.retention, now) {
          deleted := deleted + 1;
        } else {
          rest := rest + [r];
        }
      }
      assert unkeyed[..|unkeyed|] == unkeyed;
      unkeyed := rest;
    }

    /** One sweep. `clock[i]` is the database time of the i-th insert. */
    method EnqueueDueReminderNotifications(candidates: seq<Candidate>, now: Instant, clock: seq<Instant>)
      returns (enqueued: nat)
      requires ValidSettings(settings) && |clock| == |candidates|
      modifies this
      ensures unkeyed == old(unkeyed)
      ensures keyed == Run(settings, World(old(keyed), []), Sweep(candidates, now, clock)).rows
      ensures enqueued == |Run(settings, World(old(keyed), []), Sweep(candidates, now, clock)).sent|
      ensures enqueued == |keyed| - |old(keyed)|
      ensures keyed.Keys == old(keyed).Keys + Keys(settings, candidates, now)
      ensures forall i :: 0 <= i < |candidates| ==>
        var due := candidates[i].dueAt;
        var kind := if due.Some? && due.value <= now then TaskOverdue else TaskDueSoon;
        Key(Subject(kind, candidates[i].task, candidates[i].assignee), now / settings.window) in keyed
      ensures forall k :: k in old(keyed) ==> keyed[k] == old(keyed)[k]
    {
      enqueued := 0;
      ghost var s := World(keyed, []);
      for i := 0 to |candidates|
        invariant unkeyed == old(unkeyed)
        invariant s == World(keyed, s.sent) && |s.sent| == enqueued
        invariant s == Run(settings, World(old(keyed), []), Sweep(candidates[..i], now, clock[..i]))
      {
        var key := KeyOf(settings.window, SubjectOf(candidates[i], now), now);
        SweepGrows(settings, World(old(keyed), []), candidates, now, clock, i);
        var inserted := EnqueueNotification(Some(key), clock[i]);
        if inserted {
          enqueued := enqueued + 1;
        }
        s := Step(settings, s, Event(clock[i], Remind(SubjectOf(candidates[i], now), now)));
      }
      assert candidates[..|candidates|] == candidates && clock[..|clock|] == clock;
      SweepEffect(settings, World(old(keyed), []), candidates, now, clock);
      forall i | 0 <= i < |candidates|
        ensures KeyOf(settings.window, SubjectOf(candidates[i], now), now) in keyed
      {
        assert candidates[i] in candidates;
        DueDecidesKind(candidates[i], now);
      }
    }
  }

  /** The events of one sweep. */
  function Sweep(candidates: seq<Candidate>, now: Instant, clock: seq<Instant>): seq<Event>
    requires |clock| == |candidates|
  {
    if candidates == [] then []
    else
      var n := |candidates| - 1;
      Sweep(candidates[..n], now, clock[..n]) + [Event(clock[n], Remind(SubjectOf(candidates[n], now), now))]
  }

  lemma {:induction false} RunAppend(c: Settings, s: World, es: seq<Event>, e: Event)
    requires ValidSettings(c)
    ensures Run(c, s, es + [e]) == Step(c, Run(c, s, es), e)
    decreases |es|
  {
    if es == [] {
      RunFirst(c, s, e, []);
      assert es + [e] == [e] + [];
    } else {
      assert (es + [e])[1..] == es[1..] + [e];
      RunAppend(c, Step(c, s, es[0]), es[1..], e);
    }
  }

  lemma SweepGrows(c: Settings, s: World, candidates: seq<Candidate>, now: Instant, clock: seq<Instant>, i: nat)
    requires ValidSettings(c) && |clock| == |candidates| && i < |candidates|
    ensures Run(c, s, Sweep(candidates[..i + 1], now, clock[..i + 1]))
      == Step(c, Run(c, s, Sweep(candidates[..i], now, clock[..i])),
              Event(clock[i], Remind(SubjectOf(candidates[i], now), now)))
  {
    assert candidates[..i + 1][..i] == candidates[..i] && clock[..i + 1][..i] == clock[..i];
    RunAppend(c, s, Sweep(candidates[..i], now, clock[..i]),
              Event(clock[i], Remind(SubjectOf(candidates[i], now), now)));
  }

  function Keys(c: Settings, candidates: seq<Candidate>, now: Instant): set<Key>
    requires ValidSettings(c)
  {
    set x | x in candidates :: KeyOf(c.window, SubjectOf(x, now), now)
  }

  /** What `s'` has grown to from `s` by reminders for `keys`. */
  ghost predicate Grown(s: World, keys: set<Key>, s': World) {
    && (forall k :: k in s'.rows <==> k in s.rows || k in keys)
    && (forall k :: k in s.rows ==> s'.rows[k] == s.rows[k])
    && |s'.sent| - |s.sent| == |s'.rows| - |s.rows|
  }

  lemma RowAdded(rows: Table, key: Key, row: Row)
    requires key !in rows
    ensures |rows[key := row]| == |rows| + 1
  {
    assert rows[key := row].Keys == rows.Keys + {key};
    assert |rows[key := row].Keys| == |rows.Keys| + 1;
  }

  lemma RemindGrows(c: Settings, s0: World, keys: set<Key>, s: World, at: Instant, subject: Subject, captured: Instant)
    requires ValidSettings(c) && Grown(s0, keys, s)
    ensures Grown(s0, keys + {KeyOf(c.window, subject, captured)}, Step(c, s, Event(at, Remind(subject, captured))))
  {
    var key := KeyOf(c.window, subject, captured);
    InsertGrows(s0, keys, s, key, Row(at, false), Sent(key, captured, at));
  }

  lemma InsertGrows(s0: World, keys: set<Key>, s: World, key: Key, row: Row, sent: Sent)
    requires Grown(s0, keys, s)
    ensures key in s.rows ==> Grown(s0, keys + {key}, s)
    ensures key !in s.rows ==> Grown(s0, keys + {key}, World(s.rows[key := row], s.sent + [sent]))
  {
    if key !in s.rows {
      RowAdded(s.rows, key, row);
    }
  }

  lemma KeysGrow(c: Settings, candidates: seq<Candidate>, now: Instant)
    requires ValidSettings(c) && candidates != []
    ensures var n := |candidates| - 1;
            Keys(c, candidates, now) == Keys(c, candidates[..n], now)
              + {KeyOf(c.window, SubjectOf(candidates[n], now), now)}
  {
    var n := |candidates| - 1;
    assert forall x :: x in candidates <==> x in candidates[..n] || x == candidates[n];
  }

  /** After a sweep every candidate has its reminder; existing rows are as they were. */
  lemma {:induction false} SweepEffect(c: Settings, s: World, candidates: seq<Candidate>, now: Instant,
                                       clock: seq<Instant>)
    requires ValidSettings(c) && |clock| == |candidates|
    ensures Grown(s, Keys(c, candidates, now), Run(c, s, Sweep(candidates, now, clock)))
    decreases |candidates|
  {
    if candidates == [] {
    } else {
      var n := |candidates| - 1;
      var front := Sweep(candidates[..n], now, clock[..n]);
      SweepEffect(c, s, candidates[..n], now, clock[..n]);
      RunAppend(c, s, front, Event(clock[n], Remind(SubjectOf(candidates[n], now), now)));
      RemindGrows(c, s, Keys(c, candidates[..n], now), Run(c, s, front), clock[n], SubjectOf(candidates[n], now), now);
      KeysGrow(c, candidates, now);
    }
  }
}
