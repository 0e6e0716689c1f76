/** The Redis key formats: colon-joined segments, told apart by their text alone. */
module KeyBuilders {

  /** Text that cannot be mistaken for a separator: UUIDs, decimal numbers, unpadded base64url. */
  predicate IsSegment(s: string) {
    ':' !in s
  }

  function Join(segments: seq<string>): string {
    if segments == [] then "" else if |segments| == 1 then segments[0] else segments[0] + ":" + Join(segments[1..])
  }

  function Digit(d: nat): char
    requires d < 10
  {
    "0123456789"[d]
  }

  /** A version number as `format!` prints it. */
  function Decimal(n: nat): string {
    if n < 10 then [Digit(n)] else Decimal(n / 10) + [Digit(n % 10)]
  }

  function TaskDetailKey(tenant: string, version: nat, task: string): string {
    Join(["cache", "tasks", "detail", tenant, Decimal(version), task])
  }

  /** `payload` is the base64url text of the serialised limit, cursor and filters. */
  function TaskListKey(tenant: string, version: nat, payload: string): string {
    Join(["cache", "tasks", "list", tenant, Decimal(version), payload])
  }

  function TenantVersionKey(tenant: string): string {
    Join(["cache", "tenant", tenant, "version"])
  }

  /** `route` is itself a colon-joined name such as projects:create; `key` is base64url text. */
  function IdempotencyKey(tenant: string, route: seq<string>, key: string): string {
    Join(["idempotency", tenant] + route + [key])
  }

  lemma DigitIsInjective(a: nat, b: nat)
    requires a < 10 && b < 10 && Digit(a) == Digit(b)
    ensures a == b
  {
  }

  lemma {:induction false} DecimalIsInjective(a: nat, b: nat)
    requires Decimal(a) == Decimal(b)
    ensures a == b
  {
    var s, t := Decimal(a), Decimal(b);
    DecimalShape(a);
    DecimalShape(b);
    assert s[|s| - 1] == t[|t| - 1];
    DigitIsInjective(a % 10, b % 10);
    if a < 10 {
    } else {
      assert |s| > 1;
      assert s[..|s| - 1] == t[..|t| - 1];
      DecimalIsInjective(a / 10, b / 10);
    }
  }

  lemma {:induction false} DecimalShape(n: nat)
    ensures IsSegment(Decimal(n)) && |Decimal(n)| > 0
    ensures Decimal(n)[|Decimal(n)| - 1] == Digit(n % 10)
    ensures n >= 10 <==> |Decimal(n)| > 1
    ensures n >= 10 ==> Decimal(n)[..|Decimal(n)| - 1] == Decimal(n / 10)
  {
    assert forall d: nat :: d < 10 ==> Digit(d) != ':';
    if n < 10 {
    } else {
      DecimalShape(n / 10);
    }
  }

  function FirstColon(s: string): nat {
    if s == [] || s[0] == ':' then 0 else 1 + FirstColon(s[1..])
  }

  lemma {:induction false} SegmentEndsAtColon(a: string, x: string)
    requires IsSegment(a)
    ensures FirstColon(a + ":" + x) == |a|
  {
    if a == [] {
    } else {
      assert (a + ":" + x)[1..] == a[1..] + ":" + x;
      SegmentEndsAtColon(a[1..], x);
    }
  }

  /** Two joins agree only if their first segments do. */
  lemma {:induction false} HeadIsDetermined(a: string, x: string, b: string, y: string)
    requires IsSegment(a) && IsSegment(b) && a + ":" + x == b + ":" + y
    ensures a == b && x == y
  {
    SegmentEndsAtColon(a, x);
    SegmentEndsAtColon(b, y);
    assert a == (a + ":" + x)[..|a|] && b == (b + ":" + y)[..|b|];
    assert x == (a + ":" + x)[|a| + 1..] && y == (b + ":" + y)[|b| + 1..];
  }

  lemma ColonMeansMany(a: seq<string>)
    requires a != [] && forall i :: 0 <= i < |a| ==> IsSegment(a[i])
    ensures ':' in Join(a) <==> |a| > 1
  {
    assert |a| > 1 ==> Join(a)[|a[0]|] == ':';
  }

  lemma {:induction false} JoinIsInjective(a: seq<string>, b: seq<string>)
    requires a != [] && b != []
    requires forall i :: 0 <= i < |a| ==> IsSegment(a[i])
    requires forall i :: 0 <= i < |b| ==> IsSegment(b[i])
    requires Join(a) == Join(b)
    ensures a == b
    decreases |a|
  {
    ColonMeansMany(a);
    ColonMeansMany(b);
    if |a| > 1 {
      HeadIsDetermined(a[0], Join(a[1..]), b[0], Join(b[1..]));
      JoinIsInjective(a[1..], b[1..]);
      assert a == [a[0]] + a[1..] && b == [b[0]] + b[1..];
    } else {
      assert a == [a[0]] && b == [b[0]];
    }
  }

  /** A cached page or task is never found under another tenant, version or payload, nor one for the other. */
  lemma CacheKeysDoNotCollide(t: string, v: nat, p: string, u: string, w: nat, q: string)
    requires IsSegment(t) && IsSegment(u) && IsSegment(p) && IsSegment(q)
    ensures TaskListKey(t, v, p) == TaskListKey(u, w, q) <==> t == u && v == w && p == q
    ensures TaskDetailKey(t, v, p) == TaskDetailKey(u, w, q) <==> t == u && v == w && p == q
    ensures TaskListKey(t, v, p) != TaskDetailKey(u, w, q)
    ensures TenantVersionKey(t) == TenantVersionKey(u) <==> t == u
  {
    DecimalShape(v);
    DecimalShape(w);
    var a, b := ["cache", "tasks", "list", t, Decimal(v), p], ["cache", "tasks", "list", u, Decimal(w), q];
    var c, d := ["cache", "tasks", "detail", t, Decimal(v), p], ["cache", "tasks", "detail", u, Decimal(w), q];
    if Join(a) == Join(b) {
      JoinIsInjective(a, b);
      assert a[3] == b[3] && a[4] == b[4] && a[5] == b[5];
      DecimalIsInjective(v, w);
    }
    if Join(c) == Join(d) {
      JoinIsInjective(c, d);
      assert c[3] == d[3] && c[4] == d[4] && c[5] == d[5];
      DecimalIsInjective(v, w);
    }
    ListAndDetailDiffer(a, d);
    VersionKeys(t, u);
  }

  lemma ListAndDetailDiffer(a: seq<string>, d: seq<string>)
    requires |a| == 6 && |d| == 6 && a[2] == "list" && d[2] == "detail"
    requires forall i :: 0 <= i < 6 ==> IsSegment(a[i]) && IsSegment(d[i])
    ensures Join(a) != Join(d)
  {
    assert |a[2]| == 4 && |d[2]| == 6;
    if Join(a) == Join(d) {
      JoinIsInjective(a, d);
      assert false;
    }
  }

  lemma VersionKeys(t: string, u: string)
    requires IsSegment(t) && IsSegment(u)
    ensures TenantVersionKey(t) == TenantVersionKey(u) <==> t == u
  {
    if TenantVersionKey(t) == TenantVersionKey(u) {
      var a, b := ["cache", "tenant", t, "version"], ["cache", "tenant", u, "version"];
      JoinIsInjective(a, b);
      assert a[2] == b[2];
    }
  }

  /** One idempotency key per tenant, route and client key. */
  lemma IdempotencyKeysDoNotCollide(t: string, r: seq<string>, k: string, u: string, s: seq<string>, l: string)
    requires IsSegment(t) && IsSegment(u) && IsSegment(k) && IsSegment(l)
    requires (forall i :: 0 <= i < |r| ==> IsSegment(r[i])) && (forall i :: 0 <= i < |s| ==> IsSegment(s[i]))
    ensures IdempotencyKey(t, r, k) == IdempotencyKey(u, s, l) <==> t == u && r == s && k == l
  {
    var a, b := ["idempotency", t] + r + [k], ["idempotency", u] + s + [l];
    if Join(a) == Join(b) {
      JoinIsInjective(a, b);
      assert a[1] == b[1] && a[|a| - 1] == b[|b| - 1] && a[2..|a| - 1] == r && b[2..|b| - 1] == s;
    }
  }

  /** `{kind}:{task}:{assignee}:{bucket}` */
  function DedupeKey(kind: string, task: string, assignee: string, bucket: nat): string {
    Join([kind, task, assignee, Decimal(bucket)])
  }

  /** One dedupe key per kind, task, assignee and bucket. */
  lemma DedupeKeysDoNotCollide(k: string, t: string, a: string, b: nat, l: string, u: string, c: string, d: nat)
    requires IsSegment(k) && IsSegment(t) && IsSegment(a) && IsSegment(l) && IsSegment(u) && IsSegment(c)
    ensures DedupeKey(k, t, a, b) == DedupeKey(l, u, c, d) <==> k == l && t == u && a == c && b == d
  {
    DecimalShape(b);
    DecimalShape(d);
    var x, y := [k, t, a, Decimal(b)], [l, u, c, Decimal(d)];
    if Join(x) == Join(y) {
      JoinIsInjective(x, y);
      assert x[0] == y[0] && x[1] == y[1] && x[2] == y[2] && x[3] == y[3];
      DecimalIsInjective(b, d);
    }
  }

  lemma DecimalTexts()
    ensures Decimal(7) == "7" && Decimal(12) == "12"
  {
    assert Decimal(1) == "1" && Decimal(12) == Decimal(1) + [Digit(2)];
  }

  /** The formats, by example. */
  lemma TaskDetailText()
    ensures TaskDetailKey("t", 12, "x") == "cache:tasks:detail:t:12:x"
  {
    DecimalTexts();
    JoinSix("cache", "tasks", "detail", "t", "12", "x");
  }

  lemma TaskListText()
    ensures TaskListKey("t", 7, "p") == "cache:tasks:list:t:7:p"
  {
    DecimalTexts();
    JoinSix("cache", "tasks", "list", "t", "7", "p");
  }

  lemma TenantVersionText()
    ensures TenantVersionKey("t") == "cache:tenant:t:version"
  {
    JoinFour("cache", "tenant", "t", "version");
  }

  lemma IdempotencyText()
    ensures IdempotencyKey("t", ["projects", "create"], "k") == "idempotency:t:projects:create:k"
  {
    assert ["idempotency", "t"] + ["projects", "create"] + ["k"] == ["idempotency", "t", "projects", "create", "k"];
    JoinFive("idempotency", "t", "projects", "create", "k");
  }

  lemma DedupeText()
    ensures DedupeKey("task_overdue", "x", "u", 7) == "task_overdue:x:u:7"
  {
    DecimalTexts();
    JoinFour("task_overdue", "x", "u", "7");
  }

  lemma JoinFour(a: string, b: string, c: string, d: string)
    ensures Join([a, b, c, d]) == a + ":" + (b + ":" + (c + ":" + d))
  {
    assert [c, d][1..] == [d] && Join([d]) == d;
    assert Join([c, d]) == c + ":" + d;
    assert [b, c, d][1..] == [c, d] && Join([b, c, d]) == b + ":" + Join([c, d]);
    assert [a, b, c, d][1..] == [b, c, d];
  }

  lemma JoinFive(a: string, b: string, c: string, d: string, e: string)
    ensures Join([a, b, c, d, e]) == a + ":" + (b + ":" + (c + ":" + (d + ":" + e)))
  {
    assert [a, b, c, d, e][1..] == [b, c, d, e];
    JoinFour(b, c, d, e);
  }

  lemma JoinSix(a: string, b: string, c: string, d: string, e: string, f: string)
    ensures Join([a, b, c, d, e, f]) == a + ":" + (b + ":" + (c + ":" + (d + ":" + (e + ":" + f))))
  {
    assert [a, b, c, d, e, f][1..] == [b, c, d, e, f];
    JoinFive(b, c, d, e, f);
  }
}
