/**
 Keyset pagination over the order (updated_at, id), newest first. A query result is given by the
 sort keys of its rows; a filter is any predicate on a row together with its labels and project.
 */
module Keyset {
  import opened Prelude

  type TaskId = nat

  datatype Task = Task(updatedAt: int, content: string)

  type Table = map<TaskId, Task>

  type Filter = Task -> bool

  /** A sort key, which is also what a cursor token carries. */
  datatype Cursor = Cursor(updatedAt: int, id: TaskId)

  /** The cursor clause: `updated_at < c OR (updated_at = c AND id < c)`. */
  predicate Less(a: Cursor, b: Cursor) {
    a.updatedAt < b.updatedAt || (a.updatedAt == b.updatedAt && a.id < b.id)
  }

  predicate Under(k: Cursor, c: Option<Cursor>) {
    match c
    case None => true
    case Some(c) => Less(k, c)
  }

  function Keys(rows: Table, filter: Filter): set<Cursor> {
    set id | id in rows && filter(rows[id]) :: Cursor(rows[id].updatedAt, id)
  }

  function Below(keys: set<Cursor>, c: Option<Cursor>): set<Cursor> {
    set k | k in keys && Under(k, c)
  }

  ghost predicate Falling(ks: seq<Cursor>) {
    forall i, j :: 0 <= i < j < |ks| ==> Less(ks[j], ks[i])
  }

  predicate Highest(keys: set<Cursor>, m: Cursor) {
    m in keys && forall k :: k in keys ==> k == m || Less(k, m)
  }

  lemma {:induction false} HighestExists(keys: set<Cursor>)
    requires keys != {}
    ensures exists m :: Highest(keys, m)
    decreases |keys|
  {
    var m :| m in keys;
    var rest := keys - {m};
    assert forall k :: k in keys ==> k == m || k in rest;
    if rest == {} {
      assert Highest(keys, m);
    } else {
      HighestExists(rest);
      var other :| Highest(rest, other);
      assert Highest(keys, if Less(m, other) then other else m);
    }
  }

  /** What `ORDER BY updated_at DESC, id DESC` returns. */
  function Descending(keys: set<Cursor>): (ks: seq<Cursor>)
    ensures |ks| == |keys|
    decreases |keys|
  {
    if keys == {} then [] else
      HighestExists(keys);
      var m :| m in keys && Highest(keys, m);
      [m] + Descending(keys - {m})
  }

  lemma {:induction false} DescendingSorts(keys: set<Cursor>)
    ensures Falling(Descending(keys)) && Elements(Descending(keys)) == keys
    decreases |keys|
  {
    if keys == {} {
    } else {
      var ks := Descending(keys);
      var m := ks[0];
      assert Highest(keys, m) && ks[1..] == Descending(keys - {m});
      DescendingSorts(keys - {m});
      HeadFirst(ks, m, keys);
    }
  }

  lemma HeadFirst(ks: seq<Cursor>, m: Cursor, keys: set<Cursor>)
    requires ks != [] && ks[0] == m && Highest(keys, m)
    requires Falling(ks[1..]) && Elements(ks[1..]) == keys - {m}
    ensures Falling(ks) && Elements(ks) == keys
  {
    assert ks == [m] + ks[1..];
    forall j | 1 <= j < |ks|
      ensures ks[j] in keys && ks[j] != m
    {
      assert ks[j] == ks[1..][j - 1] && ks[j] in Elements(ks[1..]);
    }
    assert forall i, j :: 1 <= i < j < |ks| ==> ks[i] == ks[1..][i - 1] && ks[j] == ks[1..][j - 1];
    forall k | k in keys
      ensures k in ks
    {
      if k != m {
        assert k in Elements(ks[1..]);
      }
    }
  }

  /** A falling sequence is determined by its elements. */
  lemma {:induction false} FallingIsUnique(a: seq<Cursor>, b: seq<Cursor>)
    requires Falling(a) && Falling(b) && Elements(a) == Elements(b)
    ensures a == b
    decreases |a|
  {
    if a == [] {
      assert forall i :: 0 <= i < |b| ==> b[i] in Elements(b);
    } else {
      assert a[0] in Elements(b);
      var j :| 0 <= j < |b| && b[j] == a[0];
      assert b[0] in Elements(a);
      var i :| 0 <= i < |a| && a[i] == b[0];
      assert a[0] == b[0];
      TailElements(a);
      TailElements(b);
      FallingIsUnique(a[1..], b[1..]);
      assert a == [a[0]] + a[1..] && b == [b[0]] + b[1..];
    }
  }

  lemma TailElements(a: seq<Cursor>)
    requires Falling(a) && a != []
    ensures Elements(a[1..]) == Elements(a) - {a[0]}
  {
    forall k | k in Elements(a) - {a[0]}
      ensures k in Elements(a[1..])
    {
      var i :| 0 <= i < |a| && a[i] == k;
      assert a[1..][i - 1] == k;
    }
  }

  /** Continuing from the k-th row of a listing gives the rest of that listing. */
  lemma Resume(keys: set<Cursor>, c: Option<Cursor>, k: nat)
    requires var d := Descending(Below(keys, c)); 0 < k <= |d|
    ensures var d := Descending(Below(keys, c));
            Descending(Below(keys, Some(d[k - 1]))) == d[k..] && Under(d[k - 1], c)
  {
    var d := Descending(Below(keys, c));
    DescendingSorts(Below(keys, c));
    assert d[k - 1] in Elements(d);
    var rest := Below(keys, Some(d[k - 1]));
    DescendingSorts(rest);
    RestElements(keys, c, d, k);
    FallingIsUnique(Descending(rest), d[k..]);
  }

  lemma RestElements(keys: set<Cursor>, c: Option<Cursor>, d: seq<Cursor>, k: nat)
    requires Falling(d) && Elements(d) == Below(keys, c) && 0 < k <= |d|
    ensures Elements(d[k..]) == Below(keys, Some(d[k - 1]))
  {
    var rest := Below(keys, Some(d[k - 1]));
    forall x | x in rest
      ensures x in Elements(d[k..])
    {
      assert d[k - 1] in Elements(d);
      assert x in Below(keys, c);
      assert x in Elements(d);
      var i :| 0 <= i < |d| && d[i] == x;
      assert i >= k;
      assert d[k..][i - k] == x;
    }
    forall x | x in Elements(d[k..])
      ensures x in rest
    {
      var i :| 0 <= i < |d[k..]| && d[k..][i] == x;
      assert d[i + k] == x && x in Elements(d);
    }
  }

  function Take(ks: seq<Cursor>, n: nat): seq<Cursor> {
    if |ks| <= n then ks else ks[..n]
  }

  /** The SELECT behind both forms. */
  function Select(rows: Table, filter: Filter, cursor: Option<Cursor>, limit: nat): seq<Cursor> {
    Take(Descending(Below(Keys(rows, filter), cursor)), limit)
  }

  /** What `ORDER BY ... LIMIT` promises about its answer, and all there is to say about it. */
  ghost predicate Answers(rows: Table, filter: Filter, cursor: Option<Cursor>, limit: nat, chunk: seq<Cursor>) {
    var matching := Below(Keys(rows, filter), cursor);
    && Falling(chunk) && (forall k :: k in chunk ==> k in matching)
    && |chunk| <= limit
    && (|chunk| < limit ==> forall k :: k in matching ==> k in chunk)
    && (forall k :: k in matching && k !in chunk ==> chunk == [] || Less(k, chunk[|chunk| - 1]))
  }

  lemma SelectAnswers(rows: Table, filter: Filter, cursor: Option<Cursor>, limit: nat)
    ensures Answers(rows, filter, cursor, limit, Select(rows, filter, cursor, limit))
  {
    var matching := Below(Keys(rows, filter), cursor);
    DescendingSorts(matching);
    PrefixAnswers(rows, filter, cursor, limit, Descending(matching));
  }

  lemma PrefixAnswers(rows: Table, filter: Filter, cursor: Option<Cursor>, limit: nat, d: seq<Cursor>)
    requires Falling(d) && Elements(d) == Below(Keys(rows, filter), cursor)
    ensures Answers(rows, filter, cursor, limit, Take(d, limit))
  {
    var chunk := Take(d, limit);
    assert forall k :: k in d <==> k in Elements(d);
    forall k | k in Elements(d) && k !in chunk
      ensures chunk == [] || Less(k, chunk[|chunk| - 1])
    {
      var i :| 0 <= i < |d| && d[i] == k;
      assert forall m :: 0 <= m < |chunk| ==> chunk[m] == d[m];
      assert i >= |chunk|;
    }
  }

  /** Newest first, the greater id first among equals; only matches past the cursor, and the first of them. */
  lemma AnswersNewestFirst(rows: Table, filter: Filter, cursor: Option<Cursor>, limit: nat, chunk: seq<Cursor>)
    requires Answers(rows, filter, cursor, limit, chunk)
    ensures |chunk| <= limit
    ensures forall i, j :: 0 <= i < j < |chunk| ==>
      chunk[i].updatedAt > chunk[j].updatedAt || (chunk[i].updatedAt == chunk[j].updatedAt && chunk[i].id > chunk[j].id)
    ensures forall k :: k in chunk ==>
      k.id in rows && filter(rows[k.id]) && k.updatedAt == rows[k.id].updatedAt && Past(k, cursor)
    ensures forall id :: id in rows && filter(rows[id]) && Past(Cursor(rows[id].updatedAt, id), cursor) ==>
      Cursor(rows[id].updatedAt, id) in chunk
      || (|chunk| == limit && forall k :: k in chunk ==>
            k.updatedAt > rows[id].updatedAt || (k.updatedAt == rows[id].updatedAt && k.id > id))
  {
    forall id | id in rows && filter(rows[id]) && Past(Cursor(rows[id].updatedAt, id), cursor)
                && Cursor(rows[id].updatedAt, id) !in chunk
      ensures |chunk| == limit
      ensures forall k :: k in chunk ==>
        k.updatedAt > rows[id].updatedAt || (k.updatedAt == rows[id].updatedAt && k.id > id)
    {
      assert Cursor(rows[id].updatedAt, id) in Below(Keys(rows, filter), cursor);
      forall k | k in chunk
        ensures Less(Cursor(rows[id].updatedAt, id), k)
      {
        var i :| 0 <= i < |chunk| && chunk[i] == k;
      }
    }
  }

  /** Strictly older than the cursor's row, or as old with a smaller id. */
  predicate Past(k: Cursor, cursor: Option<Cursor>) {
    cursor.Some? ==>
      k.updatedAt < cursor.value.updatedAt || (k.updatedAt == cursor.value.updatedAt && k.id < cursor.value.id)
  }

  function Last(ks: seq<Cursor>): Option<Cursor> {
    if ks == [] then None else Some(ks[|ks| - 1])
  }

  /** list_tasks: fetch one row more than asked for, and offer a cursor only if it was there. */
  method ListTasks(rows: Table, filter: Filter, cursor: Option<Cursor>, limit: nat)
    returns (tasks: seq<Cursor>, next: Option<Cursor>)
    ensures (tasks, next) == Page(rows, filter, cursor, limit)
    ensures limit > 0 ==> (next.Some? <==> |Below(Keys(rows, filter), cursor)| > limit)
    ensures |tasks| <= limit
    ensures forall i, j :: 0 <= i < j < |tasks| ==>
      tasks[i].updatedAt > tasks[j].updatedAt || (tasks[i].updatedAt == tasks[j].updatedAt && tasks[i].id > tasks[j].id)
    ensures forall k :: k in tasks ==>
      && k.id in rows && filter(rows[k.id]) && k.updatedAt == rows[k.id].updatedAt
      && (cursor.Some? ==> k.updatedAt < cursor.value.updatedAt
                           || (k.updatedAt == cursor.value.updatedAt && k.id < cursor.value.id))
    ensures limit > 0 && next.Some? ==> |tasks| == limit && next.value == tasks[limit - 1]
    ensures limit > 0 && next.None? ==> forall id ::
      id in rows && filter(rows[id])
      && (cursor.Some? ==> rows[id].updatedAt < cursor.value.updatedAt
                           || (rows[id].updatedAt == cursor.value.updatedAt && id < cursor.value.id)) ==>
        Cursor(rows[id].updatedAt, id) in tasks
  {
    tasks := Select(rows, filter, cursor, limit + 1);
    ghost var all := Descending(Below(Keys(rows, filter), cursor));
    assert |all| > limit ==> tasks[..limit] == all[..limit];
    next := None;
    if |tasks| > limit {
      tasks := tasks[..limit];
      next := Last(tasks);
    }
    PageIsAnswer(rows, filter, cursor, limit);
    AnswersNewestFirst(rows, filter, cursor, limit, tasks);
    if limit > 0 && next.None? {
      AllMatchesListed(rows, filter, cursor);
    }
  }

  lemma AllMatchesListed(rows: Table, filter: Filter, cursor: Option<Cursor>)
    ensures forall id :: id in rows && filter(rows[id]) && Past(Cursor(rows[id].updatedAt, id), cursor) ==>
      Cursor(rows[id].updatedAt, id) in Descending(Below(Keys(rows, filter), cursor))
  {
    var keys := Below(Keys(rows, filter), cursor);
    DescendingSorts(keys);
    forall id | id in rows && filter(rows[id]) && Past(Cursor(rows[id].updatedAt, id), cursor)
      ensures Cursor(rows[id].updatedAt, id) in Descending(keys)
    {
      assert Cursor(rows[id].updatedAt, id) in keys;
      assert Cursor(rows[id].updatedAt, id) in Elements(Descending(keys));
    }
  }

  lemma PageIsAnswer(rows: Table, filter: Filter, cursor: Option<Cursor>, limit: nat)
    ensures Answers(rows, filter, cursor, limit, Page(rows, filter, cursor, limit).0)
  {
    SelectAnswers(rows, filter, cursor, limit);
  }

  function Page(rows: Table, filter: Filter, cursor: Option<Cursor>, limit: nat): (seq<Cursor>, Option<Cursor>) {
    var all := Descending(Below(Keys(rows, filter), cursor));
    if |all| > limit then (all[..limit], Last(all[..limit])) else (all, None)
  }

  function Flatten(pages: seq<seq<Cursor>>): seq<Cursor> {
    if pages == [] then [] else pages[0] + Flatten(pages[1..])
  }

  lemma PageShrinks(rows: Table, filter: Filter, cursor: Option<Cursor>, limit: nat)
    requires limit > 0 && Page(rows, filter, cursor, limit).1.Some?
    ensures var all := Descending(Below(Keys(rows, filter), cursor));
            Descending(Below(Keys(rows, filter), Page(rows, filter, cursor, limit).1)) == all[limit..]
    ensures |Below(Keys(rows, filter), Page(rows, filter, cursor, limit).1)|
      == |Below(Keys(rows, filter), cursor)| - limit
  {
    Resume(Keys(rows, filter), cursor, limit);
  }

  /** The pages a client sees when it follows next_cursor to the end. */
  function Pages(rows: Table, filter: Filter, cursor: Option<Cursor>, limit: nat): seq<seq<Cursor>>
    requires limit > 0
    decreases |Below(Keys(rows, filter), cursor)|
  {
    var (tasks, next) := Page(rows, filter, cursor, limit);
    if next.None? then [tasks] else
      PageShrinks(rows, filter, cursor, limit);
      [tasks] + Pages(rows, filter, next, limit)
  }

  /** The shape of the page sequence, in terms of what is still to be listed. */
  lemma PagesUnfold(rows: Table, filter: Filter, cursor: Option<Cursor>, limit: nat)
    requires limit > 0
    ensures var all := Descending(Below(Keys(rows, filter), cursor));
            var next := Page(rows, filter, cursor, limit).1;
            && |all| == |Below(Keys(rows, filter), cursor)|
            && (next.None? <==> |all| <= limit)
            && (next.None? ==> Pages(rows, filter, cursor, limit) == [all])
            && (next.Some? ==> Pages(rows, filter, cursor, limit) == [all[..limit]] + Pages(rows, filter, next, limit))
  {
    if Page(rows, filter, cursor, limit).1.Some? {
      PageShrinks(rows, filter, cursor, limit);
    }
  }

  lemma {:induction false} PagesFrom(rows: Table, filter: Filter, cursor: Option<Cursor>, limit: nat)
    requires limit > 0
    ensures var n := |Below(Keys(rows, filter), cursor)|;
            Flatten(Pages(rows, filter, cursor, limit)) == Descending(Below(Keys(rows, filter), cursor))
            && |Pages(rows, filter, cursor, limit)| == Max(1, CeilDiv(n, limit))
    decreases |Below(Keys(rows, filter), cursor)|
  {
    var all := Descending(Below(Keys(rows, filter), cursor));
    var next := Page(rows, filter, cursor, limit).1;
    PagesUnfold(rows, filter, cursor, limit);
    if next.None? {
      OnlyPage(all, limit);
    } else {
      PageShrinks(rows, filter, cursor, limit);
      PagesFrom(rows, filter, next, limit);
      PageInFront(all, limit, Pages(rows, filter, next, limit));
    }
  }

  lemma OnlyPage(all: seq<Cursor>, limit: nat)
    requires limit > 0 && |all| <= limit
    ensures Flatten([all]) == all && Max(1, CeilDiv(|all|, limit)) == 1
  {
    FlattenCons(all, []);
    AtMostOnePage(|all|, limit);
  }

  lemma PageInFront(all: seq<Cursor>, limit: nat, pages: seq<seq<Cursor>>)
    requires limit > 0 && |all| > limit
    requires Flatten(pages) == all[limit..] && |pages| == Max(1, CeilDiv(|all| - limit, limit))
    ensures Flatten([all[..limit]] + pages) == all && |[all[..limit]] + pages| == Max(1, CeilDiv(|all|, limit))
  {
    FlattenCons(all[..limit], pages);
    OnePageMore(|all|, limit);
  }

  lemma FlattenCons(page: seq<Cursor>, pages: seq<seq<Cursor>>)
    ensures Flatten([page] + pages) == page + Flatten(pages)
  {
    assert ([page] + pages)[1..] == pages;
  }

  lemma AtMostOnePage(n: nat, limit: nat)
    requires 0 < limit && n <= limit
    ensures CeilDiv(n, limit) <= 1
  {
    var q := CeilDiv(n, limit);
    if q >= 2 {
      Scale(1, q - 1, limit);
    }
  }

  lemma OnePageMore(n: nat, limit: nat)
    requires limit > 0 && n > limit
    ensures CeilDiv(n, limit) == CeilDiv(n - limit, limit) + 1 && CeilDiv(n - limit, limit) >= 1
  {
    var a, b := CeilDiv(n, limit), CeilDiv(n - limit, limit);
    SameQuotient(n - limit, limit, b, a - 1);
  }

  lemma SameQuotient(n: int, d: int, p: int, q: int)
    requires d > 0 && (p - 1) * d < n <= p * d && (q - 1) * d < n <= q * d
    ensures p == q
    ensures n > 0 ==> p >= 1
  {
    if p < q {
      Scale(p, q - 1, d);
    } else if q < p {
      Scale(q, p - 1, d);
    }
    if p <= 0 {
      Scale(p, 0, d);
    }
  }

  /**
   On a table at rest, following next_cursor yields every matching task once, newest first, in
   max(1, ceil(n / limit)) pages.
   */
  lemma FollowingCursorsListsEverything(rows: Table, filter: Filter, limit: nat)
    requires limit > 0
    ensures Flatten(Pages(rows, filter, None, limit)) == Descending(Keys(rows, filter))
    ensures Falling(Descending(Keys(rows, filter))) && Elements(Descending(Keys(rows, filter))) == Keys(rows, filter)
    ensures |Pages(rows, filter, None, limit)| == Max(1, CeilDiv(|Keys(rows, filter)|, limit))
  {
    assert Below(Keys(rows, filter), None) == Keys(rows, filter);
    PagesFrom(rows, filter, None, limit);
    DescendingSorts(Keys(rows, filter));
  }
}
