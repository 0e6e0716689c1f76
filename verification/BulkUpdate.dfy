/** Bulk status change: normalising the requested ids, updating all or nothing, answering in request order. */
module BulkUpdate {
  import opened Prelude

  type TaskId = nat
  type TenantId = nat
  type UserId = nat

  datatype Error = NoIds | TooManyIds | NotFound | CacheDown
  datatype Result<+T> = Ok(value: T) | Err(error: Error)

  const MAX_BULK_TASK_IDS: nat := 100
  const USIZE_MAX: nat := 0xFFFF_FFFF_FFFF_FFFF

  ghost predicate Distinct<T(!new)>(xs: seq<T>) {
    forall i, j :: 0 <= i < j < |xs| ==> xs[i] != xs[j]
  }

  /** ---- First-seen order ---- */

  /** The elements of `xs`, each kept where it first occurs. */
  function FirstSeen<T(==)>(xs: seq<T>): seq<T> {
    if xs == [] then []
    else
      var n := |xs| - 1;
      if xs[n] in xs[..n] then FirstSeen(xs[..n]) else FirstSeen(xs[..n]) + [xs[n]]
  }

  function IndexOf<T(==)>(xs: seq<T>, x: T): (k: nat)
    requires x in xs
    ensures k < |xs| && xs[k] == x && x !in xs[..k]
  {
    if xs[0] == x then 0
    else
      assert forall k :: 0 < k < |xs| ==> xs[..k] == [xs[0]] + xs[1..][..k - 1];
      1 + IndexOf(xs[1..], x)
  }

  /** `ys` lists the elements of `xs` once each, ordered by where `xs` first has them. */
  ghost predicate InFirstSeenOrder<T(!new)>(xs: seq<T>, ys: seq<T>) {
    && Elements(ys) == Elements(xs)
    && forall i, j :: 0 <= i < j < |ys| ==> ys[i] in xs && ys[j] in xs && IndexOf(xs, ys[i]) < IndexOf(xs, ys[j])
  }

  lemma IndexOfIsFirst<T>(xs: seq<T>, x: T, k: nat)
    requires k < |xs| && xs[k] == x && x !in xs[..k]
    ensures IndexOf(xs, x) == k
  {
    var m := IndexOf(xs, x);
    assert forall j :: 0 <= j < k ==> xs[..k][j] == xs[j];
    assert forall j :: 0 <= j < m ==> xs[..m][j] == xs[j];
  }

  lemma IndexOfPrefix<T>(xs: seq<T>, n: nat, x: T)
    requires n <= |xs| && x in xs[..n]
    ensures IndexOf(xs, x) == IndexOf(xs[..n], x) < n
  {
    var k := IndexOf(xs[..n], x);
    assert xs[..n][..k] == xs[..k];
    IndexOfIsFirst(xs, x, k);
  }

  /** A list in first-seen order stays so when one more element follows. */
  lemma OrderGrows<T(!new)>(front: seq<T>, ys: seq<T>, x: T)
    requires InFirstSeenOrder(front, ys)
    ensures InFirstSeenOrder(front + [x], if x in front then ys else ys + [x])
  {
    var xs := front + [x];
    var n := |front|;
    assert xs[..n] == front;
    assert Elements(xs) == Elements(front) + {x};
    assert forall i :: 0 <= i < |ys| ==> ys[i] in Elements(ys);
    forall y | y in front
      ensures IndexOf(xs, y) == IndexOf(front, y) < n
    {
      IndexOfPrefix(xs, n, y);
    }
    if x !in front {
      IndexOfIsFirst(xs, x, n);
      assert Elements(ys + [x]) == Elements(ys) + {x};
    }
  }

  lemma {:induction false} FirstSeenIsOrdered<T(!new)>(xs: seq<T>)
    ensures InFirstSeenOrder(xs, FirstSeen(xs))
    decreases |xs|
  {
    if xs == [] {
    } else {
      var n := |xs| - 1;
      FirstSeenIsOrdered(xs[..n]);
      OrderGrows(xs[..n], FirstSeen(xs[..n]), xs[n]);
      assert xs == xs[..n] + [xs[n]];
    }
  }

  /** First-seen order pins the list down completely. */
  lemma FirstSeenIsTheOnlyOrder<T(!new)>(xs: seq<T>, ys: seq<T>)
    ensures InFirstSeenOrder(xs, ys) <==> ys == FirstSeen(xs)
  {
    FirstSeenIsOrdered(xs);
    if InFirstSeenOrder(xs, ys) {
      var key := (x: T) => if x in xs then IndexOf(xs, x) else 0;
      RisingIsUnique(key, ys, FirstSeen(xs));
    }
  }

  lemma FirstSeenIsDistinct<T(!new)>(xs: seq<T>)
    ensures Distinct(FirstSeen(xs)) && Elements(FirstSeen(xs)) == Elements(xs)
    ensures |FirstSeen(xs)| == |Elements(xs)|
  {
    FirstSeenIsOrdered(xs);
    DistinctSize(FirstSeen(xs));
  }

  ghost predicate Rising<T(!new)>(key: T -> nat, xs: seq<T>) {
    forall i, j :: 0 <= i < j < |xs| ==> key(xs[i]) < key(xs[j])
  }

  lemma NoElements<T(!new)>(xs: seq<T>)
    ensures Elements(xs) == {} <==> xs == []
  {
    if xs != [] {
      assert xs[0] in Elements(xs);
    }
  }

  lemma {:induction false} RisingIsUnique<T(!new)>(key: T -> nat, xs: seq<T>, ys: seq<T>)
    requires Rising(key, xs) && Rising(key, ys) && Elements(xs) == Elements(ys)
    ensures xs == ys
    decreases |xs|
  {
    if xs == [] {
      NoElements(ys);
    } else {
      assert xs[0] in Elements(ys);
      assert ys[0] in Elements(xs);
      assert xs[0] == ys[0];
      assert forall x :: x in xs[1..] <==> x in xs && x != xs[0];
      assert forall y :: y in ys[1..] <==> y in ys && y != ys[0];
      assert Elements(xs[1..]) == Elements(xs) - {xs[0]} && Elements(ys[1..]) == Elements(ys) - {ys[0]};
      RisingIsUnique(key, xs[1..], ys[1..]);
    }
  }

  /** normalize_bulk_task_ids */
  method NormalizeBulkTaskIds(taskIds: seq<TaskId>) returns (r: Result<seq<TaskId>>)
    ensures r == Err(NoIds) <==> taskIds == []
    ensures r == Err(TooManyIds) <==> |Elements(taskIds)| > 100
    ensures r.Ok? <==> taskIds != [] && |Elements(taskIds)| <= 100
    ensures r != Err(NotFound) && r != Err(CacheDown)
    ensures r.Ok? ==> InFirstSeenOrder(taskIds, r.value) && |r.value| == |Elements(taskIds)|
    ensures r.Ok? ==> Distinct(r.value) && forall id :: id in r.value <==> id in taskIds
  {
    var seen := {};
    var deduped := [];
    for i := 0 to |taskIds|
      invariant seen == Elements(taskIds[..i])
      invariant deduped == FirstSeen(taskIds[..i])
    {
      assert taskIds[..i + 1][..i] == taskIds[..i];
      if taskIds[i] !in seen {
        deduped := deduped + [taskIds[i]];
      }
      seen := seen + {taskIds[i]};
      assert Elements(taskIds[..i + 1]) == Elements(taskIds[..i]) + {taskIds[i]};
    }
    assert taskIds[..|taskIds|] == taskIds;
    FirstSeenIsOrdered(taskIds);
    FirstSeenIsDistinct(taskIds);
    assert taskIds != [] ==> taskIds[0] in Elements(taskIds);
    SameMembers(taskIds, deduped);
    if deduped == [] {
      return Err(NoIds);
    }
    if |deduped| > MAX_BULK_TASK_IDS {
      return Err(TooManyIds);
    }
    return Ok(deduped);
  }

  /** ---- The table ---- */

  datatype Task = Task(tenant: TenantId, title: string, status: string, updatedBy: UserId, updatedAt: int)
  datatype Record = Record(id: TaskId, task: Task)
  datatype Audit = Audit(task: TaskId, tenant: TenantId, actor: UserId, status: string, at: int)

  type Table = map<TaskId, Task>

  /** The rows an update restricted to `tenant` and `ids` hits. */
  function Matching(rows: Table, tenant: TenantId, ids: set<TaskId>): set<TaskId> {
    set id | id in rows && id in ids && rows[id].tenant == tenant
  }

  function Restatused(rows: Table, hit: set<TaskId>, actor: UserId, status: string, now: int): Table {
    map id | id in rows ::
      if id in hit then rows[id].(status := status, updatedBy := actor, updatedAt := now) else rows[id]
  }

  function Records(rows: Table, ids: seq<TaskId>): seq<Record>
    requires forall i :: 0 <= i < |ids| ==> ids[i] in rows
  {
    if ids == [] then [] else [Record(ids[0], rows[ids[0]])] + Records(rows, ids[1..])
  }

  lemma {:induction false} RecordsAt(rows: Table, ids: seq<TaskId>)
    requires forall i :: 0 <= i < |ids| ==> ids[i] in rows
    ensures |Records(rows, ids)| == |ids|
    ensures forall i :: 0 <= i < |ids| ==> Records(rows, ids)[i] == Record(ids[i], rows[ids[i]])
  {
    if ids == [] {
    } else {
      RecordsAt(rows, ids[1..]);
    }
  }

  function Audits(tenant: TenantId, actor: UserId, status: string, now: int, ids: seq<TaskId>): seq<Audit> {
    if ids == [] then [] else [Audit(ids[0], tenant, actor, status, now)] + Audits(tenant, actor, status, now, ids[1..])
  }

  lemma {:induction false} ElementsSize<T(!new)>(xs: seq<T>)
    ensures |Elements(xs)| <= |xs|
    ensures |Elements(xs)| == |xs| <==> Distinct(xs)
    decreases |xs|
  {
    if xs == [] {
    } else {
      var x, rest := xs[0], xs[1..];
      ElementsSize(rest);
      assert forall y :: y in xs <==> y == x || y in rest;
      assert Elements(xs) == {x} + Elements(rest);
      if x in rest {
        assert Elements(xs) == Elements(rest);
        var k :| 0 <= k < |rest| && rest[k] == x;
        assert xs[0] == xs[k + 1];
      } else {
        assert |Elements(xs)| == 1 + |Elements(rest)|;
        assert Distinct(rest) ==> Distinct(xs);
        assert Distinct(xs) ==> Distinct(rest) by {
          assert forall i :: 0 <= i < |rest| ==> rest[i] == xs[i + 1];
        }
      }
    }
  }

  /** Comparing lengths decides the update correctly exactly when no id is asked for twice. */
  lemma LengthCheckIsExact(rows: Table, tenant: TenantId, ids: seq<TaskId>)
    ensures |Matching(rows, tenant, Elements(ids))| == |ids|
            <==> Distinct(ids) && forall id :: id in ids ==> id in rows && rows[id].tenant == tenant
  {
    var hit := Matching(rows, tenant, Elements(ids));
    assert hit <= Elements(ids);
    SubsetSize(hit, Elements(ids));
    ElementsSize(ids);
    if |hit| == |ids| {
      SameSize(hit, Elements(ids));
      assert forall id :: id in ids ==> id in Elements(ids);
    }
    if Distinct(ids) && forall id :: id in ids ==> id in rows && rows[id].tenant == tenant {
      assert hit == Elements(ids);
    }
  }

  lemma SameSize<T>(a: set<T>, b: set<T>)
    requires a <= b && |a| >= |b|
    ensures a == b
  {
    if a != b {
      var x :| x in b && x !in a;
      assert |b - {x}| == |b| - 1;
      SubsetSize(a, b - {x});
    }
  }

  predicate Found(rows: Table, tenant: TenantId, ids: seq<TaskId>) {
    forall id :: id in ids ==> id in rows && rows[id].tenant == tenant
  }

  /** `order` is some order of the set: the one the database happens to return. */
  ghost predicate OrderOf(order: seq<TaskId>, ids: set<TaskId>) {
    Distinct(order) && Elements(order) == ids
  }

  function Position(positions: map<TaskId, nat>, id: TaskId): nat {
    if id in positions then positions[id] else USIZE_MAX
  }

  ghost predicate Sorted(positions: map<TaskId, nat>, tasks: seq<Record>) {
    forall i, j :: 0 <= i < j < |tasks| ==> Position(positions, tasks[i].id) <= Position(positions, tasks[j].id)
  }

  /** Puts `t` behind every record whose position is no greater. */
  function Insert(positions: map<TaskId, nat>, t: Record, tasks: seq<Record>): (out: seq<Record>)
    requires Sorted(positions, tasks)
    ensures Sorted(positions, out) && multiset(out) == multiset(tasks) + multiset{t}
  {
    if tasks == [] then [t]
    else
      var n := |tasks| - 1;
      if Position(positions, tasks[n].id) <= Position(positions, t.id) then
        InsertLast(positions, tasks, t);
        tasks + [t]
      else
        var front := Insert(positions, t, tasks[..n]);
        InsertBefore(positions, front, tasks, t);
        front + [tasks[n]]
  }

  lemma InsertLast(positions: map<TaskId, nat>, tasks: seq<Record>, t: Record)
    requires tasks != [] && Sorted(positions, tasks)
    requires Position(positions, tasks[|tasks| - 1].id) <= Position(positions, t.id)
    ensures Sorted(positions, tasks + [t])
  {
  }

  lemma InsertBefore(positions: map<TaskId, nat>, front: seq<Record>, tasks: seq<Record>, t: Record)
    requires tasks != [] && Sorted(positions, tasks) && Sorted(positions, front)
    requires multiset(front) == multiset(tasks[..|tasks| - 1]) + multiset{t}
    requires Position(positions, t.id) <= Position(positions, tasks[|tasks| - 1].id)
    ensures Sorted(positions, front + [tasks[|tasks| - 1]])
    ensures multiset(front + [tasks[|tasks| - 1]]) == multiset(tasks) + multiset{t}
  {
    var n := |tasks| - 1;
    assert tasks == tasks[..n] + [tasks[n]];
    forall i | 0 <= i < |front|
      ensures Position(positions, front[i].id) <= Position(positions, tasks[n].id)
    {
      assert front[i] in multiset(front);
      assert front[i] == t || front[i] in tasks[..n];
    }
  }

  /** Where each id was asked for. */
  method Positions(ids: seq<TaskId>) returns (positions: map<TaskId, nat>)
    requires Distinct(ids)
    ensures positions.Keys == Elements(ids)
    ensures forall i :: 0 <= i < |ids| ==> ids[i] in positions && positions[ids[i]] == i
  {
    positions := map[];
    for index := 0 to |ids|
      invariant positions.Keys == Elements(ids[..index])
      invariant forall i :: 0 <= i < index ==> ids[i] in positions && positions[ids[i]] == i
    {
      assert Elements(ids[..index + 1]) == Elements(ids[..index]) + {ids[index]} by {
        assert ids[..index + 1] == ids[..index] + [ids[index]];
      }
      positions := positions[ids[index] := index];
    }
    assert ids[..|ids|] == ids;
  }

  /** Stands for the library's stable sort. */
  method SortByKey(positions: map<TaskId, nat>, tasks: seq<Record>) returns (out: seq<Record>)
    ensures Sorted(positions, out) && multiset(out) == multiset(tasks)
  {
    out := [];
    for i := 0 to |tasks|
      invariant Sorted(positions, out) && multiset(out) == multiset(tasks[..i])
    {
      assert tasks[..i + 1] == tasks[..i] + [tasks[i]];
      out := Insert(positions, tasks[i], out);
    }
    assert tasks[..|tasks|] == tasks;
  }

  lemma PermutationKeeps<T(!new)>(xs: seq<T>, ys: seq<T>)
    requires multiset(xs) == multiset(ys)
    ensures Elements(xs) == Elements(ys) && (Distinct(xs) <==> Distinct(ys))
  {
    forall x: T
      ensures x in xs <==> x in ys
    {
      assert x in multiset(xs) <==> x in multiset(ys);
    }
    assert Elements(xs) == Elements(ys);
    assert |xs| == |multiset(xs)| == |multiset(ys)| == |ys|;
    ElementsSize(xs);
    ElementsSize(ys);
  }

  /** The record with the given id. */
  lemma {:induction false} RecordsHold(rows: Table, ids: seq<TaskId>)
    requires forall id :: id in ids ==> id in rows
    ensures forall t: Record :: t in Records(rows, ids) <==> t.id in ids && t.task == rows[t.id]
    ensures Distinct(ids) ==> Distinct(Records(rows, ids))
  {
    RecordsAt(rows, ids);
    var recs := Records(rows, ids);
    forall t: Record | t.id in ids && t.task == rows[t.id]
      ensures t in recs
    {
      var i :| 0 <= i < |ids| && ids[i] == t.id;
      assert recs[i] == t;
    }
  }

  lemma SameRecords(rows: Table, ids: seq<TaskId>, order: seq<TaskId>)
    requires Elements(order) == Elements(ids) && forall id :: id in ids ==> id in rows
    ensures forall id :: id in order ==> id in rows
    ensures Elements(Records(rows, order)) == Elements(Records(rows, ids))
  {
    forall id: TaskId
      ensures id in order <==> id in ids
    {
      assert id in Elements(order) <==> id in Elements(ids);
    }
    RecordsHold(rows, order);
    RecordsHold(rows, ids);
  }

  lemma WantedRises(rows: Table, ids: seq<TaskId>, positions: map<TaskId, nat>, key: Record -> nat)
    requires forall id :: id in ids ==> id in rows
    requires positions.Keys == Elements(ids)
    requires forall i :: 0 <= i < |ids| ==> ids[i] in positions && positions[ids[i]] == i
    requires forall t: Record :: key(t) == Position(positions, t.id)
    ensures Rising(key, Records(rows, ids))
    ensures forall t, u :: t in Records(rows, ids) && u in Records(rows, ids) && key(t) == key(u) ==> t == u
  {
    RecordsAt(rows, ids);
    var recs := Records(rows, ids);
    forall i | 0 <= i < |recs|
      ensures key(recs[i]) == i
    {
      assert recs[i].id == ids[i];
    }
  }

  /** Sorting by position puts the rows in requested order, whatever order they came in. */
  lemma SortRestoresRequestOrder(rows: Table, ids: seq<TaskId>, order: seq<TaskId>, positions: map<TaskId, nat>,
                                 out: seq<Record>)
    requires OrderOf(order, Elements(ids)) && forall id :: id in ids + order ==> id in rows
    requires positions.Keys == Elements(ids)
    requires forall i :: 0 <= i < |ids| ==> ids[i] in positions && positions[ids[i]] == i
    requires Sorted(positions, out) && multiset(out) == multiset(Records(rows, order))
    ensures out == Records(rows, ids)
  {
    var key := (t: Record) => Position(positions, t.id);
    SameRecords(rows, ids, order);
    RecordsHold(rows, order);
    PermutationKeeps(out, Records(rows, order));
    WantedRises(rows, ids, positions, key);
    SortedRises(positions, out, Records(rows, ids), key);
    RisingIsUnique(key, out, Records(rows, ids));
  }

  lemma SortedRises(positions: map<TaskId, nat>, out: seq<Record>, recs: seq<Record>, key: Record -> nat)
    requires Sorted(positions, out) && Distinct(out) && Elements(out) == Elements(recs)
    requires forall t: Record :: key(t) == Position(positions, t.id)
    requires forall t, u :: t in recs && u in recs && key(t) == key(u) ==> t == u
    ensures Rising(key, out)
  {
    forall i, j | 0 <= i < j < |out|
      ensures key(out[i]) < key(out[j])
    {
      assert out[i] in Elements(out) && out[j] in Elements(out);
      assert out[i] in recs && out[j] in recs;
    }
  }

  /** The tasks table and audit log, the tenant's cache version, and the ids webhooks were emitted for. */
  class TaskTable {
    var rows: Table
    var audit: seq<Audit>
    var version: nat
    var emitted: seq<TaskId>

    constructor (rows: Table)
      ensures this.rows == rows && audit == [] && version == 0 && emitted == []
    {
      this.rows, audit, version, emitted := rows, [], 0, [];
    }

    /** The transaction. The early return after the length check rolls its update back. */
    method UpdateStatus(tenant: TenantId, actor: UserId, ids: seq<TaskId>, status: string, now: int, order: seq<TaskId>)
      returns (r: Result<seq<Record>>)
      requires OrderOf(order, Matching(rows, tenant, Elements(ids)))
      modifies this`rows, this`audit
      ensures r.Ok? <==> Distinct(ids) && forall id :: id in ids ==> id in old(rows) && old(rows)[id].tenant == tenant
      ensures r.Err? ==> r.error == NotFound && rows == old(rows) && audit == old(audit)
      ensures r.Ok? ==>
        && rows == Restatused(old(rows), Elements(ids), actor, status, now)
        && OrderOf(order, Elements(ids)) && (forall id :: id in order ==> id in rows)
        && r.value == Records(rows, order)
        && audit == old(audit) + Audits(tenant, actor, status, now, order)
    {
      var before := rows;
      var hit := Matching(rows, tenant, Elements(ids));
      rows := Restatused(rows, hit, actor, status, now);
      assert forall i :: 0 <= i < |order| ==> order[i] in Elements(order);
      assert forall id :: id in hit ==> id in rows;
      var tasks := Records(rows, order);
      RecordsAt(rows, order);
      DistinctSize(order);
      LengthCheckIsExact(before, tenant, ids);
      if |tasks| != |ids| {
        rows := before;
        return Err(NotFound);
      }
      assert hit == Elements(ids);
      audit := audit + Audits(tenant, actor, status, now, order);
      return Ok(tasks);
    }

    method Emit(tasks: seq<Record>, ghost ids: seq<TaskId>)
      requires |tasks| == |ids| && forall i :: 0 <= i < |ids| ==> tasks[i].id == ids[i]
      modifies this`emitted
      ensures emitted == old(emitted) + ids
    {
      for i := 0 to |tasks|
        invariant emitted == old(emitted) + ids[..i]
      {
        emitted := emitted + [tasks[i].id];
      }
    }

    /** Sorts the returned rows by requested position and emits a webhook for each. */
    method Answer(ids: seq<TaskId>, ghost order: seq<TaskId>, returned: seq<Record>) returns (tasks: seq<Record>)
      requires Distinct(ids) && OrderOf(order, Elements(ids)) && forall id :: id in ids + order ==> id in rows
      requires returned == Records(rows, order)
      modifies this`emitted
      ensures forall id :: id in ids ==> id in rows
      ensures tasks == Records(rows, ids)
      ensures emitted == old(emitted) + ids
    {
      var positions := Positions(ids);
      tasks := SortByKey(positions, returned);
      SortRestoresRequestOrder(rows, ids, order, positions, tasks);
      RecordsAt(rows, ids);
      Emit(tasks, ids);
    }

    /**
     Normalise, commit, bump, answer. The bump runs after the commit and its failure is returned as
     it is: `bumped` says whether Redis answered.
     */
    method BulkUpdateTaskStatus(tenant: TenantId, actor: UserId, taskIds: seq<TaskId>, status: string, now: int,
                                order: seq<TaskId>, bumped: bool)
      returns (r: Result<seq<Record>>)
      requires OrderOf(order, Matching(rows, tenant, Elements(taskIds)))
      modifies this
      ensures (World(rows, audit, version, emitted), r)
        == Served(old(World(rows, audit, version, emitted)),
                  Request(tenant, actor, taskIds, status, now), order, bumped)
      ensures r.Ok?
        <==> taskIds != [] && |Elements(taskIds)| <= 100 && bumped
             && forall id :: id in taskIds ==> id in old(rows) && old(rows)[id].tenant == tenant
      ensures r.Ok? ==> InFirstSeenOrder(taskIds, Ids(r.value)) && emitted == old(emitted) + Ids(r.value)
      ensures r.Ok? ==> forall t :: t in r.value ==> t.id in rows && t.task == rows[t.id]
      ensures r.Ok? || r == Err(CacheDown) ==>
        && rows.Keys == old(rows).Keys
        && (forall id :: id in rows ==>
              rows[id] == if id in taskIds
                          then old(rows)[id].(status := status, updatedBy := actor, updatedAt := now)
                          else old(rows)[id])
      ensures !r.Ok? && r != Err(CacheDown) ==> rows == old(rows) && audit == old(audit)
      ensures version == old(version) + (if r.Ok? then 1 else 0)
      ensures !r.Ok? ==> emitted == old(emitted)
    {
      ghost var before := World(rows, audit, version, emitted);
      ServedInPlainTerms(before, Request(tenant, actor, taskIds, status, now), order, bumped);
      r := Serve(tenant, actor, taskIds, status, now, order, bumped);
    }

    /** The steps of the call, proved against the specification of a request. */
    method Serve(tenant: TenantId, actor: UserId, taskIds: seq<TaskId>, status: string, now: int,
                 order: seq<TaskId>, bumped: bool)
      returns (r: Result<seq<Record>>)
      requires OrderOf(order, Matching(rows, tenant, Elements(taskIds)))
      modifies this
      ensures (World(rows, audit, version, emitted), r)
        == Served(old(World(rows, audit, version, emitted)),
                  Request(tenant, actor, taskIds, status, now), order, bumped)
    {
      ghost var before := World(rows, audit, version, emitted);
      ghost var q := Request(tenant, actor, taskIds, status, now);
      var normal := NormalizeBulkTaskIds(taskIds);
      if normal.Err? {
        assert normal == Err(normal.error);
        return Err(normal.error);
      }
      var ids := normal.value;
      DedupedServes(before, q, ids, order, bumped);
      var db := UpdateStatus(tenant, actor, ids, status, now, order);
      if db.Err? {
        return db;
      }
      if !bumped {
        return Err(CacheDown);
      }
      version := version + 1;
      var tasks := Answer(ids, order, db.value);
      return Ok(tasks);
    }
  }

  lemma ServedInPlainTerms(w: World, q: Request, order: seq<TaskId>, bumped: bool)
    ensures var (w', r) := Served(w, q, order, bumped);
            var good := q.ids != [] && |Elements(q.ids)| <= 100
                        && forall id :: id in q.ids ==> id in w.rows && w.rows[id].tenant == q.tenant;
            && (r.Ok? <==> good && bumped) && (r == Err(CacheDown) <==> good && !bumped)
            && (r.Ok? ==> InFirstSeenOrder(q.ids, Ids(r.value)) && w'.emitted == w.emitted + Ids(r.value))
            && (r.Ok? ==> forall t :: t in r.value ==> t.id in w'.rows && t.task == w'.rows[t.id])
            && (good ==>
                  && w'.rows.Keys == w.rows.Keys
                  && forall id :: id in w'.rows ==>
                       w'.rows[id] == if id in q.ids
                                      then w.rows[id].(status := q.status, updatedBy := q.actor, updatedAt := q.now)
                                      else w.rows[id])
            && (!good ==> w'.rows == w.rows && w'.audit == w.audit)
            && w'.version == w.version + (if r.Ok? then 1 else 0)
            && (!r.Ok? ==> w'.emitted == w.emitted)
  {
    var (w', r) := Served(w, q, order, bumped);
    if r.Ok? {
      AnswersInRequestOrder(w, q, order, bumped);
    }
    if Refusal(w.rows, q).None? {
      RowsInPlainTerms(w.rows, q);
    }
  }

  lemma RowsInPlainTerms(rows: Table, q: Request)
    ensures var rows' := Restatused(rows, Elements(q.ids), q.actor, q.status, q.now);
            && rows'.Keys == rows.Keys
            && forall id :: id in rows' ==>
                 rows'[id] == if id in q.ids
                              then rows[id].(status := q.status, updatedBy := q.actor, updatedAt := q.now)
                              else rows[id]
  {
    assert forall id :: id in Elements(q.ids) <==> id in q.ids;
  }

  /** What a request does, in terms of its deduplicated ids. */
  lemma DedupedServes(w: World, q: Request, ids: seq<TaskId>, order: seq<TaskId>, bumped: bool)
    requires InFirstSeenOrder(q.ids, ids) && q.ids != [] && |Elements(q.ids)| <= MAX_BULK_TASK_IDS
    ensures Distinct(ids) && Elements(ids) == Elements(q.ids)
    ensures !Found(w.rows, q.tenant, ids) ==> Served(w, q, order, bumped) == (w, Err(NotFound))
    ensures Found(w.rows, q.tenant, ids) ==>
      var rows := Restatused(w.rows, Elements(ids), q.actor, q.status, q.now);
      var audit := w.audit + Audits(q.tenant, q.actor, q.status, q.now, order);
      && (forall id :: id in ids ==> id in rows)
      && Served(w, q, order, bumped)
         == if bumped then (World(rows, audit, w.version + 1, w.emitted + ids), Ok(Records(rows, ids)))
            else (World(rows, audit, w.version, w.emitted), Err(CacheDown))
  {
    FirstSeenIsTheOnlyOrder(q.ids, ids);
    FirstSeenIsDistinct(q.ids);
    SameMembers(q.ids, ids);
  }

  /** ---- What a request does ---- */

  datatype World = World(rows: Table, audit: seq<Audit>, version: nat, emitted: seq<TaskId>)
  datatype Request = Request(tenant: TenantId, actor: UserId, ids: seq<TaskId>, status: string, now: int)

  /** Why a request is refused before it has touched anything. */
  function Refusal(rows: Table, q: Request): Option<Error> {
    if q.ids == [] then Some(NoIds)
    else if |Elements(q.ids)| > MAX_BULK_TASK_IDS then Some(TooManyIds)
    else if !Found(rows, q.tenant, q.ids) then Some(NotFound)
    else None
  }

  /** The world after a request and its answer, `order` being the order in which the update returns its rows. */
  function Served(w: World, q: Request, order: seq<TaskId>, bumped: bool): (World, Result<seq<Record>>) {
    match Refusal(w.rows, q)
    case Some(error) => (w, Err(error))
    case None =>
      var rows := Restatused(w.rows, Elements(q.ids), q.actor, q.status, q.now);
      var audit := w.audit + Audits(q.tenant, q.actor, q.status, q.now, order);
      var ids := FirstSeen(q.ids);
      FirstSeenIsDistinct(q.ids);
      SameMembers(q.ids, ids);
      if bumped then (World(rows, audit, w.version + 1, w.emitted + ids), Ok(Records(rows, ids)))
      else (World(rows, audit, w.version, w.emitted), Err(CacheDown))
  }

  /** A successful request answers with exactly its ids, in first-seen order without repeats, and their new rows. */
  lemma AnswersInRequestOrder(w: World, q: Request, order: seq<TaskId>, bumped: bool)
    requires Served(w, q, order, bumped).1.Ok?
    ensures var (w', r) := Served(w, q, order, bumped);
            && InFirstSeenOrder(q.ids, Ids(r.value)) && w'.emitted == w.emitted + Ids(r.value)
            && w'.version == w.version + 1
            && (forall i :: 0 <= i < |r.value| ==>
                  r.value[i].id in w'.rows && r.value[i].task == w'.rows[r.value[i].id])
  {
    var (w', r) := Served(w, q, order, bumped);
    FirstSeenIsOrdered(q.ids);
    FirstSeenIsDistinct(q.ids);
    SameMembers(q.ids, FirstSeen(q.ids));
    RecordsAt(w'.rows, FirstSeen(q.ids));
    assert Ids(r.value) == FirstSeen(q.ids);
  }

  function Ids(tasks: seq<Record>): (ids: seq<TaskId>)
    ensures |ids| == |tasks| && forall i :: 0 <= i < |tasks| ==> ids[i] == tasks[i].id
  {
    if tasks == [] then [] else [tasks[0].id] + Ids(tasks[1..])
  }

  /**
   A failure leaves the tables as they were exactly when it is not the bump's. On a bump failure the
   requested rows, and no others, are changed and audited once each, with nothing bumped or emitted.
   */
  lemma FailuresExactly(w: World, q: Request, order: seq<TaskId>, bumped: bool)
    requires OrderOf(order, Matching(w.rows, q.tenant, Elements(q.ids)))
    requires Served(w, q, order, bumped).1.Err?
    ensures var (w', r) := Served(w, q, order, bumped);
            && (w'.rows == w.rows && w'.audit == w.audit <==> Refusal(w.rows, q).Some?)
            && (Refusal(w.rows, q).Some? <==> r.error != CacheDown)
            && (Refusal(w.rows, q).Some? ==> w' == w)
            && w'.version == w.version && w'.emitted == w.emitted
            && (r.error == CacheDown ==> !bumped && Committed(w, q, w') && |order| > 0)
  {
    var (w', r) := Served(w, q, order, bumped);
    if Refusal(w.rows, q).None? {
      assert Matching(w.rows, q.tenant, Elements(q.ids)) == Elements(q.ids);
      assert q.ids[0] in Elements(q.ids);
      NoElements(order);
      AuditsAt(q, order);
      assert |w'.audit| == |w.audit| + |order|;
      CommitIsExact(w, q, order, w');
    }
  }

  /** Exactly the requested rows changed, as requested, and each has one new audit entry. */
  ghost predicate Committed(w: World, q: Request, w': World) {
    && w'.rows.Keys == w.rows.Keys
    && (forall id :: id in w.rows ==>
          w'.rows[id] == if id in q.ids then w.rows[id].(status := q.status, updatedBy := q.actor, updatedAt := q.now)
                         else w.rows[id])
    && w.audit <= w'.audit
    && |w'.audit| - |w.audit| == |Elements(q.ids)|
    && (forall id :: id in q.ids ==> Audit(id, q.tenant, q.actor, q.status, q.now) in w'.audit[|w.audit|..])
  }

  lemma {:induction false} AuditsAt(q: Request, ids: seq<TaskId>)
    ensures var entries := Audits(q.tenant, q.actor, q.status, q.now, ids);
            && |entries| == |ids|
            && forall i :: 0 <= i < |ids| ==> entries[i] == Audit(ids[i], q.tenant, q.actor, q.status, q.now)
  {
    if ids == [] {
    } else {
      AuditsAt(q, ids[1..]);
    }
  }

  lemma CommitIsExact(w: World, q: Request, order: seq<TaskId>, w': World)
    requires OrderOf(order, Elements(q.ids))
    requires w'.rows == Restatused(w.rows, Elements(q.ids), q.actor, q.status, q.now)
    requires w'.audit == w.audit + Audits(q.tenant, q.actor, q.status, q.now, order)
    ensures Committed(w, q, w')
  {
    AuditsAt(q, order);
    DistinctSize(order);
    var entries := Audits(q.tenant, q.actor, q.status, q.now, order);
    assert w'.audit[|w.audit|..] == entries;
    forall id | id in q.ids
      ensures Audit(id, q.tenant, q.actor, q.status, q.now) in entries
    {
      assert id in Elements(order);
      var i :| 0 <= i < |order| && order[i] == id;
      assert entries[i] == Audit(id, q.tenant, q.actor, q.status, q.now);
    }
  }

  /** One such request: a single task, and Redis away when the version is to be bumped. */
  lemma FailedBumpKeepsTheUpdate()
    ensures var before := World(map[7 := Task(1, "t", "todo", 2, 0)], [], 5, []);
            var (after, r) := Served(before, Request(1, 3, [7], "done", 10), [7], false);
            && r == Err(CacheDown)
            && after.rows == map[7 := Task(1, "t", "done", 3, 10)]
            && after.audit == [Audit(7, 1, 3, "done", 10)] && after.version == 5 && after.emitted == []
  {
    var before := World(map[7 := Task(1, "t", "todo", 2, 0)], [], 5, []);
    var q := Request(1, 3, [7], "done", 10);
    assert Elements(q.ids) == {7};
    assert Refusal(before.rows, q).None?;
    assert Restatused(before.rows, {7}, 3, "done", 10) == map[7 := Task(1, "t", "done", 3, 10)];
    AuditsAt(q, [7]);
  }

  lemma SameMembers(xs: seq<TaskId>, ys: seq<TaskId>)
    requires Elements(xs) == Elements(ys)
    ensures forall x :: x in xs <==> x in ys
  {
    forall x: TaskId
      ensures x in xs <==> x in ys
    {
      assert x in Elements(xs) <==> x in Elements(ys);
    }
  }
}
