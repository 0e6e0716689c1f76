/** The export loop of process_export_job while writers keep changing the table under it. */
module Export {
  import opened Prelude
  import opened Keyset

  /** The task table as one query sees it, and the clock at that moment. */
  datatype Snapshot = Snapshot(rows: Table, clock: int)

  ghost predicate Stamped(s: Snapshot) {
    forall id :: id in s.rows ==> s.rows[id].updatedAt <= s.clock
  }

  /**
   Writers ran between `a` and `b`: rows may be gone, may match differently under an unchanged
   stamp (labels and projects do not touch it), and every new stamp is later than `a`'s clock.
   */
  ghost predicate Evolves(a: Snapshot, b: Snapshot) {
    && a.clock <= b.clock
    && forall id :: id in b.rows ==>
         (id in a.rows && b.rows[id].updatedAt == a.rows[id].updatedAt) || a.clock < b.rows[id].updatedAt <= b.clock
  }

  /** One statement of a writer. Put gives all its rows one stamp, later than anything before it. */
  datatype Write =
    | Put(contents: map<TaskId, string>, at: int)
    | Remove(id: TaskId)
    | Relabel(id: TaskId, content: string)

  function Apply(s: Snapshot, w: Write): Snapshot {
    match w
    case Put(contents, at) =>
      if at <= s.clock then s else Snapshot(s.rows + map id | id in contents :: Task(at, contents[id]), at)
    case Remove(id) => s.(rows := s.rows - {id})
    case Relabel(id, content) =>
      if id in s.rows then s.(rows := s.rows[id := s.rows[id].(content := content)]) else s
  }

  function ApplyAll(s: Snapshot, ws: seq<Write>): Snapshot
    decreases |ws|
  {
    if ws == [] then s else ApplyAll(Apply(s, ws[0]), ws[1..])
  }

  lemma EvolvesTransitively(a: Snapshot, b: Snapshot, c: Snapshot)
    requires Stamped(a) && Evolves(a, b) && Evolves(b, c)
    ensures Evolves(a, c)
  {
  }

  /** Any number of writers, each stamping later than the clock, evolve the table. */
  lemma {:induction false} WritersEvolve(s: Snapshot, ws: seq<Write>)
    requires Stamped(s)
    ensures Stamped(ApplyAll(s, ws)) && Evolves(s, ApplyAll(s, ws))
    decreases |ws|
  {
    if ws == [] {
    } else {
      WritersEvolve(Apply(s, ws[0]), ws[1..]);
      EvolvesTransitively(s, Apply(s, ws[0]), ApplyAll(s, ws));
    }
  }

  const CHUNK := 500

  /** All rows strictly below the cursor, matching or not. */
  function Remaining(rows: Table, c: Option<Cursor>): set<Cursor> {
    Below(set id | id in rows :: Cursor(rows[id].updatedAt, id), c)
  }

  /** The i-th query sees `worlds(i)`; writers run between queries. */
  ghost predicate History(worlds: nat -> Snapshot) {
    && (forall i :: Stamped(worlds(i)))
    && (forall i, j :: i <= j ==> Evolves(worlds(i), worlds(j)))
  }

  /** The table at each query when `writes(i)` run between queries i and i + 1. */
  function Worlds(first: Snapshot, writes: nat -> seq<Write>, i: nat): Snapshot {
    if i == 0 then first else ApplyAll(Worlds(first, writes, i - 1), writes(i - 1))
  }

  function Seen(first: Snapshot, writes: nat -> seq<Write>): nat -> Snapshot {
    (i: nat) => Worlds(first, writes, i)
  }

  lemma {:induction false} WorldsEvolve(first: Snapshot, writes: nat -> seq<Write>, i: nat, j: nat)
    requires Stamped(first) && i <= j
    ensures Stamped(Worlds(first, writes, i)) && Stamped(Worlds(first, writes, j))
    ensures Evolves(Worlds(first, writes, i), Worlds(first, writes, j))
    decreases j
  {
    if j == 0 {
    } else if i == j {
      WorldsEvolve(first, writes, j - 1, j - 1);
      WritersEvolve(Worlds(first, writes, j - 1), writes(j - 1));
    } else {
      WorldsEvolve(first, writes, i, j - 1);
      WritersEvolve(Worlds(first, writes, j - 1), writes(j - 1));
      EvolvesTransitively(Worlds(first, writes, i), Worlds(first, writes, j - 1), Worlds(first, writes, j));
    }
  }

  /** Whatever the writers do between its queries, the loop sees a history. */
  lemma WritersMakeHistory(first: Snapshot, writes: nat -> seq<Write>)
    requires Stamped(first)
    ensures History(Seen(first, writes))
  {
    forall i: nat, j: nat | i <= j
      ensures Stamped(Worlds(first, writes, i)) && Evolves(Worlds(first, writes, i), Worlds(first, writes, j))
    {
      WorldsEvolve(first, writes, i, j);
    }
  }

  /** What is known after `n` queries: `asked[i]` is the query that returned `all[i]`. */
  ghost predicate Progress(worlds: nat -> Snapshot, filter: Filter, all: seq<Cursor>, asked: seq<nat>,
                           cursor: Option<Cursor>, n: nat) {
    && |asked| == |all| && Falling(all)
    && (forall i :: 0 <= i < |all| ==> asked[i] < n && all[i] in Keys(worlds(asked[i]).rows, filter))
    && (forall i, j :: 0 <= i <= j < |all| ==> asked[i] <= asked[j])
    && (n == 0 ==> cursor.None?)
    && (forall k :: k in all ==> cursor.Some? && !Under(k, cursor))
    && (cursor.Some? ==> n > 0 && cursor.value.updatedAt <= worlds(n - 1).clock)
  }

  /** A row that all of the first `n` queries could see, under one stamp. */
  ghost predicate MatchedThroughout(worlds: nat -> Snapshot, filter: Filter, k: Cursor, n: nat) {
    forall q: nat :: q < n ==> k in Keys(worlds(q).rows, filter)
  }

  ghost predicate MatchedSometime(worlds: nat -> Snapshot, filter: Filter, k: Cursor, n: nat) {
    exists q: nat :: q < n && k in Keys(worlds(q).rows, filter)
  }

  /** Every task that matched unchanged so far has been emitted or is still ahead. */
  ghost predicate NothingSkipped(worlds: nat -> Snapshot, filter: Filter, all: seq<Cursor>, cursor: Option<Cursor>,
                                 n: nat) {
    forall k :: MatchedThroughout(worlds, filter, k, n) ==> k in all || Under(k, cursor)
  }

  function Repeat(x: nat, count: nat): (xs: seq<nat>)
    ensures |xs| == count && forall i :: 0 <= i < count ==> xs[i] == x
  {
    if count == 0 then [] else [x] + Repeat(x, count - 1)
  }

  lemma FallingJoins(all: seq<Cursor>, chunk: seq<Cursor>)
    requires Falling(all) && Falling(chunk) && forall a, b :: a in all && b in chunk ==> Less(b, a)
    ensures Falling(all + chunk)
  {
    var all' := all + chunk;
    forall i, j | 0 <= i < j < |all'|
      ensures Less(all'[j], all'[i])
    {
      if i < |all| <= j {
        assert all'[i] in all && all'[j] == chunk[j - |all|] && all'[j] in chunk;
      }
    }
  }

  lemma AskedJoins(worlds: nat -> Snapshot, filter: Filter, all: seq<Cursor>, asked: seq<nat>, n: nat,
                   chunk: seq<Cursor>)
    requires |asked| == |all| && forall i :: 0 <= i < |all| ==>
      asked[i] < n && all[i] in Keys(worlds(asked[i]).rows, filter)
    requires forall i, j :: 0 <= i <= j < |all| ==> asked[i] <= asked[j]
    requires forall k :: k in chunk ==> k in Keys(worlds(n).rows, filter)
    ensures var all', asked' := all + chunk, asked + Repeat(n, |chunk|);
            && (forall i :: 0 <= i < |all'| ==> asked'[i] < n + 1 && all'[i] in Keys(worlds(asked'[i]).rows, filter))
            && (forall i, j :: 0 <= i <= j < |all'| ==> asked'[i] <= asked'[j])
  {
    var all', asked' := all + chunk, asked + Repeat(n, |chunk|);
    forall i | 0 <= i < |all'|
      ensures asked'[i] < n + 1 && all'[i] in Keys(worlds(asked'[i]).rows, filter)
    {
      if i >= |all| {
        assert all'[i] == chunk[i - |all|] && all'[i] in chunk && asked'[i] == n;
      }
    }
  }

  /** The last key of a falling chunk lies under all keys before it and all under the old cursor's reach. */
  lemma CursorMovesDown(all: seq<Cursor>, cursor: Option<Cursor>, chunk: seq<Cursor>)
    requires chunk != [] && Falling(chunk) && forall k :: k in chunk ==> Under(k, cursor)
    requires forall k :: k in all ==> cursor.Some? && !Under(k, cursor)
    ensures forall a, b :: a in all && b in chunk ==> Less(b, a)
    ensures forall k :: k in all + chunk ==> !Under(k, Last(chunk))
  {
    var last := chunk[|chunk| - 1];
    assert last in chunk;
    forall k | k in all + chunk
      ensures !Less(k, last)
    {
      if k in all {
        assert Less(last, k);
      } else {
        var i :| 0 <= i < |chunk| && chunk[i] == k;
      }
    }
  }

  lemma ProgressStep(worlds: nat -> Snapshot, filter: Filter, all: seq<Cursor>, asked: seq<nat>,
                     cursor: Option<Cursor>, n: nat, chunk: seq<Cursor>)
    requires History(worlds) && Progress(worlds, filter, all, asked, cursor, n)
    requires chunk != [] && Falling(chunk) && forall k :: k in chunk ==>
      k in Below(Keys(worlds(n).rows, filter), cursor)
    ensures Progress(worlds, filter, all + chunk, asked + Repeat(n, |chunk|), Last(chunk), n + 1)
  {
    var last := chunk[|chunk| - 1];
    assert last in chunk;
    assert Stamped(worlds(n));
    CursorMovesDown(all, cursor, chunk);
    FallingJoins(all, chunk);
    AskedJoins(worlds, filter, all, asked, n, chunk);
  }

  /** A task is emitted under one stamp only: a later stamp would have put it above the cursor. */
  lemma EmittedOnce(worlds: nat -> Snapshot, filter: Filter, all: seq<Cursor>, asked: seq<nat>, cursor: Option<Cursor>,
                    n: nat)
    requires History(worlds) && Progress(worlds, filter, all, asked, cursor, n)
    ensures forall i, j :: 0 <= i < j < |all| ==> all[i].id != all[j].id
  {
    forall i, j | 0 <= i < j < |all|
      ensures all[i].id != all[j].id
    {
      assert Evolves(worlds(asked[i]), worlds(asked[j])) && Stamped(worlds(asked[i]));
      assert all[i] in Keys(worlds(asked[i]).rows, filter) && all[j] in Keys(worlds(asked[j]).rows, filter);
    }
  }

  /** Rows below the next cursor were there before and below the old one, the cursor's own row no longer counts. */
  lemma RemainingShrinks(worlds: nat -> Snapshot, filter: Filter, cursor: Option<Cursor>, n: nat, next: Cursor)
    requires History(worlds) && next in Below(Keys(worlds(n).rows, filter), cursor)
    ensures |Remaining(worlds(n + 1).rows, Some(next))| < |Remaining(worlds(n).rows, cursor)|
  {
    var before, after := Remaining(worlds(n).rows, cursor), Remaining(worlds(n + 1).rows, Some(next));
    assert Evolves(worlds(n), worlds(n + 1)) && Stamped(worlds(n));
    assert next in before && next !in after;
    assert forall k :: k in after ==> k in before;
    SubsetSize(after, before - {next});
  }

  /** export_tasks */
  method ExportTasks(rows: Table, filter: Filter, cursor: Option<Cursor>, limit: nat) returns (chunk: seq<Cursor>)
    ensures Answers(rows, filter, cursor, limit, chunk) && |chunk| <= limit
    ensures forall i, j :: 0 <= i < j < |chunk| ==>
      chunk[i].updatedAt > chunk[j].updatedAt || (chunk[i].updatedAt == chunk[j].updatedAt && chunk[i].id > chunk[j].id)
    ensures forall k :: k in chunk ==>
      && k.id in rows && filter(rows[k.id]) && k.updatedAt == rows[k.id].updatedAt
      && (cursor.Some? ==> k.updatedAt < cursor.value.updatedAt
                           || (k.updatedAt == cursor.value.updatedAt && k.id < cursor.value.id))
    ensures |chunk| < limit ==> forall id ::
      id in rows && filter(rows[id])
      && (cursor.Some? ==> rows[id].updatedAt < cursor.value.updatedAt
                           || (rows[id].updatedAt == cursor.value.updatedAt && id < cursor.value.id)) ==>
        Cursor(rows[id].updatedAt, id) in chunk
  {
    chunk := Select(rows, filter, cursor, limit);
    SelectAnswers(rows, filter, cursor, limit);
    AnswersNewestFirst(rows, filter, cursor, limit, chunk);
  }

  lemma SkipsNothing(worlds: nat -> Snapshot, filter: Filter, all: seq<Cursor>, cursor: Option<Cursor>, n: nat,
                     limit: nat, chunk: seq<Cursor>)
    requires limit > 0 && NothingSkipped(worlds, filter, all, cursor, n)
    requires Answers(worlds(n).rows, filter, cursor, limit, chunk)
    ensures && (chunk != [] ==> NothingSkipped(worlds, filter, all + chunk, Last(chunk), n + 1))
            && (|chunk| < limit ==>
                  forall k :: MatchedThroughout(worlds, filter, k, n + 1) ==> k in all + chunk)
  {
    forall k | MatchedThroughout(worlds, filter, k, n + 1)
      ensures k in all || k in Below(Keys(worlds(n).rows, filter), cursor)
    {
      assert k in Keys(worlds(n).rows, filter) && MatchedThroughout(worlds, filter, k, n);
    }
  }

  /**
   What an export may contain: tasks in falling order, none twice, every task that matched under
   an unchanged stamp in all queries, and none that matched in no query.
   */
  ghost predicate Exported(worlds: nat -> Snapshot, filter: Filter, emitted: seq<Cursor>, queries: nat) {
    && Falling(emitted)
    && (forall i, j :: 0 <= i < j < |emitted| ==> emitted[i].id != emitted[j].id)
    && (forall k :: MatchedThroughout(worlds, filter, k, queries) ==> k in emitted)
    && (forall k :: k in emitted ==> MatchedSometime(worlds, filter, k, queries))
  }

  /** The loop, which ends whatever the writers do; the number of queries follows from what it emits. */
  method ExportAll(worlds: nat -> Snapshot, filter: Filter, chunkSize: nat) returns (emitted: seq<Cursor>, queries: nat)
    requires History(worlds) && chunkSize > 0
    ensures Exported(worlds, filter, emitted, queries)
    ensures queries == |emitted| / chunkSize + 1
  {
    ghost var asked, cursor, left;
    emitted, queries, asked, cursor, left := RunLoop(worlds, filter, chunkSize);
  }

  method RunLoop(worlds: nat -> Snapshot, filter: Filter, chunkSize: nat)
    returns (allTasks: seq<Cursor>, n: nat, ghost asked: seq<nat>, ghost last: Option<Cursor>, ghost left: nat)
    requires History(worlds) && chunkSize > 0
    ensures LoopState(worlds, filter, chunkSize, allTasks, asked, last, n, left, false)
  {
    hide *;
    var cursor: Option<Cursor> := None;
    var fullChunk := true;
    allTasks, n, asked, left := [], 0, [], |Remaining(worlds(0).rows, None)|;
    BeforeFirstQuery(worlds, filter, chunkSize);
    while fullChunk
      invariant LoopState(worlds, filter, chunkSize, allTasks, asked, cursor, n, left, fullChunk)
      decreases fullChunk, left
    {
      var chunk;
      chunk, left := NextChunk(worlds, filter, chunkSize, allTasks, asked, cursor, n, left);
      fullChunk := |chunk| == chunkSize;
      asked := asked + Repeat(n, |chunk|);
      cursor := Last(chunk);
      allTasks := allTasks + chunk;
      n := n + 1;
    }
    last := cursor;
  }

  lemma BeforeFirstQuery(worlds: nat -> Snapshot, filter: Filter, chunkSize: nat)
    requires chunkSize > 0
    ensures LoopState(worlds, filter, chunkSize, [], [], None, 0, |Remaining(worlds(0).rows, None)|, true)
  {
  }

  /** The n-th query, and what it does to the state of the loop. */
  method NextChunk(worlds: nat -> Snapshot, filter: Filter, chunkSize: nat, ghost all: seq<Cursor>,
                   ghost asked: seq<nat>, cursor: Option<Cursor>, n: nat, ghost left: nat)
    returns (chunk: seq<Cursor>, ghost left': nat)
    requires History(worlds) && chunkSize > 0 && LoopState(worlds, filter, chunkSize, all, asked, cursor, n, left, true)
    ensures LoopState(worlds, filter, chunkSize, all + chunk, asked + Repeat(n, |chunk|), Last(chunk), n + 1, left',
                      |chunk| == chunkSize)
    ensures |chunk| == chunkSize ==> left' < left
  {
    chunk := ExportTasks(worlds(n).rows, filter, cursor, chunkSize);
    left' := Round(worlds, filter, chunkSize, all, asked, cursor, n, left, chunk);
  }

  /** `left` rows are still below the cursor; it is what makes the loop end. */
  ghost predicate UnderWay(worlds: nat -> Snapshot, filter: Filter, chunkSize: nat,
                           all: seq<Cursor>, asked: seq<nat>, cursor: Option<Cursor>, n: nat, left: nat) {
    && Progress(worlds, filter, all, asked, cursor, n)
    && NothingSkipped(worlds, filter, all, cursor, n)
    && |all| == n * chunkSize
    && left == |Remaining(worlds(n).rows, cursor)|
  }

  ghost predicate LoopState(worlds: nat -> Snapshot, filter: Filter, chunkSize: nat, all: seq<Cursor>, asked: seq<nat>,
                            cursor: Option<Cursor>, n: nat, left: nat, more: bool)
    requires chunkSize > 0
  {
    if more then UnderWay(worlds, filter, chunkSize, all, asked, cursor, n, left)
    else Exported(worlds, filter, all, n) && n == |all| / chunkSize + 1
  }

  lemma Round(worlds: nat -> Snapshot, filter: Filter, chunkSize: nat, all: seq<Cursor>, asked: seq<nat>,
              cursor: Option<Cursor>, n: nat, left: nat, chunk: seq<Cursor>) returns (left': nat)
    requires History(worlds) && chunkSize > 0 && LoopState(worlds, filter, chunkSize, all, asked, cursor, n, left, true)
    requires Answers(worlds(n).rows, filter, cursor, chunkSize, chunk)
    ensures LoopState(worlds, filter, chunkSize, all + chunk, asked + Repeat(n, |chunk|), Last(chunk), n + 1, left',
                      |chunk| == chunkSize)
    ensures |chunk| == chunkSize ==> left' < left
  {
    left' := |Remaining(worlds(n + 1).rows, Last(chunk))|;
    if |chunk| == chunkSize {
      FullRound(worlds, filter, chunkSize, all, asked, cursor, n, chunk);
      RemainingShrinks(worlds, filter, cursor, n, chunk[|chunk| - 1]);
    } else {
      LastRound(worlds, filter, chunkSize, all, asked, cursor, n, chunk);
    }
  }

  lemma FullRound(worlds: nat -> Snapshot, filter: Filter, chunkSize: nat,
                  all: seq<Cursor>, asked: seq<nat>, cursor: Option<Cursor>, n: nat, chunk: seq<Cursor>)
    requires History(worlds) && Progress(worlds, filter, all, asked, cursor, n)
    requires NothingSkipped(worlds, filter, all, cursor, n)
    requires |all| == n * chunkSize && chunkSize > 0
    requires Answers(worlds(n).rows, filter, cursor, chunkSize, chunk) && |chunk| == chunkSize
    ensures Progress(worlds, filter, all + chunk, asked + Repeat(n, |chunk|), Last(chunk), n + 1)
    ensures NothingSkipped(worlds, filter, all + chunk, Last(chunk), n + 1)
    ensures |all + chunk| == (n + 1) * chunkSize
  {
    SkipsNothing(worlds, filter, all, cursor, n, chunkSize, chunk);
    ProgressStep(worlds, filter, all, asked, cursor, n, chunk);
    OneChunkMore(n, chunkSize);
  }

  lemma OneChunkMore(n: nat, chunkSize: nat)
    ensures (n + 1) * chunkSize == n * chunkSize + chunkSize
  {
  }

  lemma LastRound(worlds: nat -> Snapshot, filter: Filter, chunkSize: nat,
                  all: seq<Cursor>, asked: seq<nat>, cursor: Option<Cursor>, n: nat, chunk: seq<Cursor>)
    requires History(worlds) && Progress(worlds, filter, all, asked, cursor, n)
    requires NothingSkipped(worlds, filter, all, cursor, n)
    requires |all| == n * chunkSize && chunkSize > 0
    requires Answers(worlds(n).rows, filter, cursor, chunkSize, chunk) && |chunk| != chunkSize
    ensures Exported(worlds, filter, all + chunk, n + 1) && n + 1 == |all + chunk| / chunkSize + 1
  {
    LastChunk(worlds, filter, all, asked, cursor, n, chunk, chunkSize);
    QueryCount(n, chunkSize, |chunk|);
  }

  lemma QueryCount(full: nat, chunkSize: nat, rest: nat)
    requires rest < chunkSize
    ensures (full * chunkSize + rest) / chunkSize == full
  {
    var q := (full * chunkSize + rest) / chunkSize;
    QuotientSpan(full * chunkSize + rest, chunkSize, q);
    OneChunkMore(full, chunkSize);
    if q < full {
      Scale(q + 1, full, chunkSize);
    } else if q > full {
      Scale(full + 1, q, chunkSize);
    }
  }

  lemma LastChunk(worlds: nat -> Snapshot, filter: Filter, all: seq<Cursor>, asked: seq<nat>, cursor: Option<Cursor>,
                  n: nat, chunk: seq<Cursor>, chunkSize: nat)
    requires History(worlds) && Progress(worlds, filter, all, asked, cursor, n)
    requires Answers(worlds(n).rows, filter, cursor, chunkSize, chunk) && |chunk| < chunkSize
    requires NothingSkipped(worlds, filter, all, cursor, n)
    ensures Exported(worlds, filter, all + chunk, n + 1)
  {
    SkipsNothing(worlds, filter, all, cursor, n, chunkSize, chunk);
    if chunk == [] {
      assert all + chunk == all;
      Provenance(worlds, filter, all, asked, cursor, n);
    } else {
      ProgressStep(worlds, filter, all, asked, cursor, n, chunk);
      Provenance(worlds, filter, all + chunk, asked + Repeat(n, |chunk|), Last(chunk), n + 1);
    }
  }

  lemma Provenance(worlds: nat -> Snapshot, filter: Filter, all: seq<Cursor>, asked: seq<nat>, cursor: Option<Cursor>,
                   n: nat)
    requires History(worlds) && Progress(worlds, filter, all, asked, cursor, n)
    ensures forall i, j :: 0 <= i < j < |all| ==> all[i].id != all[j].id
    ensures forall k :: k in all ==> MatchedSometime(worlds, filter, k, n)
  {
    EmittedOnce(worlds, filter, all, asked, cursor, n);
    forall k | k in all
      ensures MatchedSometime(worlds, filter, k, n)
    {
      var i :| 0 <= i < |all| && all[i] == k;
      assert k in Keys(worlds(asked[i]).rows, filter);
    }
  }

  /** The export under any writers. */
  method ExportUnderWriters(first: Snapshot, writes: nat -> seq<Write>, filter: Filter)
    returns (emitted: seq<Cursor>, queries: nat)
    requires Stamped(first)
    ensures queries == |emitted| / 500 + 1
    ensures forall i, j :: 0 <= i < j < |emitted| ==>
      emitted[i].id != emitted[j].id && emitted[i].updatedAt >= emitted[j].updatedAt
    ensures forall id: TaskId, at: int :: InEveryQuery(first, writes, filter, queries, id, at) ==>
      Cursor(at, id) in emitted
    ensures forall k :: k in emitted ==> InSomeQuery(first, writes, filter, queries, k.id, k.updatedAt)
  {
    WritersMakeHistory(first, writes);
    emitted, queries := ExportAll(Seen(first, writes), filter, CHUNK);
    InPlainTerms(first, writes, filter, emitted, queries);
  }

  /** In this state of the table task `id` is there, stamped `at`, and matches. */
  predicate Matches(s: Snapshot, filter: Filter, id: TaskId, at: int) {
    id in s.rows && filter(s.rows[id]) && s.rows[id].updatedAt == at
  }

  ghost predicate InEveryQuery(first: Snapshot, writes: nat -> seq<Write>, filter: Filter, queries: nat,
                               id: TaskId, at: int) {
    forall q: nat :: q < queries ==> Matches(Worlds(first, writes, q), filter, id, at)
  }

  ghost predicate InSomeQuery(first: Snapshot, writes: nat -> seq<Write>, filter: Filter, queries: nat,
                              id: TaskId, at: int) {
    exists q: nat :: q < queries && Matches(Worlds(first, writes, q), filter, id, at)
  }

  lemma InPlainTerms(first: Snapshot, writes: nat -> seq<Write>, filter: Filter, emitted: seq<Cursor>, queries: nat)
    requires Exported(Seen(first, writes), filter, emitted, queries)
    ensures forall i, j :: 0 <= i < j < |emitted| ==>
      emitted[i].id != emitted[j].id && emitted[i].updatedAt >= emitted[j].updatedAt
    ensures forall id: TaskId, at: int :: InEveryQuery(first, writes, filter, queries, id, at) ==>
      Cursor(at, id) in emitted
    ensures forall k :: k in emitted ==> InSomeQuery(first, writes, filter, queries, k.id, k.updatedAt)
  {
    forall id: TaskId, at: int | InEveryQuery(first, writes, filter, queries, id, at)
      ensures Cursor(at, id) in emitted
    {
      UnchangedIsEmitted(first, writes, filter, emitted, queries, id, at);
    }
    forall k | k in emitted
      ensures InSomeQuery(first, writes, filter, queries, k.id, k.updatedAt)
    {
      EmittedMatched(first, writes, filter, emitted, queries, k);
    }
  }

  lemma UnchangedIsEmitted(first: Snapshot, writes: nat -> seq<Write>, filter: Filter, emitted: seq<Cursor>,
                           queries: nat, id: TaskId, at: int)
    requires Exported(Seen(first, writes), filter, emitted, queries)
    requires InEveryQuery(first, writes, filter, queries, id, at)
    ensures Cursor(at, id) in emitted
  {
    var worlds := Seen(first, writes);
    forall q: nat | q < queries
      ensures Cursor(at, id) in Keys(worlds(q).rows, filter)
    {
      assert Matches(Worlds(first, writes, q), filter, id, at);
    }
    assert MatchedThroughout(worlds, filter, Cursor(at, id), queries);
  }

  lemma EmittedMatched(first: Snapshot, writes: nat -> seq<Write>, filter: Filter, emitted: seq<Cursor>,
                       queries: nat, k: Cursor)
    requires Exported(Seen(first, writes), filter, emitted, queries) && k in emitted
    ensures InSomeQuery(first, writes, filter, queries, k.id, k.updatedAt)
  {
    var worlds := Seen(first, writes);
    assert MatchedSometime(worlds, filter, k, queries);
    var q: nat :| q < queries && k in Keys(worlds(q).rows, filter);
    assert worlds(q) == Worlds(first, writes, q);
    assert Matches(Worlds(first, writes, q), filter, k.id, k.updatedAt);
  }

  /** What each kind of write leaves behind. */
  lemma WritesExactly(s: Snapshot, contents: map<TaskId, string>, at: int, id: TaskId, content: string)
    ensures at > s.clock && id in contents ==>
      id in Apply(s, Put(contents, at)).rows && Apply(s, Put(contents, at)).rows[id] == Task(at, contents[id])
    ensures id !in Apply(s, Remove(id)).rows
    ensures id in s.rows ==>
      id in Apply(s, Relabel(id, content)).rows
      && Apply(s, Relabel(id, content)).rows[id] == Task(s.rows[id].updatedAt, content)
    ensures forall other :: other in s.rows && other != id ==>
      && other in Apply(s, Remove(id)).rows && Apply(s, Remove(id)).rows[other] == s.rows[other]
      && other in Apply(s, Relabel(id, content)).rows && Apply(s, Relabel(id, content)).rows[other] == s.rows[other]
    ensures forall other :: other in s.rows && other !in contents ==>
      other in Apply(s, Put(contents, at)).rows && Apply(s, Put(contents, at)).rows[other] == s.rows[other]
  {
  }

  /** On a table at rest the loop returns exactly the listing that following cursors gives. */
  method ExportAtRest(rows: Table, clock: int, filter: Filter) returns (emitted: seq<Cursor>, queries: nat)
    requires Stamped(Snapshot(rows, clock))
    ensures emitted == Descending(Keys(rows, filter))
    ensures queries == |Keys(rows, filter)| / 500 + 1
    ensures forall limit: nat :: limit > 0 ==> emitted == Flatten(Pages(rows, filter, None, limit))
  {
    emitted, queries := ExportAll(_ => Snapshot(rows, clock), filter, CHUNK);
    var keys := Keys(rows, filter);
    forall k
      ensures k in keys <==> k in emitted
    {
      assert k in keys ==> MatchedThroughout(_ => Snapshot(rows, clock), filter, k, queries);
      assert k in emitted ==> MatchedSometime(_ => Snapshot(rows, clock), filter, k, queries);
    }
    assert Elements(emitted) == keys;
    DescendingSorts(keys);
    FallingIsUnique(emitted, Descending(keys));
    forall limit: nat | limit > 0
      ensures emitted == Flatten(Pages(rows, filter, None, limit))
    {
      FollowingCursorsListsEverything(rows, filter, limit);
    }
  }
}
