/**
 The tenant-versioned task cache. A reader fetches the tenant's version, looks its key up, and on
 a miss queries the database and stores the answer; a writer commits and then bumps the version.
 */
module VersionedCache {
  import opened Prelude

  type Tenant = nat

  /** A list page or a single task; the strings stand for the serialised filters and cursor. */
  datatype Query = Page(filters: string, cursor: string, limit: nat) | Detail(task: nat)

  datatype Key = Key(tenant: Tenant, version: nat, query: Query)

  type Database = map<nat, string>

  /** The query engine; None is a "not found" error, which is never cached. */
  type Engine = (Database, Tenant, Query) -> Option<string>

  /** ---- The cache by itself ---- */

  class TaskCache {
    var versions: map<Tenant, nat>
    var entries: map<Key, string>

    constructor ()
      ensures versions == map[] && entries == map[]
    {
      versions, entries := map[], map[];
    }

    function Version(tenant: Tenant): nat
      reads this
    {
      if tenant in versions then versions[tenant] else 0
    }

    /** Nothing is stored under a version still to come, and what the current one holds is what the database says. */
    ghost predicate Coherent(run: Engine, db: Database)
      reads this
    {
      && (forall k :: k in entries ==> k.version <= Version(k.tenant))
      && (forall k :: k in entries && k.version == Version(k.tenant) ==> run(db, k.tenant, k.query) == Some(entries[k]))
    }

    method BumpTenantCacheVersion(tenant: Tenant)
      modifies this`versions
      ensures versions
        == old(versions)[tenant := if tenant in old(versions) then old(versions)[tenant] + 1 else 1]
    {
      versions := versions[tenant := Version(tenant) + 1];
    }

    /** The cached read, undisturbed: list_tasks_cached and get_task_cached. */
    method ReadCached(run: Engine, db: Database, tenant: Tenant, query: Query) returns (answer: Option<string>)
      requires Coherent(run, db)
      modifies this`entries
      ensures answer == run(db, tenant, query)
      ensures Coherent(run, db) && forall t :: CoherentBut(run, db, t)
      ensures entries == match answer
                         case None => old(entries)
                         case Some(value) => old(entries)[Key(tenant, Version(tenant), query) := value]
    {
      var version := Version(tenant);
      var key := Key(tenant, version, query);
      if key in entries {
        answer := Some(entries[key]);
        assert entries[key := answer.value] == entries;
        return;
      }
      answer := run(db, tenant, query);
      if answer.Some? {
        entries := entries[key := answer.value];
      }
    }

    /** The same, except perhaps for one tenant's current entries. */
    ghost predicate CoherentBut(run: Engine, db: Database, tenant: Tenant)
      reads this
    {
      && (forall k :: k in entries ==> k.version <= Version(k.tenant))
      && (forall k :: k in entries && k.version == Version(k.tenant) && k.tenant != tenant ==>
            run(db, k.tenant, k.query) == Some(entries[k]))
    }

    /**
     A write of one tenant followed by its bump. If Redis is away when the write is to be bumped the
     caller gets an error for a write that stands, and that tenant's cached answers may be stale; the
     next write of the tenant whose bump goes through makes every cached answer right again, whatever
     failed before it.
     */
    method CommitAndBump(run: Engine, db: Database, db': Database, tenant: Tenant, bumped: bool) returns (ok: bool)
      requires CoherentBut(run, db, tenant)
      requires forall t, q :: t != tenant ==> run(db', t, q) == run(db, t, q)
      modifies this`versions
      ensures ok <==> bumped
      ensures ok ==> Coherent(run, db') && Version(tenant) == old(Version(tenant)) + 1
      ensures forall t :: t != tenant ==> Version(t) == old(Version(t))
      ensures !ok ==> versions == old(versions) && CoherentBut(run, db', tenant)
    {
      if !bumped {
        return false;
      }
      BumpTenantCacheVersion(tenant);
      ok := true;
    }

    /** Or, without a bump, once the tenant's current entries have expired. */
    method Expire(keys: set<Key>)
      modifies this`entries
      ensures entries == old(entries) - keys
      ensures forall run: Engine, db: Database, tenant: Tenant ::
        old(CoherentBut(run, db, tenant)) && (forall k :: k in old(entries) && k.tenant == tenant ==> k in keys) ==>
          Coherent(run, db)
    {
      entries := entries - keys;
    }
  }

  /** ---- Interleaved readers, writers and expiry ---- */

  /** A cached value, with the database state it was computed on. */
  datatype Entry = Entry(value: string, at: nat)

  /**
   A reader between its steps. `since` is the latest write of the tenant whose bump had returned
   when the reader looked the version up; it plays no part in what the reader does.
   */
  datatype Reader =
    | Looked(tenant: Tenant, query: Query, version: nat, since: nat)
    | Missed(tenant: Tenant, query: Query, version: nat, since: nat)
    | Fetched(tenant: Tenant, query: Query, version: nat, since: nat, value: string, at: nat)
    | Answered(tenant: Tenant, query: Query, since: nat, answer: Option<string>, at: nat)

  /** A writer that has committed database state `index` and not yet bumped. */
  datatype Writer = Writer(tenant: Tenant, index: nat)

  /**
   `history` is every committed database state; `floors[t][v]` the latest bumped write of `t` when its
   version became v.
   */
  datatype World = World(history: seq<Database>, floors: map<Tenant, seq<nat>>, entries: map<Key, Entry>,
                         readers: map<nat, Reader>, writers: map<nat, Writer>)

  datatype Event =
    | Commit(writer: nat, of: Tenant, db: Database)
    | Bump(writer: nat)
    | Lookup(reader: nat, of: Tenant, query: Query)
    | Probe(reader: nat)
    | Fetch(reader: nat)
    | Store(reader: nat)
    | Expire(key: Key)

  function Start(db: Database): World {
    World([db], map[], map[], map[], map[])
  }

  function Floors(s: World, t: Tenant): (f: seq<nat>)
    ensures |f| > 0
  {
    if t in s.floors && s.floors[t] != [] then s.floors[t] else [0]
  }

  /** The tenant's version counter. */
  function Version(s: World, t: Tenant): nat {
    |Floors(s, t)| - 1
  }

  function LastBumped(s: World, t: Tenant): nat {
    Floors(s, t)[Version(s, t)]
  }

  function Step(run: Engine, s: World, e: Event): World {
    match e
    case Commit(w, t, db) =>
      if w in s.writers then s
      else s.(history := s.history + [db], writers := s.writers[w := Writer(t, |s.history|)])
    case Bump(w) =>
      if w !in s.writers then s
      else
        var t := s.writers[w].tenant;
        s.(floors := s.floors[t := Floors(s, t) + [Max(LastBumped(s, t), s.writers[w].index)]],
           writers := s.writers - {w})
    case Lookup(r, t, q) =>
      if r in s.readers then s
      else s.(readers := s.readers[r := Looked(t, q, Version(s, t), LastBumped(s, t))])
    case Probe(r) =>
      if r !in s.readers || !s.readers[r].Looked? then s
      else
        var Looked(t, q, v, since) := s.readers[r];
        if Key(t, v, q) in s.entries then
          var hit := s.entries[Key(t, v, q)];
          s.(readers := s.readers[r := Answered(t, q, since, Some(hit.value), hit.at)])
        else s.(readers := s.readers[r := Missed(t, q, v, since)])
    case Fetch(r) =>
      if r !in s.readers || !s.readers[r].Missed? || s.history == [] then s
      else
        var Missed(t, q, v, since) := s.readers[r];
        var at := |s.history| - 1;
        (match run(s.history[at], t, q)
         case None => s.(readers := s.readers[r := Answered(t, q, since, None, at)])
         case Some(value) => s.(readers := s.readers[r := Fetched(t, q, v, since, value, at)]))
    case Store(r) =>
      if r !in s.readers || !s.readers[r].Fetched? then s
      else
        var Fetched(t, q, v, since, value, at) := s.readers[r];
        s.(entries := s.entries[Key(t, v, q) := Entry(value, at)],
           readers := s.readers[r := Answered(t, q, since, Some(value), at)])
    case Expire(k) => s.(entries := s.entries - {k})
  }

  function Run(run: Engine, s: World, es: seq<Event>): World
    decreases |es|
  {
    if es == [] then s else Run(run, Step(run, s, es[0]), es[1..])
  }

  predicate Rising(floors: seq<nat>, bound: nat) {
    forall v, w :: 0 <= v <= w < |floors| ==> floors[v] <= floors[w] < bound
  }

  lemma RisingGrows(floors: seq<nat>, floor: nat, bound: nat, bound': nat)
    requires Rising(floors, bound) && |floors| > 0 && floors[|floors| - 1] <= floor < bound' && bound <= bound'
    ensures Rising(floors + [floor], bound')
  {
  }

  /** Version counters never outrun the writes behind them. */
  ghost predicate FloorsOk(s: World) {
    && |s.history| > 0
    && (forall t :: Rising(Floors(s, t), |s.history|))
    && (forall w :: w in s.writers ==> s.writers[w].index < |s.history|)
  }

  /** `value` is the query's answer on a state no older than `floor`. */
  ghost predicate ComputedSince(run: Engine, s: World, t: Tenant, q: Query, value: Option<string>, at: nat,
                                floor: nat) {
    floor <= at < |s.history| && run(s.history[at], t, q) == value
  }

  /** An entry under version v was computed while the version was at least v. */
  ghost predicate EntryOk(run: Engine, s: World, k: Key, e: Entry) {
    k.version <= Version(s, k.tenant)
    && ComputedSince(run, s, k.tenant, k.query, Some(e.value), e.at, Floors(s, k.tenant)[k.version])
  }

  ghost predicate ReaderOk(run: Engine, s: World, r: Reader) {
    match r
    case Looked(t, q, v, since) => v <= Version(s, t) && since == Floors(s, t)[v]
    case Missed(t, q, v, since) => v <= Version(s, t) && since == Floors(s, t)[v]
    case Fetched(t, q, v, since, value, at) =>
      v <= Version(s, t) && since == Floors(s, t)[v] && ComputedSince(run, s, t, q, Some(value), at, since)
    case Answered(t, q, since, answer, at) => ComputedSince(run, s, t, q, answer, at, since)
  }

  ghost predicate Sound(run: Engine, s: World) {
    && FloorsOk(s)
    && (forall k :: k in s.entries ==> EntryOk(run, s, k, s.entries[k]))
    && (forall r :: r in s.readers ==> ReaderOk(run, s, s.readers[r]))
  }

  /** `s'` has the same past and possibly a longer one. */
  ghost predicate Extends(s: World, s': World) {
    s.history <= s'.history && forall t :: Floors(s, t) <= Floors(s', t)
  }

  lemma OkInLongerPast(run: Engine, s: World, s': World)
    requires Extends(s, s')
    ensures forall k, e :: EntryOk(run, s, k, e) ==> EntryOk(run, s', k, e)
    ensures forall r :: ReaderOk(run, s, r) ==> ReaderOk(run, s', r)
  {
  }

  lemma StepExtends(run: Engine, s: World, e: Event)
    ensures Extends(s, Step(run, s, e))
  {
  }

  lemma FloorsStep(run: Engine, s: World, e: Event)
    requires FloorsOk(s)
    ensures FloorsOk(Step(run, s, e))
  {
    if e.Bump? && e.writer in s.writers {
      BumpFloors(run, s, e.writer);
    } else {
      SameFloors(s, Step(run, s, e));
    }
  }

  lemma SameFloors(s: World, s': World)
    requires FloorsOk(s) && s'.floors == s.floors && |s'.history| >= |s.history|
    requires forall w :: w in s'.writers ==> s'.writers[w].index < |s'.history|
    ensures FloorsOk(s')
  {
    forall t
      ensures Rising(Floors(s', t), |s'.history|)
    {
      assert Rising(Floors(s, t), |s.history|);
    }
  }

  lemma BumpFloors(run: Engine, s: World, w: nat)
    requires FloorsOk(s) && w in s.writers
    ensures FloorsOk(Step(run, s, Bump(w)))
  {
    var s' := Step(run, s, Bump(w));
    var t := s.writers[w].tenant;
    forall u
      ensures Rising(Floors(s', u), |s.history|)
    {
      assert Rising(Floors(s, u), |s.history|);
      if u == t {
        RisingGrows(Floors(s, t), Max(LastBumped(s, t), s.writers[w].index), |s.history|, |s.history|);
      }
    }
  }

  lemma ProbeOk(run: Engine, s: World, r: nat)
    requires Sound(run, s) && r in s.readers && s.readers[r].Looked?
    ensures var s' := Step(run, s, Probe(r)); r in s'.readers && ReaderOk(run, s, s'.readers[r])
  {
    var Looked(t, q, v, since) := s.readers[r];
    if Key(t, v, q) in s.entries {
      assert EntryOk(run, s, Key(t, v, q), s.entries[Key(t, v, q)]);
    }
  }

  lemma FetchOk(run: Engine, s: World, r: nat)
    requires r in s.readers && s.readers[r].Missed? && ReaderOk(run, s, s.readers[r])
    requires s.readers[r].since < |s.history|
    ensures var s' := Step(run, s, Fetch(r)); r in s'.readers && ReaderOk(run, s, s'.readers[r])
  {
  }

  lemma FloorsArePast(s: World, t: Tenant, v: nat)
    requires FloorsOk(s) && v <= Version(s, t)
    ensures Floors(s, t)[v] < |s.history|
  {
    assert Rising(Floors(s, t), |s.history|);
  }

  lemma StoreOk(run: Engine, s: World, r: nat)
    requires r in s.readers && s.readers[r].Fetched? && ReaderOk(run, s, s.readers[r])
    ensures var s' := Step(run, s, Store(r)); r in s'.readers && ReaderOk(run, s, s'.readers[r])
  {
  }

  predicate Moves(s: World, e: Event, r: nat) {
    || (e == Probe(r) && r in s.readers && s.readers[r].Looked?)
    || (e == Fetch(r) && r in s.readers && s.readers[r].Missed?)
    || (e == Store(r) && r in s.readers && s.readers[r].Fetched?)
    || (e.Lookup? && e.reader == r && r !in s.readers)
  }

  lemma OthersStay(run: Engine, s: World, e: Event, r: nat)
    requires !Moves(s, e, r)
    ensures r in Step(run, s, e).readers ==> r in s.readers && Step(run, s, e).readers[r] == s.readers[r]
  {
  }

  lemma ReaderStep(run: Engine, s: World, e: Event, r: nat)
    requires Sound(run, s) && r in Step(run, s, e).readers
    ensures ReaderOk(run, Step(run, s, e), Step(run, s, e).readers[r])
  {
    assert ReaderOk(run, s, Step(run, s, e).readers[r]) by {
      if !Moves(s, e, r) {
        OthersStay(run, s, e, r);
      } else {
        match e
        case Probe(_) => ProbeOk(run, s, r);
        case Fetch(_) =>
          FloorsArePast(s, s.readers[r].tenant, s.readers[r].version);
          FetchOk(run, s, r);
        case Store(_) => StoreOk(run, s, r);
        case Lookup(_, _, _) =>
      }
    }
    StepExtends(run, s, e);
    OkInLongerPast(run, s, Step(run, s, e));
  }

  /** An entry was there before, or a reader has just stored what it fetched. */
  lemma EntryOrigin(run: Engine, s: World, e: Event, k: Key)
    requires k in Step(run, s, e).entries
    ensures var entry := Step(run, s, e).entries[k];
            || (k in s.entries && entry == s.entries[k])
            || (e.Store? && e.reader in s.readers && s.readers[e.reader].Fetched?
                && var Fetched(t, q, v, since, value, at) := s.readers[e.reader];
                k == Key(t, v, q) && entry == Entry(value, at))
  {
  }

  lemma EntryStep(run: Engine, s: World, e: Event, k: Key)
    requires Sound(run, s) && k in Step(run, s, e).entries
    ensures EntryOk(run, Step(run, s, e), k, Step(run, s, e).entries[k])
  {
    EntryOrigin(run, s, e, k);
    assert EntryOk(run, s, k, Step(run, s, e).entries[k]) by {
      assert e.Store? && e.reader in s.readers ==> ReaderOk(run, s, s.readers[e.reader]);
    }
    StepExtends(run, s, e);
    OkInLongerPast(run, s, Step(run, s, e));
  }

  lemma StepSound(run: Engine, s: World, e: Event)
    requires Sound(run, s)
    ensures Sound(run, Step(run, s, e))
  {
    FloorsStep(run, s, e);
    forall r | r in Step(run, s, e).readers
      ensures ReaderOk(run, Step(run, s, e), Step(run, s, e).readers[r])
    {
      ReaderStep(run, s, e, r);
    }
    forall k | k in Step(run, s, e).entries
      ensures EntryOk(run, Step(run, s, e), k, Step(run, s, e).entries[k])
    {
      EntryStep(run, s, e, k);
    }
  }

  lemma {:induction false} RunSound(run: Engine, s: World, es: seq<Event>)
    requires Sound(run, s)
    ensures Sound(run, Run(run, s, es)) && Extends(s, Run(run, s, es))
    decreases |es|
  {
    if es == [] {
    } else {
      StepSound(run, s, es[0]);
      StepExtends(run, s, es[0]);
      RunSound(run, Step(run, s, es[0]), es[1..]);
    }
  }

  /** A reader keeps its tenant, query and lookup floor to the end. */
  lemma {:induction false} ReaderKeeps(run: Engine, s: World, es: seq<Event>, r: nat)
    requires r in s.readers
    ensures var s' := Run(run, s, es);
            r in s'.readers && s'.readers[r].tenant == s.readers[r].tenant && s'.readers[r].query == s.readers[r].query
            && s'.readers[r].since == s.readers[r].since
    decreases |es|
  {
    if es == [] {
    } else {
      ReaderKeepsStep(run, s, es[0], r);
      ReaderKeeps(run, Step(run, s, es[0]), es[1..], r);
    }
  }

  lemma ReaderKeepsStep(run: Engine, s: World, e: Event, r: nat)
    requires r in s.readers
    ensures var s' := Step(run, s, e);
            r in s'.readers && s'.readers[r].tenant == s.readers[r].tenant && s'.readers[r].query == s.readers[r].query
            && s'.readers[r].since == s.readers[r].since
  {
  }

  /** Invariant over every run: entries under version v were computed on a state with every write bumped by then. */
  lemma EntriesAreAsFreshAsTheirVersion(run: Engine, db: Database, es: seq<Event>, k: Key)
    requires k in Run(run, Start(db), es).entries
    ensures var s := Run(run, Start(db), es);
            k.version <= Version(s, k.tenant)
            && Floors(s, k.tenant)[k.version] <= s.entries[k].at < |s.history|
            && run(s.history[s.entries[k].at], k.tenant, k.query) == Some(s.entries[k].value)
  {
    StartSound(run, db);
    RunSound(run, Start(db), es);
  }

  lemma StartSound(run: Engine, db: Database)
    ensures Sound(run, Start(db))
  {
  }

  /**
   For every interleaving of readers, writers and expiry: a read whose version lookup follows the
   return of a write's bump answers with the query evaluated on a database state committed at or
   after that write.
   */
  lemma ReadsSeeBumpedWrites(run: Engine, db: Database, before: seq<Event>, w: nat, between: seq<Event>,
                             r: nat, q: Query, after: seq<Event>)
    requires var s0 := Run(run, Start(db), before);
             w in s0.writers && r !in Run(run, Step(run, s0, Bump(w)), between).readers
    ensures var s0 := Run(run, Start(db), before);
            var t := s0.writers[w].tenant;
            var s1 := Run(run, Step(run, s0, Bump(w)), between);
            var s := Run(run, Step(run, s1, Lookup(r, t, q)), after);
            r in s.readers && s0.history <= s.history
            && (s.readers[r].Answered? ==>
                  s0.writers[w].index <= s.readers[r].at < |s.history|
                  && s.readers[r].answer == run(s.history[s.readers[r].at], t, q))
  {
    var s0 := Run(run, Start(db), before);
    var t := s0.writers[w].tenant;
    StartSound(run, db);
    RunSound(run, Start(db), before);
    StepSound(run, s0, Bump(w));
    StepExtends(run, s0, Bump(w));
    var b := Step(run, s0, Bump(w));
    assert LastBumped(b, t) >= s0.writers[w].index;
    var s1 := Run(run, b, between);
    RunSound(run, b, between);
    assert Floors(s1, t)[Version(b, t)] == LastBumped(b, t);
    assert LastBumped(s1, t) >= LastBumped(b, t);
    StepSound(run, s1, Lookup(r, t, q));
    StepExtends(run, s1, Lookup(r, t, q));
    var l := Step(run, s1, Lookup(r, t, q));
    assert l.readers[r] == Looked(t, q, Version(s1, t), LastBumped(s1, t));
    RunSound(run, l, after);
    ReaderKeeps(run, l, after, r);
  }

  /**
   The promise starts at the bump: between a write's commit and its bump a new reader may still be
   answered from before the write.
   */
  lemma StaleUntilTheBump(q: Query)
    ensures var run: Engine := (db, t, q) => if 0 in db then Some(db[0]) else None;
            var warmUp := [Lookup(1, 0, q), Probe(1), Fetch(1), Store(1)];
            var s := Run(run, Start(map[0 := "old"]),
                         warmUp + [Commit(1, 0, map[0 := "new"])] + [Lookup(2, 0, q), Probe(2)]);
            |s.history| == 2 && s.history[1] == map[0 := "new"]
            && 2 in s.readers && s.readers[2] == Answered(0, q, 0, Some("old"), 0)
  {
    var run: Engine := (db, t, q) => if 0 in db then Some(db[0]) else None;
    StaleRead(run, q);
  }

  lemma StaleRead(run: Engine, q: Query)
    requires run(map[0 := "old"], 0, q) == Some("old")
    ensures var warmUp := [Lookup(1, 0, q), Probe(1), Fetch(1), Store(1)];
            var s := Run(run, Start(map[0 := "old"]),
                         warmUp + [Commit(1, 0, map[0 := "new"])] + [Lookup(2, 0, q), Probe(2)]);
            |s.history| == 2 && s.history[1] == map[0 := "new"]
            && 2 in s.readers && s.readers[2] == Answered(0, q, 0, Some("old"), 0)
  {
    var warmUp := [Lookup(1, 0, q), Probe(1), Fetch(1), Store(1)];
    var change, again := [Commit(1, 0, map[0 := "new"])], [Lookup(2, 0, q), Probe(2)];
    WarmUp(run, q);
    ReadAfterCommit(run, q);
    RunAppend(run, Start(map[0 := "old"]), warmUp + change, again);
    RunAppend(run, Start(map[0 := "old"]), warmUp, change);
    RunAppend(run, Warm(q), change, again);
  }

  /** One reader has been served "old" and has left it in the cache. */
  function Warm(q: Query): World {
    World([map[0 := "old"]], map[], map[Key(0, 0, q) := Entry("old", 0)],
          map[1 := Answered(0, q, 0, Some("old"), 0)], map[])
  }

  function Reading(r: Reader): World {
    World([map[0 := "old"]], map[], map[], map[1 := r], map[])
  }

  lemma WarmUp(run: Engine, q: Query)
    requires run(map[0 := "old"], 0, q) == Some("old")
    ensures Run(run, Start(map[0 := "old"]), [Lookup(1, 0, q), Probe(1), Fetch(1), Store(1)]) == Warm(q)
  {
    var s0 := Start(map[0 := "old"]);
    var s1, s2, s3 := Reading(Looked(0, q, 0, 0)), Reading(Missed(0, q, 0, 0)), Reading(Fetched(0, q, 0, 0, "old", 0));
    FourSteps(run, s0, Lookup(1, 0, q), Probe(1), Fetch(1), Store(1));
    assert Step(run, s0, Lookup(1, 0, q)) == s1;
    MissedLookup(run, q);
    FetchedAndStored(run, q);
  }

  lemma MissedLookup(run: Engine, q: Query)
    ensures Step(run, Reading(Looked(0, q, 0, 0)), Probe(1)) == Reading(Missed(0, q, 0, 0))
  {
  }

  lemma FetchedAndStored(run: Engine, q: Query)
    requires run(map[0 := "old"], 0, q) == Some("old")
    ensures Step(run, Reading(Missed(0, q, 0, 0)), Fetch(1)) == Reading(Fetched(0, q, 0, 0, "old", 0))
    ensures Step(run, Reading(Fetched(0, q, 0, 0, "old", 0)), Store(1)) == Warm(q)
  {
  }

  lemma ReadAfterCommit(run: Engine, q: Query)
    ensures var s := Run(run, Warm(q), [Commit(1, 0, map[0 := "new"])] + [Lookup(2, 0, q), Probe(2)]);
            |s.history| == 2 && s.history[1] == map[0 := "new"]
            && 2 in s.readers && s.readers[2] == Answered(0, q, 0, Some("old"), 0)
  {
    var s5 := Step(run, Warm(q), Commit(1, 0, map[0 := "new"]));
    RunAppend(run, Warm(q), [Commit(1, 0, map[0 := "new"])], [Lookup(2, 0, q), Probe(2)]);
    OneStep(run, Warm(q), Commit(1, 0, map[0 := "new"]));
    TwoSteps(run, s5, Lookup(2, 0, q), Probe(2));
  }

  /** Expiry removes the one entry and nothing else, so the next read of it goes to the database. */
  lemma ExpiryTakesExactly(run: Engine, s: World, k: Key, r: nat)
    ensures var s' := Step(run, s, Expire(k));
            && (forall other :: other in s'.entries <==> other in s.entries && other != k)
            && (forall other :: other in s'.entries ==> s'.entries[other] == s.entries[other])
            && s'.history == s.history && s'.floors == s.floors && s'.readers == s.readers && s'.writers == s.writers
    ensures var s' := Step(run, s, Expire(k));
            r in s.readers && s.readers[r].Looked?
            && Key(s.readers[r].tenant, s.readers[r].version, s.readers[r].query) == k
            ==> Step(run, s', Probe(r)).readers[r]
                == Missed(s.readers[r].tenant, s.readers[r].query, s.readers[r].version, s.readers[r].since)
  {
  }

  lemma OneStep(run: Engine, s: World, e: Event)
    ensures Run(run, s, [e]) == Step(run, s, e)
  {
    assert [e][1..] == [];
  }

  lemma TwoSteps(run: Engine, s: World, e0: Event, e1: Event)
    ensures Run(run, s, [e0, e1]) == Step(run, Step(run, s, e0), e1)
  {
    OneStep(run, Step(run, s, e0), e1);
    assert [e0, e1][1..] == [e1];
  }

  lemma FourSteps(run: Engine, s: World, e0: Event, e1: Event, e2: Event, e3: Event)
    ensures Run(run, s, [e0, e1, e2, e3]) == Step(run, Step(run, Step(run, Step(run, s, e0), e1), e2), e3)
  {
    assert [e0, e1, e2, e3] == [e0, e1] + [e2, e3];
    RunAppend(run, s, [e0, e1], [e2, e3]);
    TwoSteps(run, s, e0, e1);
    TwoSteps(run, Run(run, s, [e0, e1]), e2, e3);
  }

  lemma {:induction false} RunAppend(run: Engine, s: World, es: seq<Event>, more: seq<Event>)
    ensures Run(run, s, es + more) == Run(run, Run(run, s, es), more)
    decreases |es|
  {
    if es == [] {
      assert es + more == more;
    } else {
      assert (es + more)[1..] == es[1..] + more;
      RunAppend(run, Step(run, s, es[0]), es[1..], more);
    }
  }
}
