/** Refresh-token rotation: the refresh_tokens table and the read-then-rotate refresh over it. */
module RefreshTokens {
  import opened Prelude
  import opened Selection

  type TokenId = nat
  type UserId = nat
  type TenantId = nat

  datatype Token = Token(user: UserId, tenant: TenantId, expiresAt: int, createdAt: int,
                         revokedAt: Option<int>, replacedBy: Option<TokenId>)

  type Table = map<TokenId, Token>

  predicate Active(t: Token, now: int) {
    t.revokedAt.None? && t.expiresAt > now
  }

  /** `COALESCE(revoked_at, now)` */
  function Revoked(t: Token, now: int): Token {
    if t.revokedAt.None? then t.(revokedAt := Some(now)) else t
  }

  function Issued(user: UserId, tenant: TenantId, expiresAt: int, now: int): Token {
    Token(user, tenant, expiresAt, now, None, None)
  }

  function RevokeWhere(rows: Table, who: set<TokenId>, now: int): Table {
    map id | id in rows :: if id in who then Revoked(rows[id], now) else rows[id]
  }

  function OfUser(rows: Table, user: UserId): set<TokenId> {
    set id | id in rows && rows[id].user == user
  }

  function OfUserTenant(rows: Table, user: UserId, tenant: TenantId): set<TokenId> {
    set id | id in rows && rows[id].user == user && rows[id].tenant == tenant
  }

  predicate Purgeable(t: Token, cutoff: int) {
    t.expiresAt < cutoff || (t.revokedAt.Some? && t.revokedAt.value < cutoff)
  }

  function Purged(rows: Table, cutoff: int): Table {
    map id | id in rows && !Purgeable(rows[id], cutoff) :: rows[id]
  }

  /** The table's statements. */
  class TokenStore {
    var rows: Table

    constructor ()
      ensures rows == map[]
    {
      rows := map[];
    }

    method CreateRefreshToken(id: TokenId, user: UserId, tenant: TenantId, expiresAt: int, now: int)
      requires id !in rows
      modifies this
      ensures rows == old(rows)[id := Issued(user, tenant, expiresAt, now)]
      ensures rows[id].user == user && rows[id].tenant == tenant
      ensures rows[id].expiresAt == expiresAt && rows[id].createdAt == now
      ensures rows[id].revokedAt == None && rows[id].replacedBy == None
    {
      rows := rows[id := Token(user, tenant, expiresAt, now, None, None)];
    }

    /**
     One transaction: retire `previous` if it is still active, then insert its successor; otherwise
     nothing changes.
     */
    method RotateRefreshToken(previous: TokenId, next: TokenId, user: UserId, tenant: TenantId, expiresAt: int,
                              now: int)
      returns (rotated: bool)
      requires next !in rows
      modifies this
      ensures rotated <==>
        previous in old(rows) && old(rows)[previous].revokedAt.None? && old(rows)[previous].expiresAt > now
      ensures rotated ==>
        && next in rows && rows[next].user == user && rows[next].tenant == tenant
        && rows[next].expiresAt == expiresAt && rows[next].createdAt == now
        && rows[next].revokedAt == None && rows[next].replacedBy == None
      ensures rotated ==>
        rows == old(rows)[previous := old(rows)[previous].(revokedAt := Some(now), replacedBy := Some(next))]
                         [next := Issued(user, tenant, expiresAt, now)]
      ensures !rotated ==> rows == old(rows)
    {
      rotated := previous in rows && rows[previous].revokedAt.None? && rows[previous].expiresAt > now;
      if !rotated {
        return;
      }
      rows := rows[previous := rows[previous].(revokedAt := Some(now), replacedBy := Some(next))];
      rows := rows[next := Token(user, tenant, expiresAt, now, None, None)];
    }

    method RevokeRefreshToken(id: TokenId, now: int)
      modifies this
      ensures rows == RevokeWhere(old(rows), {id}, now) && rows.Keys == old(rows).Keys
      ensures forall i :: i in rows ==>
        rows[i] == if i == id && old(rows)[i].revokedAt.None?
                   then old(rows)[i].(revokedAt := Some(now)) else old(rows)[i]
    {
      rows := map i | i in rows ::
        if i == id && rows[i].revokedAt.None? then rows[i].(revokedAt := Some(now)) else rows[i];
    }

    method RevokeUserTenantRefreshTokens(user: UserId, tenant: TenantId, now: int)
      modifies this
      ensures rows == RevokeWhere(old(rows), OfUserTenant(old(rows), user, tenant), now) && rows.Keys == old(rows).Keys
      ensures forall i :: i in rows ==>
        rows[i] == if old(rows)[i].user == user && old(rows)[i].tenant == tenant && old(rows)[i].revokedAt.None?
                   then old(rows)[i].(revokedAt := Some(now)) else old(rows)[i]
    {
      rows := map i | i in rows ::
        if rows[i].user == user && rows[i].tenant == tenant && rows[i].revokedAt.None?
        then rows[i].(revokedAt := Some(now)) else rows[i];
    }

    method RevokeAllUserRefreshTokens(user: UserId, now: int)
      modifies this
      ensures rows == RevokeWhere(old(rows), OfUser(old(rows), user), now) && rows.Keys == old(rows).Keys
      ensures forall i :: i in rows ==>
        rows[i] == if old(rows)[i].user == user && old(rows)[i].revokedAt.None?
                   then old(rows)[i].(revokedAt := Some(now)) else old(rows)[i]
    {
      rows := map i | i in rows ::
        if rows[i].user == user && rows[i].revokedAt.None? then rows[i].(revokedAt := Some(now)) else rows[i];
    }

    /** Newest first. */
    method ListActiveRefreshTokens(user: UserId, now: int) returns (ids: seq<TokenId>)
      ensures forall id :: id in ids <==>
        id in rows && rows[id].user == user && rows[id].revokedAt.None? && rows[id].expiresAt > now
      ensures forall i, j :: 0 <= i < j < |ids| ==> ids[i] != ids[j]
      ensures forall i, j :: 0 <= i < j < |ids| ==>
        ids[i] in rows && ids[j] in rows && rows[ids[i]].createdAt >= rows[ids[j]].createdAt
    {
      var age := map id | id in rows && rows[id].user == user && rows[id].revokedAt.None? && rows[id].expiresAt > now
        :: -rows[id].createdAt;
      ids := SelectLowest(age, |age|);
      LowestIsAll(age, |age|, ids);
      assert forall id :: id in ids <==> id in Elements(ids);
    }

    method RevokeUserRefreshToken(user: UserId, id: TokenId, now: int) returns (found: bool)
      modifies this
      ensures found <==> id in old(rows) && old(rows)[id].user == user
                         && old(rows)[id].revokedAt.None? && old(rows)[id].expiresAt > now
      ensures rows == if found then RevokeWhere(old(rows), {id}, now) else old(rows)
      ensures rows == if found then old(rows)[id := old(rows)[id].(revokedAt := Some(now))] else old(rows)
    {
      found := id in rows && rows[id].user == user && rows[id].revokedAt.None? && rows[id].expiresAt > now;
      if found {
        rows := rows[id := rows[id].(revokedAt := Some(now))];
      }
    }

    method PurgeStaleRefreshTokens(now: int, retention: nat) returns (deleted: nat)
      modifies this
      ensures rows == Purged(old(rows), now - retention)
      ensures forall id :: id in old(rows) ==>
        var token := old(rows)[id];
        id in rows <==> !(token.expiresAt < now - retention
                          || (token.revokedAt.Some? && token.revokedAt.value < now - retention))
      ensures forall id :: id in rows ==> id in old(rows) && rows[id] == old(rows)[id]
      ensures deleted == |old(rows)| - |rows|
    {
      var cutoff := now - retention;
      var kept := map id | id in rows
        && !(rows[id].expiresAt < cutoff || (rows[id].revokedAt.Some? && rows[id].revokedAt.value < cutoff))
        :: rows[id];
      assert kept == Purged(rows, cutoff);
      SubsetSize(kept.Keys, rows.Keys);
      deleted := |rows.Keys| - |kept.Keys|;
      assert |rows| == |rows.Keys| && |kept| == |kept.Keys|;
      rows := kept;
    }
  }

  /** ---- Interleaved sessions ---- */

  /**
   `checked` are refreshes between their read check and their rotation. `issued` lists every token
   id ever created, oldest first, and `next` every rotation ever made; rows may be purged, these not.
   */
  datatype World = World(now: int, rows: Table, checked: map<nat, TokenId>, issued: seq<TokenId>,
                         next: map<TokenId, TokenId>)

  const START: World := World(0, map[], map[], [], map[])

  datatype Event =
    | Tick(elapsed: nat)
    | Issue(id: TokenId, user: UserId, tenant: TenantId, life: nat)
    | Check(request: nat, id: TokenId)
    | Rotate(request: nat, successor: TokenId, tenant: TenantId, life: nat)
    | Logout(id: TokenId)
    | RevokeTenant(user: UserId, tenant: TenantId)
    | RevokeAll(user: UserId)
    | RevokeSession(user: UserId, id: TokenId)
    | ListSessions(user: UserId)
    | Purge(retention: nat)

  /** What the caller of an operation learns. */
  datatype Result = Silent | Success | Unauthorized | SessionNotFound | Sessions(tokens: Table)

  predicate CanRotate(s: World, e: Event) {
    e.Rotate? && e.request in s.checked && e.successor !in s.issued
    && s.checked[e.request] in s.rows && Active(s.rows[s.checked[e.request]], s.now)
  }

  predicate CanCheck(s: World, e: Event) {
    e.Check? && e.request !in s.checked && e.id in s.rows && Active(s.rows[e.id], s.now)
  }

  predicate CanRevokeSession(s: World, e: Event) {
    e.RevokeSession? && e.id in s.rows && s.rows[e.id].user == e.user && Active(s.rows[e.id], s.now)
  }

  /** The rows a listing shows; their creation times fix its order. */
  function ActiveOf(s: World, user: UserId): Table {
    map id | id in s.rows && s.rows[id].user == user && Active(s.rows[id], s.now) :: s.rows[id]
  }

  function RowsAfter(s: World, e: Event): Table {
    match e
    case Issue(id, user, tenant, life) =>
      if id in s.issued then s.rows else s.rows[id := Issued(user, tenant, s.now + life, s.now)]
    case Rotate(r, successor, tenant, life) =>
      if !CanRotate(s, e) then s.rows
      else
        var spent := s.checked[r];
        s.rows[spent := s.rows[spent].(revokedAt := Some(s.now), replacedBy := Some(successor))]
              [successor := Issued(s.rows[spent].user, tenant, s.now + life, s.now)]
    case Logout(id) => RevokeWhere(s.rows, {id}, s.now)
    case RevokeTenant(user, tenant) => RevokeWhere(s.rows, OfUserTenant(s.rows, user, tenant), s.now)
    case RevokeAll(user) => RevokeWhere(s.rows, OfUser(s.rows, user), s.now)
    case RevokeSession(user, id) => if CanRevokeSession(s, e) then RevokeWhere(s.rows, {id}, s.now) else s.rows
    case Purge(retention) => Purged(s.rows, s.now - retention)
    case _ => s.rows
  }

  function Step(s: World, e: Event): World {
    var rows := RowsAfter(s, e);
    match e
    case Tick(elapsed) => s.(now := s.now + elapsed)
    case Issue(id, user, tenant, life) => if id in s.issued then s else s.(rows := rows, issued := s.issued + [id])
    case Check(r, id) => if CanCheck(s, e) then s.(checked := s.checked[r := id]) else s
    case Rotate(r, successor, tenant, life) =>
      if CanRotate(s, e) then
        s.(rows := rows, checked := s.checked - {r}, issued := s.issued + [successor],
           next := s.next[s.checked[r] := successor])
      else if successor in s.issued then s
      else s.(checked := s.checked - {r})
    case _ => s.(rows := rows)
  }

  function ResultOf(s: World, e: Event): Result {
    match e
    case Check(r, id) => if r in s.checked then Silent else if CanCheck(s, e) then Success else Unauthorized
    case Rotate(r, successor, tenant, life) =>
      if r !in s.checked || successor in s.issued then Silent else if CanRotate(s, e) then Success else Unauthorized
    case RevokeSession(user, id) => if CanRevokeSession(s, e) then Success else SessionNotFound
    case ListSessions(user) => Sessions(ActiveOf(s, user))
    case Logout(id) => Success
    case RevokeTenant(user, tenant) => Success
    case RevokeAll(user) => Success
    case _ => Silent
  }

  function Run(s: World, es: seq<Event>): World
    decreases |es|
  {
    if es == [] then s else Run(Step(s, es[0]), es[1..])
  }

  /** ---- Chains ---- */

  ghost predicate Sound(s: World) {
    && (forall i, j :: 0 <= i < j < |s.issued| ==> s.issued[i] != s.issued[j])
    && (forall id :: id in s.rows ==> id in s.issued)
    && (forall r :: r in s.checked ==> s.checked[r] in s.issued)
    && Ordered(s.issued, s.next)
    && (forall x :: x in s.next ==> x in s.issued)
    && (forall x, y :: x in s.next && y in s.next && s.next[x] == s.next[y] ==> x == y)
    && (forall id :: id in s.rows ==>
          (s.rows[id].replacedBy.Some? <==> id in s.next)
          && (id in s.next ==> s.rows[id].replacedBy == Some(s.next[id]) && s.rows[id].revokedAt.Some?))
  }

  predicate Grows(s: World, e: Event) {
    (e.Issue? && e.id !in s.issued) || CanRotate(s, e)
  }

  lemma SoundShrink(s: World, s': World)
    requires Sound(s) && s'.issued == s.issued && s'.next == s.next
    requires forall id :: id in s'.rows ==>
      id in s.rows && s'.rows[id].replacedBy == s.rows[id].replacedBy
      && (s.rows[id].revokedAt.Some? ==> s'.rows[id].revokedAt.Some?)
    requires forall r :: r in s'.checked ==> s'.checked[r] in s.issued
    ensures Sound(s')
  {
  }

  /** Successors are issued after what they replace. */
  ghost predicate Ordered(issued: seq<TokenId>, next: map<TokenId, TokenId>) {
    forall i :: 0 <= i < |issued| && issued[i] in next ==> exists j :: i < j < |issued| && issued[j] == next[issued[i]]
  }

  lemma OrderedRotate(issued: seq<TokenId>, next: map<TokenId, TokenId>, spent: TokenId, successor: TokenId)
    requires Ordered(issued, next) && spent in issued && successor !in issued && successor !in next
    ensures Ordered(issued + [successor], next[spent := successor])
  {
    var issued', next' := issued + [successor], next[spent := successor];
    forall i | 0 <= i < |issued'| && issued'[i] in next'
      ensures exists j :: i < j < |issued'| && issued'[j] == next'[issued'[i]]
    {
      if i < |issued| && issued[i] == spent {
        assert issued'[|issued|] == successor;
      } else {
        assert i < |issued|;
        var j :| i < j < |issued| && issued[j] == next[issued[i]];
        assert issued'[j] == issued[j];
      }
    }
  }

  /** No earlier rotation led to an id that was never issued. */
  lemma NextWasIssued(s: World)
    requires Sound(s)
    ensures forall x :: x in s.next ==> s.next[x] in s.issued
  {
    forall x | x in s.next
      ensures s.next[x] in s.issued
    {
      var i :| 0 <= i < |s.issued| && s.issued[i] == x;
    }
  }

  lemma SoundRotate(s: World, e: Event)
    requires Sound(s) && CanRotate(s, e)
    ensures Sound(Step(s, e))
  {
    OrderedRotate(s.issued, s.next, s.checked[e.request], e.successor);
    RotatedLinks(s, e);
    RotatedRows(s, e);
  }

  lemma RotatedLinks(s: World, e: Event)
    requires Sound(s) && CanRotate(s, e)
    ensures var s' := Step(s, e);
            && (forall i, j :: 0 <= i < j < |s'.issued| ==> s'.issued[i] != s'.issued[j])
            && (forall r :: r in s'.checked ==> s'.checked[r] in s'.issued)
            && (forall x :: x in s'.next ==> x in s'.issued)
            && (forall x, y :: x in s'.next && y in s'.next && s'.next[x] == s'.next[y] ==> x == y)
  {
    NextWasIssued(s);
  }

  lemma RotatedRows(s: World, e: Event)
    requires Sound(s) && CanRotate(s, e)
    ensures var s' := Step(s, e);
            && (forall id :: id in s'.rows ==> id in s'.issued)
            && (forall id :: id in s'.rows ==>
              (s'.rows[id].replacedBy.Some? <==> id in s'.next)
              && (id in s'.next ==> s'.rows[id].replacedBy == Some(s'.next[id]) && s'.rows[id].revokedAt.Some?))
  {
    assert e.successor !in s.next;
  }

  lemma SoundIssue(s: World, e: Event)
    requires Sound(s) && e.Issue? && e.id !in s.issued
    ensures Sound(Step(s, e))
  {
    OrderedIssue(s.issued, s.next, e.id);
    IssuedRows(s, e);
  }

  lemma IssuedRows(s: World, e: Event)
    requires Sound(s) && e.Issue? && e.id !in s.issued
    ensures var s' := Step(s, e);
            && (forall id :: id in s'.rows ==> id in s'.issued)
            && (forall id :: id in s'.rows ==>
              (s'.rows[id].replacedBy.Some? <==> id in s'.next)
              && (id in s'.next ==> s'.rows[id].replacedBy == Some(s'.next[id]) && s'.rows[id].revokedAt.Some?))
  {
  }

  lemma OrderedIssue(issued: seq<TokenId>, next: map<TokenId, TokenId>, id: TokenId)
    requires Ordered(issued, next) && id !in next
    ensures Ordered(issued + [id], next)
  {
    var issued' := issued + [id];
    forall i | 0 <= i < |issued'| && issued'[i] in next
      ensures exists j :: i < j < |issued'| && issued'[j] == next[issued'[i]]
    {
      var j :| i < j < |issued| && issued[j] == next[issued[i]];
      assert issued'[j] == issued[j];
    }
  }

  lemma StepSound(s: World, e: Event)
    requires Sound(s)
    ensures Sound(Step(s, e))
  {
    if CanRotate(s, e) {
      SoundRotate(s, e);
    } else if e.Issue? && e.id !in s.issued {
      SoundIssue(s, e);
    } else {
      RowsOnlyShrink(s, e);
      SoundShrink(s, Step(s, e));
    }
  }

  lemma RowsOnlyShrink(s: World, e: Event)
    requires !Grows(s, e)
    ensures forall id :: id in RowsAfter(s, e) ==>
      id in s.rows && RowsAfter(s, e)[id].replacedBy == s.rows[id].replacedBy
      && (s.rows[id].revokedAt.Some? ==> RowsAfter(s, e)[id].revokedAt.Some?)
  {
  }

  lemma {:induction false} RunSound(s: World, es: seq<Event>)
    requires Sound(s)
    ensures Sound(Run(s, es))
    decreases |es|
  {
    if es == [] {
    } else {
      StepSound(s, es[0]);
      RunSound(Step(s, es[0]), es[1..]);
    }
  }

  /** The position at which a token was issued. */
  function Birth(s: World, id: TokenId): nat
    requires id in s.issued
  {
    BirthIn(s.issued, id)
  }

  function BirthIn(ids: seq<TokenId>, id: TokenId): (i: nat)
    requires id in ids
    ensures i < |ids| && ids[i] == id
  {
    if ids[0] == id then 0 else 1 + BirthIn(ids[1..], id)
  }

  lemma NextIsYounger(s: World, id: TokenId)
    requires Sound(s) && id in s.next
    ensures s.next[id] in s.issued && Birth(s, id) < Birth(s, s.next[id])
  {
    var i := Birth(s, id);
    var j :| i < j < |s.issued| && s.issued[j] == s.next[s.issued[i]];
    assert s.next[id] in s.issued;
    assert Birth(s, s.next[id]) == j;
  }

  /** `id` and its successors. */
  ghost function Chain(s: World, id: TokenId): seq<TokenId>
    requires Sound(s) && id in s.issued
    decreases |s.issued| - Birth(s, id)
  {
    if id in s.next then NextIsYounger(s, id); [id] + Chain(s, s.next[id]) else [id]
  }

  predicate IsRoot(s: World, id: TokenId) {
    id in s.issued && forall x :: x in s.next ==> s.next[x] != id
  }

  lemma {:induction false} OnlyTheLastIsUnreplaced(s: World, id: TokenId)
    requires Sound(s) && id in s.issued
    ensures var c := Chain(s, id);
            |c| > 0 && c[0] == id
            && (forall i :: 0 <= i < |c| - 1 ==> c[i] in s.next && s.next[c[i]] == c[i + 1])
            && c[|c| - 1] !in s.next
            && forall x :: x in c ==> x in s.issued
    decreases |s.issued| - Birth(s, id)
  {
    if id in s.next {
      NextIsYounger(s, id);
      OnlyTheLastIsUnreplaced(s, s.next[id]);
    }
  }

  lemma {:induction false} CommonMemberMeansSameRoot(s: World, a: seq<TokenId>, b: seq<TokenId>, i: nat, j: nat)
    requires Sound(s) && i < |a| && j < |b| && a[i] == b[j]
    requires forall k :: 0 <= k < |a| - 1 ==> a[k] in s.next && s.next[a[k]] == a[k + 1]
    requires forall k :: 0 <= k < |b| - 1 ==> b[k] in s.next && s.next[b[k]] == b[k + 1]
    requires IsRoot(s, a[0]) && IsRoot(s, b[0])
    ensures a[0] == b[0]
    decreases i
  {
    assert i > 0 ==> a[i - 1] in s.next && s.next[a[i - 1]] == a[i];
    assert j > 0 ==> b[j - 1] in s.next && s.next[b[j - 1]] == b[j];
    if i > 0 && j > 0 {
      CommonMemberMeansSameRoot(s, a, b, i - 1, j - 1);
    } else {
      assert i == 0 && j == 0;
    }
  }

  /**
   In every run the rotations form disjoint chains: a token has at most one successor, chains from
   different roots share nothing, and of a chain only the last token can be unrevoked.
   */
  lemma RotationsFormDisjointChains(es: seq<Event>, a: TokenId, b: TokenId)
    requires var s := Run(START, es); IsRoot(s, a) && IsRoot(s, b)
    ensures var s := Run(START, es);
            Sound(s)
            && (a != b ==> forall x :: x in Chain(s, a) ==> x !in Chain(s, b))
            && (forall i :: 0 <= i < |Chain(s, a)| - 1 && Chain(s, a)[i] in s.rows ==>
                  && s.rows[Chain(s, a)[i]].revokedAt.Some?
                  && s.rows[Chain(s, a)[i]].replacedBy == Some(Chain(s, a)[i + 1]))
  {
    var s := Run(START, es);
    RunSound(START, es);
    OnlyTheLastIsUnreplaced(s, a);
    OnlyTheLastIsUnreplaced(s, b);
    var ca, cb := Chain(s, a), Chain(s, b);
    forall x | x in ca && x in cb
      ensures a == b
    {
      var i :| 0 <= i < |ca| && ca[i] == x;
      var j :| 0 <= j < |cb| && cb[j] == x;
      CommonMemberMeansSameRoot(s, ca, cb, i, j);
    }
  }

  /** Every issued token is on the chain of some root, so the chains cover all sessions. */
  lemma {:induction false} EveryTokenHasARoot(s: World, id: TokenId) returns (root: TokenId)
    requires Sound(s) && id in s.issued
    ensures IsRoot(s, root) && id in Chain(s, root)
    decreases Birth(s, id)
  {
    if x :| x in s.next && s.next[x] == id {
      NextIsYounger(s, x);
      root := EveryTokenHasARoot(s, x);
      OnlyTheLastIsUnreplaced(s, root);
      var c := Chain(s, root);
      var i :| 0 <= i < |c| && c[i] == x;
      assert i < |c| - 1 && c[i + 1] == id;
    } else {
      root := id;
      OnlyTheLastIsUnreplaced(s, id);
    }
  }

  /** ---- A retired token stays retired ---- */

  ghost predicate Retired(s: World, id: TokenId) {
    id in s.issued && (id in s.rows ==> s.rows[id].revokedAt.Some?)
  }

  lemma StepRetired(s: World, e: Event, id: TokenId)
    requires Retired(s, id)
    ensures Retired(Step(s, e), id)
    ensures !(CanRotate(s, e) && s.checked[e.request] == id)
  {
  }

  lemma {:induction false} RunRetired(s: World, es: seq<Event>, id: TokenId)
    requires Retired(s, id)
    ensures Retired(Run(s, es), id)
    decreases |es|
  {
    if es == [] {
    } else {
      StepRetired(s, es[0], id);
      RunRetired(Step(s, es[0]), es[1..], id);
    }
  }

  lemma {:induction false} CheckedStays(s: World, es: seq<Event>, r: nat)
    requires r in s.checked && r in Run(s, es).checked && NoRotate(es, r)
    ensures Run(s, es).checked[r] == s.checked[r]
    decreases |es|
  {
    if es == [] {
    } else {
      CheckedStays(Step(s, es[0]), es[1..], r);
    }
  }

  predicate NoRotate(es: seq<Event>, r: nat) {
    forall i :: 0 <= i < |es| ==> !(es[i].Rotate? && es[i].request == r)
  }

  /** A refresh that passed its read check before the user's sessions were all revoked is refused at rotation. */
  lemma RevokeAllStopsCheckedRefreshes(before: seq<Event>, r: nat, between: seq<Event>, successor: TokenId,
                                       tenant: TenantId, life: nat)
    requires var s := Run(START, before); r in s.checked && s.checked[r] in s.rows
    requires var s := Run(START, before);
             var s' := Run(Step(s, RevokeAll(s.rows[s.checked[r]].user)), between);
             NoRotate(between, r) && r in s'.checked && successor !in s'.issued
    ensures var s := Run(START, before);
            var s' := Run(Step(s, RevokeAll(s.rows[s.checked[r]].user)), between);
            ResultOf(s', Rotate(r, successor, tenant, life)) == Unauthorized
  {
    var s := Run(START, before);
    RunSound(START, before);
    var id := s.checked[r];
    var s1 := Step(s, RevokeAll(s.rows[id].user));
    assert Retired(s1, id);
    RunRetired(s1, between, id);
    CheckedStays(s1, between, r);
    StepRetired(Run(s1, between), Rotate(r, successor, tenant, life), id);
  }

  /** How often token `id` is rotated away along a run. */
  function RotationCount(s: World, es: seq<Event>, id: TokenId): nat
    decreases |es|
  {
    if es == [] then 0
    else
      var here := if CanRotate(s, es[0]) && s.checked[es[0].request] == id then 1 else 0;
      here + RotationCount(Step(s, es[0]), es[1..], id)
  }

  lemma {:induction false} NoRotationOnceRetired(s: World, es: seq<Event>, id: TokenId)
    requires Retired(s, id)
    ensures RotationCount(s, es, id) == 0
    decreases |es|
  {
    if es == [] {
    } else {
      StepRetired(s, es[0], id);
      NoRotationOnceRetired(Step(s, es[0]), es[1..], id);
    }
  }

  /** However many refreshes race with one token, at most one of them succeeds. */
  lemma {:induction false} RotatedAtMostOnce(s: World, es: seq<Event>, id: TokenId)
    requires Sound(s)
    ensures RotationCount(s, es, id) <= 1
    decreases |es|
  {
    if es == [] {
    } else {
      StepSound(s, es[0]);
      if CanRotate(s, es[0]) && s.checked[es[0].request] == id {
        assert Retired(Step(s, es[0]), id);
        NoRotationOnceRetired(Step(s, es[0]), es[1..], id);
      } else {
        RotatedAtMostOnce(Step(s, es[0]), es[1..], id);
      }
    }
  }

  /** ---- Purging is invisible ---- */

  function Results(s: World, es: seq<Event>): seq<Result>
    decreases |es|
  {
    if es == [] then []
    else (if es[0].Purge? then [] else [ResultOf(s, es[0])]) + Results(Step(s, es[0]), es[1..])
  }

  function WithoutPurges(es: seq<Event>): seq<Event> {
    if es == [] then [] else (if es[0].Purge? then [] else [es[0]]) + WithoutPurges(es[1..])
  }

  /** `p` lacks rows of `q` that are of no use any more. */
  ghost predicate Trimmed(p: World, q: World) {
    && p.now == q.now && p.checked == q.checked && p.issued == q.issued && p.next == q.next
    && (forall id :: id in p.rows ==> id in q.rows && p.rows[id] == q.rows[id])
    && (forall id :: id in q.rows && id !in p.rows ==> !Active(q.rows[id], q.now))
    && (forall id :: id in q.rows ==> id in q.issued)
  }

  lemma TrimmedPurge(p: World, q: World, retention: nat)
    requires Trimmed(p, q)
    ensures Trimmed(Step(p, Purge(retention)), q)
  {
  }

  lemma TrimmedGuards(p: World, q: World, e: Event)
    requires Trimmed(p, q)
    ensures CanRotate(p, e) <==> CanRotate(q, e)
    ensures CanCheck(p, e) <==> CanCheck(q, e)
    ensures CanRevokeSession(p, e) <==> CanRevokeSession(q, e)
    ensures forall user :: ActiveOf(p, user) == ActiveOf(q, user)
  {
  }

  lemma TrimmedRows(p: World, q: World, e: Event)
    requires Trimmed(p, q) && !e.Purge?
    ensures var a, b := RowsAfter(p, e), RowsAfter(q, e);
            (forall id :: id in a ==> id in b && a[id] == b[id])
            && (forall id :: id in b && id !in a ==> !Active(b[id], q.now))
  {
    TrimmedGuards(p, q, e);
  }

  lemma TrimmedStep(p: World, q: World, e: Event)
    requires Trimmed(p, q) && !e.Purge?
    ensures Trimmed(Step(p, e), Step(q, e)) && ResultOf(p, e) == ResultOf(q, e)
  {
    TrimmedGuards(p, q, e);
    TrimmedRows(p, q, e);
  }

  lemma {:induction false} TrimmedRun(p: World, q: World, es: seq<Event>)
    requires Trimmed(p, q)
    ensures Results(p, es) == Results(q, WithoutPurges(es))
    decreases |es|
  {
    if es == [] {
    } else {
      var rest := WithoutPurges(es[1..]);
      if es[0].Purge? {
        TrimmedPurge(p, q, es[0].retention);
        TrimmedRun(Step(p, es[0]), q, es[1..]);
        assert WithoutPurges(es) == rest;
      } else {
        TrimmedStep(p, q, es[0]);
        TrimmedRun(Step(p, es[0]), Step(q, es[0]), es[1..]);
        assert ([es[0]] + rest)[1..] == rest;
      }
    }
  }

  /** Erasing every purge from a history changes the result of no refresh, listing or revocation. */
  lemma PurgingIsInvisible(es: seq<Event>)
    ensures Results(START, es) == Results(START, WithoutPurges(es))
  {
    TrimmedRun(START, START, es);
  }
}
