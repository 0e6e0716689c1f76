/** Whose sessions refresh tokens are, through every rotation, and what ending them means. */
module TokenOwners {
  import opened Prelude
  import opened RefreshTokens

  /** What a token was made with. */
  datatype Mint = Mint(user: UserId, tenant: TenantId, expiresAt: int, createdAt: int)

  type Mints = map<TokenId, Mint>

  /** Logins make a token as asked for; a rotation makes one for the user of the token it spends. */
  function Minted(s: World, e: Event, made: Mints): Mints {
    match e
    case Issue(id, user, tenant, life) =>
      if id in s.issued then made else made[id := Mint(user, tenant, s.now + life, s.now)]
    case Rotate(r, successor, tenant, life) =>
      if successor in s.issued || successor !in Step(s, e).issued || r !in s.checked || s.checked[r] !in made then made
      else made[successor := Mint(made[s.checked[r]].user, tenant, s.now + life, s.now)]
    case _ => made
  }

  function AllMinted(s: World, es: seq<Event>, made: Mints): Mints
    decreases |es|
  {
    if es == [] then made else AllMinted(Step(s, es[0]), es[1..], Minted(s, es[0], made))
  }

  ghost predicate AsMinted(s: World, made: Mints) {
    && (forall id :: id in made <==> id in s.issued)
    && (forall id :: id in s.rows ==>
          && id in made && s.rows[id].user == made[id].user && s.rows[id].tenant == made[id].tenant
          && s.rows[id].expiresAt == made[id].expiresAt && s.rows[id].createdAt == made[id].createdAt)
    && (forall x :: x in s.next ==> x in made && s.next[x] in made && made[s.next[x]].user == made[x].user)
  }

  lemma StepAsMinted(s: World, e: Event, made: Mints)
    requires Sound(s) && AsMinted(s, made)
    ensures AsMinted(Step(s, e), Minted(s, e, made))
  {
    if CanRotate(s, e) {
      RotateAsMinted(s, e, made);
    } else if e.Issue? && e.id !in s.issued {
      IssueAsMinted(s, e, made);
    } else {
      OtherAsMinted(s, e, made);
    }
  }

  lemma RotateAsMinted(s: World, e: Event, made: Mints)
    requires Sound(s) && AsMinted(s, made) && CanRotate(s, e)
    ensures AsMinted(Step(s, e), Minted(s, e, made))
  {
    RotationMints(s, e, made);
    RotatedRowsAsMinted(s, e, made);
    RotatedLinksAsMinted(s, e, made);
  }

  lemma RotationMints(s: World, e: Event, made: Mints)
    requires Sound(s) && AsMinted(s, made) && CanRotate(s, e)
    ensures s.checked[e.request] in made && e.successor !in made
    ensures Minted(s, e, made)
      == made[e.successor := Mint(made[s.checked[e.request]].user, e.tenant, s.now + e.life, s.now)]
    ensures Step(s, e).issued == s.issued + [e.successor]
  {
    assert e.successor in Step(s, e).issued;
  }

  lemma RotatedRowsAsMinted(s: World, e: Event, made: Mints)
    requires AsMinted(s, made) && CanRotate(s, e) && e.successor !in made
    ensures var made' := made[e.successor := Mint(made[s.checked[e.request]].user, e.tenant, s.now + e.life, s.now)];
            forall id :: id in Step(s, e).rows ==>
              var row := Step(s, e).rows[id];
              && id in made' && row.user == made'[id].user && row.tenant == made'[id].tenant
              && row.expiresAt == made'[id].expiresAt && row.createdAt == made'[id].createdAt
  {
  }

  lemma RotatedLinksAsMinted(s: World, e: Event, made: Mints)
    requires Sound(s) && AsMinted(s, made) && CanRotate(s, e) && e.successor !in made
    ensures var made' := made[e.successor := Mint(made[s.checked[e.request]].user, e.tenant, s.now + e.life, s.now)];
            forall x :: x in Step(s, e).next ==>
              x in made' && Step(s, e).next[x] in made' && made'[Step(s, e).next[x]].user == made'[x].user
  {
    NextWasIssued(s);
  }

  lemma IssueAsMinted(s: World, e: Event, made: Mints)
    requires Sound(s) && AsMinted(s, made) && e.Issue? && e.id !in s.issued
    ensures AsMinted(Step(s, e), Minted(s, e, made))
  {
  }

  lemma OtherAsMinted(s: World, e: Event, made: Mints)
    requires AsMinted(s, made) && !CanRotate(s, e) && !(e.Issue? && e.id !in s.issued)
    ensures AsMinted(Step(s, e), Minted(s, e, made))
  {
    RowsKeepOwners(s, e);
    NothingMinted(s, e, made);
    KeepsMints(s, Step(s, e), made);
  }

  lemma KeepsMints(s: World, s': World, made: Mints)
    requires AsMinted(s, made) && s'.issued == s.issued && s'.next == s.next
    requires forall id :: id in s'.rows ==>
      && id in s.rows && s'.rows[id].user == s.rows[id].user && s'.rows[id].tenant == s.rows[id].tenant
      && s'.rows[id].expiresAt == s.rows[id].expiresAt && s'.rows[id].createdAt == s.rows[id].createdAt
    ensures AsMinted(s', made)
  {
  }

  lemma NothingMinted(s: World, e: Event, made: Mints)
    requires !CanRotate(s, e) && !(e.Issue? && e.id !in s.issued)
    ensures Minted(s, e, made) == made && Step(s, e).issued == s.issued && Step(s, e).next == s.next
  {
  }

  lemma RowsKeepOwners(s: World, e: Event)
    requires !CanRotate(s, e) && !(e.Issue? && e.id !in s.issued)
    ensures forall id :: id in Step(s, e).rows ==>
      && id in s.rows && Step(s, e).rows[id].user == s.rows[id].user && Step(s, e).rows[id].tenant == s.rows[id].tenant
      && Step(s, e).rows[id].expiresAt == s.rows[id].expiresAt && Step(s, e).rows[id].createdAt == s.rows[id].createdAt
  {
  }

  lemma {:induction false} RunAsMinted(s: World, es: seq<Event>, made: Mints)
    requires Sound(s) && AsMinted(s, made)
    ensures Sound(Run(s, es)) && AsMinted(Run(s, es), AllMinted(s, es, made))
    decreases |es|
  {
    if es == [] {
    } else {
      StepSound(s, es[0]);
      StepAsMinted(s, es[0], made);
      RunAsMinted(Step(s, es[0]), es[1..], Minted(s, es[0], made));
    }
  }

  /** In every run a token keeps the user, tenant and times it was made with, for as long as its row exists. */
  lemma TokensAreAsMinted(es: seq<Event>, id: TokenId)
    requires id in Run(START, es).rows
    ensures var made := AllMinted(START, es, map[]);
            var row := Run(START, es).rows[id];
            && id in made && row.user == made[id].user && row.tenant == made[id].tenant
            && row.expiresAt == made[id].expiresAt && row.createdAt == made[id].createdAt
  {
    RunAsMinted(START, es, map[]);
  }

  lemma {:induction false} ChainKeepsUser(s: World, made: Mints, id: TokenId)
    requires Sound(s) && AsMinted(s, made) && id in s.issued
    ensures forall x :: x in Chain(s, id) ==> x in made && made[x].user == made[id].user
    decreases |s.issued| - Birth(s, id)
  {
    if id in s.next {
      NextIsYounger(s, id);
      ChainKeepsUser(s, made, s.next[id]);
      assert Chain(s, id) == [id] + Chain(s, s.next[id]);
    } else {
      assert Chain(s, id) == [id];
    }
  }

  /** Revoking all of a user's tokens ends the whole session chain of every token ever made for that user. */
  lemma RevokeAllEndsTheChain(es: seq<Event>, id: TokenId)
    requires id in Run(START, es).issued
    ensures var s := Run(START, es);
            var made := AllMinted(START, es, map[]);
            && Sound(s) && id in made
            && var s' := Step(s, RevokeAll(made[id].user));
            forall x :: x in Chain(s, id) && x in s'.rows ==> s'.rows[x].revokedAt.Some?
  {
    var s := Run(START, es);
    var made := AllMinted(START, es, map[]);
    RunAsMinted(START, es, map[]);
    ChainKeepsUser(s, made, id);
    var user := made[id].user;
    forall x | x in Chain(s, id) && x in Step(s, RevokeAll(user)).rows
      ensures Step(s, RevokeAll(user)).rows[x].revokedAt.Some?
    {
      RevokesExactly(s, user, made[id].tenant, x);
    }
  }

  /** Which tokens each way of ending sessions revokes; it touches nothing else of them and no other token. */
  lemma RevokesExactly(s: World, user: UserId, tenant: TenantId, id: TokenId)
    requires id in s.rows
    ensures var row := s.rows[id];
            var revoked := row.(revokedAt := Some(if row.revokedAt.Some? then row.revokedAt.value else s.now));
            && id in Step(s, RevokeAll(user)).rows && id in Step(s, RevokeTenant(user, tenant)).rows
            && Step(s, RevokeAll(user)).rows[id] == (if row.user == user then revoked else row)
            && Step(s, RevokeTenant(user, tenant)).rows[id]
               == (if row.user == user && row.tenant == tenant then revoked else row)
  {
  }

  /** The same for one token: a logout needs only its id, revoking a session also that it is the user's and active. */
  lemma RevokesOneExactly(s: World, user: UserId, id: TokenId, other: TokenId)
    requires other in s.rows
    ensures var row := s.rows[other];
            var revoked := row.(revokedAt := Some(if row.revokedAt.Some? then row.revokedAt.value else s.now));
            && other in Step(s, Logout(id)).rows && other in Step(s, RevokeSession(user, id)).rows
            && Step(s, Logout(id)).rows[other] == (if other == id then revoked else row)
            && Step(s, RevokeSession(user, id)).rows[other]
               == (if other == id && row.user == user && row.revokedAt.None? && row.expiresAt > s.now
                   then revoked else row)
    ensures ResultOf(s, Logout(id)) == Success
    ensures ResultOf(s, RevokeSession(user, id))
      == if id in s.rows && s.rows[id].user == user && s.rows[id].revokedAt.None? && s.rows[id].expiresAt > s.now
         then Success else SessionNotFound
  {
  }

  /** A listing shows exactly the user's unrevoked, unexpired tokens, as they are. */
  lemma ListingIsExact(s: World, user: UserId)
    ensures var r := ResultOf(s, ListSessions(user));
            && r.Sessions?
            && (forall id :: id in r.tokens <==>
                  id in s.rows && s.rows[id].user == user && s.rows[id].revokedAt.None? && s.rows[id].expiresAt > s.now)
            && (forall id :: id in r.tokens ==> r.tokens[id] == s.rows[id])
  {
  }

  /** So nothing is listed for a user just after all of the user's tokens were revoked. */
  lemma NothingListedAfterRevokeAll(s: World, user: UserId)
    ensures ResultOf(Step(s, RevokeAll(user)), ListSessions(user)) == Sessions(map[])
  {
    var s' := Step(s, RevokeAll(user));
    ListingIsExact(s', user);
    forall id | id in s'.rows
      ensures s'.rows[id].user == user ==> s'.rows[id].revokedAt.Some?
    {
      RevokesExactly(s, user, 0, id);
    }
  }

  /** A purge takes exactly the tokens that expired, or were revoked, before the retention. */
  lemma PurgeTakesExactly(s: World, retention: nat, id: TokenId)
    requires id in s.rows
    ensures var row := s.rows[id];
            id !in Step(s, Purge(retention)).rows
            <==> row.expiresAt + retention < s.now
                 || (row.revokedAt.Some? && row.revokedAt.value + retention < s.now)
  {
  }

  /**
   A refresh passes its read check, and later its rotation, exactly if the token is unrevoked and
   unexpired then; a refused rotation ends the request and changes no token.
   */
  lemma RefreshDecidesExactly(s: World, r: nat, id: TokenId, successor: TokenId, tenant: TenantId, life: nat)
    ensures r !in s.checked ==>
      ResultOf(s, Check(r, id))
      == if id in s.rows && s.rows[id].revokedAt.None? && s.rows[id].expiresAt > s.now then Success else Unauthorized
    ensures r in s.checked && successor !in s.issued ==>
      var spent := s.checked[r];
      var good := spent in s.rows && s.rows[spent].revokedAt.None? && s.rows[spent].expiresAt > s.now;
      && ResultOf(s, Rotate(r, successor, tenant, life)) == (if good then Success else Unauthorized)
      && r !in Step(s, Rotate(r, successor, tenant, life)).checked
      && (!good ==> Step(s, Rotate(r, successor, tenant, life)) == s.(checked := s.checked - {r}))
    ensures r !in s.checked ==> ResultOf(s, Rotate(r, successor, tenant, life)) == Silent
  {
  }
}
