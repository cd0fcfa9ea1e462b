/** Refresh tokens: issuing, rotating and revoking them, one call at a time. A token stands here for its stored hash. */
module Sessions {
  import opened Wrappers

  type Token = string

  type UserId = string

  datatype Session = Session(user: UserId, revoked: bool, expiresAt: int)

  datatype Error = TokenRevoked | UserLookupFailed | WalletLookupFailed | DeleteFailed | AccessTokenFailed | StoreFailed

  /** Which call of a refresh fails. A failing database write may have taken effect. */
  datatype Fault =
    | NoFault
    | FindFails
    | UserFails
    | WalletFails
    | DeleteFails(deleted: bool)
    | AccessFails
    | StoreFails(stored: bool)

  type Table = map<Token, Session>

  /** WHERE token_hash = $1 AND is_revoked = FALSE AND expires_at > NOW(). */
  predicate Live(db: Table, token: Token, now: int) {
    token in db && !db[token].revoked && db[token].expiresAt > now
  }

  function Revoked(db: Table, token: Token): Table {
    if token in db then db[token := db[token].(revoked := true)] else db
  }

  /** What a refresh leaves stored, and what it answers. */
  function Refreshed(db: Table, token: Token, next: Token, now: int, ttl: int, fault: Fault): (Table, Result<Token,
      Error>) {
    if fault == FindFails || !Live(db, token, now) then (db, Err(TokenRevoked))
    else
      var gone := db - {token};
      if fault == UserFails then (db, Err(UserLookupFailed))
      else if fault == WalletFails then (db, Err(WalletLookupFailed))
      else if fault.DeleteFails? then (if fault.deleted then gone else db, Err(DeleteFailed))
      else if fault == AccessFails then (gone, Err(AccessTokenFailed))
      else if next in gone then (gone, Err(StoreFailed))
      else
        var replaced := gone[next := Session(db[token].user, false, now + ttl)];
        if fault.StoreFails? then (if fault.stored then replaced else gone, Err(StoreFailed)) else (replaced, Ok(next))
  }

  class Repository {
    var sessions: Table

    constructor ()
      ensures sessions == map[]
    {
      sessions := map[];
    }

    method FindSessionByTokenHash(token: Token, now: int, fails: bool) returns (r: Result<Session, Error>)
      ensures r == if !fails && Live(sessions, token, now) then Ok(sessions[token]) else Err(TokenRevoked)
      ensures r.Ok? <==> !fails && token in sessions && !sessions[token].revoked && now < sessions[token].expiresAt
    {
      if !fails && token in sessions && !sessions[token].revoked && sessions[token].expiresAt > now {
        return Ok(sessions[token]);
      }
      r := Err(TokenRevoked);
    }

    method DeleteSession(token: Token, fails: bool, tookEffect: bool) returns (ok: bool)
      modifies this
      ensures ok == !fails && sessions == if fails && !tookEffect then old(sessions) else old(sessions) - {token}
    {
      if !fails || tookEffect {
        sessions := sessions - {token};
      }
      ok := !fails;
    }

    method RevokeSession(token: Token, fails: bool, tookEffect: bool) returns (ok: bool)
      modifies this
      ensures ok == !fails && sessions == if fails && !tookEffect then old(sessions) else Revoked(old(sessions), token)
      ensures sessions.Keys == old(sessions).Keys
      ensures forall t :: t in sessions && t != token ==> sessions[t] == old(sessions)[t]
      ensures token in sessions ==>
                var was := old(sessions)[token];
                sessions[token] == if fails && !tookEffect then was else Session(was.user, true, was.expiresAt)
    {
      if (!fails || tookEffect) && token in sessions {
        sessions := sessions[token := sessions[token].(revoked := true)];
      }
      ok := !fails;
    }

    /** The unique hash refuses a token that is still stored. */
    method CreateSession(user: UserId, token: Token, expiresAt: int, fails: bool, tookEffect: bool) returns (ok: bool)
      modifies this
      ensures ok == (!fails && token !in old(sessions))
      ensures sessions == if token in old(sessions) || (fails && !tookEffect) then old(sessions)
                          else old(sessions)[token := Session(user, false, expiresAt)]
    {
      ok := !fails && token !in sessions;
      if token !in sessions && (!fails || tookEffect) {
        sessions := sessions[token := Session(user, false, expiresAt)];
      }
    }
  }

  class Service {
    const repo: Repository
    const ttl: int

    constructor (repo: Repository, ttl: int)
      ensures this.repo == repo && this.ttl == ttl
    {
      this.repo, this.ttl := repo, ttl;
    }

    method IssueRefreshToken(user: UserId, next: Token, now: int, fails: bool,
        tookEffect: bool) returns (r: Result<Token, Error>)
      modifies repo
      ensures r == if !fails && next !in old(repo.sessions) then Ok(next) else Err(StoreFailed)
      ensures repo.sessions == if next in old(repo.sessions) || (fails && !tookEffect) then old(repo.sessions)
                               else old(repo.sessions)[next := Session(user, false, now + ttl)]
    {
      var ok := repo.CreateSession(user, next, now + ttl, fails, tookEffect);
      r := if ok then Ok(next) else Err(StoreFailed);
    }

    /** Only a live token is refreshed. It is replaced by the next one of the same user when no call fails. A call that
        fails before the delete changes nothing; one that fails after it loses the session, unless the store took
        effect. */
    method RefreshToken(token: Token, next: Token, now: int, fault: Fault) returns (r: Result<Token, Error>)
      modifies repo
      ensures (repo.sessions, r) == Refreshed(old(repo.sessions), token, next, now, ttl, fault)
      ensures var was := old(repo.sessions);
              var live := token in was && !was[token].revoked && now < was[token].expiresAt;
              && (r == Err(TokenRevoked) <==> fault == FindFails || !live)
              && (r == Err(UserLookupFailed) <==> live && fault == UserFails)
              && (r == Err(WalletLookupFailed) <==> live && fault == WalletFails)
              && (r == Err(DeleteFailed) <==> live && fault.DeleteFails?)
              && (r == Err(AccessTokenFailed) <==> live && fault == AccessFails)
              && (r.Ok? <==> live && fault == NoFault && (next == token || next !in was))
      ensures r.Ok? ==>
                var was := old(repo.sessions);
                r.value == next && repo.sessions == (was - {token})[next := Session(was[token].user, false, now + ttl)]
      ensures r == Err(TokenRevoked) || fault.UserFails? || fault.WalletFails? || fault == DeleteFails(false) ==>
                repo.sessions == old(repo.sessions)
      ensures r == Err(AccessTokenFailed) || r == Err(StoreFailed) || (r == Err(DeleteFailed) && fault.deleted) ==>
                var was := old(repo.sessions);
                repo.sessions == if fault == StoreFails(true) && (next == token || next !in was)
                                 then (was - {token})[next := Session(was[token].user, false, now + ttl)]
                                 else was - {token}
    {
      var found := repo.FindSessionByTokenHash(token, now, fault == FindFails);
      if found.Err? {
        return Err(found.error);
      }
      if fault == UserFails {
        return Err(UserLookupFailed);
      }
      if fault == WalletFails {
        return Err(WalletLookupFailed);
      }
      var deleted := repo.DeleteSession(token, fault.DeleteFails?, fault.DeleteFails? && fault.deleted);
      if !deleted {
        return Err(DeleteFailed);
      }
      if fault == AccessFails {
        return Err(AccessTokenFailed);
      }
      r := IssueRefreshToken(found.value.user, next, now, fault.StoreFails?, fault.StoreFails? && fault.stored);
    }

    method Logout(token: Token, fails: bool, tookEffect: bool) returns (ok: bool)
      modifies repo
      ensures ok == !fails && repo.sessions == if fails && !tookEffect then old(repo.sessions)
          else Revoked(old(repo.sessions), token)
    {
      ok := repo.RevokeSession(token, fails, tookEffect);
    }
  }

  // ---- whole runs

  datatype Event =
    | Login(user: UserId, issued: Token, at: int)
    | Refresh(token: Token, next: Token, when: int, fault: Fault)
    | Logout(ended: Token, fails: bool, tookEffect: bool)

  /** The stored sessions, who logged in so far, and for every token ever drawn the login it descends from. */
  datatype World = World(sessions: Table, logins: seq<UserId>, root: map<Token, nat>)

  const EMPTY := World(map[], [], map[])

  /** Random tokens are new: no token is drawn twice. */
  predicate Drawable(w: World, e: Event) {
    match e
    case Login(_, t, _) => t !in w.root
    case Refresh(_, t, _, _) => t !in w.root
    case Logout(_, _, _) => true
  }

  function Answer(w: World, e: Event, ttl: int): Result<Token, Error> {
    match e
    case Login(_, t, _) => Ok(t)
    case Refresh(t, f, now, fault) => Refreshed(w.sessions, t, f, now, ttl, fault).1
    case Logout(t, fails, _) => if fails then Err(StoreFailed) else Ok(t)
  }

  function Step(w: World, e: Event, ttl: int): World {
    if !Drawable(w, e) then w
    else match e
      case Login(u, t, now) => World(w.sessions[t := Session(u, false, now + ttl)], w.logins + [u],
          w.root[t := |w.logins|])
      case Refresh(t, f, now, fault) =>
        var db := Refreshed(w.sessions, t, f, now, ttl, fault).0;
        if f in db && t in w.root then World(db, w.logins, w.root[f := w.root[t]]) else w.(sessions := db)
      case Logout(t, fails, effect) => w.(sessions := if fails && !effect then w.sessions else Revoked(w.sessions, t))
  }

  function Run(trace: seq<Event>, ttl: int): World {
    if trace == [] then EMPTY else Step(Run(trace[..|trace| - 1], ttl), trace[|trace| - 1], ttl)
  }

  /** Every stored token was drawn, for its login's user, and no two stored tokens descend from one login. */
  ghost predicate Inv(w: World) {
    && (forall t :: t in w.sessions ==> t in w.root)
    && (forall t :: t in w.root ==> w.root[t] < |w.logins|)
    && (forall t :: t in w.sessions ==> w.sessions[t].user == w.logins[w.root[t]])
    && (forall t, u :: t in w.sessions && u in w.sessions && w.root[t] == w.root[u] ==> t == u)
  }

  lemma RefreshKeepsInv(w: World, e: Event, ttl: int)
    requires Inv(w) && e.Refresh? && Drawable(w, e)
    ensures Inv(Step(w, e, ttl))
  {
    var db := Refreshed(w.sessions, e.token, e.next, e.when, ttl, e.fault).0;
    assert forall t :: t in db && t != e.next ==> t in w.sessions && db[t] == w.sessions[t];
    assert e.next in db ==> e.token in w.sessions && db[e.next].user == w.sessions[e.token].user && e.token !in db;
    hide Refreshed;
  }

  lemma {:induction false} RunKeepsInv(trace: seq<Event>, ttl: int)
    ensures Inv(Run(trace, ttl))
  {
    if trace != [] {
      var w, e := Run(trace[..|trace| - 1], ttl), trace[|trace| - 1];
      RunKeepsInv(trace[..|trace| - 1], ttl);
      hide Refreshed, Run;
      if e.Refresh? && Drawable(w, e) {
        RefreshKeepsInv(w, e, ttl);
      }
    }
  }

  /** Each login has at most one stored descendant, so at most one live one, and it belongs to the user who logged
      in. */
  lemma OneDescendantPerLogin(trace: seq<Event>, ttl: int, t: Token, u: Token)
    requires var w := Run(trace, ttl); t in w.sessions && u in w.sessions && t in w.root && u in w.root
    requires var w := Run(trace, ttl); w.root[t] == w.root[u]
    ensures t == u
    ensures var w := Run(trace, ttl); w.root[t] < |w.logins| && w.sessions[t].user == w.logins[w.root[t]]
  {
    RunKeepsInv(trace, ttl);
    hide Run;
  }

  /** A successful refresh takes away exactly the presented session, which was live, and adds exactly one of the same
      user. */
  lemma RefreshReplacesOne(trace: seq<Event>, ttl: int, e: Event)
    requires var w := Run(trace, ttl); e.Refresh? && Drawable(w, e) && Answer(w, e, ttl).Ok?
    ensures var w, after := Run(trace, ttl), Step(Run(trace, ttl), e, ttl);
            && Live(w.sessions, e.token, e.when) && Answer(w, e, ttl) == Ok(e.next)
            && e.next !in w.sessions && e.next != e.token
            && after.sessions
                == (w.sessions - {e.token})[e.next := Session(w.sessions[e.token].user, false, e.when + ttl)]
            && e.next in after.root && e.token in w.root && after.root[e.next] == w.root[e.token]
  {
    RunKeepsInv(trace, ttl);
    hide Run;
  }

  // ---- a dead token stays dead

  /** Drawn once, and now rotated away or revoked. */
  predicate Dead(w: World, t: Token) {
    t in w.root && (t !in w.sessions || w.sessions[t].revoked)
  }

  lemma StepKeepsDead(w: World, e: Event, ttl: int, t: Token)
    requires Dead(w, t)
    ensures Dead(Step(w, e, ttl), t)
    ensures e.Refresh? && e.token == t ==>
        Answer(w, e, ttl) == Err(TokenRevoked) && Step(w, e, ttl).sessions == w.sessions
  {
  }

  lemma {:induction false} DeadStays(trace: seq<Event>, more: seq<Event>, ttl: int, t: Token)
    requires Dead(Run(trace, ttl), t)
    ensures Dead(Run(trace + more, ttl), t)
    decreases |more|
  {
    if more == [] {
      assert trace + more == trace;
    } else {
      var rest, last := more[..|more| - 1], more[|more| - 1];
      assert (trace + more)[..|trace + more| - 1] == trace + rest;
      DeadStays(trace, rest, ttl, t);
      StepKeepsDead(Run(trace + rest, ttl), last, ttl, t);
      hide Step, Dead;
      assert Run(trace + more, ttl) == Step(Run(trace + rest, ttl), last, ttl);
    }
  }

  /** The call at position i of a run ends its token: a refresh that answered or got as far as the delete, or a logout
      that took effect on a token already drawn. */
  predicate Ends(w: World, e: Event, ttl: int, t: Token) {
    match e
    case Login(_, _, _) => false
    case Refresh(token, _, now, fault) =>
      && token == t && Drawable(w, e) && Live(w.sessions, t, now)
          && fault !in {FindFails, UserFails, WalletFails, DeleteFails(false)}
    case Logout(token, fails, effect) => token == t && t in w.root && (!fails || effect)
  }

  lemma EndsKills(w: World, e: Event, ttl: int, t: Token)
    requires Inv(w) && Ends(w, e, ttl, t)
    ensures Dead(Step(w, e, ttl), t)
  {
  }

  /** A token that was rotated or logged out is refused from then on, whatever else happens, and using it again leaves
      every stored session as it is. */
  lemma EndedIsRefused(trace: seq<Event>, ttl: int, i: nat, j: nat, t: Token)
    requires i < j < |trace| && Ends(Run(trace[..i], ttl), trace[i], ttl, t) && trace[j].Refresh? && trace[j].token == t
    ensures Answer(Run(trace[..j], ttl), trace[j], ttl) == Err(TokenRevoked)
    ensures Step(Run(trace[..j], ttl), trace[j], ttl).sessions == Run(trace[..j], ttl).sessions
  {
    RunKeepsInv(trace[..i], ttl);
    EndsKills(Run(trace[..i], ttl), trace[i], ttl, t);
    assert trace[..i + 1][..i] == trace[..i];
    assert Run(trace[..i + 1], ttl) == Step(Run(trace[..i], ttl), trace[i], ttl);
    assert trace[..i + 1] + trace[i + 1..j] == trace[..j];
    hide Run, Step, Dead, Ends, Inv, Answer;
    DeadStays(trace[..i + 1], trace[i + 1..j], ttl, t);
    StepKeepsDead(Run(trace[..j], ttl), trace[j], ttl, t);
  }

  /** A refresh token is accepted at most once. */
  lemma AcceptedAtMostOnce(trace: seq<Event>, ttl: int, i: nat, j: nat)
    requires i < |trace| && j < |trace| && trace[i].Refresh? && trace[j].Refresh? && trace[i].token == trace[j].token
    requires Drawable(Run(trace[..i], ttl), trace[i]) && Answer(Run(trace[..i], ttl), trace[i], ttl).Ok?
    requires Drawable(Run(trace[..j], ttl), trace[j]) && Answer(Run(trace[..j], ttl), trace[j], ttl).Ok?
    ensures i == j
  {
    hide Run;
    if i < j {
      EndedIsRefused(trace, ttl, i, j, trace[i].token);
    } else if j < i {
      EndedIsRefused(trace, ttl, j, i, trace[i].token);
    }
  }
}
