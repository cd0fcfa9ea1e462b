/**
 Refreshes that race: each finds its session, deletes it and stores the next one in three separate calls, while others
 log in, refresh and log out.
 */
module SessionRaces {
  import opened Sessions

  datatype PC =
    | Finding
    | Deleting(user: UserId)
    | Storing(holder: UserId)
    | Stored(issued: Token, answered: bool)
    | Denied

  /** One call of RefreshToken. */
  datatype Call = Call(token: Token, pc: PC)

  /** `root`: for every stored token ever, the login it descends from. `spent`: the tokens a later token was stored
      for. */
  datatype World = World(sessions: Table, logins: seq<UserId>, root: map<Token, nat>, spent: set<Token>,
      calls: seq<Call>)

  const INIT := World.World(map[], [], map[], {}, [])

  datatype Action =
    | SignIn(user: UserId, first: Token, at: int)
    | Present(token: Token)
    | Find(finder: nat, now: int, fails: bool)
    | Delete(deleter: nat, deleteFails: bool, deleted: bool)
    | Store(storer: nat, next: Token, when: int, storeFails: bool, stored: bool)
    | Quit(quitter: nat)
    | SignOut(ended: Token)

  predicate At(w: World, i: nat, a: Action) {
    i < |w.calls| &&
    match a
    case Find(_, _, _) => w.calls[i].pc.Finding?
    case Delete(_, _, _) => w.calls[i].pc.Deleting?
    case Store(_, _, _, _, _) => w.calls[i].pc.Storing?
    case Quit(_) => !w.calls[i].pc.Stored?
    case _ => false
  }

  /** Random tokens are new. */
  predicate Enabled(w: World, a: Action) {
    match a
    case SignIn(_, t, _) => t !in w.root
    case Present(_) => true
    case Find(i, _, _) => At(w, i, a)
    case Delete(i, _, _) => At(w, i, a)
    case Store(i, t, _, _, _) => At(w, i, a) && t !in w.root
    case Quit(i) => At(w, i, a)
    case SignOut(_) => true
  }

  function Move(w: World, i: nat, pc: PC): World
    requires i < |w.calls|
  {
    w.(calls := w.calls[i := w.calls[i].(pc := pc)])
  }

  function Found(w: World, i: nat, now: int, fails: bool): World
    requires i < |w.calls|
  {
    var t := w.calls[i].token;
    Move(w, i, if !fails && Live(w.sessions, t, now) then Deleting(w.sessions[t].user) else Denied)
  }

  /** A failing delete may have taken effect. A call goes on though the row it deletes is gone already. */
  function Deleted(w: World, i: nat, fails: bool, tookEffect: bool): World
    requires i < |w.calls| && w.calls[i].pc.Deleting?
  {
    var c := w.calls[i];
    Move(w, i, if fails then Denied else Storing(c.pc.user)).(
      sessions := if fails && !tookEffect then w.sessions else w.sessions - {c.token})
  }

  function StoredNext(w: World, i: nat, next: Token, expiresAt: int, fails: bool, tookEffect: bool): World
    requires i < |w.calls| && w.calls[i].pc.Storing?
  {
    var c := w.calls[i];
    if fails && !tookEffect then Move(w, i, Denied)
    else
      Move(w, i, Stored(next, !fails)).(
        sessions := w.sessions[next := Session(c.pc.holder, false, expiresAt)], spent := w.spent + {c.token},
        root := if c.token in w.root then w.root[next := w.root[c.token]] else w.root)
  }

  function Do(w: World, a: Action, ttl: int): World
    requires Enabled(w, a)
  {
    match a
    case SignIn(u, t, now) =>
      w.(sessions := w.sessions[t := Session(u, false, now + ttl)], logins := w.logins + [u],
          root := w.root[t := |w.logins|])
    case Present(t) => w.(calls := w.calls + [Call(t, Finding)])
    case Find(i, now, fails) => Found(w, i, now, fails)
    case Delete(i, fails, effect) => Deleted(w, i, fails, effect)
    case Store(i, t, now, fails, effect) => StoredNext(w, i, t, now + ttl, fails, effect)
    case Quit(i) => Move(w, i, Denied)
    case SignOut(t) => w.(sessions := Revoked(w.sessions, t))
  }

  function Step(w: World, a: Action, ttl: int): World {
    if Enabled(w, a) then Do(w, a, ttl) else w
  }

  function Run(trace: seq<Action>, ttl: int): World {
    if trace == [] then INIT else Step(Run(trace[..|trace| - 1], ttl), trace[|trace| - 1], ttl)
  }

  lemma NextRun(trace: seq<Action>, i: nat, ttl: int)
    requires i < |trace|
    ensures Run(trace[..i + 1], ttl) == Step(Run(trace[..i], ttl), trace[i], ttl)
  {
    assert trace[..i + 1][..i] == trace[..i];
  }

  /** What one refresh does when nothing else runs is its find, its delete and its store. */
  lemma RefreshAloneIsThreeSteps(w: World, i: nat, next: Token, now: int, ttl: int)
    requires i < |w.calls| && w.calls[i].pc.Finding? && next !in w.root && next !in w.sessions
    ensures Step(Step(Step(w, Find(i, now, false), ttl), Delete(i, false, true), ttl), Store(i, next, now, false, true),
        ttl).sessions
            == Refreshed(w.sessions, w.calls[i].token, next, now, ttl, NoFault).0
  {
    var t := w.calls[i].token;
    var s1 := Step(w, Find(i, now, false), ttl);
    var s2 := Step(s1, Delete(i, false, true), ttl);
    if Live(w.sessions, t, now) {
      assert s1.calls[i] == Call(t, Deleting(w.sessions[t].user)) && s1.sessions == w.sessions && s1.root == w.root;
      assert s2.calls[i] == Call(t, Storing(w.sessions[t].user)) && s2.sessions == w.sessions - {t}
          && s2.root == w.root;
    } else {
      assert s1.calls[i].pc == Denied && s1.sessions == w.sessions && s2 == s1;
    }
  }

  // ---- the invariant

  ghost predicate RowsHold(w: World) {
    && (forall t :: t in w.root ==> w.root[t] < |w.logins|)
    && (forall t :: t in w.sessions ==> t in w.root && t !in w.spent)
    && (forall t :: t in w.sessions && t in w.root && w.root[t] < |w.logins| ==>
        w.sessions[t].user == w.logins[w.root[t]])
    && (forall t :: t in w.spent ==> t in w.root)
  }

  ghost predicate Knows(w: World, t: Token, user: UserId) {
    t in w.root && w.root[t] < |w.logins| && user == w.logins[w.root[t]]
  }

  ghost predicate CallHolds(w: World, c: Call) {
    match c.pc
    case Deleting(user) => Knows(w, c.token, user)
    case Storing(user) => Knows(w, c.token, user) && c.token !in w.sessions
    case Stored(_, _) => c.token in w.spent
    case _ => true
  }

  /** Two calls presented one token and each stored a next one. */
  ghost predicate Twins(w: World) {
    exists i, j :: 0 <= i < j < |w.calls| && w.calls[i].pc.Stored? && w.calls[j].pc.Stored?
        && w.calls[i].token == w.calls[j].token
  }

  ghost predicate SpentBy(w: World, t: Token) {
    exists i :: 0 <= i < |w.calls| && w.calls[i].pc.Stored? && w.calls[i].token == t
  }

  /** Nothing was stored for this token yet. */
  predicate Unspent(w: World, t: Token) { t in w.root && t !in w.spent }

  /** Some login has come to two tokens nothing was stored for. */
  ghost predicate Forked(w: World) {
    exists x, y :: Unspent(w, x) && Unspent(w, y) && x != y && w.root[x] == w.root[y]
  }

  ghost predicate HasLeaf(w: World, n: nat) {
    exists t :: Unspent(w, t) && w.root[t] == n
  }

  ghost predicate Inv(w: World) {
    && RowsHold(w) && (forall i :: 0 <= i < |w.calls| ==> CallHolds(w, w.calls[i]))
    && (forall t :: t in w.spent ==> SpentBy(w, t)) && (Twins(w) <==> Forked(w))
    && (forall n: nat :: n < |w.logins| ==> HasLeaf(w, n))
  }

  /** A step that stores nothing and moves at most one call that has stored nothing. */
  ghost predicate Quiet(w: World, t: World) {
    && t.root == w.root && t.spent == w.spent && t.logins == w.logins && |w.calls| <= |t.calls|
    && (forall i :: 0 <= i < |w.calls| ==>
        (w.calls[i].pc.Stored? ==> t.calls[i] == w.calls[i]) && (t.calls[i].pc.Stored? ==> w.calls[i] == t.calls[i]))
    && (forall i :: |w.calls| <= i < |t.calls| ==> !t.calls[i].pc.Stored?)
  }

  lemma QuietTwins(w: World, t: World)
    requires Quiet(w, t)
    ensures Twins(w) <==> Twins(t)
    ensures forall x :: SpentBy(w, x) ==> SpentBy(t, x)
  {
    if Twins(w) {
      var i, j :| 0 <= i < j < |w.calls| && w.calls[i].pc.Stored? && w.calls[j].pc.Stored?
          && w.calls[i].token == w.calls[j].token;
      assert t.calls[i] == w.calls[i] && t.calls[j] == w.calls[j];
    }
    if Twins(t) {
      var i, j :| 0 <= i < j < |t.calls| && t.calls[i].pc.Stored? && t.calls[j].pc.Stored?
          && t.calls[i].token == t.calls[j].token;
      assert t.calls[i] == w.calls[i] && t.calls[j] == w.calls[j];
    }
    forall x | SpentBy(w, x)
      ensures SpentBy(t, x)
    {
      var i :| 0 <= i < |w.calls| && w.calls[i].pc.Stored? && w.calls[i].token == x;
      assert t.calls[i] == w.calls[i];
    }
  }

  lemma QuietKeeps(w: World, t: World)
    requires Inv(w) && Quiet(w, t) && RowsHold(t) && (forall i :: 0 <= i < |t.calls| ==> CallHolds(t, t.calls[i]))
    ensures Inv(t)
  {
    QuietTwins(w, t);
    QuietForks(w, t);
    hide RowsHold, CallHolds, Twins, SpentBy, Quiet, Forked, HasLeaf;
  }

  lemma QuietForks(w: World, t: World)
    requires Quiet(w, t)
    ensures t.root == w.root && t.spent == w.spent && t.logins == w.logins
    ensures Forked(w) == Forked(t) && forall n: nat :: HasLeaf(w, n) == HasLeaf(t, n)
  {
    assert forall x :: Unspent(w, x) == Unspent(t, x);
  }

  lemma QuietIs(w: World, a: Action, ttl: int)
    requires Enabled(w, a) && !a.SignIn? && !a.Store?
    ensures Quiet(w, Do(w, a, ttl))
  {
    hide Live, Revoked;
  }

  lemma QuietHolds(w: World, a: Action, ttl: int)
    requires Inv(w) && Enabled(w, a) && !a.SignIn? && !a.Store?
    ensures var t := Do(w, a, ttl); RowsHold(t) && forall i :: 0 <= i < |t.calls| ==> CallHolds(t, t.calls[i])
  {
    hide Twins, SpentBy, Forked, HasLeaf;
  }

  lemma QuietStep(w: World, a: Action, ttl: int)
    requires Inv(w) && Enabled(w, a) && !a.SignIn? && !a.Store?
    ensures Inv(Do(w, a, ttl))
  {
    hide Inv, RowsHold, CallHolds, Quiet, Do, Forked, Twins;
    QuietIs(w, a, ttl);
    QuietHolds(w, a, ttl);
    QuietKeeps(w, Do(w, a, ttl));
  }

  lemma SignInKeeps(w: World, a: Action, ttl: int)
    requires Inv(w) && Enabled(w, a) && a.SignIn?
    ensures Inv(Do(w, a, ttl))
  {
    SignInRows(w, a, ttl);
    SignInTwins(w, a, ttl);
    SignInForks(w, a, ttl);
    hide RowsHold, CallHolds, Twins, SpentBy, Forked, HasLeaf;
  }

  lemma SignInRows(w: World, a: Action, ttl: int)
    requires Inv(w) && Enabled(w, a) && a.SignIn?
    ensures var t := Do(w, a, ttl); RowsHold(t) && forall i :: 0 <= i < |t.calls| ==> CallHolds(t, t.calls[i])
  {
    hide Twins, SpentBy, Forked, HasLeaf;
    assert a.first !in w.spent;
  }

  lemma SignInTwins(w: World, a: Action, ttl: int)
    requires Enabled(w, a) && a.SignIn?
    ensures var t := Do(w, a, ttl);
            t.spent == w.spent && Twins(t) == Twins(w) && forall x :: SpentBy(t, x) == SpentBy(w, x)
  {
  }

  lemma SignInForks(w: World, a: Action, ttl: int)
    requires Inv(w) && Enabled(w, a) && a.SignIn?
    ensures var t := Do(w, a, ttl); Forked(t) == Forked(w) && forall n: nat :: n < |t.logins| ==> HasLeaf(t, n)
  {
    var t := Do(w, a, ttl);
    hide Twins, SpentBy, CallHolds;
    assert Unspent(t, a.first) && t.root[a.first] == |w.logins|;
    assert forall x :: Unspent(w, x) ==> Unspent(t, x) && t.root[x] == w.root[x];
    assert forall x :: Unspent(t, x) && x != a.first ==> Unspent(w, x) && w.root[x] < |w.logins|;
    assert Forked(t) == Forked(w);
    forall n: nat | n < |t.logins|
      ensures HasLeaf(t, n)
    {
      if n < |w.logins| {
        assert HasLeaf(w, n);
        var x :| Unspent(w, x) && w.root[x] == n;
        assert Unspent(t, x) && t.root[x] == n;
      }
    }
  }

  lemma StoreRows(w: World, i: nat, next: Token, expiresAt: int, fails: bool)
    requires Inv(w) && i < |w.calls| && w.calls[i].pc.Storing? && next !in w.root
    ensures RowsHold(StoredNext(w, i, next, expiresAt, fails, true))
  {
    assert CallHolds(w, w.calls[i]);
    hide Twins, SpentBy, Forked, HasLeaf;
  }

  lemma StoreCalls(w: World, i: nat, next: Token, expiresAt: int, fails: bool)
    requires Inv(w) && i < |w.calls| && w.calls[i].pc.Storing? && next !in w.root
    ensures var t := StoredNext(w, i, next, expiresAt, fails, true);
            forall j :: 0 <= j < |t.calls| ==> CallHolds(t, t.calls[j])
  {
    assert CallHolds(w, w.calls[i]);
    hide RowsHold, Twins, SpentBy, Forked, HasLeaf;
  }

  lemma StoreSpent(w: World, i: nat, next: Token, expiresAt: int, fails: bool)
    requires Inv(w) && i < |w.calls| && w.calls[i].pc.Storing?
    ensures var t := StoredNext(w, i, next, expiresAt, fails, true);
            && (forall x :: x in t.spent ==> SpentBy(t, x)) && (Twins(t) <==> Twins(w) || w.calls[i].token in w.spent)
  {
    var t := StoredNext(w, i, next, expiresAt, fails, true);
    SpentWhen(w, w.calls[i].token);
    hide RowsHold, CallHolds, Forked, HasLeaf;
    forall x | x in t.spent
      ensures SpentBy(t, x)
    {
      if x == w.calls[i].token {
        assert t.calls[i].pc.Stored? && t.calls[i].token == x;
      } else {
        var j :| 0 <= j < |w.calls| && w.calls[j].pc.Stored? && w.calls[j].token == x;
        assert t.calls[j] == w.calls[j];
      }
    }
    StoreTwins(w, t, i);
  }

  lemma StoreTwins(w: World, t: World, i: nat)
    requires i < |w.calls| && !w.calls[i].pc.Stored? && i < |t.calls| && t.calls == w.calls[i := t.calls[i]]
    requires t.calls[i].pc.Stored? && t.calls[i].token == w.calls[i].token
    ensures Twins(t) <==> Twins(w) || SpentBy(w, w.calls[i].token)
  {
    if Twins(t) {
      var k, l :| 0 <= k < l < |t.calls| && t.calls[k].pc.Stored? && t.calls[l].pc.Stored?
          && t.calls[k].token == t.calls[l].token;
      assert k != i ==> t.calls[k] == w.calls[k];
      assert l != i ==> t.calls[l] == w.calls[l];
    }
    if Twins(w) {
      var k, l :| 0 <= k < l < |w.calls| && w.calls[k].pc.Stored? && w.calls[l].pc.Stored?
          && w.calls[k].token == w.calls[l].token;
      assert t.calls[k] == w.calls[k] && t.calls[l] == w.calls[l];
    }
    if SpentBy(w, w.calls[i].token) {
      var j :| 0 <= j < |w.calls| && w.calls[j].pc.Stored? && w.calls[j].token == w.calls[i].token;
      assert t.calls[j] == w.calls[j] && i != j;
      assert t.calls[if i < j then i else j].token == t.calls[if i < j then j else i].token;
    }
  }

  lemma StoreKeeps(w: World, i: nat, next: Token, expiresAt: int, fails: bool)
    requires Inv(w) && i < |w.calls| && w.calls[i].pc.Storing? && next !in w.root
    ensures Inv(StoredNext(w, i, next, expiresAt, fails, true))
  {
    StoreRows(w, i, next, expiresAt, fails);
    StoreCalls(w, i, next, expiresAt, fails);
    StoreSpent(w, i, next, expiresAt, fails);
    StoreForks(w, i, next, expiresAt, fails);
    StoreLeaves(w, i, next, expiresAt, fails);
    hide RowsHold, CallHolds, Twins, SpentBy, Forked, HasLeaf, StoredNext;
  }

  lemma SpentWhen(w: World, t: Token)
    requires Inv(w)
    ensures t in w.spent <==> SpentBy(w, t)
  {
    assert forall i :: 0 <= i < |w.calls| && w.calls[i].pc.Stored? ==> CallHolds(w, w.calls[i]);
    hide RowsHold, Twins, Forked, HasLeaf;
  }

  /** Which tokens are unspent after a store: the fresh one instead of the presented one. */
  lemma StoreUnspent(w: World, i: nat, next: Token, expiresAt: int, fails: bool)
    requires Inv(w) && i < |w.calls| && w.calls[i].pc.Storing? && next !in w.root
    ensures var t, c := StoredNext(w, i, next, expiresAt, fails, true), w.calls[i];
            && c.token in w.root && w.root[c.token] < |w.logins| && t.logins == w.logins
            && Unspent(t, next) && t.root[next] == w.root[c.token]
            && (forall x :: x in w.root && x != c.token && Unspent(w, x) ==> Unspent(t, x) && t.root[x] == w.root[x])
            && (forall x :: Unspent(t, x) && x != next ==> x != c.token && Unspent(w, x) && t.root[x] == w.root[x])
  {
    assert CallHolds(w, w.calls[i]);
    hide Twins, SpentBy, Forked, HasLeaf;
  }

  /** A login forks when a next token is stored for one that was spent already: it still has its unspent one. */
  lemma StoreForks(w: World, i: nat, next: Token, expiresAt: int, fails: bool)
    requires Inv(w) && i < |w.calls| && w.calls[i].pc.Storing? && next !in w.root
    ensures Forked(StoredNext(w, i, next, expiresAt, fails, true)) <==> Forked(w) || w.calls[i].token in w.spent
  {
    var t, c := StoredNext(w, i, next, expiresAt, fails, true), w.calls[i];
    StoreUnspent(w, i, next, expiresAt, fails);
    assert c.token in w.spent ==> HasLeaf(w, w.root[c.token]);
    hide Inv, StoredNext;
    if Forked(w) {
      var x, y :| Unspent(w, x) && Unspent(w, y) && x != y && w.root[x] == w.root[y];
      if x == c.token {
        assert Unspent(t, next) && Unspent(t, y);
      } else if y == c.token {
        assert Unspent(t, x) && Unspent(t, next);
      } else {
        assert Unspent(t, x) && Unspent(t, y);
      }
    }
    if c.token in w.spent {
      var x :| Unspent(w, x) && w.root[x] == w.root[c.token];
      assert Unspent(t, x) && Unspent(t, next);
    }
    if Forked(t) && c.token !in w.spent {
      var x, y :| Unspent(t, x) && Unspent(t, y) && x != y && t.root[x] == t.root[y];
      var x', y' := if x == next then c.token else x, if y == next then c.token else y;
      assert Unspent(w, x') && Unspent(w, y') && x' != y';
    }
  }

  lemma StoreLeaves(w: World, i: nat, next: Token, expiresAt: int, fails: bool)
    requires Inv(w) && i < |w.calls| && w.calls[i].pc.Storing? && next !in w.root
    ensures var t := StoredNext(w, i, next, expiresAt, fails, true); forall n: nat :: n < |t.logins| ==> HasLeaf(t, n)
  {
    var t, c := StoredNext(w, i, next, expiresAt, fails, true), w.calls[i];
    StoreUnspent(w, i, next, expiresAt, fails);
    assert forall n: nat :: n < |w.logins| ==> HasLeaf(w, n);
    hide Inv, StoredNext;
    forall n: nat | n < |t.logins|
      ensures HasLeaf(t, n)
    {
      assert HasLeaf(w, n);
      var x :| Unspent(w, x) && w.root[x] == n;
      var y := if x == c.token then next else x;
      assert Unspent(t, y) && t.root[y] == n;
    }
  }

  /** A store writes the next row, or leaves everything but its own call as it was. */
  lemma StoreIs(w: World, a: Action, ttl: int)
    requires Enabled(w, a) && a.Store?
    ensures Do(w, a, ttl) == if a.storeFails && !a.stored then Do(w, Quit(a.storer), ttl)
                             else StoredNext(w, a.storer, a.next, a.when + ttl, a.storeFails, true)
  {
  }

  lemma StepKeepsInv(w: World, a: Action, ttl: int)
    requires Inv(w)
    ensures Inv(Step(w, a, ttl))
  {
    hide Inv, Do, StoredNext;
    if Enabled(w, a) {
      if a.SignIn? {
        SignInKeeps(w, a, ttl);
      } else if a.Store? {
        StoreIs(w, a, ttl);
        if a.storeFails && !a.stored {
          QuietStep(w, Quit(a.storer), ttl);
        } else {
          StoreKeeps(w, a.storer, a.next, a.when + ttl, a.storeFails);
        }
      } else {
        QuietStep(w, a, ttl);
      }
    }
  }

  lemma {:induction false} RunKeepsInv(trace: seq<Action>, ttl: int)
    ensures Inv(Run(trace, ttl))
  {
    if trace != [] {
      RunKeepsInv(trace[..|trace| - 1], ttl);
      hide Inv, Step;
      StepKeepsInv(Run(trace[..|trace| - 1], ttl), trace[|trace| - 1], ttl);
    }
  }

  // ---- what holds however refreshes race

  /** A login has two stored descendants only if two refreshes that presented one and the same token both stored a next
      one. Every stored token belongs to the user of its login. */
  lemma {:induction false} TwoDescendantsMeanTwins(trace: seq<Action>, ttl: int, t: Token, u: Token)
    requires var w := Run(trace, ttl); t in w.sessions && u in w.sessions
    ensures var w := Run(trace, ttl);
            && t in w.root && u in w.root && w.root[t] < |w.logins| && w.sessions[t].user == w.logins[w.root[t]]
            && (t != u && w.root[t] == w.root[u] ==> Twins(w))
  {
    RunKeepsInv(trace, ttl);
    var w := Run(trace, ttl);
    hide Run, Twins, CallHolds, SpentBy, HasLeaf;
    assert Unspent(w, t) && Unspent(w, u);
  }

  /** Exactly when a login forks: it comes to two tokens that nothing was stored for if and only if two refreshes that
      presented one and the same token both stored a next one. */
  lemma {:induction false} ForksExactlyWhen(trace: seq<Action>, ttl: int)
    ensures Forked(Run(trace, ttl)) <==> Twins(Run(trace, ttl))
  {
    RunKeepsInv(trace, ttl);
    hide Run, Twins, Forked, CallHolds, SpentBy, HasLeaf, RowsHold;
  }

  /** Stored once, and now deleted or revoked. */
  predicate Dead(w: World, t: Token) {
    t in w.root && (t !in w.sessions || w.sessions[t].revoked)
  }

  lemma StepKeepsDead(w: World, a: Action, ttl: int, t: Token)
    requires Dead(w, t)
    ensures Dead(Step(w, a, ttl), t)
  {
  }

  lemma {:induction false} DeadStays(trace: seq<Action>, i: nat, j: nat, ttl: int, t: Token)
    requires i <= j <= |trace| && Dead(Run(trace[..i], ttl), t)
    ensures Dead(Run(trace[..j], ttl), t)
    decreases j
  {
    if i < j {
      DeadStays(trace, i, j - 1, ttl, t);
      StepKeepsDead(Run(trace[..j - 1], ttl), trace[j - 1], ttl, t);
      assert trace[..j][..j - 1] == trace[..j - 1];
      hide Step, Dead;
    }
  }

  /** The step at position i accepts the token its call presented. */
  predicate Accepts(trace: seq<Action>, i: nat, ttl: int, t: Token) {
    && i < |trace| && trace[i].Find? && Enabled(Run(trace[..i], ttl), trace[i])
    && Run(trace[..i], ttl).calls[trace[i].finder].token == t
    && Step(Run(trace[..i], ttl), trace[i], ttl).calls[trace[i].finder].pc.Deleting?
  }

  /** The step at position i deletes or revokes the token's row. */
  predicate Ends(trace: seq<Action>, i: nat, ttl: int, t: Token) {
    i < |trace| && t in Run(trace[..i], ttl).sessions && Dead(Step(Run(trace[..i], ttl), trace[i], ttl), t)
  }

  /** However refreshes race, a token is accepted only by finds before its row is deleted or revoked: of any two
      refreshes that accept it, the later one found it before the earlier one had deleted it. */
  lemma {:induction false} AcceptedOnlyBeforeItsEnd(trace: seq<Action>, ttl: int, i: nat, j: nat, t: Token)
    requires Ends(trace, i, ttl, t) && Accepts(trace, j, ttl, t)
    ensures j < i
  {
    if i < j {
      assert trace[..i + 1][..i] == trace[..i];
      assert Dead(Run(trace[..i + 1], ttl), t);
      DeadStays(trace, i + 1, j, ttl, t);
    }
    hide Run;
  }

  lemma StepKeepsAlive(w: World, a: Action, ttl: int, t: Token)
    requires t in Step(w, a, ttl).root && !Dead(w, t) && RowsHold(w)
    ensures Dead(Step(w, a, ttl), t) ==> t in w.sessions
    ensures !Dead(Step(w, a, ttl), t) ==> t in Step(w, a, ttl).sessions && !Step(w, a, ttl).sessions[t].revoked
  {
  }

  /** A token that was stored once and that no step has ended is still stored, and not revoked. */
  lemma {:induction false} AliveUntilEnded(trace: seq<Action>, j: nat, ttl: int, t: Token)
    requires j <= |trace| && t in Run(trace[..j], ttl).root && forall i :: 0 <= i < j ==> !Ends(trace, i, ttl, t)
    ensures !Dead(Run(trace[..j], ttl), t)
    decreases j
  {
    assert trace[..0] == [];
    if j > 0 {
      RunKeepsInv(trace[..j - 1], ttl);
      NextRun(trace, j - 1, ttl);
      var w := Run(trace[..j - 1], ttl);
      assert !Ends(trace, j - 1, ttl, t);
      assert RowsHold(w) by { hide RowsHold, CallHolds, Twins, Forked, SpentBy, HasLeaf; }
      hide Inv, Run, Step, RowsHold;
      if t in w.root {
        AliveUntilEnded(trace, j - 1, ttl, t);
      }
      StepKeepsAlive(w, trace[j - 1], ttl, t);
    }
  }

  /** Exactly when a find accepts a token, however refreshes race: the query does not fail, the token is stored and has
      not expired, and no earlier step has ended it. */
  lemma {:induction false} AcceptsExactlyWhen(trace: seq<Action>, j: nat, ttl: int, t: Token)
    requires j < |trace| && trace[j].Find? && Enabled(Run(trace[..j], ttl), trace[j])
    requires Run(trace[..j], ttl).calls[trace[j].finder].token == t
    ensures var w := Run(trace[..j], ttl);
            Accepts(trace, j, ttl, t)
            <==> !trace[j].fails && (forall i :: 0 <= i < j ==> !Ends(trace, i, ttl, t))
                 && t in w.sessions && trace[j].now < w.sessions[t].expiresAt
  {
    var w := Run(trace[..j], ttl);
    RunKeepsInv(trace[..j], ttl);
    assert t in w.sessions ==> t in w.root by { hide CallHolds, Twins, Forked, SpentBy, HasLeaf; }
    FindIs(w, trace[j], ttl);
    hide Inv, Run, Step;
    if Accepts(trace, j, ttl, t) {
      forall i | 0 <= i < j
        ensures !Ends(trace, i, ttl, t)
      {
        hide Accepts, Ends;
        if Ends(trace, i, ttl, t) {
          AcceptedOnlyBeforeItsEnd(trace, ttl, i, j, t);
        }
      }
    }
    if t in w.root && forall i :: 0 <= i < j ==> !Ends(trace, i, ttl, t) {
      AliveUntilEnded(trace, j, ttl, t);
    }
  }

  lemma FindIs(w: World, a: Action, ttl: int)
    requires a.Find? && Enabled(w, a)
    ensures var t := w.calls[a.finder].token;
            |Step(w, a, ttl).calls| == |w.calls|
            && (Step(w, a, ttl).calls[a.finder].pc.Deleting? <==> !a.fails && Live(w.sessions, t, a.now))
  {
  }

  // ---- two refreshes that both find one token fork its login

  /** Two calls that have found one token, which is all there is. */
  predicate BothFound(w: World, user: UserId, t: Token) {
    && t in w.sessions && t in w.root && w.root == map[t := 0] && w.logins == [user]
    && w.calls == [Call(t, Deleting(user)), Call(t, Deleting(user))]
  }

  lemma TwoFinds(user: UserId, t: Token, now: int, ttl: int)
    requires ttl > 0
    ensures var signedIn := Step(Step(Step(INIT, SignIn(user, t, now), ttl), Present(t), ttl), Present(t), ttl);
            BothFound(Step(Step(signedIn, Find(0, now, false), ttl), Find(1, now, false), ttl), user, t)
  {
    var s1 := Step(INIT, SignIn(user, t, now), ttl);
    assert s1.sessions == map[t := Session(user, false, now + ttl)] && s1.root == map[t := 0] && s1.logins == [user]
        && s1.calls == [];
    var s3 := Step(Step(s1, Present(t), ttl), Present(t), ttl);
    assert s3.(calls := []) == s1 && s3.calls == [Call(t, Finding), Call(t, Finding)];
    var s4 := Step(s3, Find(0, now, false), ttl);
    assert s4.(calls := []) == s1 && s4.calls == [Call(t, Deleting(user)), Call(t, Finding)];
  }

  lemma TwoStores(w: World, user: UserId, t: Token, a: Token, b: Token, now: int, ttl: int)
    requires BothFound(w, user, t) && a != t && b != t && a != b && ttl > 0
    ensures var deleted := Step(Step(w, Delete(0, false, true), ttl), Delete(1, false, true), ttl);
            var x := Step(Step(deleted, Store(0, a, now, false, true), ttl), Store(1, b, now, false, true), ttl);
            Live(x.sessions, a, now) && Live(x.sessions, b, now) && a in x.root && b in x.root && x.root[a] == x.root[b]
  {
    var s1 := Step(w, Delete(0, false, true), ttl);
    assert s1.calls == [Call(t, Storing(user)), Call(t, Deleting(user))] && s1.root == w.root;
    var s2 := Step(s1, Delete(1, false, true), ttl);
    assert s2.calls == [Call(t, Storing(user)), Call(t, Storing(user))] && s2.root == w.root;
    var s3 := Step(s2, Store(0, a, now, false, true), ttl);
    assert s3.calls == [Call(t, Stored(a, true)), Call(t, Storing(user))] && Live(s3.sessions, a, now);
    assert s3.root == map[t := 0, a := 0];
  }

  /** So the sequential bound fails for refreshes that race: two live sessions of one login, from one token used
      twice. */
  lemma RacingRefreshesFork(user: UserId, t: Token, a: Token, b: Token, now: int, ttl: int)
    requires a != t && b != t && a != b && ttl > 0
    ensures var w := Run([SignIn(user, t, now), Present(t), Present(t), Find(0, now, false), Find(1, now, false),
                          Delete(0, false, true), Delete(1, false, true), Store(0, a, now, false, true),
                              Store(1, b, now, false, true)], ttl);
            Live(w.sessions, a, now) && Live(w.sessions, b, now) && a in w.root && b in w.root && w.root[a] == w.root[b]
  {
    var all := [SignIn(user, t, now), Present(t), Present(t), Find(0, now, false), Find(1, now, false),
                Delete(0, false, true), Delete(1, false, true), Store(0, a, now, false, true),
                    Store(1, b, now, false, true)];
    NextRun(all, 0, ttl);
    NextRun(all, 1, ttl);
    NextRun(all, 2, ttl);
    NextRun(all, 3, ttl);
    NextRun(all, 4, ttl);
    NextRun(all, 5, ttl);
    NextRun(all, 6, ttl);
    NextRun(all, 7, ttl);
    NextRun(all, 8, ttl);
    assert all[..9] == all && all[..0] == [] && Run(all[..0], ttl) == INIT;
    hide Run, Step, BothFound;
    TwoFinds(user, t, now, ttl);
    TwoStores(Run(all[..5], ttl), user, t, a, b, now, ttl);
  }
}
