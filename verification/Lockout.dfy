/** Login with its failure counter and lock, and how many wrong passwords an account can have checked over time. */
module Lockout {
  import opened Wrappers

  /** Times are in whole microseconds, the precision of the stored column. */
  const LOCKOUT_DURATION := 30 * 60 * 1_000_000

  const MAX_FAILED_LOGINS := 5

  /** `users_failed_logins_range`. */
  const FAILED_LOGINS_CEILING := 100

  datatype Account = Account(failedLogins: int, lockedUntil: Option<int>, active: bool)

  datatype Outcome = Inactive | Locked | WrongPassword | Stalled | LoggedIn

  /** One attempt: when it comes, whether its password is right, and which later calls fail. */
  datatype Attempt = Attempt(now: int, correct: bool, tokensFail: bool, resetFails: bool, incrementFails: bool,
      lockFails: bool)

  predicate IsLocked(a: Account, now: int) { a.lockedUntil.Some? && now < a.lockedUntil.value }

  function Judge(a: Account, t: Attempt): Outcome {
    if !a.active then Inactive
    else if IsLocked(a, t.now) then Locked
    else if !t.correct then WrongPassword
    else if t.tokensFail then Stalled
    else LoggedIn
  }

  /** failed_logins + 1, refused by the column's check at the ceiling. */
  function Incremented(a: Account): Account {
    if a.failedLogins < FAILED_LOGINS_CEILING then a.(failedLogins := a.failedLogins + 1) else a
  }

  function After(a: Account, t: Attempt): Account {
    match Judge(a, t)
    case WrongPassword =>
      var counted := if t.incrementFails then a else Incremented(a);
      if a.failedLogins + 1 >= MAX_FAILED_LOGINS && !t.lockFails
      then counted.(lockedUntil := Some(t.now + LOCKOUT_DURATION)) else counted
    case LoggedIn => if t.resetFails then a else a.(failedLogins := 0, lockedUntil := None)
    case _ => a
  }

  class Repository {
    var user: Account

    constructor ()
      ensures user == Account(0, None, true)
    {
      user := Account(0, None, true);
    }

    method IncrementFailedLogins(fails: bool) returns (ok: bool)
      modifies this
      ensures user == if fails then old(user) else Incremented(old(user))
      ensures ok == (!fails && old(user).failedLogins < FAILED_LOGINS_CEILING)
    {
      ok := !fails && user.failedLogins < FAILED_LOGINS_CEILING;
      if ok {
        user := user.(failedLogins := user.failedLogins + 1);
      }
    }

    method LockUser(until: int, fails: bool)
      modifies this
      ensures user == if fails then old(user) else old(user).(lockedUntil := Some(until))
    {
      if !fails {
        user := user.(lockedUntil := Some(until));
      }
    }

    method ResetFailedLogins(fails: bool)
      modifies this
      ensures user == if fails then old(user) else old(user).(failedLogins := 0, lockedUntil := None)
    {
      if !fails {
        user := user.(failedLogins := 0, lockedUntil := None);
      }
    }
  }

  class Service {
    const repo: Repository

    constructor (repo: Repository)
      ensures this.repo == repo
    {
      this.repo := repo;
    }

    /** An inactive account, then a locked one, is refused whatever the password. A wrong password counts and may lock.
        A right one that goes through clears counter and lock, and nothing else changes the account. */
    method Login(t: Attempt) returns (r: Outcome)
      modifies repo
      ensures r == Judge(old(repo.user), t) && repo.user == After(old(repo.user), t)
      ensures var was := old(repo.user);
              var open := was.active && (was.lockedUntil.Some? ==> was.lockedUntil.value <= t.now);
              && (r == Inactive <==> !was.active)
              && (r == Locked <==> was.active && was.lockedUntil.Some? && t.now < was.lockedUntil.value)
              && (r == WrongPassword <==> open && !t.correct)
              && (r == Stalled <==> open && t.correct && t.tokensFail)
              && (r == LoggedIn <==> open && t.correct && !t.tokensFail)
      ensures r == LoggedIn && !t.resetFails ==> repo.user == Account(0, None, true)
      ensures r == LoggedIn && t.resetFails ==> repo.user == old(repo.user)
      ensures r == Inactive || r == Locked || r == Stalled ==> repo.user == old(repo.user)
      ensures r == WrongPassword ==>
                var was, n := old(repo.user), old(repo.user).failedLogins;
                && repo.user.active
                && repo.user.failedLogins == (if t.incrementFails || n >= 100 then n else n + 1)
                && repo.user.lockedUntil
                   == if n >= 4 && !t.lockFails then Some(t.now + 1_800_000_000) else was.lockedUntil
    {
      var user := repo.user;
      if !user.active {
        return Inactive;
      }
      if IsLocked(user, t.now) {
        return Locked;
      }
      if !t.correct {
        HandleFailedLogin(user, t);
        return WrongPassword;
      }
      if t.tokensFail {
        return Stalled;
      }
      repo.ResetFailedLogins(t.resetFails);
      r := LoggedIn;
    }

    /** A refused increment is only logged; the lock goes by the counter read before it. */
    method HandleFailedLogin(user: Account, t: Attempt)
      requires user == repo.user
      modifies repo
      ensures var counted := if t.incrementFails then user else Incremented(user);
              repo.user == if user.failedLogins + 1 >= MAX_FAILED_LOGINS && !t.lockFails
                           then counted.(lockedUntil := Some(t.now + LOCKOUT_DURATION)) else counted
    {
      var _ := repo.IncrementFailedLogins(t.incrementFails);
      if user.failedLogins + 1 >= MAX_FAILED_LOGINS {
        repo.LockUser(t.now + LOCKOUT_DURATION, t.lockFails);
      }
    }
  }

  // ---- whole runs, one login at a time

  datatype Event = Login(t: Attempt) | SetActive(at: int, active: bool)

  function Time(e: Event): int {
    match e case Login(t) => t.now case SetActive(at, _) => at
  }

  function Next(a: Account, e: Event): Account {
    match e case Login(t) => After(a, t) case SetActive(_, b) => a.(active := b)
  }

  function Run(a: Account, es: seq<Event>): Account
    decreases es
  {
    if es == [] then a else Run(Next(a, es[0]), es[1..])
  }

  predicate InOrder(es: seq<Event>) { forall i, j :: 0 <= i < j < |es| ==> Time(es[i]) <= Time(es[j]) }

  predicate Checked(a: Account, e: Event) { e.Login? && Judge(a, e.t) == WrongPassword }

  predicate Faulty(e: Event) { e.Login? && (e.t.incrementFails || e.t.lockFails) }

  /** How many passwords were checked and found wrong. */
  function WrongChecks(a: Account, es: seq<Event>): nat
    decreases es
  {
    if es == [] then 0 else (if Checked(a, es[0]) then 1 else 0) + WrongChecks(Next(a, es[0]), es[1..])
  }

  /** How many of those met a failing database write. */
  function UnrecordedChecks(a: Account, es: seq<Event>): nat
    decreases es
  {
    if es == [] then 0
        else (if Checked(a, es[0]) && Faulty(es[0]) then 1 else 0) + UnrecordedChecks(Next(a, es[0]), es[1..])
  }

  predicate NobodyLogsIn(a: Account, es: seq<Event>)
    decreases es
  {
    es == [] || (!(es[0].Login? && Judge(a, es[0].t) == LoggedIn) && NobodyLogsIn(Next(a, es[0]), es[1..]))
  }

  /** Wrong passwords left before every further one locks. */
  function Free(a: Account): nat {
    if a.failedLogins < MAX_FAILED_LOGINS - 1 then MAX_FAILED_LOGINS - 1 - a.failedLogins else 0
  }

  /** Nothing is checked before `from`. */
  predicate QuietUntil(a: Account, es: seq<Event>, from: int) {
    es == [] || from <= Time(es[0]) || (a.lockedUntil.Some? && from <= a.lockedUntil.value)
  }

  /** One event: the free checks it leaves, and from when on the next check can come. */
  lemma OneEvent(a: Account, es: seq<Event>, from: int)
    requires a.failedLogins >= 0 && InOrder(es) && es != [] && QuietUntil(a, es, from)
    requires !(es[0].Login? && Judge(a, es[0].t) == LoggedIn)
    ensures var e, b := es[0], Next(a, es[0]);
            && b.failedLogins >= 0 && Free(b) <= Free(a)
            && (Checked(a, e) ==> from <= Time(e))
            && (Checked(a, e) && !Faulty(e) ==> Free(b) == if Free(a) > 0 then Free(a) - 1 else 0)
            && (Checked(a, e) && !Faulty(e) && Free(a) == 0 ==> QuietUntil(b, es[1..], Time(e) + LOCKOUT_DURATION))
            && QuietUntil(b, es[1..], from)
  {
    assert |es| > 1 ==> Time(es[0]) <= Time(es[1]);
  }

  /** After the free ones, each recorded wrong check costs a full lockout. */
  lemma {:induction false} ChecksAreSpaced(a: Account, es: seq<Event>, from: int)
    requires a.failedLogins >= 0 && InOrder(es) && NobodyLogsIn(a, es) && QuietUntil(a, es, from)
    ensures var n := WrongChecks(a, es) - UnrecordedChecks(a, es);
            n >= 0 && (n > 0 ==> (n - Free(a) - 1) * LOCKOUT_DURATION <= Time(es[|es| - 1]) - from)
    decreases es
  {
    hide Next, Judge, QuietUntil, Checked;
    if es != [] {
      var e, b := es[0], Next(a, es[0]);
      var rest := es[1..];
      assert rest != [] ==> Time(e) <= Time(rest[0]) && rest[|rest| - 1] == es[|es| - 1];
      assert Time(e) <= Time(es[|es| - 1]);
      OneEvent(a, es, from);
      if Checked(a, e) && !Faulty(e) && Free(a) == 0 {
        ChecksAreSpaced(b, rest, Time(e) + LOCKOUT_DURATION);
      } else {
        ChecksAreSpaced(b, rest, from);
      }
    }
  }

  lemma {:induction false} RunCountsUp(a: Account, es: seq<Event>)
    requires a.failedLogins >= 0
    ensures Run(a, es).failedLogins >= 0
    decreases es
  {
    if es != [] {
      RunCountsUp(Next(a, es[0]), es[1..]);
    }
  }

  /** From any account a run has reached, whatever its counter and lock: a stretch of `span` microseconds without a
      successful login checks at most 5 + span / 30 min wrong passwords, and one more for each failing write. */
  lemma AtMostFiveAndOnePerLockout(past: seq<Event>, stretch: seq<Event>)
    requires var a := Run(Account(0, None, true), past); InOrder(stretch) && NobodyLogsIn(a, stretch) && stretch != []
    ensures var a := Run(Account(0, None, true), past);
            var span := Time(stretch[|stretch| - 1]) - Time(stretch[0]);
            WrongChecks(a, stretch) <= MAX_FAILED_LOGINS + span / LOCKOUT_DURATION + UnrecordedChecks(a, stretch)
  {
    var a := Run(Account(0, None, true), past);
    RunCountsUp(Account(0, None, true), past);
    ChecksAreSpaced(a, stretch, Time(stretch[0]));
  }

  // ---- a login starts afresh

  /** Nothing but wrong passwords. */
  predicate AllWrong(es: seq<Event>) { forall i :: 0 <= i < |es| ==> es[i].Login? && !es[i].t.correct }

  predicate NoFaults(es: seq<Event>) { forall i :: 0 <= i < |es| ==> !Faulty(es[i]) }

  lemma {:induction false} WrongOnesAdd(a: Account, es: seq<Event>)
    requires a.active && a.lockedUntil == None && a.failedLogins >= 0 && a.failedLogins + |es| <= 4 && AllWrong(es)
    ensures var b := Run(a, es);
            && b.active && b.lockedUntil == None && a.failedLogins <= b.failedLogins <= a.failedLogins + |es|
            && (NoFaults(es) ==> b.failedLogins == a.failedLogins + |es|)
    decreases es
  {
    if es != [] {
      WrongOnesAdd(Next(a, es[0]), es[1..]);
    }
  }

  lemma {:induction false} RunJoins(a: Account, es: seq<Event>, more: seq<Event>)
    ensures Run(a, es + more) == Run(Run(a, es), more)
    decreases es
  {
    if es == [] {
      assert es + more == more;
    } else {
      assert (es + more)[0] == es[0] && (es + more)[1..] == es[1..] + more;
      RunJoins(Next(a, es[0]), es[1..], more);
    }
  }

  /** After any run, a login that goes through and whose reset works starts afresh: up to four wrong passwords, whenever
      they come and whatever fails, leave the account open, and a fifth that is recorded like the four before it locks
      it for half an hour. */
  lemma {:induction false} LoginStartsAfresh(past: seq<Event>, t: Attempt, es: seq<Event>)
    requires var a := Run(Account(0, None, true), past); Judge(a, t) == LoggedIn && !t.resetFails
    requires AllWrong(es) && 0 < |es| <= 5
    ensures var b := Run(Account(0, None, true), past + [Login(t)] + es);
            && (|es| < 5 ==> b.active && b.lockedUntil == None && b.failedLogins <= |es|)
            && (|es| == 5 && NoFaults(es) ==> b == Account(5, Some(Time(es[4]) + 1_800_000_000), true))
  {
    var start := Account(0, None, true);
    var a := Run(start, past);
    RunJoins(start, past + [Login(t)], es);
    RunJoins(start, past, [Login(t)]);
    assert [Login(t)][1..] == [];
    assert Run(Next(a, Login(t)), []) == start;
    if |es| < 5 {
      WrongOnesAdd(start, es);
    } else {
      WrongOnesAdd(start, es[..4]);
      RunJoins(start, es[..4], [es[4]]);
      assert es[..4] + [es[4]] == es && [es[4]][1..] == [];
      assert Run(Next(Run(start, es[..4]), es[4]), []) == Next(Run(start, es[..4]), es[4]);
    }
  }

  // ---- the bound is reached

  function Wrong(now: int): Event { Login(Attempt(now, false, false, false, false, false)) }

  /** Wrong passwords, one as soon as each lock runs out. */
  function Patient(n: nat, now: int): (es: seq<Event>)
    ensures |es| == n
  {
    if n == 0 then [] else [Wrong(now)] + Patient(n - 1, now + LOCKOUT_DURATION)
  }

  lemma {:induction false} PatientIsChecked(a: Account, n: nat, now: int)
    requires a.active && !IsLocked(a, now) && a.failedLogins + 1 >= MAX_FAILED_LOGINS
    ensures WrongChecks(a, Patient(n, now)) == n
    decreases n
  {
    if n > 0 {
      var b := Next(a, Wrong(now));
      PatientIsChecked(b, n - 1, now + LOCKOUT_DURATION);
      assert Patient(n, now)[1..] == Patient(n - 1, now + LOCKOUT_DURATION);
    }
  }

  /** Four quick wrong passwords, then one per lockout: k lockouts let 5 + k through. */
  lemma BoundIsReached(k: nat, now: int)
    ensures var es := [Wrong(now), Wrong(now), Wrong(now), Wrong(now)] + Patient(k + 1, now);
            WrongChecks(Account(0, None, true), es) == MAX_FAILED_LOGINS + k
  {
    var w, p := Wrong(now), Patient(k + 1, now);
    var es := [w, w, w, w] + p;
    PatientIsChecked(Account(4, None, true), k + 1, now);
    assert es[1..] == [w, w, w] + p && es[1..][1..] == [w, w] + p && es[1..][1..][1..] == [w] + p
        && es[1..][1..][1..][1..] == p;
    assert WrongChecks(Account(3, None, true), [w] + p) == 1 + WrongChecks(Account(4, None, true), p);
    assert WrongChecks(Account(2, None, true), [w, w] + p) == 1 + WrongChecks(Account(3, None, true), [w] + p);
    assert WrongChecks(Account(1, None, true), [w, w, w] + p) == 1 + WrongChecks(Account(2, None, true), [w, w] + p);
  }
}
