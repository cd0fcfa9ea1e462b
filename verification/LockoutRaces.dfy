/**
 Logins on one account that overlap: each reads the account, and if the password is wrong counts it and locks in two
 later statements, going by the counter it read.
 */
module LockoutRaces {
  import opened Wrappers
  import opened Lockout

  /** A wrong password between the read and its last write, a right one before its reset, or a login that is over. */
  datatype PC = Counting(seen: int, looked: int) | Locking(seen: int, looked: int) | Resetting | Over

  datatype World = World(user: Account, calls: seq<PC>)

  const INIT := World(Account(0, None, true), [])

  datatype Action =
    | Look(at: int, correct: bool)
    | Count(counter: nat, when: int, countFails: bool)
    | Lock(locker: nat, moment: int, lockFails: bool)
    | Reset(winner: nat, time: int, resetFails: bool)
    | Drop(quitter: nat, dropped: int)
    | Switch(switched: int, active: bool)

  function Time(a: Action): int {
    match a
    case Look(at, _) => at
    case Count(_, at, _) => at
    case Lock(_, at, _) => at
    case Reset(_, at, _) => at
    case Drop(_, at) => at
    case Switch(at, _) => at
  }

  predicate Enabled(w: World, a: Action) {
    match a
    case Look(_, _) => true
    case Count(i, _, _) => i < |w.calls| && w.calls[i].Counting?
    case Lock(i, _, _) => i < |w.calls| && w.calls[i].Locking?
    case Reset(i, _, _) => i < |w.calls| && w.calls[i].Resetting?
    case Drop(i, _) => i < |w.calls|
    case Switch(_, _) => true
  }

  /** What a login does next after reading the account. */
  function Looked(user: Account, now: int, correct: bool): PC {
    if !user.active || IsLocked(user, now) then Over
    else if correct then Resetting
    else Counting(user.failedLogins, now)
  }

  function Counted(pc: PC): PC
    requires pc.Counting?
  {
    if pc.seen + 1 >= MAX_FAILED_LOGINS then Locking(pc.seen, pc.looked) else Over
  }

  function Do(w: World, a: Action): World
    requires Enabled(w, a)
  {
    match a
    case Look(now, correct) => w.(calls := w.calls + [Looked(w.user, now, correct)])
    case Count(i, _, fails) =>
      World(if fails then w.user else Incremented(w.user), w.calls[i := Counted(w.calls[i])])
    case Lock(i, now, fails) =>
      World(if fails then w.user else w.user.(lockedUntil := Some(now + LOCKOUT_DURATION)), w.calls[i := Over])
    case Reset(i, _, fails) =>
      World(if fails then w.user else w.user.(failedLogins := 0, lockedUntil := None), w.calls[i := Over])
    case Drop(i, _) => w.(calls := w.calls[i := Over])
    case Switch(_, b) => w.(user := w.user.(active := b))
  }

  function Step(w: World, a: Action): World {
    if Enabled(w, a) then Do(w, a) else w
  }

  function Run(w: World, es: seq<Action>): World
    decreases es
  {
    if es == [] then w else Run(Step(w, es[0]), es[1..])
  }

  /** What one login does when nothing else runs is its look, its count and its lock at one moment. */
  lemma LoginAloneIsThreeSteps(user: Account, t: Attempt)
    requires !t.correct
    ensures var w := World(user, []);
            Run(w, [Look(t.now, false), Count(0, t.now, t.incrementFails), Lock(0, t.now, t.lockFails)]).user
                == After(user, t)
  {
    var es := [Look(t.now, false), Count(0, t.now, t.incrementFails), Lock(0, t.now, t.lockFails)];
    var s1 := Step(World(user, []), es[0]);
    var s2 := Step(s1, es[1]);
    var s3 := Step(s2, es[2]);
    assert es[1..] == [es[1], es[2]] && es[1..][1..] == [es[2]] && es[1..][1..][1..] == [];
    assert Run(s3, []) == s3 && Run(s2, [es[2]]) == s3;
    assert Run(s1, [es[1], es[2]]) == Run(s2, [es[2]]);
  }

  /** And a right password: its look and its reset, or its look alone when the tokens fail. */
  lemma RightLoginAloneIsTwoSteps(user: Account, t: Attempt)
    requires t.correct
    ensures var second := if t.tokensFail then Drop(0, t.now) else Reset(0, t.now, t.resetFails);
            Run(World(user, []), [Look(t.now, true), second]).user == After(user, t)
  {
    var second := if t.tokensFail then Drop(0, t.now) else Reset(0, t.now, t.resetFails);
    var es := [Look(t.now, true), second];
    var s1 := Step(World(user, []), es[0]);
    assert es[1..] == [second] && es[1..][1..] == [];
    assert Run(Step(s1, second), []) == Step(s1, second) && Run(s1, [second]) == Step(s1, second);
  }

  // ---- counting

  predicate InFlight(pc: PC) { pc.Counting? || pc.Locking? }

  predicate Busy(w: World) { exists i :: 0 <= i < |w.calls| && InFlight(w.calls[i]) }

  /** A wrong password gets past the lock check. */
  predicate Checked(w: World, a: Action) { a.Look? && Looked(w.user, a.at, a.correct).Counting? }

  /** A write of a wrong-password login fails, or the login dies before it. */
  predicate Faulty(w: World, a: Action) {
    Enabled(w, a) &&
    match a
    case Count(_, _, fails) => fails
    case Lock(_, _, fails) => fails
    case Drop(i, _) => InFlight(w.calls[i])
    case _ => false
  }

  predicate LogsIn(w: World, a: Action) { a.Reset? && Enabled(w, a) && !a.resetFails }

  function WrongChecks(w: World, es: seq<Action>): nat
    decreases es
  {
    if es == [] then 0 else (if Checked(w, es[0]) then 1 else 0) + WrongChecks(Step(w, es[0]), es[1..])
  }

  /** Those made while another wrong-password login was past its own lock check and not through. */
  function Overlapping(w: World, es: seq<Action>): nat
    decreases es
  {
    if es == [] then 0 else (if Checked(w, es[0]) && Busy(w) then 1 else 0) + Overlapping(Step(w, es[0]), es[1..])
  }

  function Faults(w: World, es: seq<Action>): nat
    decreases es
  {
    if es == [] then 0 else (if Faulty(w, es[0]) then 1 else 0) + Faults(Step(w, es[0]), es[1..])
  }

  predicate NobodyLogsIn(w: World, es: seq<Action>)
    decreases es
  {
    es == [] || (!LogsIn(w, es[0]) && NobodyLogsIn(Step(w, es[0]), es[1..]))
  }

  predicate InOrder(es: seq<Action>) { forall i, j :: 0 <= i < j < |es| ==> Time(es[i]) <= Time(es[j]) }

  // ---- the bound

  /** The login whose writes the count of free attempts and the lock already reckon with. */
  ghost predicate Owns(w: World, owner: Option<nat>, now: int) {
    owner.Some? ==>
      && owner.value < |w.calls| && InFlight(w.calls[owner.value])
      && w.calls[owner.value].looked <= now && w.calls[owner.value].seen <= w.user.failedLogins
  }

  /** The owner will lock until `from` at least. */
  ghost predicate WillLock(w: World, owner: Option<nat>, from: int)
    requires owner.Some? ==> owner.value < |w.calls| && InFlight(w.calls[owner.value])
  {
    owner.Some? && w.calls[owner.value].seen + 1 >= MAX_FAILED_LOGINS
        && from <= w.calls[owner.value].looked + LOCKOUT_DURATION
  }

  /** At most `g` wrong passwords are free, and nothing alone is checked before `from`, once the owner is through. */
  ghost predicate Bounds(w: World, now: int, g: nat, from: int, owner: Option<nat>) {
    && w.user.failedLogins >= 0 && from <= now + LOCKOUT_DURATION && Owns(w, owner, now)
    && Free(if owner.Some? && w.calls[owner.value].Counting? then Incremented(w.user) else w.user) <= g
    && (from <= now || (w.user.lockedUntil.Some? && from <= w.user.lockedUntil.value) || WillLock(w, owner, from))
  }

  /** A step of the owner. */
  predicate OwnersOwn(w: World, a: Action, owner: Option<nat>) {
    owner.Some? && Enabled(w, a)
    && ((a.Count? && a.counter == owner.value) || (a.Lock? && a.locker == owner.value)
        || (a.Drop? && a.quitter == owner.value))
  }

  /** A lone check takes a free attempt, or a lockout from its own time on. */
  lemma LoneCheck(w: World, a: Action, now: int, g: nat, from: int) returns (g': nat, from': int)
    requires Bounds(w, now, g, from, None) && Checked(w, a) && !Busy(w) && now <= a.at
    ensures Bounds(Step(w, a), a.at, g', from', Some(|w.calls|)) && from <= a.at
    ensures g' * LOCKOUT_DURATION - from' + LOCKOUT_DURATION <= g * LOCKOUT_DURATION - from
  {
    if g > 0 {
      g', from' := g - 1, from;
    } else {
      g', from' := 0, a.at + LOCKOUT_DURATION;
    }
  }

  /** A step of the owner: a failing write gives back what was reckoned with. */
  lemma OwnerStep(w: World, a: Action, now: int, g: nat, from: int, i: nat)
    returns (g': nat, from': int, owner': Option<nat>)
    requires Bounds(w, now, g, from, Some(i)) && Enabled(w, a) && now <= Time(a)
    requires (a.Count? && a.counter == i) || (a.Lock? && a.locker == i) || (a.Drop? && a.quitter == i)
    ensures Bounds(Step(w, a), Time(a), g', from', owner')
    ensures g' * LOCKOUT_DURATION - from' - (if Faulty(w, a) then LOCKOUT_DURATION else 0)
            <= g * LOCKOUT_DURATION - from
  {
    g', from', owner' := g, from, None;
    var pc := w.calls[i];
    if a.Count? && pc.seen + 1 >= MAX_FAILED_LOGINS {
      owner' := Some(i);
    } else if a.Count? && a.countFails {
      g' := g + 1;
    } else if a.Drop? && pc.Counting? && pc.seen + 1 < MAX_FAILED_LOGINS {
      g' := g + 1;
    } else if (a.Lock? && a.lockFails) || a.Drop? {
      from' := from - LOCKOUT_DURATION;
    }
  }

  /** Any other step that is no lone check and no login only helps. */
  lemma OtherStep(w: World, a: Action, now: int, g: nat, from: int, owner: Option<nat>)
    requires Bounds(w, now, g, from, owner) && now <= Time(a) && !LogsIn(w, a) && !(Checked(w, a) && !Busy(w))
    requires !OwnersOwn(w, a, owner)
    ensures Bounds(Step(w, a), Time(a), g, from, owner)
  {
  }

  /** How one action changes the number of lone checks less faults. */
  function Score(w: World, a: Action): int {
    (if Checked(w, a) && !Busy(w) then 1 else 0) - if Faulty(w, a) then 1 else 0
  }

  function Budget(g: nat, from: int): int { (g + 1) * LOCKOUT_DURATION - from }

  /** Every action pays for its score out of the budget. */
  lemma OneAction(w: World, a: Action, now: int, g: nat, from: int, owner: Option<nat>)
    returns (g': nat, from': int, owner': Option<nat>)
    requires Bounds(w, now, g, from, owner) && now <= Time(a) && !LogsIn(w, a)
    ensures Bounds(Step(w, a), Time(a), g', from', owner')
    ensures Budget(g', from') + Score(w, a) * LOCKOUT_DURATION <= Budget(g, from)
    ensures Score(w, a) <= 1 && (Score(w, a) == 1 ==> LOCKOUT_DURATION <= Time(a) + Budget(g, from))
  {
    hide Bounds, Checked, Busy, LogsIn, Faulty, Step, Enabled;
    CheckIsNoFault(w, a);
    if Checked(w, a) && !Busy(w) {
      NotBusyNoOwner(w, now, g, from, owner);
      g', from' := LoneCheck(w, a, now, g, from);
      owner' := Some(|w.calls|);
    } else if OwnersOwn(w, a, owner) {
      g', from', owner' := OwnerStep(w, a, now, g, from, owner.value);
    } else {
      OtherStep(w, a, now, g, from, owner);
      g', from', owner' := g, from, owner;
    }
  }

  function LoneScore(w: World, es: seq<Action>): int
    decreases es
  {
    if es == [] then 0 else Score(w, es[0]) + LoneScore(Step(w, es[0]), es[1..])
  }

  lemma {:induction false} LoneScoreIs(w: World, es: seq<Action>)
    ensures LoneScore(w, es) == WrongChecks(w, es) - Overlapping(w, es) - Faults(w, es)
    decreases es
  {
    hide Checked, Busy, Faulty, Step;
    if es != [] {
      LoneScoreIs(Step(w, es[0]), es[1..]);
    }
  }

  lemma {:induction false} LoneChecksAreSpaced(w: World, es: seq<Action>, now: int, g: nat, from: int,
      owner: Option<nat>)
    requires Bounds(w, now, g, from, owner) && InOrder(es) && NobodyLogsIn(w, es) && (es != [] ==> now <= Time(es[0]))
    ensures var n := LoneScore(w, es);
            n > 0 ==> es != [] && n * LOCKOUT_DURATION <= Time(es[|es| - 1]) + Budget(g, from)
    decreases es
  {
    if es != [] {
      var a, rest := es[0], es[1..];
      assert rest != [] ==> Time(a) <= Time(rest[0]) && rest[|rest| - 1] == es[|es| - 1];
      assert Time(a) <= Time(es[|es| - 1]) && InOrder(rest);
      hide Bounds, LogsIn, Step, InOrder, Score, Budget;
      var g', from', owner' := OneAction(w, a, now, g, from, owner);
      LoneChecksAreSpaced(Step(w, a), rest, Time(a), g', from', owner');
    }
  }

  lemma CheckIsNoFault(w: World, a: Action)
    ensures Checked(w, a) ==> a.Look? && !Faulty(w, a)
  {
  }

  lemma NotBusyNoOwner(w: World, now: int, g: nat, from: int, owner: Option<nat>)
    requires Bounds(w, now, g, from, owner) && !Busy(w)
    ensures owner.None?
  {
  }

  lemma {:induction false} RunCountsUp(w: World, es: seq<Action>)
    requires w.user.failedLogins >= 0
    ensures Run(w, es).user.failedLogins >= 0
    decreases es
  {
    if es != [] {
      RunCountsUp(Step(w, es[0]), es[1..]);
    }
  }

  /** However logins overlap: from any state a run has reached, a stretch of `span` microseconds without a successful
      login lets at most 5 + span / 30 min wrong passwords past the lock check, and one more for each that came while
      another was past it and not through, and for each failing write. */
  lemma {:induction false} AtMostFivePerLockoutAndOverlaps(past: seq<Action>, stretch: seq<Action>)
    requires var w := Run(INIT, past); InOrder(stretch) && NobodyLogsIn(w, stretch) && stretch != []
    ensures var w := Run(INIT, past);
            var span := Time(stretch[|stretch| - 1]) - Time(stretch[0]);
            WrongChecks(w, stretch)
            <= MAX_FAILED_LOGINS + span / LOCKOUT_DURATION + Overlapping(w, stretch) + Faults(w, stretch)
  {
    var w, start := Run(INIT, past), Time(stretch[0]);
    RunCountsUp(INIT, past);
    assert Bounds(w, start, MAX_FAILED_LOGINS - 1, start, None);
    hide Run, Bounds;
    LoneChecksAreSpaced(w, stretch, start, MAX_FAILED_LOGINS - 1, start, None);
    LoneScoreIs(w, stretch);
    hide LoneScore, WrongChecks, Overlapping, Faults;
  }

  // ---- the bound is reached, and each of its terms is needed

  /** Login number i, alone and with a wrong password. */
  function Turn(i: nat, at: int, lockFails: bool): seq<Action> {
    [Look(at, false), Count(i, at, false), Lock(i, at, lockFails)]
  }

  /** Such logins one after another, `gap` apart. */
  function Turns(i: nat, at: int, m: nat, gap: nat, lockFails: bool): seq<Action>
    decreases m
  {
    if m == 0 then [] else Turn(i, at, lockFails) + Turns(i + 1, at + gap, m - 1, gap, lockFails)
  }

  /** Logins with wrong passwords that all read the account before any of them writes. */
  function Burst(m: nat, at: int): (es: seq<Action>)
    ensures |es| == m && forall i :: 0 <= i < m ==> es[i] == Look(at, false)
  {
    if m == 0 then [] else [Look(at, false)] + Burst(m - 1, at)
  }

  /** Four quick wrong passwords, some whose lock fails, one per lockout, and at last some at once. */
  function Worst(overlaps: nat, lockouts: nat, faults: nat, now: int): seq<Action> {
    Turns(0, now, 4, 0, false)
    + (Turns(4, now, faults, 0, true)
       + (Turns(4 + faults, now, lockouts, LOCKOUT_DURATION, false)
          + Burst(overlaps + 1, now + lockouts * LOCKOUT_DURATION)))
  }

  /** Nobody is past the lock check, and the account can be tried. */
  ghost predicate Idle(w: World, at: int) {
    !Busy(w) && w.user.active && w.user.failedLogins >= 0 && !IsLocked(w.user, at)
  }

  lemma LoneTurn(w: World, at: int, lockFails: bool)
    requires Idle(w, at) && (lockFails ==> w.user.failedLogins >= 4)
    ensures var es, user := Turn(|w.calls|, at, lockFails), w.user;
            var after := World(After(user, Attempt(at, false, false, false, false, lockFails)), w.calls + [Over]);
            && Step(Step(Step(w, es[0]), es[1]), es[2]) == after && !Busy(after)
            && Checked(w, es[0]) && !Faulty(Step(w, es[0]), es[1])
            && (Faulty(Step(Step(w, es[0]), es[1]), es[2]) <==> lockFails)
  {
    var es := Turn(|w.calls|, at, lockFails);
    var s1 := Step(w, es[0]);
    assert s1.calls == w.calls + [Counting(w.user.failedLogins, at)];
    var s2 := Step(s1, es[1]);
    assert s2.calls == w.calls + [Counted(s1.calls[|w.calls|])];
    var s3 := Step(s2, es[2]);
    assert s3.calls == w.calls + [Over];
  }

  /** A lone login adds one check, no overlap, and a fault if its lock fails. */
  lemma TurnTally(w: World, at: int, lockFails: bool, rest: seq<Action>) returns (after: World)
    requires Idle(w, at) && (lockFails ==> w.user.failedLogins >= 4)
    ensures |after.calls| == |w.calls| + 1 && !Busy(after)
    ensures after.user == After(w.user, Attempt(at, false, false, false, false, lockFails))
    ensures var es := Turn(|w.calls|, at, lockFails) + rest;
            && WrongChecks(w, es) == 1 + WrongChecks(after, rest) && Overlapping(w, es) == Overlapping(after, rest)
            && Faults(w, es) == (if lockFails then 1 else 0) + Faults(after, rest)
            && NobodyLogsIn(w, es) == NobodyLogsIn(after, rest)
  {
    var t := Turn(|w.calls|, at, lockFails);
    var es, s1, s2 := t + rest, Step(w, t[0]), Step(Step(w, t[0]), t[1]);
    LoneTurn(w, at, lockFails);
    after := Step(s2, t[2]);
    assert es[0] == t[0] && es[1..][0] == t[1] && es[1..][1..][0] == t[2] && es[1..][1..][1..] == rest;
    hide Step, Busy, Faulty, Idle;
    TallyOne(w, es);
    TallyOne(s1, es[1..]);
    TallyOne(s2, es[1..][1..]);
  }

  lemma TallyOne(w: World, es: seq<Action>)
    requires es != []
    ensures WrongChecks(w, es) == (if Checked(w, es[0]) then 1 else 0) + WrongChecks(Step(w, es[0]), es[1..])
    ensures Overlapping(w, es)
            == (if Checked(w, es[0]) && Busy(w) then 1 else 0) + Overlapping(Step(w, es[0]), es[1..])
    ensures Faults(w, es) == (if Faulty(w, es[0]) then 1 else 0) + Faults(Step(w, es[0]), es[1..])
    ensures NobodyLogsIn(w, es) == (!LogsIn(w, es[0]) && NobodyLogsIn(Step(w, es[0]), es[1..]))
  {
  }

  lemma {:induction false} TurnsTally(w: World, at: int, m: nat, gap: nat, lockFails: bool, rest: seq<Action>)
    returns (after: World)
    requires Idle(w, at) && (gap == 0 || gap == LOCKOUT_DURATION)
    requires if gap == 0 && !lockFails then w.user.failedLogins + m <= 4 else w.user.failedLogins >= 4
    requires gap > 0 ==> !lockFails
    ensures Idle(after, at + m * gap) && |after.calls| == |w.calls| + m
    ensures after.user.failedLogins >= if gap == 0 && !lockFails then w.user.failedLogins + m else 4
    ensures var es := Turns(|w.calls|, at, m, gap, lockFails) + rest;
            && WrongChecks(w, es) == m + WrongChecks(after, rest) && Overlapping(w, es) == Overlapping(after, rest)
            && Faults(w, es) == (if lockFails then m else 0) + Faults(after, rest)
            && NobodyLogsIn(w, es) == NobodyLogsIn(after, rest)
    decreases m
  {
    if m == 0 {
      after := w;
      assert Turns(|w.calls|, at, m, gap, lockFails) + rest == rest;
    } else {
      var turn, more := Turn(|w.calls|, at, lockFails), Turns(|w.calls| + 1, at + gap, m - 1, gap, lockFails);
      assert Turns(|w.calls|, at, m, gap, lockFails) + rest == turn + (more + rest);
      var next := TurnTally(w, at, lockFails, more + rest);
      assert m * gap == gap + (m - 1) * gap;
      hide Turn, Turns, Busy;
      after := TurnsTally(next, at + gap, m - 1, gap, lockFails, rest);
    }
  }

  /** Of logins that all read before any writes, every one is checked, and all but the first overlap. */
  lemma {:induction false} BurstTally(w: World, m: nat, at: int)
    requires w.user.active && !IsLocked(w.user, at)
    ensures var es := Burst(m, at);
            && WrongChecks(w, es) == m && Overlapping(w, es) == (if Busy(w) || m == 0 then m else m - 1)
            && Faults(w, es) == 0 && NobodyLogsIn(w, es)
    decreases m
  {
    if m > 0 {
      var next := Step(w, Look(at, false));
      assert next.calls[|w.calls|].Counting?;
      assert Burst(m, at)[1..] == Burst(m - 1, at);
      BurstTally(next, m - 1, at);
    }
  }

  predicate Between(es: seq<Action>, low: int, high: int) {
    forall i :: 0 <= i < |es| ==> low <= Time(es[i]) <= high
  }

  lemma InOrderJoin(a: seq<Action>, b: seq<Action>, low: int, mid: int, high: int)
    requires low <= mid <= high && InOrder(a) && InOrder(b) && Between(a, low, mid) && Between(b, mid, high)
    ensures InOrder(a + b) && Between(a + b, low, high)
  {
    hide Time;
  }

  lemma {:induction false} TurnsInOrder(i: nat, at: int, m: nat, gap: nat, lockFails: bool)
    ensures m * gap >= 0
    ensures var es := Turns(i, at, m, gap, lockFails); InOrder(es) && Between(es, at, at + m * gap)
    decreases m
  {
    if m > 0 {
      TurnsInOrder(i + 1, at + gap, m - 1, gap, lockFails);
      assert m * gap == gap + (m - 1) * gap;
      var rest := Turns(i + 1, at + gap, m - 1, gap, lockFails);
      assert Between(rest, at, at + m * gap);
      InOrderJoin(Turn(i, at, lockFails), rest, at, at, at + m * gap);
    }
  }

  lemma WorstInOrder(overlaps: nat, lockouts: nat, faults: nat, now: int)
    ensures var es := Worst(overlaps, lockouts, faults, now);
            InOrder(es) && es != [] && Time(es[|es| - 1]) - Time(es[0]) == lockouts * LOCKOUT_DURATION
  {
    var end := now + lockouts * LOCKOUT_DURATION;
    var quick, failing := Turns(0, now, 4, 0, false), Turns(4, now, faults, 0, true);
    var patient, burst := Turns(4 + faults, now, lockouts, LOCKOUT_DURATION, false), Burst(overlaps + 1, end);
    TurnsInOrder(0, now, 4, 0, false);
    TurnsInOrder(4, now, faults, 0, true);
    TurnsInOrder(4 + faults, now, lockouts, LOCKOUT_DURATION, false);
    assert quick[0] == Look(now, false);
    hide Turns, Burst;
    InOrderJoin(patient, burst, now, end, end);
    InOrderJoin(failing, patient + burst, now, now, end);
    InOrderJoin(quick, failing + (patient + burst), now, now, end);
  }

  lemma WorstTally(w: World, overlaps: nat, lockouts: nat, faults: nat, now: int)
    requires w == INIT
    ensures var es := Worst(overlaps, lockouts, faults, now);
            && NobodyLogsIn(w, es) && Overlapping(w, es) == overlaps && Faults(w, es) == faults
            && WrongChecks(w, es) == MAX_FAILED_LOGINS + lockouts + overlaps + faults
  {
    var end := now + lockouts * LOCKOUT_DURATION;
    var patient, burst := Turns(4 + faults, now, lockouts, LOCKOUT_DURATION, false), Burst(overlaps + 1, end);
    var quick, failing := Turns(0, now, 4, 0, false), Turns(4, now, faults, 0, true);
    assert Worst(overlaps, lockouts, faults, now) == quick + (failing + (patient + burst));
    assert Idle(w, now) && |w.calls| == 0;
    hide *;
    var s1 := TurnsTally(w, now, 4, 0, false, failing + (patient + burst));
    var s2 := TurnsTally(s1, now, faults, 0, true, patient + burst);
    var s3 := TurnsTally(s2, now, lockouts, LOCKOUT_DURATION, false, burst);
    IdleIs(s3, end);
    BurstTally(s3, overlaps + 1, end);
  }

  lemma IdleIs(w: World, at: int)
    requires Idle(w, at)
    ensures w.user.active && !IsLocked(w.user, at) && !Busy(w)
  {
  }

  /** No term of the bound can be dropped: for every number of overlaps, lockouts and failing writes some run from the
      start lets through five and all of them. */
  lemma {:induction false} BoundIsReached(overlaps: nat, lockouts: nat, faults: nat, now: int)
    ensures var es := Worst(overlaps, lockouts, faults, now);
            && InOrder(es) && NobodyLogsIn(INIT, es) && es != []
            && Time(es[|es| - 1]) - Time(es[0]) == lockouts * LOCKOUT_DURATION
            && Overlapping(INIT, es) == overlaps && Faults(INIT, es) == faults
            && WrongChecks(INIT, es) == MAX_FAILED_LOGINS + lockouts + overlaps + faults
  {
    WorstInOrder(overlaps, lockouts, faults, now);
    hide *;
    WorstTally(INIT, overlaps, lockouts, faults, now);
  }
}
