/**
 A call that runs alone: from every reachable state in which no other call is open, it ends as the whole operation
 does, or replays a known key.
 */
module LedgerLone {
  import opened Wrappers
  import opened Uuids
  import opened LedgerModel
  import opened LedgerMachine
  import opened LedgerClient
  import opened LedgerBooks
  import opened LedgerRuns
  import opened LedgerProgress

  /** The committed transaction an operation's sender and key name, if it has a key. */
  function Recorded(db: Store, op: Op): Option<Txn> {
    if op.Transfer? && op.t.key != "" then GetTransactionByIdempotencyKey(db.txns, op.t.sender, op.t.key) else None
  }

  function BalanceOf(db: Store, w: Uuid): int { RowOf(db, w).balance }

  /** What the operation commits and answers when nothing else runs and nothing fails. */
  function Alone(db: Store, op: Op, id: Uuid): (Store, Outcome) {
    if ValidOp(op) && Recorded(db, op).Some? then (db, Replay(Recorded(db, op).value))
    else match Perform(db, op, id)
      case Ok(after) =>
        var debited := if op.Transfer? then BalanceOf(after, op.t.sender) else 0;
        (after, Success(TxnOf(op, id, Settled), debited, BalanceOf(after, Payee(op))))
      case Err(e) => (db, Failed(e))
  }

  /** A call on its way that has found no recorded transaction once it has looked. */
  ghost predicate OnItsWay(db: Store, c: Client) {
    && ClientInv(db, c) && InRange(db) && (c.op.Issue? ==> c.debited == 0)
    && (c.pc != Validate && c.pc != CheckKey ==> Recorded(db, c.op).None?)
  }

  // ---- every refusal on the way is the whole operation's

  /** The step ends the call as the whole operation ends, or goes on. */
  ghost predicate EndsAlike(db: Store, c: Client, d: Client) {
    d.pc == Done ==> d == Abort(c, d.outcome) && !d.outcome.Success? && Alone(db, c.op, c.id) == (db, d.outcome)
  }

  lemma ValidateAlike(db: Store, c: Client)
    requires OnItsWay(db, c) && c.pc == Validate
    ensures EndsAlike(db, c, DoValidate(c))
  {
    hide ChecksHold, WritesMatch, Recorded;
  }

  lemma CheckKeyAlike(db: Store, c: Client)
    requires OnItsWay(db, c) && c.pc == CheckKey
    ensures EndsAlike(db, c, DoCheckKey(db, c))
  {
    hide ChecksHold, WritesMatch, Perform;
  }

  /** Refused alike once the key is known to be new. */
  lemma RefusedAlike(db: Store, c: Client, e: Error)
    requires Recorded(db, c.op).None? && Perform(db, c.op, c.id) == Err(e)
    ensures EndsAlike(db, c, Abort(c, Failed(e)))
  {
    hide Perform, Recorded;
  }

  lemma LockAlike(db: Store, c: Client, w: Uuid)
    requires OnItsWay(db, c)
    requires (c.pc == LockFirst && w == FirstLock(c.op)) || (c.pc == LockSecond && w == SecondLock(c.op))
    ensures match GetWalletForUpdate(db, c.tx, w)
            case Ok(_) => true
            case Err(e) => Perform(db, c.op, c.id) == Err(e)
  {
    hide Insertable, TxnsAt, EntriesAt, IssuancesAt, Recorded, HeldAt, ReadIsCurrent;
    if c.op.Transfer? {
      LockedPairIsParties(c.op);
    }
    assert w == FirstLock(c.op) || c.op.Transfer?;
    hide FirstLock, SecondLock;
  }

  lemma RulesAlike(db: Store, c: Client)
    requires OnItsWay(db, c) && c.pc == Rules
    ensures EndsAlike(db, c, DoRules(c))
  {
    ReadsAreParties(db, c);
    hide Insertable, WritesMatch, ChecksHold, FirstLock, SecondLock, Recorded;
  }

  /** The two locked reads are the two parties. */
  lemma ReadsAreParties(db: Store, c: Client)
    requires OnItsWay(db, c) && c.pc == Rules
    ensures ReadIsCurrent(db, FirstLock(c.op), c.first)
    ensures c.op.Issue? ==> FirstLock(c.op) == c.op.i.wallet
    ensures c.op.Transfer? ==>
              && ReadIsCurrent(db, SecondLock(c.op), c.second)
              && ((FirstLock(c.op) == c.op.t.sender && SecondLock(c.op) == c.op.t.receiver)
                  || (FirstLock(c.op) == c.op.t.receiver && SecondLock(c.op) == c.op.t.sender))
  {
    if c.op.Transfer? {
      LockedPairIsParties(c.op);
    }
    hide Insertable, WritesMatch, OrderedLockIDs, Recorded, ReadIsCurrent, RulesHold;
  }

  /** What the rules and locks have settled when the transaction row goes in. */
  lemma PartiesChecked(db: Store, c: Client)
    requires OnItsWay(db, c) && Past(c, Rules) && c.pc != Done
    ensures ValidOp(c.op) && Live(db, Payee(c.op)) && !db.wallets[Payee(c.op)].frozen
    ensures c.op.Transfer? ==>
              && Live(db, c.op.t.sender) && !db.wallets[c.op.t.sender].frozen
              && db.wallets[c.op.t.sender].balance >= c.op.t.amount
  {
    if c.op.Transfer? {
      LockedPairIsParties(c.op);
    }
    hide Insertable, WritesMatch, FirstLock, SecondLock, Recorded;
  }

  lemma InsertAlike(db: Store, c: Client)
    requires OnItsWay(db, c) && c.pc == Insert
    ensures EndsAlike(db, c, DoInsert(db, c))
  {
    PartiesChecked(db, c);
    assert db.(txns := db.txns + c.tx.txns) == db by { hide ChecksHold, HeldAt, RowsAt, EntriesAt, IssuancesAt; }
    hide Insertable, WritesMatch, ChecksHold, Recorded;
  }

  /** The open writes as they bear on the next statement. */
  lemma OpenWrites(db: Store, c: Client)
    requires OnItsWay(db, c) && Past(c, Insert) && c.pc != Done
    ensures HasTxn(c.tx.txns, c.id)
    ensures c.pc == DebitBalance ==> c.tx.rows == map[]
    ensures !Past(c, CreditBalance) ==> Payee(c.op) !in c.tx.rows
    ensures Insertable(db, TxnOf(c.op, c.id, Pending))
    ensures c.op.Transfer? && Past(c, DebitBalance) ==> c.debited == db.wallets[c.op.t.sender].balance - c.op.t.amount
    ensures Past(c, CreditBalance) ==> c.credited == db.wallets[Payee(c.op)].balance + Amount(c.op) <= MAX_BIGINT
  {
    PartiesChecked(db, c);
    hide HeldAt, EntriesAt, IssuancesAt, FirstLock, SecondLock, Insertable, Recorded;
    assert c.tx.txns[0].id == c.id;
  }

  lemma DebitAlike(db: Store, c: Client)
    requires OnItsWay(db, c) && c.pc == DebitBalance
    ensures DoDebit(db, c).pc != Done
  {
    OpenWrites(db, c);
    PartiesChecked(db, c);
    hide ClientInv, Insertable, Recorded;
  }

  lemma DebitEntryAlike(db: Store, c: Client)
    requires OnItsWay(db, c) && c.pc == DebitEntry
    ensures DoDebitEntry(db, c).pc != Done
  {
    OpenWrites(db, c);
    PartiesChecked(db, c);
    hide ClientInv, Insertable, Recorded, HasTxn, CreateLedgerEntry;
    EntryGoesIn(db, c.tx, Entry(c.op.t.sender, c.id, Debit, c.op.t.amount, c.debited));
  }

  lemma EntryGoesIn(db: Store, tx: Tx, e: Entry)
    requires e.amount > 0 && e.balanceAfter >= 0 && e.wallet in db.wallets && HasTxn(tx.txns, e.txn)
    ensures CreateLedgerEntry(db, tx, e).Ok?
  {
    hide HasTxn;
  }

  lemma CreditAlike(db: Store, c: Client)
    requires OnItsWay(db, c) && c.pc == CreditBalance
    ensures EndsAlike(db, c, DoCredit(db, c))
  {
    OpenWrites(db, c);
    PartiesChecked(db, c);
    hide ClientInv, Insertable, Recorded, TransferTxn, IssueTxn, TransferEntries;
  }

  lemma CreditEntryAlike(db: Store, c: Client)
    requires OnItsWay(db, c) && c.pc == CreditEntry
    ensures DoCreditEntry(db, c).pc != Done
  {
    OpenWrites(db, c);
    PartiesChecked(db, c);
    hide ClientInv, Insertable, Recorded, HasTxn, CreateLedgerEntry;
    EntryGoesIn(db, c.tx, Entry(Payee(c.op), c.id, Credit, Amount(c.op), c.credited));
  }

  lemma RecordAlike(db: Store, c: Client)
    requires OnItsWay(db, c) && c.pc == Record
    ensures EndsAlike(db, c, DoRecord(db, c))
  {
    OpenWrites(db, c);
    PartiesChecked(db, c);
    assert c.op.Issue?;
    hide ClientInv, Insertable, Recorded, HasTxn;
  }

  lemma AdvanceAlike(db: Store, c: Client)
    requires OnItsWay(db, c) && c.pc != Done && c.pc != CommitTx && ProperPC(c)
    ensures EndsAlike(db, c, Advance(db, c))
  {
    hide OnItsWay, ClientInv, EndsAlike, Perform, Recorded, GetWalletForUpdate;
    match c.pc
    case Validate => ValidateAlike(db, c);
    case CheckKey => CheckKeyAlike(db, c);
    case Begin => GoesOnAlike(db, c, c.(pc := LockFirst));
    case LockFirst => LockEndsAlike(db, c);
    case LockSecond => LockEndsAlike(db, c);
    case Rules => RulesAlike(db, c);
    case Insert => InsertAlike(db, c);
    case DebitBalance => DebitAlike(db, c); GoesOnAlike(db, c, DoDebit(db, c));
    case DebitEntry => DebitEntryAlike(db, c); GoesOnAlike(db, c, DoDebitEntry(db, c));
    case CreditBalance => CreditAlike(db, c);
    case CreditEntry => CreditEntryAlike(db, c); GoesOnAlike(db, c, DoCreditEntry(db, c));
    case Settle => GoesOnAlike(db, c, DoSettle(c));
    case Record => RecordAlike(db, c);
  }

  lemma GoesOnAlike(db: Store, c: Client, d: Client)
    requires d.pc != Done
    ensures EndsAlike(db, c, d)
  {
  }

  lemma LockEndsAlike(db: Store, c: Client)
    requires OnItsWay(db, c) && (c.pc == LockFirst || c.pc == LockSecond)
    ensures EndsAlike(db, c, if c.pc == LockFirst then DoLockFirst(db, c) else DoLockSecond(db, c))
  {
    var w := if c.pc == LockFirst then FirstLock(c.op) else SecondLock(c.op);
    LockAlike(db, c, w);
    hide ClientInv, EndsAlike, Perform, Recorded, FirstLock, SecondLock;
    match GetWalletForUpdate(db, c.tx, w)
    case Ok(_) => hide GetWalletForUpdate;
    case Err(e) => hide GetWalletForUpdate; RefusedAlike(db, c, e);
  }

  lemma StaysOnItsWay(db: Store, c: Client)
    requires OnItsWay(db, c) && c.pc != Done && c.pc != CommitTx && ProperPC(c)
    ensures var d := Advance(db, c);
            d.op == c.op && d.id == c.id && (d.pc != Done ==> OnItsWay(db, d) && Rank(d.pc) > Rank(c.pc))
  {
    AdvanceKeepsClient(db, c);
    AdvanceKeepsShape(db, c);
    AdvanceRanks(db, c);
    if Advance(db, c).pc != Done {
      LooksUp(db, c);
    }
    hide ClientInv, Advance, InRange, Recorded;
  }

  lemma LooksUp(db: Store, c: Client)
    requires c.pc != Done && c.pc != CommitTx && ProperPC(c) && Advance(db, c).pc != Done
    ensures c.op.Issue? ==> Advance(db, c).debited == c.debited
    ensures Advance(db, c).pc != Validate && Advance(db, c).pc != CheckKey ==>
              Recorded(db, c.op).None? || (c.pc != Validate && c.pc != CheckKey)
  {
    hide GetWalletForUpdate, CreateTransaction, UpdateWalletBalance, CreateLedgerEntry, SettleTransaction;
    hide InsertIssuanceRecord, OrderedLockIDs, TxnOf;
  }

  /** The commit writes and answers what the whole operation does. */
  lemma CommitAlike(db: Store, c: Client)
    requires OnItsWay(db, c) && c.pc == CommitTx
    ensures Alone(db, c.op, c.id) == (Commit(db, c.tx), DoReturn(c).outcome)
    ensures Perform(db, c.op, c.id).Ok?
  {
    CommitIsPerform(db, c);
    CommitPosts(db, c);
    CommitBalances(db, c);
    AloneCommits(db, c, Commit(db, c.tx)) by { hide ClientInv, Perform, Recorded, TxnOf, Commit, InRange; }
    hide *;
  }

  lemma AloneCommits(db: Store, c: Client, after: Store)
    requires Recorded(db, c.op).None? && Perform(db, c.op, c.id) == Ok(after)
    requires c.credited == BalanceOf(after, Payee(c.op))
    requires c.debited == if c.op.Transfer? then BalanceOf(after, c.op.t.sender) else 0
    ensures Alone(db, c.op, c.id) == (after, DoReturn(c).outcome)
  {
    hide Recorded, Perform, TxnOf, BalanceOf, Payee;
  }

  lemma CommitBalances(db: Store, c: Client)
    requires ClientInv(db, c) && c.pc == CommitTx
    ensures BalanceOf(Commit(db, c.tx), Payee(c.op)) == BalanceOf(db, Payee(c.op)) + Amount(c.op)
    ensures c.op.Transfer? ==>
              BalanceOf(Commit(db, c.tx), c.op.t.sender) == BalanceOf(db, c.op.t.sender) - Amount(c.op)
  {
    if c.op.Transfer? {
      CommitRows(db, c);
    } else {
      IssueWrites(db, c);
    }
    hide ChecksHold, WritesMatch;
  }

  // ---- the whole system

  function Calls(i: nat, n: nat): (calls: seq<Action>)
    ensures |calls| == n && forall k :: 0 <= k < n ==> calls[k] == Call(i)
  {
    if n == 0 then [] else [Call(i)] + Calls(i, n - 1)
  }

  /** Every call but number i has returned. */
  ghost predicate OnlyOpen(s: Sys, i: nat) {
    i < |s.clients| && forall j :: 0 <= j < |s.clients| && j != i ==> s.clients[j].pc == Done
  }

  lemma NobodyBlocks(s: Sys, i: nat)
    requires Inv(s) && OnlyOpen(s, i) && s.clients[i].pc != Done
    ensures Enabled(s, Call(i)) && ProperPC(s.clients[i])
  {
    forall j | 0 <= j < |s.clients| && j != i
      ensures s.clients[j].tx == EMPTY_TX
    {
      ClientInvAt(s, j);
      hide Inv, ChecksHold, WritesMatch;
    }
    assert !Blocked(s, i) by { hide Inv, SameKey, TxnOf; }
    hide Blocked;
    NotBlockedMoves(s, i);
  }

  /** Client i of s has gone on to its end in t, alone. */
  ghost predicate EndedAlone(s: Sys, i: nat, t: Sys)
    requires i < |s.clients|
  {
    var c, db := s.clients[i], s.store;
    && |t.clients| == |s.clients| && t.clients[..i] == s.clients[..i] && t.clients[i + 1..] == s.clients[i + 1..]
    && t.clients[i].op == c.op && t.clients[i].id == c.id && t.clients[i].pc == Done
    && (t.store, t.clients[i].outcome) == Alone(db, c.op, c.id)
    && t.history == if t.clients[i].outcome.Success? then s.history + [Committed(c.op, c.id)] else s.history
  }

  /** Its next step ends it, or leaves it on its way and all else as it was. */
  lemma StepAlone(s: Sys, i: nat)
    requires Inv(s) && OnlyOpen(s, i) && s.clients[i].pc != Done && OnItsWay(s.store, s.clients[i])
    ensures var c, t := s.clients[i], Step(s, Call(i));
            && i < |t.clients|
            && if t.clients[i].pc == Done then EndedAlone(s, i, t)
               else
                 && t == s.(clients := s.clients[i := t.clients[i]]) && OnItsWay(t.store, t.clients[i])
                 && t.clients[i].op == c.op && t.clients[i].id == c.id && Rank(t.clients[i].pc) > Rank(c.pc)
  {
    var c := s.clients[i];
    NobodyBlocks(s, i);
    hide Inv, ClientInv, OnItsWay, Blocked, Advance, EndsAlike, Alone, OnlyOpen, Commit, TxnOf;
    if c.pc == CommitTx {
      CommitAlike(s.store, c);
    } else {
      AdvanceAlike(s.store, c);
      StaysOnItsWay(s.store, c);
      EndIsAlike(s.store, c, Advance(s.store, c));
    }
  }

  lemma EndIsAlike(db: Store, c: Client, d: Client)
    requires EndsAlike(db, c, d)
    ensures d.pc == Done ==>
              d == Abort(c, d.outcome) && !d.outcome.Success? && Alone(db, c.op, c.id) == (db, d.outcome)
  {
    hide Alone;
  }

  lemma {:induction false} CallsEndAlone(s: Sys, i: nat, n: nat)
    requires Inv(s) && OnlyOpen(s, i) && s.clients[i].pc != Done && OnItsWay(s.store, s.clients[i])
    requires n >= 14 - Rank(s.clients[i].pc)
    ensures EndedAlone(s, i, RunFrom(s, Calls(i, n))) && Inv(RunFrom(s, Calls(i, n)))
    decreases n
  {
    var t := Step(s, Call(i));
    StepAlone(s, i);
    StepKeepsInv(s, Call(i));
    CallsUnfold(s, i, n);
    hide Inv, OnItsWay, Step, Calls, EndedAlone, RunFrom;
    if t.clients[i].pc == Done {
      StayEnded(t, i, n - 1);
    } else {
      CallsEndAlone(t, i, n - 1);
      LaterEnd(s, i, t, RunFrom(t, Calls(i, n - 1)));
    }
  }

  lemma CallsUnfold(s: Sys, i: nat, n: nat)
    requires n > 0
    ensures RunFrom(s, Calls(i, n)) == RunFrom(Step(s, Call(i)), Calls(i, n - 1))
  {
    assert Calls(i, n)[0] == Call(i) && Calls(i, n)[1..] == Calls(i, n - 1);
    hide Step;
  }

  lemma LaterEnd(s: Sys, i: nat, t: Sys, u: Sys)
    requires i < |s.clients| == |t.clients| && t == s.(clients := s.clients[i := t.clients[i]]) && EndedAlone(t, i, u)
    requires t.clients[i].op == s.clients[i].op && t.clients[i].id == s.clients[i].id
    ensures EndedAlone(s, i, u)
  {
    hide Alone;
    assert t.clients[..i] == s.clients[..i] && t.clients[i + 1..] == s.clients[i + 1..];
  }

  lemma {:induction false} StayEnded(s: Sys, i: nat, n: nat)
    requires i < |s.clients| && s.clients[i].pc == Done
    ensures RunFrom(s, Calls(i, n)) == s
    decreases n
  {
    if n > 0 {
      CallsUnfold(s, i, n);
      hide Blocked;
      StayEnded(s, i, n - 1);
    }
  }

  lemma StateInRange(s: Sys)
    requires Inv(s)
    ensures InRange(s.store)
  {
    SerialKeepsBooks(s.history, s.store);
    hide ClientsInv, LocksExclusive, IdsDistinct, TxnsOwned, OutcomesHold, Serial, Conserved, HistoryMatches;
  }

  lemma NewIsOnItsWay(db: Store, op: Op, id: Uuid)
    requires InRange(db)
    ensures OnItsWay(db, NewClient(op, id))
  {
    NewClientHolds(db, op, id);
    hide ClientInv, Recorded;
  }

  /** From a state in which every call has returned: a new one, alone, ends as the whole operation does. */
  lemma LoneCall(s: Sys, op: Op, id: Uuid)
    requires Inv(s) && AllDone(s) && FreshId(s, id)
    ensures var n, t := |s.clients|, RunFrom(s, [Start(op, id)] + Calls(|s.clients|, 14));
            && Inv(t) && AllDone(t) && |t.clients| == n + 1 && t.clients[..n] == s.clients
            && t.clients[n].op == op && t.clients[n].id == id
            && (t.store, t.clients[n].outcome) == Alone(s.store, op, id)
            && t.history == if t.clients[n].outcome.Success? then s.history + [Committed(op, id)] else s.history
  {
    var n, start := |s.clients|, Start(op, id);
    var u := Step(s, start);
    hide *;
    StartIs(s, op, id);
    StateInRange(s);
    NewIsOnItsWay(s.store, op, id);
    StepKeepsInv(s, start);
    RunFromFirst(s, start, Calls(n, 14));
    CallsEndAlone(u, n, 14);
    EndedIsDone(s, u, op, id, RunFrom(u, Calls(n, 14)));
  }

  lemma StartIs(s: Sys, op: Op, id: Uuid)
    requires AllDone(s) && FreshId(s, id)
    ensures var u := Step(s, Start(op, id));
            && u == s.(clients := s.clients + [NewClient(op, id)]) && OnlyOpen(u, |s.clients|)
            && u.clients[|s.clients|].pc == Validate && Rank(Validate) == 0
  {
  }

  lemma RunFromFirst(s: Sys, a: Action, more: seq<Action>)
    ensures RunFrom(s, [a] + more) == RunFrom(Step(s, a), more)
  {
    assert ([a] + more)[0] == a && ([a] + more)[1..] == more;
    hide Step;
  }

  lemma EndedIsDone(s: Sys, u: Sys, op: Op, id: Uuid, t: Sys)
    requires AllDone(s) && u == s.(clients := s.clients + [NewClient(op, id)]) && EndedAlone(u, |s.clients|, t)
    ensures var n := |s.clients|;
            && AllDone(t) && |t.clients| == n + 1 && t.clients[..n] == s.clients
            && t.clients[n].op == op && t.clients[n].id == id
            && (t.store, t.clients[n].outcome) == Alone(s.store, op, id)
            && t.history == if t.clients[n].outcome.Success? then s.history + [Committed(op, id)] else s.history
  {
    hide Alone;
    assert u.clients[..|s.clients|] == s.clients;
    assert forall j :: 0 <= j < |s.clients| ==> t.clients[j] == t.clients[..|s.clients|][j];
  }

  lemma {:induction false} RunsOn(trace: seq<Action>, more: seq<Action>)
    ensures Run(trace + more) == RunFrom(Run(trace), more)
    decreases |more|
  {
    hide Step;
    if more == [] {
      assert trace + more == trace;
    } else {
      assert trace + more == (trace + [more[0]]) + more[1..];
      assert (trace + [more[0]])[..|trace|] == trace;
      RunsOn(trace + [more[0]], more[1..]);
    }
  }

  /** A call that runs alone, after any run that has left no call open: it commits and reports the whole operation
      exactly when its key is new and the whole operation succeeds; it replays a known key; and otherwise it is refused
      with the whole operation's own error and nothing changes. */
  lemma {:induction false} LoneCallIsPerform(trace: seq<Action>, op: Op, id: Uuid)
    requires AllDone(Run(trace)) && FreshId(Run(trace), id)
    ensures var s, t := Run(trace), Run(trace + ([Start(op, id)] + Calls(|Run(trace).clients|, 14)));
            && AllDone(t) && |t.clients| == |s.clients| + 1 && t.clients[..|s.clients|] == s.clients
            && (var o := t.clients[|s.clients|].outcome;
                if ValidOp(op) && Recorded(s.store, op).Some? then
                  t.store == s.store && o == Replay(Recorded(s.store, op).value)
                else
                  match Perform(s.store, op, id)
                  case Ok(after) =>
                    && t.store == after && o.Success? && o.txn == TxnOf(op, id, Settled)
                    && o.credited == BalanceOf(after, Payee(op))
                    && (op.Transfer? ==> o.debited == BalanceOf(after, op.t.sender))
                  case Err(e) => t.store == s.store && o == Failed(e))
  {
    var s, more := Run(trace), [Start(op, id)] + Calls(|Run(trace).clients|, 14);
    RunKeepsInv(trace);
    LoneCall(s, op, id);
    RunsOn(trace, more);
    hide Run, Inv, RunFrom, AllDone, Perform, ValidOp, Recorded, TxnOf, BalanceOf, Calls;
  }
}
