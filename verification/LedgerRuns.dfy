/**
 What every reachable state of the concurrent ledger keeps, and what follows for whole runs: serialisability, exactly
 one commit per idempotency key, and what each caller may conclude.
 */
module LedgerRuns {
  import opened Wrappers
  import opened Uuids
  import opened LedgerModel
  import opened LedgerMachine
  import opened LedgerClient
  import opened LedgerBooks

  // ---- the invariant

  ghost predicate ClientsInv(s: Sys) {
    forall i :: 0 <= i < |s.clients| ==> ClientInv(s.store, s.clients[i])
  }

  /** No row is locked twice. */
  ghost predicate LocksExclusive(s: Sys) {
    forall i, j :: 0 <= i < j < |s.clients| ==> s.clients[i].tx.held !! s.clients[j].tx.held
  }

  ghost predicate IdsDistinct(s: Sys) {
    forall i, j :: 0 <= i < j < |s.clients| ==> s.clients[i].id != s.clients[j].id
  }

  /** Only a call that succeeded, or whose commit reported an error, may have committed. */
  predicate MayHaveCommitted(o: Outcome) {
    o.Success? || o == Failed(CommitFailed)
  }

  /** Some finished client drew this id. */
  ghost predicate Drawn(s: Sys, id: Uuid) {
    exists i :: 0 <= i < |s.clients| && s.clients[i].id == id && s.clients[i].pc == Done
        && MayHaveCommitted(s.clients[i].outcome)
  }

  ghost predicate TxnsOwned(s: Sys) {
    forall k :: 0 <= k < |s.store.txns| ==> Drawn(s, s.store.txns[k].id)
  }

  /** What a finished call may conclude about the committed rows. */
  ghost predicate OutcomeHolds(db: Store, c: Client) {
    match c.outcome
    case Running => c.pc != Done
    case Success(t, debited, credited) =>
      && c.pc == Done && t == TxnOf(c.op, c.id, Settled) && t in db.txns
      && Entry(Payee(c.op), c.id, Credit, Amount(c.op), credited) in db.entries
      && (c.op.Transfer? ==> Entry(c.op.t.sender, c.id, Debit, Amount(c.op), debited) in db.entries)
      && (c.op.Issue? ==> Issuance(c.op.i.admin, c.op.i.wallet, c.id, c.op.i.amount, c.op.i.reason) in db.issuances)
    case Replay(t) =>
      && c.pc == Done && c.op.Transfer? && c.op.t.key != "" && t in db.txns
      && t.sender == Some(c.op.t.sender) && t.key == Some(c.op.t.key)
    case Failed(_) => c.pc == Done
  }

  ghost predicate OutcomesHold(s: Sys) {
    forall i :: 0 <= i < |s.clients| ==> OutcomeHolds(s.store, s.clients[i])
  }

  ghost predicate Inv(s: Sys) {
    && ClientsInv(s) && LocksExclusive(s) && IdsDistinct(s) && TxnsOwned(s) && OutcomesHold(s)
    && Serial(s.history) == Ok(s.store)
  }

  // ---- what an open transaction says survives other clients' commits

  lemma HeldRows(db: Store, c: Client)
    requires ClientInv(db, c) && c.pc != Done
    ensures Past(c, LockFirst) ==> FirstLock(c.op) in c.tx.held
    ensures c.op.Transfer? && Past(c, LockSecond) ==> SecondLock(c.op) in c.tx.held
    ensures Past(c, Insert) ==> Payee(c.op) in c.tx.held
    ensures c.op.Transfer? && Past(c, Rules) ==> c.op.t.sender in c.tx.held && c.op.t.receiver in c.tx.held
    ensures forall w :: w in c.tx.held ==> w in db.wallets
    ensures forall w :: w in c.tx.rows ==> w in c.tx.held
  {
    hide OrderedLockIDs, Insertable, RulesHold;
    if c.op.Transfer? {
      LockedPairIsParties(c.op);
    }
  }

  lemma LockedPairIsParties(op: Op)
    requires op.Transfer?
    ensures FirstLock(op) == op.t.sender || FirstLock(op) == op.t.receiver
    ensures SecondLock(op) == op.t.sender || SecondLock(op) == op.t.receiver
    ensures FirstLock(op) == op.t.sender <==> SecondLock(op) == op.t.receiver || op.t.sender == op.t.receiver
    ensures op.t.sender == FirstLock(op) || op.t.sender == SecondLock(op)
    ensures op.t.receiver == FirstLock(op) || op.t.receiver == SecondLock(op)
  {
  }

  predicate SameOnHeld(db: Store, db': Store, c: Client) {
    forall w :: w in c.tx.held ==> w in db.wallets && w in db'.wallets && db'.wallets[w] == db.wallets[w]
  }

  lemma FrameChecks(db: Store, db': Store, c: Client)
    requires ClientInv(db, c) && c.pc != Done && SameOnHeld(db, db', c)
    requires Past(c, Insert) ==> Insertable(db', TxnOf(c.op, c.id, Pending))
    ensures ChecksHold(db', c)
  {
    HeldRows(db, c);
    hide FirstLock, SecondLock, Insertable, WritesMatch, TxnOf;
  }

  lemma SameRowsSameWrites(db: Store, db': Store, op: Op, id: Uuid, debit: bool, credit: bool)
    requires op.Transfer? && debit ==> RowOf(db, op.t.sender) == RowOf(db', op.t.sender)
    requires credit ==> RowOf(db, Payee(op)) == RowOf(db', Payee(op))
    ensures RowsAt(db, op, debit, credit) == RowsAt(db', op, debit, credit)
    ensures EntriesAt(db, op, id, debit, credit) == EntriesAt(db', op, id, debit, credit)
  {
    hide RowOf;
  }

  lemma FrameWrites(db: Store, db': Store, c: Client)
    requires ClientInv(db, c) && c.pc != Done && SameOnHeld(db, db', c)
    ensures WritesMatch(db', c)
  {
    HeldRows(db, c);
    hide ChecksHold, HeldAt, TxnsAt, IssuancesAt, RowsAt, EntriesAt, FirstLock, SecondLock;
    SameRowsSameWrites(db, db', c.op, c.id, c.op.Transfer? && Past(c, DebitBalance), Past(c, CreditBalance));
    SameRowsSameWrites(db, db', c.op, c.id, c.op.Transfer? && Past(c, DebitEntry), Past(c, CreditEntry));
  }

  /** Rows it has locked are unchanged and its insert is still allowed: all it relied on is still true. */
  lemma Frame(db: Store, db': Store, c: Client)
    requires ClientInv(db, c) && c.pc != Done && SameOnHeld(db, db', c)
    requires Past(c, Insert) ==> Insertable(db', TxnOf(c.op, c.id, Pending))
    ensures ClientInv(db', c)
  {
    FrameChecks(db, db', c);
    FrameWrites(db, db', c);
    hide ChecksHold, WritesMatch;
  }

  // ---- a commit is the whole operation, run on the rows committed at that moment

  lemma TwoUpdates<K, V>(m: map<K, V>, a: K, x: V, b: K, y: V)
    ensures m + map[a := x][b := y] == m[a := x][b := y]
  {
  }

  lemma CommittedPartiesLive(db: Store, c: Client)
    requires ClientInv(db, c) && c.pc == CommitTx && c.op.Transfer?
    ensures Live(db, c.op.t.sender) && Live(db, c.op.t.receiver)
  {
    LockedPairIsParties(c.op);
    hide FirstLock, SecondLock, Insertable, WritesMatch, RulesHold;
  }

  lemma CommitRows(db: Store, c: Client)
    requires ClientInv(db, c) && c.pc == CommitTx && c.op.Transfer?
    ensures var p := c.op.t;
            c.tx.rows == map[p.sender := Pay(RowOf(db, p.sender), -p.amount)]
                [p.receiver := Pay(RowOf(db, p.receiver), p.amount)]
  {
    hide FirstLock, SecondLock, Insertable, HeldAt, TxnsAt, EntriesAt, IssuancesAt, ChecksHold;
  }

  lemma TransferWrites(db: Store, c: Client)
    requires ClientInv(db, c) && c.pc == CommitTx && c.op.Transfer? && c.op.t.sender in db.wallets
    requires c.op.t.receiver in db.wallets
    ensures c.tx.txns == [TransferTxn(c.op.t, c.id, Settled)] && c.tx.entries == TransferEntries(db, c.op.t, c.id)
        && c.tx.issuances == []
  {
    hide FirstLock, SecondLock, Insertable, HeldAt, RowsAt, ChecksHold;
  }

  lemma TransferChecks(db: Store, c: Client)
    requires ClientInv(db, c) && c.pc == CommitTx && c.op.Transfer? && c.op.t.sender in db.wallets
    requires c.op.t.receiver in db.wallets
    ensures var p := c.op.t;
            && p.amount > 0 && p.sender != p.receiver && Insertable(db, TransferTxn(p, c.id, Pending))
            && !db.wallets[p.sender].frozen && !db.wallets[p.receiver].frozen
            && db.wallets[p.sender].balance >= p.amount && db.wallets[p.receiver].balance + p.amount <= MAX_BIGINT
  {
    LockedPairIsParties(c.op);
    hide FirstLock, SecondLock, Insertable, WritesMatch;
  }

  lemma TransferPerforms(db: Store, p: TransferParams, id: Uuid)
    requires Live(db, p.sender) && Live(db, p.receiver)
    requires p.amount > 0 && p.sender != p.receiver && Insertable(db, TransferTxn(p, id, Pending))
    requires !db.wallets[p.sender].frozen && !db.wallets[p.receiver].frozen
    requires db.wallets[p.sender].balance >= p.amount && db.wallets[p.receiver].balance + p.amount <= MAX_BIGINT
    ensures var rows := map[p.sender := Pay(db.wallets[p.sender], -p.amount)]
            [p.receiver := Pay(db.wallets[p.receiver], p.amount)];
            PerformTransfer(db, p, id)
                == Ok(Commit(db, Tx({}, rows, [TransferTxn(p, id, Settled)], TransferEntries(db, p, id), [])))
  {
    hide Insertable, TransferTxn, TransferEntries;
    TwoUpdates(db.wallets, p.sender, Pay(db.wallets[p.sender], -p.amount), p.receiver,
        Pay(db.wallets[p.receiver], p.amount));
    assert db.issuances + [] == db.issuances;
  }

  lemma CommitTransferIsPerform(db: Store, c: Client)
    requires ClientInv(db, c) && c.pc == CommitTx && c.op.Transfer?
    ensures PerformTransfer(db, c.op.t, c.id) == Ok(Commit(db, c.tx))
  {
    hide ClientInv, Insertable, TransferTxn, TransferEntries, PerformTransfer;
    CommittedPartiesLive(db, c);
    CommitRows(db, c);
    TransferWrites(db, c);
    TransferChecks(db, c);
    TransferPerforms(db, c.op.t, c.id);
  }

  lemma IssueWrites(db: Store, c: Client)
    requires ClientInv(db, c) && c.pc == CommitTx && c.op.Issue?
    ensures var p := c.op.i;
            && c.tx.rows == map[p.wallet := Pay(RowOf(db, p.wallet), p.amount)]
            && c.tx.entries == [Entry(p.wallet, c.id, Credit, p.amount, RowOf(db, p.wallet).balance + p.amount)]
  {
    hide FirstLock, SecondLock, Insertable, HeldAt, TxnsAt, IssuancesAt, ChecksHold, RowOf;
  }

  lemma IssueChecks(db: Store, c: Client)
    requires ClientInv(db, c) && c.pc == CommitTx && c.op.Issue?
    ensures var p := c.op.i;
            && 0 < p.amount <= ISSUANCE_CAP && Live(db, p.wallet) && !db.wallets[p.wallet].frozen
            && Insertable(db, IssueTxn(p, c.id, Pending)) && db.wallets[p.wallet].balance + p.amount <= MAX_BIGINT
            && c.tx.txns == [IssueTxn(p, c.id, Settled)]
                && c.tx.issuances == [Issuance(p.admin, p.wallet, c.id, p.amount, p.reason)]
  {
    hide SecondLock, Insertable, HeldAt, RowsAt, EntriesAt;
  }

  lemma IssuePerforms(db: Store, p: IssueParams, id: Uuid)
    requires 0 < p.amount <= ISSUANCE_CAP && Live(db, p.wallet) && !db.wallets[p.wallet].frozen
    requires Insertable(db, IssueTxn(p, id, Pending)) && db.wallets[p.wallet].balance + p.amount <= MAX_BIGINT
    ensures var row := Pay(db.wallets[p.wallet], p.amount);
            PerformIssue(db, p, id) == Ok(Commit(db, Tx({}, map[p.wallet := row], [IssueTxn(p, id, Settled)],
              [Entry(p.wallet, id, Credit, p.amount, row.balance)],
                  [Issuance(p.admin, p.wallet, id, p.amount, p.reason)])))
  {
    hide Insertable, IssueTxn;
    var row := Pay(db.wallets[p.wallet], p.amount);
    assert db.wallets + map[p.wallet := row] == db.wallets[p.wallet := row];
  }

  lemma CommitIssueIsPerform(db: Store, c: Client)
    requires ClientInv(db, c) && c.pc == CommitTx && c.op.Issue?
    ensures PerformIssue(db, c.op.i, c.id) == Ok(Commit(db, c.tx))
  {
    IssueWrites(db, c);
    IssueChecks(db, c);
    hide ClientInv, Insertable, IssueTxn, PerformIssue;
    IssuePerforms(db, c.op.i, c.id);
  }

  lemma CommitIsPerform(db: Store, c: Client)
    requires ClientInv(db, c) && c.pc == CommitTx
    ensures Perform(db, c.op, c.id) == Ok(Commit(db, c.tx))
  {
    if c.op.Transfer? {
      CommitTransferIsPerform(db, c);
    } else {
      CommitIssueIsPerform(db, c);
    }
  }

  lemma SerialAppend(history: seq<Event>, e: Event, db: Store)
    requires Serial(history) == Ok(db)
    ensures Serial(history + [e]) == Apply(db, e)
  {
    assert (history + [e])[..|history|] == history;
  }

  // ---- each kind of step keeps the invariant

  lemma LocalClients(s: Sys, i: nat, d: Client)
    requires Inv(s) && Unfinished(s, i) && d.id == s.clients[i].id
    requires ClientInv(s.store, d) && OutcomeHolds(s.store, d)
    ensures var t := s.(clients := s.clients[i := d]); ClientsInv(t) && OutcomesHold(t) && IdsDistinct(t)
  {
    hide ClientInv, OutcomeHolds;
  }

  lemma LocalTxns(s: Sys, i: nat, d: Client)
    requires Inv(s) && Unfinished(s, i)
    ensures TxnsOwned(s.(clients := s.clients[i := d]))
  {
    hide ClientInv, OutcomeHolds, Serial;
    var t := s.(clients := s.clients[i := d]);
    forall k | 0 <= k < |t.store.txns|
      ensures Drawn(t, t.store.txns[k].id)
    {
      assert Drawn(s, s.store.txns[k].id);
      var j :| 0 <= j < |s.clients| && s.clients[j].id == s.store.txns[k].id && s.clients[j].pc == Done
          && MayHaveCommitted(s.clients[j].outcome);
      assert t.clients[j] == s.clients[j];
    }
  }

  lemma LocalLocks(s: Sys, i: nat, d: Client)
    requires Inv(s) && Unfinished(s, i)
    requires forall w :: w in d.tx.held ==> w in s.clients[i].tx.held || LockFree(s, i, w)
    ensures LocksExclusive(s.(clients := s.clients[i := d]))
  {
    hide ClientInv, OutcomeHolds, Serial;
  }

  /** A client moves by itself, taking at most locks nobody holds. */
  lemma LocalKeeps(s: Sys, i: nat, d: Client)
    requires Inv(s) && Unfinished(s, i) && d.id == s.clients[i].id
    requires ClientInv(s.store, d) && OutcomeHolds(s.store, d)
    requires forall w :: w in d.tx.held ==> w in s.clients[i].tx.held || LockFree(s, i, w)
    ensures Inv(s.(clients := s.clients[i := d]))
  {
    LocalClients(s, i, d);
    LocalTxns(s, i, d);
    LocalLocks(s, i, d);
    hide ClientsInv, LocksExclusive, IdsDistinct, TxnsOwned, OutcomesHold, ClientInv, OutcomeHolds;
  }

  lemma AdvanceLocks(db: Store, c: Client)
    requires ClientInv(db, c) && c.pc != CommitTx && c.pc != Done
    ensures forall w :: w in Advance(db, c).tx.held && w !in c.tx.held ==>
              (c.pc == LockFirst && w == FirstLock(c.op)) || (c.pc == LockSecond && w == SecondLock(c.op))
  {
    hide ClientInv, OrderedLockIDs, TxnOf, Insertable;
  }

  lemma AdvanceOutcome(db: Store, c: Client)
    requires ClientInv(db, c) && OutcomeHolds(db, c) && c.pc != CommitTx && c.pc != Done
    ensures OutcomeHolds(db, Advance(db, c))
  {
    hide ChecksHold, WritesMatch, OrderedLockIDs, TxnOf;
    hide GetWalletForUpdate, CreateTransaction, UpdateWalletBalance, CreateLedgerEntry, SettleTransaction;
    hide InsertIssuanceRecord;
  }

  lemma CallKeeps(s: Sys, i: nat)
    requires Inv(s) && Enabled(s, Call(i)) && s.clients[i].pc != CommitTx
    ensures Inv(Do(s, Call(i)))
  {
    var c := s.clients[i];
    AdvanceKeepsClient(s.store, c);
    AdvanceKeepsShape(s.store, c);
    AdvanceLocks(s.store, c);
    AdvanceOutcome(s.store, c);
    hide ClientInv, OutcomeHolds, Advance, FirstLock, SecondLock, LocksExclusive, IdsDistinct, TxnsOwned;
    LocalKeeps(s, i, Advance(s.store, c));
  }

  lemma AbortedClientInv(db: Store, c: Client, o: Outcome)
    ensures ClientInv(db, Abort(c, o))
  {
    hide ChecksHold, WritesMatch, ValidOp;
  }

  lemma FailKeeps(s: Sys, i: nat)
    requires Inv(s) && Enabled(s, Fail(i))
    ensures Inv(Do(s, Fail(i)))
  {
    hide Inv, Abort;
    AbortKeeps(s, i, if s.clients[i].pc == CommitTx then CommitFailed else Unavailable);
  }

  lemma AbortKeeps(s: Sys, i: nat, e: Error)
    requires Inv(s) && Unfinished(s, i)
    ensures Inv(s.(clients := s.clients[i := Abort(s.clients[i], Failed(e))]))
  {
    hide Inv, ClientInv, LockFree;
    AbortedClientInv(s.store, s.clients[i], Failed(e));
    LocalKeeps(s, i, Abort(s.clients[i], Failed(e)));
  }

  lemma NewClientHolds(db: Store, op: Op, id: Uuid)
    ensures ClientInv(db, NewClient(op, id)) && OutcomeHolds(db, NewClient(op, id))
  {
    hide FirstLock, SecondLock, Insertable;
  }

  lemma StartTxns(s: Sys, op: Op, id: Uuid)
    requires Inv(s) && FreshId(s, id)
    ensures TxnsOwned(Do(s, Start(op, id)))
  {
    hide ClientInv, OutcomeHolds, Serial;
    var t := Do(s, Start(op, id));
    forall k | 0 <= k < |t.store.txns|
      ensures Drawn(t, t.store.txns[k].id)
    {
      assert Drawn(s, s.store.txns[k].id);
      var j :| 0 <= j < |s.clients| && s.clients[j].id == s.store.txns[k].id && s.clients[j].pc == Done
          && MayHaveCommitted(s.clients[j].outcome);
      assert t.clients[j] == s.clients[j];
    }
  }

  lemma StartKeeps(s: Sys, op: Op, id: Uuid)
    requires Inv(s) && FreshId(s, id)
    ensures Inv(Do(s, Start(op, id)))
  {
    NewClientHolds(s.store, op, id);
    StartTxns(s, op, id);
    hide ClientInv, OutcomeHolds, Serial, TxnsOwned;
  }

  // ---- committed rows change under the other clients

  /** The other open transactions survive a change of the committed rows. */
  ghost predicate OthersSurvive(s: Sys, i: int, db: Store) {
    forall j :: 0 <= j < |s.clients| && j != i && s.clients[j].pc != Done ==>
      && SameOnHeld(s.store, db, s.clients[j])
      && (Past(s.clients[j], Insert) ==> Insertable(db, TxnOf(s.clients[j].op, s.clients[j].id, Pending)))
  }

  lemma OthersClients(s: Sys, i: int, db: Store)
    requires Inv(s) && OthersSurvive(s, i, db) && s.store.txns <= db.txns && s.store.entries <= db.entries
    requires s.store.issuances <= db.issuances
    ensures forall j :: 0 <= j < |s.clients| && j != i ==> ClientInv(db, s.clients[j]) && OutcomeHolds(db, s.clients[j])
  {
    forall j | 0 <= j < |s.clients| && j != i
      ensures ClientInv(db, s.clients[j]) && OutcomeHolds(db, s.clients[j])
    {
      OutcomeStable(s.store, db, s.clients[j]);
      if s.clients[j].pc == Done {
        DoneStable(s.store, db, s.clients[j]);
      } else {
        Frame(s.store, db, s.clients[j]);
      }
    }
  }

  lemma DoneStable(db: Store, db': Store, c: Client)
    requires ClientInv(db, c) && c.pc == Done
    ensures ClientInv(db', c)
  {
    hide ChecksHold, WritesMatch;
  }

  lemma OutcomeStable(db: Store, db': Store, c: Client)
    requires OutcomeHolds(db, c) && db.txns <= db'.txns && db.entries <= db'.entries
    requires db.issuances <= db'.issuances
    ensures OutcomeHolds(db', c)
  {
    assert forall t :: t in db.txns ==> t in db'.txns;
    assert forall e :: e in db.entries ==> e in db'.entries;
    assert forall e :: e in db.issuances ==> e in db'.issuances;
    hide TxnOf, Payee, Amount;
  }

  /** A change from outside: a new wallet, or flags set on an unlocked row. */
  lemma OutsideKeeps(s: Sys, e: Event, db: Store)
    requires Inv(s) && Apply(s.store, e) == Ok(db) && db.txns == s.store.txns && db.entries == s.store.entries
    requires db.issuances == s.store.issuances
    requires OthersSurvive(s, -1, db)
    ensures Inv(s.(store := db, history := s.history + [e]))
  {
    OthersClients(s, -1, db);
    SerialAppend(s.history, e, s.store);
    hide ClientInv, OutcomeHolds, Apply, OthersSurvive;
    var t := s.(store := db, history := s.history + [e]);
    assert forall id :: Drawn(s, id) ==> Drawn(t, id);
  }

  lemma InsertableStays(db: Store, db': Store, t: Txn)
    requires Insertable(db, t) && db.txns == db'.txns && db.wallets.Keys <= db'.wallets.Keys
    ensures Insertable(db', t)
  {
  }

  lemma HeldExist(s: Sys, j: nat)
    requires Inv(s) && Unfinished(s, j)
    ensures forall w :: w in s.clients[j].tx.held ==> w in s.store.wallets
    ensures Past(s.clients[j], Insert) ==> Insertable(s.store, TxnOf(s.clients[j].op, s.clients[j].id, Pending))
  {
    HeldRows(s.store, s.clients[j]);
    hide FirstLock, SecondLock, Insertable, WritesMatch;
  }

  lemma OutsideSurvived(s: Sys, w: Uuid, row: WalletRow)
    requires Inv(s) && LockFree(s, -1, w)
    ensures OthersSurvive(s, -1, s.store.(wallets := s.store.wallets[w := row]))
  {
    var db := s.store.(wallets := s.store.wallets[w := row]);
    forall j | 0 <= j < |s.clients| && s.clients[j].pc != Done
      ensures SameOnHeld(s.store, db, s.clients[j])
      ensures Past(s.clients[j], Insert) ==> Insertable(db, TxnOf(s.clients[j].op, s.clients[j].id, Pending))
    {
      HeldExist(s, j);
      hide Inv, Insertable, TxnOf;
      if Past(s.clients[j], Insert) {
        InsertableStays(s.store, db, TxnOf(s.clients[j].op, s.clients[j].id, Pending));
      }
    }
  }

  lemma UnknownIsUnlocked(s: Sys, w: Uuid)
    requires Inv(s) && w !in s.store.wallets
    ensures LockFree(s, -1, w)
  {
    forall j | 0 <= j < |s.clients|
      ensures w !in s.clients[j].tx.held
    {
      if s.clients[j].pc != Done {
        HeldExist(s, j);
      } else {
        hide ChecksHold, WritesMatch;
        assert ClientInv(s.store, s.clients[j]);
      }
    }
  }

  lemma OpenKeeps(s: Sys, w: Uuid)
    requires Inv(s) && Enabled(s, OpenWallet(w))
    ensures Inv(Do(s, OpenWallet(w)))
  {
    UnknownIsUnlocked(s, w);
    OutsideSurvived(s, w, WalletRow(0, false, false));
    hide Inv, OthersSurvive;
    OutsideKeeps(s, Opened(w), s.store.(wallets := s.store.wallets[w := WalletRow(0, false, false)]));
  }

  lemma FlagsKeep(s: Sys, w: Uuid, frozen: bool, deleted: bool)
    requires Inv(s) && Enabled(s, SetFlags(w, frozen, deleted))
    ensures Inv(Do(s, SetFlags(w, frozen, deleted)))
  {
    var row := WalletRow(s.store.wallets[w].balance, frozen, deleted);
    OutsideSurvived(s, w, row);
    hide Inv, OthersSurvive;
    OutsideKeeps(s, Flagged(w, frozen, deleted), s.store.(wallets := s.store.wallets[w := row]));
  }

  // ---- commits

  /** Two open transactions past their inserts have different senders: each holds its sender's row. */
  lemma SendersDiffer(s: Sys, i: nat, j: nat)
    requires Inv(s) && Unfinished(s, i) && Unfinished(s, j) && i != j
    requires Past(s.clients[i], Rules) && Past(s.clients[j], Rules)
    ensures !SameKey(TxnOf(s.clients[i].op, s.clients[i].id, Pending), TxnOf(s.clients[j].op, s.clients[j].id, Settled))
    ensures s.clients[i].tx.held !! s.clients[j].tx.held
  {
    HeldRows(s.store, s.clients[i]);
    HeldRows(s.store, s.clients[j]);
    hide ClientInv, OutcomeHolds, FirstLock, SecondLock, Serial;
  }

  lemma InsertableAfter(db: Store, db': Store, t: Txn, u: Txn)
    requires Insertable(db, t) && db'.txns == db.txns + [u] && db.wallets.Keys <= db'.wallets.Keys
    requires u.id != t.id && !SameKey(t, u)
    ensures Insertable(db', t)
  {
    hide SameKey;
  }

  lemma PairApart(s: Sys, i: nat, j: nat)
    requires Inv(s) && i < |s.clients| && j < |s.clients| && i != j
    ensures s.clients[i].tx.held !! s.clients[j].tx.held && s.clients[i].id != s.clients[j].id
  {
    hide ClientInv, OutcomeHolds, Serial;
  }

  lemma CommitSameOnHeld(s: Sys, i: nat, j: nat)
    requires Inv(s) && Unfinished(s, i) && s.clients[i].pc == CommitTx && Unfinished(s, j) && i != j
    ensures SameOnHeld(s.store, Commit(s.store, s.clients[i].tx), s.clients[j])
    ensures s.clients[i].id != s.clients[j].id
  {
    ClientInvAt(s, i);
    HeldRows(s.store, s.clients[i]);
    HeldExist(s, j);
    PairApart(s, i, j);
    hide Inv, ClientInv, Insertable, TxnOf, Past;
  }

  lemma CommitInsertable(db: Store, c: Client, d: Client)
    requires c.id != d.id && c.tx.txns == [TxnOf(c.op, c.id, Settled)]
    requires !SameKey(TxnOf(d.op, d.id, Pending), TxnOf(c.op, c.id, Settled))
    requires Insertable(db, TxnOf(d.op, d.id, Pending))
    ensures Insertable(Commit(db, c.tx), TxnOf(d.op, d.id, Pending))
  {
    hide Insertable, SameKey, TxnOf, Commit;
    TxnKeepsId(c.op, c.id, Settled);
    TxnKeepsId(d.op, d.id, Pending);
    CommitShape(db, c.tx);
    InsertableAfter(db, Commit(db, c.tx), TxnOf(d.op, d.id, Pending), TxnOf(c.op, c.id, Settled));
  }

  lemma PastInsertIsPastRules(c: Client)
    requires Past(c, Insert) || c.pc == CommitTx
    ensures Past(c, Rules)
  {
  }

  lemma CommitSurvived(s: Sys, i: nat, j: nat)
    requires Inv(s) && Unfinished(s, i) && s.clients[i].pc == CommitTx && Unfinished(s, j) && i != j
    ensures SameOnHeld(s.store, Commit(s.store, s.clients[i].tx), s.clients[j])
    ensures Past(s.clients[j], Insert) ==>
              Insertable(Commit(s.store, s.clients[i].tx), TxnOf(s.clients[j].op, s.clients[j].id, Pending))
  {
    hide Inv, ClientInv, OutcomeHolds, Insertable, TxnOf, Past, SameKey, SameOnHeld, Commit;
    ClientInvAt(s, i);
    HeldExist(s, j);
    CommitTxns(s.store, s.clients[i]);
    CommitSameOnHeld(s, i, j);
    if Past(s.clients[j], Insert) {
      PastInsertIsPastRules(s.clients[i]);
      PastInsertIsPastRules(s.clients[j]);
      SendersDiffer(s, j, i);
      CommitInsertable(s.store, s.clients[i], s.clients[j]);
    }
  }

  lemma CommitShape(db: Store, tx: Tx)
    ensures Commit(db, tx).txns == db.txns + tx.txns && db.wallets.Keys <= Commit(db, tx).wallets.Keys
  {
  }

  lemma TxnKeepsId(op: Op, id: Uuid, status: TxnStatus)
    ensures TxnOf(op, id, status).id == id
  {
  }

  lemma CommitTxns(db: Store, c: Client)
    requires ClientInv(db, c) && c.pc == CommitTx
    ensures c.tx.txns == [TxnOf(c.op, c.id, Settled)]
  {
    hide ChecksHold, HeldAt, RowsAt, EntriesAt, IssuancesAt, TxnOf;
  }

  lemma CommitOthers(s: Sys, i: nat)
    requires Inv(s) && Unfinished(s, i) && s.clients[i].pc == CommitTx
    ensures OthersSurvive(s, i, Commit(s.store, s.clients[i].tx))
  {
    hide Inv, SameOnHeld, Insertable, TxnOf;
    forall j | 0 <= j < |s.clients| && j != i && s.clients[j].pc != Done
      ensures SameOnHeld(s.store, Commit(s.store, s.clients[i].tx), s.clients[j])
      ensures Past(s.clients[j], Insert) ==>
                Insertable(Commit(s.store, s.clients[i].tx), TxnOf(s.clients[j].op, s.clients[j].id, Pending))
    {
      CommitSurvived(s, i, j);
    }
  }

  lemma CommitOwned(s: Sys, i: nat, o: Outcome)
    requires MayHaveCommitted(o)
    requires Inv(s) && Unfinished(s, i) && s.clients[i].pc == CommitTx
    ensures TxnsOwned(CommitAndReturn(s, i, Abort(s.clients[i], o)))
  {
    CommitTxns(s.store, s.clients[i]);
    hide ClientInv, OutcomeHolds, Serial;
    var t := CommitAndReturn(s, i, Abort(s.clients[i], o));
    forall k | 0 <= k < |t.store.txns|
      ensures Drawn(t, t.store.txns[k].id)
    {
      if k == |s.store.txns| {
        assert t.clients[i].id == t.store.txns[k].id;
      } else {
        assert Drawn(s, s.store.txns[k].id);
        var j :| 0 <= j < |s.clients| && s.clients[j].id == s.store.txns[k].id && s.clients[j].pc == Done
            && MayHaveCommitted(s.clients[j].outcome);
        assert t.clients[j] == s.clients[j];
      }
    }
  }

  lemma CommitLocks(s: Sys, i: nat, o: Outcome)
    requires Inv(s) && Unfinished(s, i)
    ensures var t := CommitAndReturn(s, i, Abort(s.clients[i], o)); LocksExclusive(t) && IdsDistinct(t)
  {
    hide ClientInv, OutcomeHolds, Serial, Commit;
  }

  /** The commit takes effect, whatever its caller is told. */
  lemma CommitKeeps(s: Sys, i: nat, o: Outcome)
    requires MayHaveCommitted(o)
    requires Inv(s) && Unfinished(s, i) && s.clients[i].pc == CommitTx
    requires OutcomeHolds(Commit(s.store, s.clients[i].tx), Abort(s.clients[i], o))
    ensures Inv(CommitAndReturn(s, i, Abort(s.clients[i], o)))
  {
    var c, db := s.clients[i], Commit(s.store, s.clients[i].tx);
    hide ClientInv, OutcomeHolds, Serial, Commit, OthersSurvive, LocksExclusive, IdsDistinct, TxnsOwned;
    CommitSerial(s, i);
    CommitOthers(s, i);
    OthersClients(s, i, db);
    AbortedClientInv(db, c, o);
    CommitOwned(s, i, o);
    CommitLocks(s, i, o);
  }

  lemma CommitSerial(s: Sys, i: nat)
    requires Inv(s) && Unfinished(s, i) && s.clients[i].pc == CommitTx
    ensures var c := s.clients[i];
            Serial(s.history + [Committed(c.op, c.id)]) == Ok(Commit(s.store, c.tx))
                && s.store.txns <= Commit(s.store, c.tx).txns
            && s.store.entries <= Commit(s.store, c.tx).entries
            && s.store.issuances <= Commit(s.store, c.tx).issuances
  {
    var c := s.clients[i];
    ClientInvAt(s, i);
    assert Serial(s.history)
        == Ok(s.store) by { hide ClientsInv, LocksExclusive, IdsDistinct, TxnsOwned, OutcomesHold, Serial; }
    hide Inv, ClientInv, OutcomeHolds, Perform;
    CommitIsPerform(s.store, c);
    SerialAppend(s.history, Committed(c.op, c.id), s.store);
    hide Serial;
  }

  lemma CommitEntries(db: Store, c: Client)
    requires ClientInv(db, c) && c.pc == CommitTx
    ensures Entry(Payee(c.op), c.id, Credit, Amount(c.op), c.credited) in c.tx.entries
    ensures c.op.Transfer? ==> Entry(c.op.t.sender, c.id, Debit, Amount(c.op), c.debited) in c.tx.entries
  {
    hide ClientInv, EntriesAt, RowOf;
    CommitPosts(db, c);
    EntriesHave(db, c.op, c.id);
  }

  lemma CommitIssuances(db: Store, c: Client)
    requires ClientInv(db, c) && c.pc == CommitTx
    ensures c.op.Issue? ==>
              Issuance(c.op.i.admin, c.op.i.wallet, c.id, c.op.i.amount, c.op.i.reason) in Commit(db, c.tx).issuances
  {
    hide ChecksHold, HeldAt, RowsAt, TxnsAt, EntriesAt;
    if c.op.Issue? {
      var row := Issuance(c.op.i.admin, c.op.i.wallet, c.id, c.op.i.amount, c.op.i.reason);
      assert Commit(db, c.tx).issuances[|db.issuances|] == row;
    }
  }

  lemma CommitPosts(db: Store, c: Client)
    requires ClientInv(db, c) && c.pc == CommitTx
    ensures c.tx.entries == EntriesAt(db, c.op, c.id, c.op.Transfer?, true)
    ensures c.credited == RowOf(db, Payee(c.op)).balance + Amount(c.op)
    ensures c.op.Transfer? ==> c.debited == RowOf(db, c.op.t.sender).balance - c.op.t.amount
  {
    hide HeldAt, RowsAt, TxnsAt, IssuancesAt, EntriesAt, ReadIsCurrent, RulesHold, Insertable, RowOf;
  }

  lemma EntriesHave(db: Store, op: Op, id: Uuid)
    ensures var es := EntriesAt(db, op, id, op.Transfer?, true);
            && Entry(Payee(op), id, Credit, Amount(op), RowOf(db, Payee(op)).balance + Amount(op)) in es
            && (op.Transfer? ==>
                Entry(op.t.sender, id, Debit, op.t.amount, RowOf(db, op.t.sender).balance - op.t.amount) in es)
  {
    hide RowOf;
    var es := EntriesAt(db, op, id, op.Transfer?, true);
    assert es[|es| - 1] == Entry(Payee(op), id, Credit, Amount(op), RowOf(db, Payee(op)).balance + Amount(op));
    assert op.Transfer? ==>
        es[0] == Entry(op.t.sender, id, Debit, op.t.amount, RowOf(db, op.t.sender).balance - op.t.amount);
  }

  lemma CommitOutcome(db: Store, c: Client)
    requires ClientInv(db, c) && c.pc == CommitTx
    ensures OutcomeHolds(Commit(db, c.tx), DoReturn(c))
    ensures OutcomeHolds(Commit(db, c.tx), Abort(c, Failed(CommitFailed)))
  {
    CommitTxns(db, c);
    CommitEntries(db, c);
    CommitIssuances(db, c);
    hide ClientInv, TxnOf;
    assert Commit(db, c.tx).txns[|db.txns|] == TxnOf(c.op, c.id, Settled);
    assert forall e :: e in c.tx.entries ==> e in db.entries + c.tx.entries;
  }

  lemma CommitStepKeeps(s: Sys, a: Action)
    requires Inv(s) && Enabled(s, a)
    requires a.LoseCommitReply? || (a.Call? && s.clients[a.client].pc == CommitTx)
    ensures Inv(Do(s, a))
  {
    var c := s.clients[a.client];
    CommitOutcome(s.store, c);
    hide Inv, OutcomeHolds, TxnOf, ClientInv;
    var o := if a.Call? then Success(TxnOf(c.op, c.id, Settled), c.debited, c.credited) else Failed(CommitFailed);
    CommitKeeps(s, a.client, o);
  }

  /** Every action keeps the invariant. */
  lemma StepKeepsInv(s: Sys, a: Action)
    requires Inv(s)
    ensures Inv(Step(s, a))
  {
    hide Inv, Do, Blocked;
    if Enabled(s, a) {
      match a
      case Start(op, id) => StartKeeps(s, op, id);
      case OpenWallet(w) => OpenKeeps(s, w);
      case SetFlags(w, f, d) => FlagsKeep(s, w, f, d);
      case Call(i) => if s.clients[i].pc == CommitTx { CommitStepKeeps(s, a); } else { CallKeeps(s, i); }
      case Fail(i) => FailKeeps(s, i);
      case LoseCommitReply(i) => CommitStepKeeps(s, a);
    }
  }

  lemma {:induction false} RunKeepsInv(trace: seq<Action>)
    ensures Inv(Run(trace))
  {
    if trace != [] {
      RunKeepsInv(trace[..|trace| - 1]);
      StepKeepsInv(Run(trace[..|trace| - 1]), trace[|trace| - 1]);
    }
  }

  // ---- main results

  /** Serialisability: after every run the committed rows are those of the committed operations run one
      at a time, whole, in commit order, and none of them fails in that serial run. */
  lemma {:induction false} Serialisable(trace: seq<Action>)
    ensures Serial(Run(trace).history) == Ok(Run(trace).store)
  {
    RunKeepsInv(trace);
  }

  /** In every reachable state money is conserved, balances are in range and equal credits minus debits,
      each wallet's entries form its balance history, every transaction has exactly its rows, and keys
      and ids are unique. */
  lemma {:induction false} BooksBalance(trace: seq<Action>)
    ensures Books(Run(trace).store)
    ensures var db := Run(trace).store;
            forall w :: w in db.wallets ==> db.wallets[w].balance == Net(db.entries, w)
  {
    RunKeepsInv(trace);
    var db := Run(trace).store;
    SerialKeepsBooks(Run(trace).history, db);
    forall w | w in db.wallets
      ensures db.wallets[w].balance == Net(db.entries, w)
    {
      ChainTelescopes(db.entries, w);
    }
  }

  /** Exactly once per key: at most one committed transaction has a given sender and key, and it moved the
      money once, by one debit and one credit. */
  lemma {:induction false} ExactlyOncePerKey(trace: seq<Action>, k: nat, l: nat)
    requires k < |Run(trace).store.txns| && l < |Run(trace).store.txns|
    requires SameKey(Run(trace).store.txns[k], Run(trace).store.txns[l])
    ensures k == l
    ensures WellRecorded(Run(trace).store.txns[k], EntriesOf(Run(trace).store.entries, Run(trace).store.txns[k].id), [])
  {
    BooksBalance(trace);
    hide Run, Conserved, HistoryMatches;
    var db := Run(trace).store;
    assert WellRecorded(db.txns[k], EntriesOf(db.entries, db.txns[k].id), IssuancesOf(db.issuances, db.txns[k].id));
  }

  /** The transaction a finished call names. */
  function Named(o: Outcome): Option<Txn> {
    match o
    case Success(t, _, _) => Some(t)
    case Replay(t) => Some(t)
    case _ => None
  }

  /** However many calls race or retry with one sender and key, every one that succeeds or replays names
      the same transaction. */
  lemma {:induction false} SameKeySameAnswer(trace: seq<Action>, i: nat, j: nat)
    requires i < |Run(trace).clients| && j < |Run(trace).clients|
    requires var c, d := Run(trace).clients[i], Run(trace).clients[j];
             && c.op.Transfer? && d.op.Transfer? && c.op.t.key != ""
             && c.op.t.sender == d.op.t.sender && c.op.t.key == d.op.t.key
             && Named(c.outcome).Some? && Named(d.outcome).Some?
    ensures Named(Run(trace).clients[i].outcome) == Named(Run(trace).clients[j].outcome)
  {
    RunKeepsInv(trace);
    BooksBalance(trace);
    hide Run, ClientsInv, Books, LocksExclusive, IdsDistinct, TxnsOwned, Serial;
    var s := Run(trace);
    var t, u := Named(s.clients[i].outcome).value, Named(s.clients[j].outcome).value;
    assert OutcomeHolds(s.store, s.clients[i]) && OutcomeHolds(s.store, s.clients[j]);
    var k :| 0 <= k < |s.store.txns| && s.store.txns[k] == t;
    var l :| 0 <= l < |s.store.txns| && s.store.txns[l] == u;
    assert SameKey(t, u);
    ExactlyOncePerKey(trace, k, l);
  }

  /** The unique index never makes an insert wait: whoever inserts holds its sender's row. */
  lemma {:induction false} InsertNeverWaits(trace: seq<Action>, i: nat)
    requires i < |Run(trace).clients| && Run(trace).clients[i].pc == Insert
    ensures !InsertMustWait(Run(trace), i)
  {
    RunKeepsInv(trace);
    InsertNeverWaitsIn(Run(trace), i);
  }

  lemma InsertNeverWaitsIn(s: Sys, i: nat)
    requires Inv(s) && i < |s.clients| && s.clients[i].pc == Insert
    ensures !InsertMustWait(s, i)
  {
    forall j, k | 0 <= j < |s.clients| && j != i && 0 <= k < |s.clients[j].tx.txns|
      ensures !SameKey(s.clients[j].tx.txns[k], TxnOf(s.clients[i].op, s.clients[i].id, Pending))
    {
      hide Inv, SameKey;
      PairNeverWaits(s, i, j, k);
    }
  }

  lemma PairNeverWaits(s: Sys, i: nat, j: nat, k: nat)
    requires Inv(s) && i < |s.clients| && j < |s.clients| && i != j && s.clients[i].pc == Insert
    requires k < |s.clients[j].tx.txns|
    ensures !SameKey(s.clients[j].tx.txns[k], TxnOf(s.clients[i].op, s.clients[i].id, Pending))
  {
    OpenInserts(s, j, k);
    SendersDiffer(s, i, j);
    hide Inv;
  }

  lemma OpenInserts(s: Sys, j: nat, k: nat)
    requires Inv(s) && j < |s.clients| && k < |s.clients[j].tx.txns|
    ensures var d := s.clients[j];
            d.pc != Done && Past(d, Insert)
            && (d.tx.txns[k] == TxnOf(d.op, d.id, Pending) || d.tx.txns[k] == TxnOf(d.op, d.id, Settled))
  {
    hide ChecksHold, HeldAt, RowsAt, EntriesAt, IssuancesAt, TxnOf, OutcomeHolds, Serial;
    assert ClientInv(s.store, s.clients[j]);
  }

  /** All or nothing: a step of a call changes no committed row unless it commits, and a commit changes
      exactly what the whole operation changes, on wallets that are live and not frozen. */
  lemma {:induction false} AllOrNothing(trace: seq<Action>, a: Action)
    requires a.Call? || a.Fail? || a.LoseCommitReply?
    ensures var s, t := Run(trace), Step(Run(trace), a);
            t.store == s.store ||
            (var c := s.clients[a.client];
             && Perform(s.store, c.op, c.id) == Ok(t.store)
             && c.pc == CommitTx && !a.Fail?
             && t.store.txns == s.store.txns + [TxnOf(c.op, c.id, Settled)]
             && forall w :: w in s.store.wallets && w != Payee(c.op) && (c.op.Transfer? ==> w != c.op.t.sender) ==>
                  w in t.store.wallets && t.store.wallets[w] == s.store.wallets[w])
  {
    RunKeepsInv(trace);
    var s := Run(trace);
    hide Inv, Run, Advance, Blocked;
    if Enabled(s, a) && s.clients[a.client].pc == CommitTx && !a.Fail? {
      var c := s.clients[a.client];
      assert ClientInv(s.store, c) by { ClientInvAt(s, a.client); }
      CommitIsPerform(s.store, c);
      OtherWalletsKept(s.store, c.op, c.id, Commit(s.store, c.tx));
    }
  }

  /** A call that replays, is refused or fails before its commit has committed nothing: whenever its id is on a
      committed transaction, it succeeded or its commit reported an error. */
  lemma {:induction false} FailureCommitsNothing(trace: seq<Action>, i: nat, k: nat)
    requires i < |Run(trace).clients| && k < |Run(trace).store.txns|
    requires Run(trace).store.txns[k].id == Run(trace).clients[i].id
    ensures Run(trace).clients[i].pc == Done && MayHaveCommitted(Run(trace).clients[i].outcome)
  {
    RunKeepsInv(trace);
    var s := Run(trace);
    hide Run, ClientsInv, OutcomesHold, LocksExclusive, Serial;
    assert Drawn(s, s.store.txns[k].id);
    var j :| 0 <= j < |s.clients| && s.clients[j].id == s.store.txns[k].id && s.clients[j].pc == Done
        && MayHaveCommitted(s.clients[j].outcome);
    assert j == i;
  }

  /** A call that reports success has its settled transaction among the committed ones, and the balances it reports are
      those its own entries recorded. A replay names a committed transaction of the same sender and key. */
  lemma {:induction false} AnswersAreRecorded(trace: seq<Action>, i: nat)
    requires i < |Run(trace).clients|
    ensures var db, c := Run(trace).store, Run(trace).clients[i];
            match c.outcome
            case Success(t, debited, credited) =>
              && t == TxnOf(c.op, c.id, Settled) && t in db.txns
              && Entry(Payee(c.op), c.id, Credit, Amount(c.op), credited) in db.entries
              && (c.op.Transfer? ==> Entry(c.op.t.sender, c.id, Debit, Amount(c.op), debited) in db.entries)
            case Replay(t) => c.op.Transfer? && t in db.txns && t.sender == Some(c.op.t.sender)
                && t.key == Some(c.op.t.key)
            case _ => true
  {
    RunKeepsInv(trace);
    hide Run, Inv, ClientInv;
    ClientInvAt(Run(trace), i);
  }

  lemma ClientInvAt(s: Sys, i: nat)
    requires Inv(s) && i < |s.clients|
    ensures ClientInv(s.store, s.clients[i]) && OutcomeHolds(s.store, s.clients[i])
  {
    hide ClientInv, OutcomeHolds, Serial;
  }

  /** An operation adds its one settled transaction and moves only its own wallets, none of them frozen. */
  lemma OtherWalletsKept(db: Store, op: Op, id: Uuid, after: Store)
    requires Perform(db, op, id) == Ok(after)
    ensures after.txns == db.txns + [TxnOf(op, id, Settled)]
    ensures forall w :: w in db.wallets && w != Payee(op) && (op.Transfer? ==> w != op.t.sender) ==>
              w in after.wallets && after.wallets[w] == db.wallets[w]
    ensures Live(db, Payee(op)) && !db.wallets[Payee(op)].frozen
    ensures op.Transfer? ==> Live(db, op.t.sender) && !db.wallets[op.t.sender].frozen
  {
    hide Insertable;
  }

  /** Committed transactions are never changed or removed, and a finished call stays as it is. */
  lemma StepOnlyAdds(s: Sys, a: Action)
    ensures var t := Step(s, a);
            && s.store.txns <= t.store.txns && s.store.entries <= t.store.entries && |s.clients| <= |t.clients|
            && (forall w :: w in s.store.wallets ==> w in t.store.wallets)
            && forall i :: 0 <= i < |s.clients| ==>
                 && t.clients[i].op == s.clients[i].op && t.clients[i].id == s.clients[i].id
                 && (s.clients[i].pc == Done ==> t.clients[i] == s.clients[i])
  {
    hide Blocked, Advance;
    if Enabled(s, a) && a.Call? && s.clients[a.client].pc != CommitTx {
      AdvanceSameCall(s.store, s.clients[a.client]);
    }
  }

  lemma AdvanceSameCall(db: Store, c: Client)
    requires ProperPC(c) && c.pc != CommitTx && c.pc != Done
    ensures Advance(db, c).op == c.op && Advance(db, c).id == c.id
  {
    hide OrderedLockIDs, TxnOf;
    hide GetWalletForUpdate, CreateTransaction, UpdateWalletBalance, CreateLedgerEntry, SettleTransaction;
    hide InsertIssuanceRecord;
  }
}
