/**
 The ledger engine as it is written: one call of Transfer or Issue against the repository, statement by statement
 inside one database transaction, with the deferred rollback on every early return.
 */
module LedgerService {
  import opened Wrappers
  import opened Uuids
  import opened LedgerModel
  import opened LedgerMachine

  /** The repository call that fails in this run, if any. */
  type Fault = Option<PC>

  datatype TransferResult =
    | Moved(txn: Txn, senderBalance: int, receiverBalance: int)
    | Replayed(original: Txn)
    | Refused(error: Error)

  datatype IssueResult = Issued(issued: Txn, newBalance: int) | IssueRefused(refusal: Error)

  /** An open database transaction: what it has locked and written so far. */
  class PgTx {
    var writes: Tx
    var open: bool

    constructor ()
      ensures writes == EMPTY_TX && open
    {
      writes, open := EMPTY_TX, true;
    }

    /** A no-op once the transaction is closed. */
    method Rollback()
      modifies this
      ensures !open && writes == (if old(open) then EMPTY_TX else old(writes))
    {
      if open {
        writes := EMPTY_TX;
      }
      open := false;
    }
  }

  class Repository {
    var db: Store

    method BeginTx(fails: bool) returns (r: Result<PgTx, Error>)
      ensures fails ==> r == Err(Unavailable)
      ensures !fails ==> r.Ok? && fresh(r.value) && r.value.open && r.value.writes == EMPTY_TX
    {
      if fails {
        return Err(Unavailable);
      }
      var tx := new PgTx();
      r := Ok(tx);
    }

    method FindByKey(sender: Uuid, key: string, fails: bool) returns (r: Result<Option<Txn>, Error>)
      ensures r == if fails then Err(Unavailable) else Ok(GetTransactionByIdempotencyKey(db.txns, sender, key))
    {
      r := if fails then Err(Unavailable) else Ok(GetTransactionByIdempotencyKey(db.txns, sender, key));
    }

    method LockWallet(tx: PgTx, w: Uuid, fails: bool) returns (r: Result<Wallet, Error>)
      modifies tx`writes
      ensures r.Err? ==> tx.writes == old(tx.writes)
      ensures fails ==> r == Err(Unavailable)
      ensures !fails && r.Ok? ==> GetWalletForUpdate(db, old(tx.writes), w) == Ok((tx.writes, r.value))
      ensures !fails && r.Err? ==> GetWalletForUpdate(db, old(tx.writes), w) == Err(r.error)
    {
      if fails {
        return Err(Unavailable);
      }
      match GetWalletForUpdate(db, tx.writes, w)
      case Ok(got) => tx.writes := got.0; r := Ok(got.1);
      case Err(e) => r := Err(e);
    }

    method InsertTransaction(tx: PgTx, t: Txn, fails: bool) returns (r: Result<Txn, Error>)
      modifies tx`writes
      ensures r.Err? ==> tx.writes == old(tx.writes)
      ensures fails ==> r == Err(Unavailable)
      ensures !fails && r.Ok? ==> CreateTransaction(db, old(tx.writes), t) == Ok(tx.writes) && r.value == t
      ensures !fails && r.Err? ==> CreateTransaction(db, old(tx.writes), t) == Err(r.error)
    {
      if fails {
        return Err(Unavailable);
      }
      match CreateTransaction(db, tx.writes, t)
      case Ok(writes) => tx.writes := writes; r := Ok(t);
      case Err(e) => r := Err(e);
    }

    method AddToBalance(tx: PgTx, w: Uuid, delta: int, fails: bool) returns (r: Result<int, Error>)
      modifies tx`writes
      ensures r.Err? ==> tx.writes == old(tx.writes)
      ensures fails ==> r == Err(Unavailable)
      ensures !fails && r.Ok? ==> UpdateWalletBalance(db, old(tx.writes), w, delta) == Ok((tx.writes, r.value))
      ensures !fails && r.Err? ==> UpdateWalletBalance(db, old(tx.writes), w, delta) == Err(r.error)
    {
      if fails {
        return Err(Unavailable);
      }
      match UpdateWalletBalance(db, tx.writes, w, delta)
      case Ok(got) => tx.writes := got.0; r := Ok(got.1);
      case Err(e) => r := Err(e);
    }

    method InsertEntry(tx: PgTx, e: Entry, fails: bool) returns (r: Result<(), Error>)
      modifies tx`writes
      ensures r.Err? ==> tx.writes == old(tx.writes)
      ensures fails ==> r == Err(Unavailable)
      ensures !fails && r.Ok? ==> CreateLedgerEntry(db, old(tx.writes), e) == Ok(tx.writes)
      ensures !fails && r.Err? ==> CreateLedgerEntry(db, old(tx.writes), e) == Err(r.error)
    {
      if fails {
        return Err(Unavailable);
      }
      match CreateLedgerEntry(db, tx.writes, e)
      case Ok(writes) => tx.writes := writes; r := Ok(());
      case Err(x) => r := Err(x);
    }

    method Settle(tx: PgTx, id: Uuid, fails: bool) returns (r: Result<(), Error>)
      modifies tx`writes
      ensures r.Err? ==> tx.writes == old(tx.writes)
      ensures fails ==> r == Err(Unavailable)
      ensures !fails ==> r == Ok(()) && tx.writes == SettleTransaction(old(tx.writes), id)
    {
      if fails {
        return Err(Unavailable);
      }
      tx.writes := SettleTransaction(tx.writes, id);
      r := Ok(());
    }

    method InsertIssuance(tx: PgTx, row: Issuance, fails: bool) returns (r: Result<(), Error>)
      modifies tx`writes
      ensures r.Err? ==> tx.writes == old(tx.writes)
      ensures fails ==> r == Err(Unavailable)
      ensures !fails && r.Ok? ==> InsertIssuanceRecord(db, old(tx.writes), row) == Ok(tx.writes)
      ensures !fails && r.Err? ==> InsertIssuanceRecord(db, old(tx.writes), row) == Err(r.error)
    {
      if fails {
        return Err(Unavailable);
      }
      match InsertIssuanceRecord(db, tx.writes, row)
      case Ok(writes) => tx.writes := writes; r := Ok(());
      case Err(e) => r := Err(e);
    }

    /** A failing commit may still have taken effect. */
    method CommitTransaction(tx: PgTx, fails: bool, tookEffect: bool) returns (r: Result<(), Error>)
      modifies this, tx
      ensures db == if fails && !tookEffect then old(db) else Commit(old(db), old(tx.writes))
      ensures r == if fails then Err(CommitFailed) else Ok(())
      ensures tx.open == (fails && old(tx.open)) && tx.writes == old(tx.writes)
    {
      if !fails || tookEffect {
        db := Commit(db, tx.writes);
      }
      if fails {
        return Err(CommitFailed);
      }
      tx.open := false;
      r := Ok(());
    }
  }

  /** What a transfer that is not a replay does to the stored rows and answers, when only `fault` goes wrong. */
  ghost predicate TransferSpec(before: Store, p: TransferParams, id: Uuid, fault: Fault, tookEffect: bool, after: Store,
      r: TransferResult) {
    match PerformTransfer(before, p, id)
    case Ok(done) =>
      (match fault
       case None =>
         && after == done
         && r == Moved(TransferTxn(p, id, Settled), before.wallets[p.sender].balance - p.amount,
             before.wallets[p.receiver].balance + p.amount)
       case Some(CommitTx) => after == (if tookEffect then done else before) && r == Refused(CommitFailed)
       case Some(_) => after == before && r == Refused(Unavailable))
    case Err(e) => after == before && (r == Refused(e) || (fault.Some? && r == Refused(Unavailable)))
  }

  /** What a transfer has locked and written before it credits. */
  ghost function Debited(db: Store, p: TransferParams, id: Uuid): Tx
    requires p.sender in db.wallets
  {
    var from := Pay(db.wallets[p.sender], -p.amount);
    Tx({p.sender, p.receiver}, map[p.sender := from], [TransferTxn(p, id, Pending)],
        [Entry(p.sender, id, Debit, p.amount, from.balance)], [])
  }

  /** What a transfer has locked and written when it commits. */
  ghost function TransferWrites(db: Store, p: TransferParams, id: Uuid): Tx
    requires p.sender in db.wallets && p.receiver in db.wallets
  {
    var from, to := Pay(db.wallets[p.sender], -p.amount), Pay(db.wallets[p.receiver], p.amount);
    Tx({p.sender, p.receiver}, map[p.sender := from][p.receiver := to], [TransferTxn(p, id, Settled)],
       [Entry(p.sender, id, Debit, p.amount, from.balance), Entry(p.receiver, id, Credit, p.amount, to.balance)], [])
  }

  /** On two locked rows that passed the rules, only the constraints can still refuse a transfer. */
  lemma TransferOutcome(db: Store, p: TransferParams, id: Uuid)
    requires p.amount > 0 && p.sender != p.receiver && Live(db, p.sender) && Live(db, p.receiver)
    requires !db.wallets[p.sender].frozen && !db.wallets[p.receiver].frozen && db.wallets[p.sender].balance >= p.amount
    ensures PerformTransfer(db, p, id)
            == if !Insertable(db, TransferTxn(p, id, Pending)) || db.wallets[p.receiver].balance + p.amount > MAX_BIGINT
               then Err(ConstraintViolated) else Ok(Commit(db, TransferWrites(db, p, id)))
  {
    hide Insertable;
    assert db.issuances + [] == db.issuances;
    assert db.wallets + TransferWrites(db, p, id).rows
           == db.wallets[p.sender := Pay(db.wallets[p.sender], -p.amount)]
               [p.receiver := Pay(db.wallets[p.receiver], p.amount)];
  }

  lemma TransferRecords(db: Store, p: TransferParams, id: Uuid)
    ensures RecordsTransfer(TransferTxn(p, id, Settled), p, id)
    ensures var r := PerformTransfer(db, p, id);
            r.Ok? ==> r.value.txns == db.txns + [TransferTxn(p, id, Settled)] && r.value.issuances == db.issuances
  {
    hide Insertable;
  }

  lemma IssueRecords(db: Store, p: IssueParams, id: Uuid)
    ensures RecordsIssue(IssueTxn(p, id, Settled), p, id)
    ensures var r := PerformIssue(db, p, id);
            r.Ok? ==>
              && r.value.txns == db.txns + [IssueTxn(p, id, Settled)]
              && r.value.issuances == db.issuances + [Issuance(p.admin, p.wallet, id, p.amount, p.reason)]
  {
    hide Insertable;
  }

  /** The calls a transfer makes inside its transaction. */
  predicate TransferFault(fault: Fault) {
    match fault
    case Some(pc) =>
      || pc.Begin? || pc.LockFirst? || pc.LockSecond? || pc.Insert? || pc.DebitBalance? || pc.DebitEntry?
      || pc.CreditBalance?
      || pc.CreditEntry? || pc.Settle? || pc.CommitTx?
    case None => true
  }

  ghost predicate IssueSpec(before: Store, p: IssueParams, id: Uuid, fault: Fault, tookEffect: bool, after: Store,
      r: IssueResult) {
    match PerformIssue(before, p, id)
    case Ok(done) =>
      (match fault
       case None => after == done && r == Issued(IssueTxn(p, id, Settled), before.wallets[p.wallet].balance + p.amount)
       case Some(CommitTx) => after == (if tookEffect then done else before) && r == IssueRefused(CommitFailed)
       case Some(_) => after == before && r == IssueRefused(Unavailable))
    case Err(e) => after == before && (r == IssueRefused(e) || (fault.Some? && r == IssueRefused(Unavailable)))
  }

  /** What an issuance has locked and written before it settles. */
  ghost function Credited(db: Store, p: IssueParams, id: Uuid): Tx
    requires p.wallet in db.wallets
  {
    var to := Pay(db.wallets[p.wallet], p.amount);
    Tx({p.wallet}, map[p.wallet := to], [IssueTxn(p, id, Pending)],
       [Entry(p.wallet, id, Credit, p.amount, to.balance)], [])
  }

  /** What an issuance has locked and written when it commits. */
  ghost function IssueWrites(db: Store, p: IssueParams, id: Uuid): Tx
    requires p.wallet in db.wallets
  {
    var to := Pay(db.wallets[p.wallet], p.amount);
    Tx({p.wallet}, map[p.wallet := to], [IssueTxn(p, id, Settled)], [Entry(p.wallet, id, Credit, p.amount, to.balance)],
       [Issuance(p.admin, p.wallet, id, p.amount, p.reason)])
  }

  lemma OnlyTxn(t: Txn)
    ensures HasTxn([t], t.id)
  {
    assert [t][0].id == t.id;
  }

  /** On a locked row that is not frozen, only the constraints can still refuse an issuance. */
  lemma IssueOutcome(db: Store, p: IssueParams, id: Uuid)
    requires p.amount > 0 && Live(db, p.wallet) && !db.wallets[p.wallet].frozen
    ensures PerformIssue(db, p, id)
            == if !Insertable(db, IssueTxn(p, id, Pending)) || db.wallets[p.wallet].balance + p.amount > MAX_BIGINT
                  || p.amount > ISSUANCE_CAP
               then Err(ConstraintViolated) else Ok(Commit(db, IssueWrites(db, p, id)))
  {
    hide Insertable;
    assert db.wallets + IssueWrites(db, p, id).rows
        == db.wallets[p.wallet := Pay(db.wallets[p.wallet], p.amount)];
  }

  predicate IssueFault(fault: Fault) {
    match fault
    case Some(pc) =>
      pc.Begin? || pc.LockFirst? || pc.Insert? || pc.CreditBalance? || pc.CreditEntry? || pc.Settle? || pc.Record?
      || pc.CommitTx?
    case None => true
  }

  class Service {
    const repo: Repository

    constructor (repo: Repository)
      ensures this.repo == repo
    {
      this.repo := repo;
    }

    method Transfer(p: TransferParams, id: Uuid, fault: Fault, tookEffect: bool) returns (r: TransferResult)
      requires InRange(repo.db)
      requires TransferFault(fault) || (fault == Some(CheckKey) && p.key != "")
      modifies repo
      ensures var known := GetTransactionByIdempotencyKey(old(repo.db).txns, p.sender, p.key);
              if p.amount > 0 && p.sender != p.receiver && p.key != "" && (fault == Some(CheckKey) || known.Some?)
              then repo.db == old(repo.db) && r == if fault == Some(CheckKey) then Refused(Unavailable)
                  else Replayed(known.value)
              else TransferSpec(old(repo.db), p, id, fault, tookEffect, repo.db, r)
      ensures r.Moved? ==>
                && RecordsTransfer(r.txn, p, id) && repo.db.txns == old(repo.db).txns + [r.txn]
                && repo.db.issuances == old(repo.db).issuances
      ensures r.Replayed? ==>
                && repo.db == old(repo.db) && r.original in repo.db.txns
                && r.original.sender == Some(p.sender) && r.original.key == Some(p.key)
    {
      TransferRecords(repo.db, p, id);
      hide PerformTransfer, TransferTxn, RecordsTransfer;
      if p.amount <= 0 {
        return Refused(AmountZero);
      }
      if p.sender == p.receiver {
        return Refused(SelfTransfer);
      }
      if p.key != "" {
        var existing := repo.FindByKey(p.sender, p.key, fault == Some(CheckKey));
        match existing {
          case Err(e) => return Refused(e);
          case Ok(Some(t)) => return Replayed(t);
          case Ok(None) =>
        }
      }
      r := RunTransfer(p, id, fault, tookEffect);
    }

    method RunTransfer(p: TransferParams, id: Uuid, fault: Fault, tookEffect: bool) returns (r: TransferResult)
      requires InRange(repo.db)
      requires TransferFault(fault) && p.amount > 0 && p.sender != p.receiver
      modifies repo
      ensures TransferSpec(old(repo.db), p, id, fault, tookEffect, repo.db, r)
    {
      var begun := repo.BeginTx(fault == Some(Begin));
      if begun.Err? {
        return Refused(begun.error);
      }
      var tx := begun.value;
      var locked := LockParties(tx, p, fault);
      if locked.Err? {
        tx.Rollback();
        return Refused(locked.error);
      }
      var (sender, receiver) := locked.value;
      if sender.frozen || receiver.frozen {
        tx.Rollback();
        return Refused(WalletFrozen);
      }
      if sender.balance < p.amount {
        tx.Rollback();
        return Refused(InsufficientFunds);
      }
      var posted := PostTransfer(tx, p, id, fault);
      if posted.Err? {
        tx.Rollback();
        return Refused(posted.error);
      }
      var committed := repo.CommitTransaction(tx, fault == Some(CommitTx), tookEffect);
      if committed.Err? {
        tx.Rollback();
        return Refused(committed.error);
      }
      r := Moved(TransferTxn(p, id, Settled), posted.value.0, posted.value.1);
    }

    /** Locks both rows in UUID text order and maps them back to sender and receiver. */
    method LockParties(tx: PgTx, p: TransferParams, fault: Fault) returns (r: Result<(Wallet, Wallet), Error>)
      requires tx.writes == EMPTY_TX && p.sender != p.receiver
      modifies tx`writes
      ensures r.Ok? ==>
                && Live(repo.db, p.sender) && Live(repo.db, p.receiver)
                && tx.writes == EMPTY_TX.(held := {p.sender, p.receiver})
                && r.value.0 == Wallet(p.sender, repo.db.wallets[p.sender].balance, repo.db.wallets[p.sender].frozen)
                && r.value.1
                    == Wallet(p.receiver, repo.db.wallets[p.receiver].balance, repo.db.wallets[p.receiver].frozen)
                && fault != Some(LockFirst) && fault != Some(LockSecond)
      ensures r.Err? ==>
                || (r.error == Unavailable && (fault == Some(LockFirst) || fault == Some(LockSecond)))
                || (r.error == WalletNotFound && (!Live(repo.db, p.sender) || !Live(repo.db, p.receiver)))
    {
      hide Before;
      var (first, second) := OrderedLockIDs(p.sender, p.receiver);
      var firstLock := repo.LockWallet(tx, first, fault == Some(LockFirst));
      if firstLock.Err? {
        return Err(firstLock.error);
      }
      var secondLock := repo.LockWallet(tx, second, fault == Some(LockSecond));
      if secondLock.Err? {
        return Err(secondLock.error);
      }
      assert tx.writes.held == {p.sender, p.receiver};
      if firstLock.value.id == p.sender {
        r := Ok((firstLock.value, secondLock.value));
      } else {
        r := Ok((secondLock.value, firstLock.value));
      }
    }

    /** From the PENDING insert to SETTLED, on two locked rows that passed the rules. */
    method PostTransfer(tx: PgTx, p: TransferParams, id: Uuid, fault: Fault) returns (r: Result<(int, int), Error>)
      requires InRange(repo.db)
      requires p.amount > 0 && p.sender != p.receiver && Live(repo.db, p.sender) && Live(repo.db, p.receiver)
      requires !repo.db.wallets[p.sender].frozen && !repo.db.wallets[p.receiver].frozen
      requires repo.db.wallets[p.sender].balance >= p.amount
      requires tx.writes == EMPTY_TX.(held := {p.sender, p.receiver})
      requires TransferFault(fault) && fault != Some(Begin) && fault != Some(LockFirst) && fault != Some(LockSecond)
      modifies tx`writes
      ensures r.Ok? ==>
          PerformTransfer(repo.db, p, id) == Ok(Commit(repo.db, tx.writes)) && (fault.None? || fault == Some(CommitTx))
      ensures r.Ok? ==>
          r.value == (repo.db.wallets[p.sender].balance - p.amount, repo.db.wallets[p.receiver].balance + p.amount)
      ensures r.Err? ==>
                || (r.error == Unavailable && fault.Some? && fault != Some(CommitTx))
                || PerformTransfer(repo.db, p, id) == Err(r.error)
    {
      TransferOutcome(repo.db, p, id);
      hide PerformTransfer, Insertable, Commit;
      var debited := InsertAndDebit(tx, p, id, fault);
      if debited.Err? {
        return Err(debited.error);
      }
      var credited := CreditAndSettle(tx, p, id, fault);
      if credited.Err? {
        return Err(credited.error);
      }
      r := Ok((debited.value, credited.value));
    }

    /** The PENDING row, the sender's balance and its debit entry. */
    method InsertAndDebit(tx: PgTx, p: TransferParams, id: Uuid, fault: Fault) returns (r: Result<int, Error>)
      requires InRange(repo.db)
      requires p.amount > 0 && p.sender != p.receiver && Live(repo.db, p.sender)
      requires repo.db.wallets[p.sender].balance >= p.amount
      requires tx.writes == EMPTY_TX.(held := {p.sender, p.receiver})
      modifies tx`writes
      ensures r.Ok? ==>
                && Insertable(repo.db, TransferTxn(p, id, Pending)) && tx.writes == Debited(repo.db, p, id)
                && r.value == repo.db.wallets[p.sender].balance - p.amount
                && fault != Some(Insert) && fault != Some(DebitBalance) && fault != Some(DebitEntry)
      ensures r.Err? ==>
                || (r.error == Unavailable
                    && (fault == Some(Insert) || fault == Some(DebitBalance) || fault == Some(DebitEntry)))
                || (r.error == ConstraintViolated && !Insertable(repo.db, TransferTxn(p, id, Pending)))
    {
      hide Insertable;
      assert repo.db.(txns := repo.db.txns + []) == repo.db;
      var inserted := repo.InsertTransaction(tx, TransferTxn(p, id, Pending), fault == Some(Insert));
      if inserted.Err? {
        return Err(inserted.error);
      }
      var txn := inserted.value;
      assert tx.writes == Tx({p.sender, p.receiver}, map[], [txn], [], []);
      assert tx.writes.txns[0].id == id && HasTxn(tx.writes.txns, id);
      hide HasTxn;
      var debited := repo.AddToBalance(tx, p.sender, -p.amount, fault == Some(DebitBalance));
      if debited.Err? {
        return Err(debited.error);
      }
      var debit := repo.InsertEntry(tx, Entry(p.sender, txn.id, Debit, p.amount, debited.value),
          fault == Some(DebitEntry));
      if debit.Err? {
        return Err(debit.error);
      }
      r := Ok(debited.value);
    }

    /** The receiver's balance, its credit entry and the SETTLED status. */
    method CreditAndSettle(tx: PgTx, p: TransferParams, id: Uuid, fault: Fault) returns (r: Result<int, Error>)
      requires InRange(repo.db)
      requires p.amount > 0 && p.sender != p.receiver && Live(repo.db, p.sender) && Live(repo.db, p.receiver)
      requires tx.writes == Debited(repo.db, p, id)
      modifies tx`writes
      ensures var to := repo.db.wallets[p.receiver].balance + p.amount;
              && (r.Ok? ==>
                    && to <= MAX_BIGINT && tx.writes == TransferWrites(repo.db, p, id) && r.value == to
                    && fault != Some(CreditBalance) && fault != Some(CreditEntry) && fault != Some(PC.Settle))
              && (r.Err? ==>
                    || (r.error == Unavailable
                        && (fault == Some(CreditBalance) || fault == Some(CreditEntry) || fault == Some(PC.Settle)))
                    || (r.error == ConstraintViolated && to > MAX_BIGINT))
    {
      assert tx.writes.txns[0].id == id && HasTxn(tx.writes.txns, id);
      hide HasTxn;
      var credited := repo.AddToBalance(tx, p.receiver, p.amount, fault == Some(CreditBalance));
      if credited.Err? {
        return Err(credited.error);
      }
      var credit := repo.InsertEntry(tx, Entry(p.receiver, id, Credit, p.amount, credited.value),
          fault == Some(CreditEntry));
      if credit.Err? {
        return Err(credit.error);
      }
      var settled := repo.Settle(tx, id, fault == Some(PC.Settle));
      if settled.Err? {
        return Err(settled.error);
      }
      assert tx.writes.txns == [TransferTxn(p, id, Settled)];
      r := Ok(credited.value);
    }

    method Issue(p: IssueParams, id: Uuid, fault: Fault, tookEffect: bool) returns (r: IssueResult)
      requires InRange(repo.db)
      requires IssueFault(fault)
      modifies repo
      ensures IssueSpec(old(repo.db), p, id, fault, tookEffect, repo.db, r)
      ensures r.Issued? ==>
                && RecordsIssue(r.issued, p, id) && repo.db.txns == old(repo.db).txns + [r.issued]
                && repo.db.issuances
                   == old(repo.db).issuances + [Issuance(p.admin, p.wallet, id, p.amount, p.reason)]
    {
      IssueRecords(repo.db, p, id);
      hide PerformIssue, IssueTxn, RecordsIssue;
      if p.amount <= 0 {
        return IssueRefused(AmountZero);
      }
      var begun := repo.BeginTx(fault == Some(Begin));
      if begun.Err? {
        return IssueRefused(begun.error);
      }
      var tx := begun.value;
      var lock := repo.LockWallet(tx, p.wallet, fault == Some(LockFirst));
      if lock.Err? {
        tx.Rollback();
        return IssueRefused(lock.error);
      }
      if lock.value.frozen {
        tx.Rollback();
        return IssueRefused(WalletFrozen);
      }
      var posted := PostIssue(tx, p, id, fault);
      if posted.Err? {
        tx.Rollback();
        return IssueRefused(posted.error);
      }
      var committed := repo.CommitTransaction(tx, fault == Some(CommitTx), tookEffect);
      if committed.Err? {
        tx.Rollback();
        return IssueRefused(committed.error);
      }
      r := Issued(IssueTxn(p, id, Settled), posted.value);
    }

    /** From the PENDING insert to the issuance row, on a locked row that is not frozen. */
    method PostIssue(tx: PgTx, p: IssueParams, id: Uuid, fault: Fault) returns (r: Result<int, Error>)
      requires InRange(repo.db)
      requires p.amount > 0 && Live(repo.db, p.wallet) && !repo.db.wallets[p.wallet].frozen
      requires tx.writes == EMPTY_TX.(held := {p.wallet})
      requires IssueFault(fault) && fault != Some(Begin) && fault != Some(LockFirst)
      modifies tx`writes
      ensures r.Ok? ==>
          PerformIssue(repo.db, p, id) == Ok(Commit(repo.db, tx.writes)) && (fault.None? || fault == Some(CommitTx))
      ensures r.Ok? ==> r.value == repo.db.wallets[p.wallet].balance + p.amount
      ensures r.Err? ==>
                || (r.error == Unavailable && fault.Some? && fault != Some(CommitTx))
                || PerformIssue(repo.db, p, id) == Err(r.error)
    {
      IssueOutcome(repo.db, p, id);
      hide Insertable, PerformIssue, Commit, HasTxn;
      var credited := InsertAndCredit(tx, p, id, fault);
      if credited.Err? {
        return Err(credited.error);
      }
      var settled := repo.Settle(tx, id, fault == Some(PC.Settle));
      if settled.Err? {
        return Err(settled.error);
      }
      assert tx.writes.txns == [IssueTxn(p, id, Settled)];
      OnlyTxn(IssueTxn(p, id, Settled));
      var recorded := repo.InsertIssuance(tx, Issuance(p.admin, p.wallet, id, p.amount, p.reason),
          fault == Some(Record));
      if recorded.Err? {
        return Err(recorded.error);
      }
      assert tx.writes.issuances == [Issuance(p.admin, p.wallet, id, p.amount, p.reason)];
      assert tx.writes == IssueWrites(repo.db, p, id);
      r := Ok(credited.value);
    }

    /** The PENDING row, the wallet's balance and its credit entry. */
    method InsertAndCredit(tx: PgTx, p: IssueParams, id: Uuid, fault: Fault) returns (r: Result<int, Error>)
      requires InRange(repo.db)
      requires p.amount > 0 && Live(repo.db, p.wallet) && tx.writes == EMPTY_TX.(held := {p.wallet})
      modifies tx`writes
      ensures var to := repo.db.wallets[p.wallet].balance + p.amount;
              && (r.Ok? ==>
                    && Insertable(repo.db, IssueTxn(p, id, Pending)) && to <= MAX_BIGINT && r.value == to
                    && tx.writes == Credited(repo.db, p, id)
                    && fault != Some(Insert) && fault != Some(CreditBalance) && fault != Some(CreditEntry))
              && (r.Err? ==>
                    || (r.error == Unavailable
                        && (fault == Some(Insert) || fault == Some(CreditBalance) || fault == Some(CreditEntry)))
                    || (r.error == ConstraintViolated
                        && (!Insertable(repo.db, IssueTxn(p, id, Pending)) || to > MAX_BIGINT)))
    {
      hide Insertable, HasTxn;
      assert repo.db.(txns := repo.db.txns + []) == repo.db;
      var inserted := repo.InsertTransaction(tx, IssueTxn(p, id, Pending), fault == Some(Insert));
      if inserted.Err? {
        return Err(inserted.error);
      }
      var txn := inserted.value;
      assert tx.writes == Tx({p.wallet}, map[], [txn], [], []);
      OnlyTxn(txn);
      var credited := repo.AddToBalance(tx, p.wallet, p.amount, fault == Some(CreditBalance));
      if credited.Err? {
        return Err(credited.error);
      }
      var credit := repo.InsertEntry(tx, Entry(p.wallet, txn.id, Credit, p.amount, credited.value),
          fault == Some(CreditEntry));
      if credit.Err? {
        return Err(credit.error);
      }
      r := Ok(credited.value);
    }
  }
}
