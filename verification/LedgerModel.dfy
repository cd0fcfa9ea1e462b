/**
 The ledger tables, the meaning of each repository call inside one database transaction, and what a whole transfer or
 issuance does when nothing else runs.
 */
module LedgerModel {
  import opened Wrappers
  import opened Text
  import opened Uuids

  /** Largest BIGINT. Going past it makes the statement fail. */
  const MAX_BIGINT: int := INT64_MAX

  /** The most one issuance row may carry (`cbdc_issuance_amount_cap`). */
  const ISSUANCE_CAP: int := 100_000_000

  datatype Error =
    | AmountZero
    | SelfTransfer
    | WalletNotFound
    | WalletFrozen
    | InsufficientFunds
    | ConstraintViolated
    | Unavailable
    | CommitFailed

  datatype TxnType = TypeTransfer | TypeIssuance | TypePayment | TypeRefund | TypeFee

  datatype TxnStatus = Pending | Settled

  datatype EntryType = Debit | Credit

  datatype WalletRow = WalletRow(balance: int, frozen: bool, deleted: bool)

  datatype Txn = Txn(
    id: Uuid, key: Option<string>, txnType: TxnType, status: TxnStatus, sender: Option<Uuid>,
    receiver: Option<Uuid>, amount: int, reference: Option<string>, signature: string)

  datatype Entry = Entry(wallet: Uuid, txn: Uuid, kind: EntryType, amount: int, balanceAfter: int)

  datatype Issuance = Issuance(admin: Uuid, wallet: Uuid, txn: Uuid, amount: int, reason: string)

  /** The committed rows. Rows of the append-only tables stand in commit order. */
  datatype Store = Store(wallets: map<Uuid, WalletRow>, txns: seq<Txn>, entries: seq<Entry>, issuances: seq<Issuance>)

  const EMPTY_STORE := Store(map[], [], [], [])

  datatype TransferParams = TransferParams(
    sender: Uuid, receiver: Uuid, amount: int, reference: string, key: string, signature: string,
    txnType: Option<TxnType>)

  datatype IssueParams = IssueParams(admin: Uuid, wallet: Uuid, amount: int, reason: string, signature: string)

  /** The wallet columns a locked read returns. */
  datatype Wallet = Wallet(id: Uuid, balance: int, frozen: bool)

  /** What the balance column and its check allow. */
  ghost predicate InRange(db: Store) {
    forall w :: w in db.wallets ==> 0 <= db.wallets[w].balance <= MAX_BIGINT
  }

  // ---- one open database transaction

  /** The row locks one transaction holds and the writes it has not committed. */
  datatype Tx = Tx(held: set<Uuid>, rows: map<Uuid, WalletRow>, txns: seq<Txn>, entries: seq<Entry>,
      issuances: seq<Issuance>)

  const EMPTY_TX := Tx({}, map[], [], [], [])

  /** A wallet row as the transaction sees it: its own write, else the newest committed row. */
  function Row(db: Store, tx: Tx, w: Uuid): Option<WalletRow> {
    if w in tx.rows then Some(tx.rows[w]) else if w in db.wallets then Some(db.wallets[w]) else None
  }

  /** SELECT ... FOR UPDATE on a row no other transaction has locked. */
  function GetWalletForUpdate(db: Store, tx: Tx, w: Uuid): Result<(Tx, Wallet), Error> {
    match Row(db, tx, w)
    case Some(row) =>
      if row.deleted then Err(WalletNotFound) else Ok((tx.(held := tx.held + {w}), Wallet(w, row.balance, row.frozen)))
    case None => Err(WalletNotFound)
  }

  /** The enum in the schema has no FEE. */
  predicate InEnum(t: TxnType) { t != TypeFee }

  predicate SameKey(t: Txn, u: Txn) {
    t.sender.Some? && t.key.Some? && t.sender == u.sender && t.key == u.key
  }

  predicate ShortEnough(s: Option<string>, n: nat) { s.Some? ==> |s.value| <= n }

  /** Every constraint on a new transactions row, judged against committed rows. */
  predicate Insertable(db: Store, t: Txn) {
    && 0 < t.amount <= MAX_BIGINT
    && (t.sender.Some? && t.receiver.Some? ==> t.sender != t.receiver)
    && (t.sender.Some? ==> t.sender.value in db.wallets)
    && (t.receiver.Some? ==> t.receiver.value in db.wallets)
    && InEnum(t.txnType)
    && ShortEnough(t.key, 128) && ShortEnough(t.reference, 256) && |t.signature| <= 128
    && (forall k :: 0 <= k < |db.txns| ==> db.txns[k].id != t.id)
    && (forall k :: 0 <= k < |db.txns| ==> !SameKey(t, db.txns[k]))
  }

  function CreateTransaction(db: Store, tx: Tx, t: Txn): Result<Tx, Error> {
    if Insertable(db.(txns := db.txns + tx.txns), t) then Ok(tx.(txns := tx.txns + [t])) else Err(ConstraintViolated)
  }

  /** UPDATE wallets SET balance = balance + delta, under the non-negative check and the BIGINT range. */
  function UpdateWalletBalance(db: Store, tx: Tx, w: Uuid, delta: int): Result<(Tx, int), Error> {
    match Row(db, tx, w)
    case Some(row) =>
      var n := row.balance + delta;
      if 0 <= n <= MAX_BIGINT then Ok((tx.(rows := tx.rows[w := row.(balance := n)]), n)) else Err(ConstraintViolated)
    case None => Err(ConstraintViolated)
  }

  predicate HasTxn(txns: seq<Txn>, id: Uuid) { exists k :: 0 <= k < |txns| && txns[k].id == id }

  function CreateLedgerEntry(db: Store, tx: Tx, e: Entry): Result<Tx, Error> {
    if 0 < e.amount && 0 <= e.balanceAfter && Row(db, tx, e.wallet).Some?
        && (HasTxn(tx.txns, e.txn) || HasTxn(db.txns, e.txn))
    then Ok(tx.(entries := tx.entries + [e])) else Err(ConstraintViolated)
  }

  /** UPDATE ... SET status = 'SETTLED' on the transaction's own row. */
  function SettleTransaction(tx: Tx, id: Uuid): Tx {
    tx.(txns := seq(|tx.txns|, k requires 0 <= k < |tx.txns| =>
      if tx.txns[k].id == id then tx.txns[k].(status := Settled) else tx.txns[k]))
  }

  function InsertIssuanceRecord(db: Store, tx: Tx, r: Issuance): Result<Tx, Error> {
    if 0 < r.amount <= ISSUANCE_CAP && Row(db, tx, r.wallet).Some? && (HasTxn(tx.txns, r.txn) || HasTxn(db.txns, r.txn))
    then Ok(tx.(issuances := tx.issuances + [r])) else Err(ConstraintViolated)
  }

  /** COMMIT: all the transaction's writes become visible at once. */
  function Commit(db: Store, tx: Tx): Store {
    Store(db.wallets + tx.rows, db.txns + tx.txns, db.entries + tx.entries, db.issuances + tx.issuances)
  }

  /** The unlocked read of the idempotency index. */
  function GetTransactionByIdempotencyKey(txns: seq<Txn>, sender: Uuid, key: string): (r: Option<Txn>)
    ensures r.Some? ==> r.value in txns && r.value.sender == Some(sender) && r.value.key == Some(key)
    ensures r.None? ==> forall k :: 0 <= k < |txns| ==> !(txns[k].sender == Some(sender) && txns[k].key == Some(key))
  {
    if txns == [] then None
    else if txns[0].sender == Some(sender) && txns[0].key == Some(key) then Some(txns[0])
    else GetTransactionByIdempotencyKey(txns[1..], sender, key)
  }

  // ---- whole operations

  datatype Op = Transfer(t: TransferParams) | Issue(i: IssueParams)

  function OrNull(s: string): Option<string> {
    if s == "" then None else Some(s)
  }

  function TransferTxn(p: TransferParams, id: Uuid, status: TxnStatus): Txn {
    Txn(id, OrNull(p.key), if p.txnType.Some? then p.txnType.value else TypeTransfer, status, Some(p.sender),
        Some(p.receiver), p.amount, OrNull(p.reference), p.signature)
  }

  function IssueTxn(p: IssueParams, id: Uuid, status: TxnStatus): Txn {
    Txn(id, None, TypeIssuance, status, None, Some(p.wallet), p.amount, None, p.signature)
  }

  function TxnOf(op: Op, id: Uuid, status: TxnStatus): Txn {
    match op
    case Transfer(p) => TransferTxn(p, id, status)
    case Issue(p) => IssueTxn(p, id, status)
  }

  /** A text column that is NULL for the empty text. */
  predicate Holds(column: Option<string>, text: string) {
    if text == "" then column == None else column == Some(text)
  }

  /** The settled row carries everything that was asked for, column by column. */
  predicate RecordsTransfer(t: Txn, p: TransferParams, id: Uuid) {
    && t.id == id && t.status == Settled && t.amount == p.amount
    && t.sender == Some(p.sender) && t.receiver == Some(p.receiver)
    && t.txnType == (match p.txnType case Some(asked) => asked case None => TypeTransfer)
    && Holds(t.key, p.key) && Holds(t.reference, p.reference) && t.signature == p.signature
  }

  /** An issuance has no sender, no key and no reference. */
  predicate RecordsIssue(t: Txn, p: IssueParams, id: Uuid) {
    && t.id == id && t.status == Settled && t.amount == p.amount && t.txnType == TypeIssuance
    && t.sender == None && t.receiver == Some(p.wallet) && t.key == None && t.reference == None
    && t.signature == p.signature
  }

  /** The wallet an operation pays into. */
  function Payee(op: Op): Uuid {
    match op case Transfer(p) => p.receiver case Issue(p) => p.wallet
  }

  function Amount(op: Op): int {
    match op case Transfer(p) => p.amount case Issue(p) => p.amount
  }

  predicate Live(db: Store, w: Uuid) { w in db.wallets && !db.wallets[w].deleted }

  function Pay(row: WalletRow, delta: int): WalletRow { row.(balance := row.balance + delta) }

  /** The double entry of a transfer: the debit, then the credit. */
  function TransferEntries(db: Store, p: TransferParams, id: Uuid): seq<Entry>
    requires p.sender in db.wallets && p.receiver in db.wallets
  {
    [Entry(p.sender, id, Debit, p.amount, db.wallets[p.sender].balance - p.amount),
     Entry(p.receiver, id, Credit, p.amount, db.wallets[p.receiver].balance + p.amount)]
  }

  /** A transfer run whole and alone: what it commits, or why it commits nothing. */
  function PerformTransfer(db: Store, p: TransferParams, id: Uuid): Result<Store, Error> {
    if p.amount <= 0 then Err(AmountZero)
    else if p.sender == p.receiver then Err(SelfTransfer)
    else if !Live(db, p.sender) || !Live(db, p.receiver) then Err(WalletNotFound)
    else if db.wallets[p.sender].frozen || db.wallets[p.receiver].frozen then Err(WalletFrozen)
    else if db.wallets[p.sender].balance < p.amount then Err(InsufficientFunds)
    else if !Insertable(db, TransferTxn(p, id, Pending)) then Err(ConstraintViolated)
    else if db.wallets[p.receiver].balance + p.amount > MAX_BIGINT then Err(ConstraintViolated)
    else
      Ok(Store(db.wallets[p.sender := Pay(db.wallets[p.sender], -p.amount)]
          [p.receiver := Pay(db.wallets[p.receiver], p.amount)],
               db.txns + [TransferTxn(p, id, Settled)], db.entries + TransferEntries(db, p, id), db.issuances))
  }

  /** An issuance run whole and alone. */
  function PerformIssue(db: Store, p: IssueParams, id: Uuid): Result<Store, Error> {
    if p.amount <= 0 then Err(AmountZero)
    else if !Live(db, p.wallet) then Err(WalletNotFound)
    else if db.wallets[p.wallet].frozen then Err(WalletFrozen)
    else if !Insertable(db, IssueTxn(p, id, Pending)) then Err(ConstraintViolated)
    else if db.wallets[p.wallet].balance + p.amount > MAX_BIGINT || p.amount > ISSUANCE_CAP then Err(ConstraintViolated)
    else
      Ok(Store(db.wallets[p.wallet := Pay(db.wallets[p.wallet], p.amount)], db.txns + [IssueTxn(p, id, Settled)],
               db.entries + [Entry(p.wallet, id, Credit, p.amount, db.wallets[p.wallet].balance + p.amount)],
               db.issuances + [Issuance(p.admin, p.wallet, id, p.amount, p.reason)]))
  }

  function Perform(db: Store, op: Op, id: Uuid): Result<Store, Error> {
    match op
    case Transfer(p) => PerformTransfer(db, p, id)
    case Issue(p) => PerformIssue(db, p, id)
  }
}
