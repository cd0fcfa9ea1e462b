/**
 Any number of clients running Transfer and Issue against one database, one repository call at a time, under READ
 COMMITTED with row locks. Every sequence of actions is a run: an action that is not enabled changes nothing.
 */
module LedgerMachine {
  import opened Wrappers
  import opened Uuids
  import opened LedgerModel

  /** Where a client stands: the next thing it does. */
  datatype PC =
    | Validate | CheckKey | Begin | LockFirst | LockSecond | Rules | Insert | DebitBalance | DebitEntry
    | CreditBalance | CreditEntry | Settle | Record | CommitTx | Done

  datatype Outcome =
    | Running
    | Success(txn: Txn, debited: int, credited: int)
    | Replay(original: Txn)
    | Failed(error: Error)

  /** One call of Transfer or Issue, with its open transaction and its local variables. */
  datatype Client = Client(
    op: Op, id: Uuid, pc: PC, tx: Tx, first: Wallet, second: Wallet, debited: int, credited: int, outcome: Outcome)

  /** `orderedLockIDs`: the UUID whose text sorts first is locked first. */
  function OrderedLockIDs(a: Uuid, b: Uuid): (Uuid, Uuid) {
    if Before(a, b) then (a, b) else (b, a)
  }

  /** Both directions of a transfer lock the same wallets in the same order. */
  lemma LockOrderIsSymmetric(a: Uuid, b: Uuid)
    ensures OrderedLockIDs(a, b) == OrderedLockIDs(b, a)
    ensures a != b ==> Before(OrderedLockIDs(a, b).0, OrderedLockIDs(a, b).1)
  {
    LockOrderIsStrictTotal(a, b, a);
  }

  function FirstLock(op: Op): Uuid {
    match op case Transfer(p) => OrderedLockIDs(p.sender, p.receiver).0 case Issue(p) => p.wallet
  }

  /** Meaningful for transfers only; an issuance never reaches its second lock. */
  function SecondLock(op: Op): Uuid {
    match op case Transfer(p) => OrderedLockIDs(p.sender, p.receiver).1 case Issue(p) => p.wallet
  }

  function NewClient(op: Op, id: Uuid): Client {
    var nobody := Wallet(id, 0, false);
    Client(op, id, Validate, EMPTY_TX, nobody, nobody, 0, 0, Running)
  }

  // ---- one repository call of one client that nobody blocks

  /** Return with an error: the deferred rollback drops the writes and the locks. */
  function Abort(c: Client, o: Outcome): Client {
    c.(pc := Done, tx := EMPTY_TX, outcome := o)
  }

  /** Input validation, before any database access. */
  function DoValidate(c: Client): Client {
    if Amount(c.op) <= 0 then Abort(c, Failed(AmountZero))
    else if c.op.Transfer? && c.op.t.sender == c.op.t.receiver then Abort(c, Failed(SelfTransfer))
    else c.(pc := if c.op.Transfer? && c.op.t.key != "" then CheckKey else Begin)
  }

  /** The idempotency check, made before any lock is held. */
  function DoCheckKey(db: Store, c: Client): Client
    requires c.op.Transfer?
  {
    match GetTransactionByIdempotencyKey(db.txns, c.op.t.sender, c.op.t.key)
    case Some(t) => Abort(c, Replay(t))
    case None => c.(pc := Begin)
  }

  function DoLockFirst(db: Store, c: Client): Client {
    match GetWalletForUpdate(db, c.tx, FirstLock(c.op))
    case Ok(got) => c.(tx := got.0, first := got.1, pc := if c.op.Transfer? then LockSecond else Rules)
    case Err(e) => Abort(c, Failed(e))
  }

  function DoLockSecond(db: Store, c: Client): Client {
    match GetWalletForUpdate(db, c.tx, SecondLock(c.op))
    case Ok(got) => c.(tx := got.0, second := got.1, pc := Rules)
    case Err(e) => Abort(c, Failed(e))
  }

  /** The business rules, judged on the rows the locked reads returned. */
  function DoRules(c: Client): Client {
    match c.op
    case Transfer(p) =>
      var (sender, receiver) := if c.first.id == p.sender then (c.first, c.second) else (c.second, c.first);
      if sender.frozen || receiver.frozen then Abort(c, Failed(WalletFrozen))
      else if sender.balance < p.amount then Abort(c, Failed(InsufficientFunds))
      else c.(pc := Insert)
    case Issue(p) => if c.first.frozen then Abort(c, Failed(WalletFrozen)) else c.(pc := Insert)
  }

  function DoInsert(db: Store, c: Client): Client {
    match CreateTransaction(db, c.tx, TxnOf(c.op, c.id, Pending))
    case Ok(tx) => c.(tx := tx, pc := if c.op.Transfer? then DebitBalance else CreditBalance)
    case Err(e) => Abort(c, Failed(e))
  }

  function DoDebit(db: Store, c: Client): Client
    requires c.op.Transfer?
  {
    match UpdateWalletBalance(db, c.tx, c.op.t.sender, -c.op.t.amount)
    case Ok(got) => c.(tx := got.0, debited := got.1, pc := DebitEntry)
    case Err(e) => Abort(c, Failed(e))
  }

  function DoDebitEntry(db: Store, c: Client): Client
    requires c.op.Transfer?
  {
    match CreateLedgerEntry(db, c.tx, Entry(c.op.t.sender, c.id, Debit, c.op.t.amount, c.debited))
    case Ok(tx) => c.(tx := tx, pc := CreditBalance)
    case Err(e) => Abort(c, Failed(e))
  }

  function DoCredit(db: Store, c: Client): Client {
    match UpdateWalletBalance(db, c.tx, Payee(c.op), Amount(c.op))
    case Ok(got) => c.(tx := got.0, credited := got.1, pc := CreditEntry)
    case Err(e) => Abort(c, Failed(e))
  }

  function DoCreditEntry(db: Store, c: Client): Client {
    match CreateLedgerEntry(db, c.tx, Entry(Payee(c.op), c.id, Credit, Amount(c.op), c.credited))
    case Ok(tx) => c.(tx := tx, pc := Settle)
    case Err(e) => Abort(c, Failed(e))
  }

  function DoSettle(c: Client): Client {
    c.(tx := SettleTransaction(c.tx, c.id), pc := if c.op.Transfer? then CommitTx else Record)
  }

  function DoRecord(db: Store, c: Client): Client
    requires c.op.Issue?
  {
    match InsertIssuanceRecord(db, c.tx, Issuance(c.op.i.admin, c.op.i.wallet, c.id, c.op.i.amount, c.op.i.reason))
    case Ok(tx) => c.(tx := tx, pc := CommitTx)
    case Err(e) => Abort(c, Failed(e))
  }

  /** The call returns what it inserted, with the status it settled to. */
  function DoReturn(c: Client): Client {
    Abort(c, Success(TxnOf(c.op, c.id, Settled), c.debited, c.credited))
  }

  /** Only keyed transfers check a key, only transfers debit and only issuances write an issuance row. */
  predicate ProperPC(c: Client) {
    && (c.pc == CheckKey || c.pc == LockSecond || c.pc == DebitBalance || c.pc == DebitEntry ==> c.op.Transfer?)
    && (c.pc == CheckKey ==> c.op.t.key != "")
    && (c.pc == Record ==> c.op.Issue?)
  }

  /** Any step but the commit. */
  function Advance(db: Store, c: Client): Client
    requires ProperPC(c) && c.pc != CommitTx && c.pc != Done
  {
    match c.pc
    case Validate => DoValidate(c)
    case CheckKey => DoCheckKey(db, c)
    case Begin => c.(pc := LockFirst)
    case LockFirst => DoLockFirst(db, c)
    case LockSecond => DoLockSecond(db, c)
    case Rules => DoRules(c)
    case Insert => DoInsert(db, c)
    case DebitBalance => DoDebit(db, c)
    case DebitEntry => DoDebitEntry(db, c)
    case CreditBalance => DoCredit(db, c)
    case CreditEntry => DoCreditEntry(db, c)
    case Settle => DoSettle(c)
    case Record => DoRecord(db, c)
  }

  // ---- the whole system

  /** What changed the committed rows, in order. */
  datatype Event =
    | Committed(op: Op, id: Uuid)
    | Opened(wallet: Uuid)
    | Flagged(flagged: Uuid, frozen: bool, deleted: bool)

  datatype Sys = Sys(store: Store, clients: seq<Client>, history: seq<Event>)

  const INIT := Sys(EMPTY_STORE, [], [])

  datatype Action =
    | Start(op: Op, id: Uuid)
    | OpenWallet(wallet: Uuid)
    | SetFlags(flagged: Uuid, frozen: bool, deleted: bool)
    | Call(client: nat)
    | Fail(client: nat)
    | LoseCommitReply(client: nat)

  /** Nobody but client i holds the lock on row w. */
  predicate LockFree(s: Sys, i: int, w: Uuid) {
    forall j :: 0 <= j < |s.clients| && j != i ==> w !in s.clients[j].tx.held
  }

  /** Another open transaction has inserted the same sender and key: the unique index makes this insert wait. */
  predicate InsertMustWait(s: Sys, i: nat)
    requires i < |s.clients|
  {
    exists j, k :: 0 <= j < |s.clients| && j != i && 0 <= k < |s.clients[j].tx.txns|
      && SameKey(s.clients[j].tx.txns[k], TxnOf(s.clients[i].op, s.clients[i].id, Pending))
  }

  predicate Blocked(s: Sys, i: nat)
    requires i < |s.clients|
  {
    match s.clients[i].pc
    case LockFirst => !LockFree(s, i, FirstLock(s.clients[i].op))
    case LockSecond => !LockFree(s, i, SecondLock(s.clients[i].op))
    case Insert => InsertMustWait(s, i)
    case _ => false
  }

  predicate Unfinished(s: Sys, i: nat) { i < |s.clients| && s.clients[i].pc != Done }

  /** The database draws ids that no row and no open call has. */
  predicate FreshId(s: Sys, id: Uuid) {
    forall j :: 0 <= j < |s.clients| ==> s.clients[j].id != id
  }

  predicate Enabled(s: Sys, a: Action) {
    match a
    case Start(op, id) => FreshId(s, id)
    case OpenWallet(w) => w !in s.store.wallets
    case SetFlags(w, _, _) => w in s.store.wallets && LockFree(s, -1, w)
    case Call(i) => Unfinished(s, i) && !Blocked(s, i) && ProperPC(s.clients[i])
    case Fail(i) => Unfinished(s, i) && s.clients[i].pc != Validate
    case LoseCommitReply(i) => Unfinished(s, i) && s.clients[i].pc == CommitTx
  }

  /** The commit takes effect; the caller then sees `seen`. */
  function CommitAndReturn(s: Sys, i: nat, seen: Client): Sys
    requires i < |s.clients|
  {
    var c := s.clients[i];
    Sys(Commit(s.store, c.tx), s.clients[i := seen], s.history + [Committed(c.op, c.id)])
  }

  function Do(s: Sys, a: Action): Sys
    requires Enabled(s, a)
  {
    match a
    case Start(op, id) => s.(clients := s.clients + [NewClient(op, id)])
    case OpenWallet(w) =>
      s.(store := s.store.(wallets := s.store.wallets[w := WalletRow(0, false, false)]),
          history := s.history + [Opened(w)])
    case SetFlags(w, f, d) =>
      s.(store := s.store.(wallets := s.store.wallets[w := WalletRow(s.store.wallets[w].balance, f, d)]),
         history := s.history + [Flagged(w, f, d)])
    case Call(i) =>
      var c := s.clients[i];
      if c.pc == CommitTx then CommitAndReturn(s, i, DoReturn(c))
          else s.(clients := s.clients[i := Advance(s.store, c)])
    case Fail(i) =>
      var c := s.clients[i];
      s.(clients := s.clients[i := Abort(c, Failed(if c.pc == CommitTx then CommitFailed else Unavailable))])
    case LoseCommitReply(i) => CommitAndReturn(s, i, Abort(s.clients[i], Failed(CommitFailed)))
  }

  function Step(s: Sys, a: Action): Sys {
    if Enabled(s, a) then Do(s, a) else s
  }

  function Run(trace: seq<Action>): Sys {
    if trace == [] then INIT else Step(Run(trace[..|trace| - 1]), trace[|trace| - 1])
  }

  // ---- the serial run the interleaved one is compared with

  /** One event, whole and alone. */
  function Apply(db: Store, e: Event): Result<Store, Error> {
    match e
    case Committed(op, id) => Perform(db, op, id)
    case Opened(w) =>
      if w in db.wallets then Err(ConstraintViolated)
          else Ok(db.(wallets := db.wallets[w := WalletRow(0, false, false)]))
    case Flagged(w, f, d) =>
      if w in db.wallets then Ok(db.(wallets := db.wallets[w := WalletRow(db.wallets[w].balance, f, d)]))
          else Err(WalletNotFound)
  }

  /** The events one at a time in order, from the empty database; an error if any of them fails. */
  function Serial(history: seq<Event>): Result<Store, Error> {
    if history == [] then Ok(EMPTY_STORE)
    else match Serial(history[..|history| - 1])
      case Ok(db) => Apply(db, history[|history| - 1])
      case Err(e) => Err(e)
  }
}
