/**
 What one open transaction has read, checked and written, as a function of where its client stands, and that the
 client's own steps keep it so.
 */
module LedgerClient {
  import opened Uuids
  import opened LedgerModel
  import opened LedgerMachine

  function Rank(pc: PC): nat {
    match pc
    case Validate => 0
    case CheckKey => 1
    case Begin => 2
    case LockFirst => 3
    case LockSecond => 4
    case Rules => 5
    case Insert => 6
    case DebitBalance => 7
    case DebitEntry => 8
    case CreditBalance => 9
    case CreditEntry => 10
    case Settle => 11
    case Record => 12
    case CommitTx => 13
    case Done => 14
  }

  /** The client has made the call that stands at pc. */
  predicate Past(c: Client, pc: PC) { Rank(c.pc) > Rank(pc) }

  predicate ValidOp(op: Op) {
    Amount(op) > 0 && (op.Transfer? ==> op.t.sender != op.t.receiver)
  }

  function RowOf(db: Store, w: Uuid): WalletRow {
    if w in db.wallets then db.wallets[w] else WalletRow(0, false, false)
  }

  // ---- what an open transaction has done so far, as a function of where it stands

  function HeldAt(op: Op, first: bool, second: bool): set<Uuid> {
    (if first then {FirstLock(op)} else {}) + (if second then {SecondLock(op)} else {})
  }

  function RowsAt(db: Store, op: Op, debited: bool, credited: bool): map<Uuid, WalletRow> {
    var rows := if op.Transfer? && debited then map[op.t.sender := Pay(RowOf(db, op.t.sender), -op.t.amount)]
        else map[];
    if credited then rows[Payee(op) := Pay(RowOf(db, Payee(op)), Amount(op))] else rows
  }

  function TxnsAt(op: Op, id: Uuid, inserted: bool, settled: bool): seq<Txn> {
    if settled then [TxnOf(op, id, Settled)] else if inserted then [TxnOf(op, id, Pending)] else []
  }

  function EntriesAt(db: Store, op: Op, id: Uuid, debit: bool, credit: bool): seq<Entry> {
    (if op.Transfer? && debit
     then [Entry(op.t.sender, id, Debit, op.t.amount, RowOf(db, op.t.sender).balance - op.t.amount)] else []) +
    (if credit then [Entry(Payee(op), id, Credit, Amount(op), RowOf(db, Payee(op)).balance + Amount(op))] else [])
  }

  function IssuancesAt(op: Op, id: Uuid, recorded: bool): seq<Issuance> {
    if op.Issue? && recorded then [Issuance(op.i.admin, op.i.wallet, id, op.i.amount, op.i.reason)] else []
  }

  /** A read row is still the committed row. */
  predicate ReadIsCurrent(db: Store, w: Uuid, read: Wallet) {
    Live(db, w) && read == Wallet(w, db.wallets[w].balance, db.wallets[w].frozen)
  }

  /** The rules that were checked on the locked rows still hold of the committed rows. */
  predicate RulesHold(db: Store, op: Op) {
    match op
    case Transfer(p) => !RowOf(db, p.sender).frozen && !RowOf(db, p.receiver).frozen
        && RowOf(db, p.sender).balance >= p.amount
    case Issue(p) => !RowOf(db, p.wallet).frozen
  }

  /** Everything an open transaction has read or checked is still true of the committed rows. */
  predicate ChecksHold(db: Store, c: Client) {
    && (Past(c, LockFirst) ==> ReadIsCurrent(db, FirstLock(c.op), c.first))
    && (c.op.Transfer? && Past(c, LockSecond) ==> ReadIsCurrent(db, SecondLock(c.op), c.second))
    && (Past(c, Rules) ==> RulesHold(db, c.op))
    && (Past(c, Insert) ==> Insertable(db, TxnOf(c.op, c.id, Pending)))
    && (c.op.Transfer? && Past(c, DebitBalance) ==> c.debited == RowOf(db, c.op.t.sender).balance - c.op.t.amount)
    && (Past(c, CreditBalance) ==> c.credited == RowOf(db, Payee(c.op)).balance + Amount(c.op) <= MAX_BIGINT)
    && (c.op.Issue? && Past(c, Record) ==> Amount(c.op) <= ISSUANCE_CAP)
  }

  predicate WritesMatch(db: Store, c: Client) {
    && c.tx.held == HeldAt(c.op, Past(c, LockFirst), c.op.Transfer? && Past(c, LockSecond))
    && c.tx.rows == RowsAt(db, c.op, c.op.Transfer? && Past(c, DebitBalance), Past(c, CreditBalance))
    && c.tx.txns == TxnsAt(c.op, c.id, Past(c, Insert), Past(c, Settle))
    && c.tx.entries == EntriesAt(db, c.op, c.id, c.op.Transfer? && Past(c, DebitEntry), Past(c, CreditEntry))
    && c.tx.issuances == IssuancesAt(c.op, c.id, c.op.Issue? && Past(c, Record))
  }

  predicate ClientInv(db: Store, c: Client) {
    && ProperPC(c)
    && (c.pc == Done ==> c.tx == EMPTY_TX)
    && (c.pc != Done && c.pc != Validate ==> ValidOp(c.op))
    && (c.pc != Done ==> ChecksHold(db, c) && WritesMatch(db, c))
  }

  // ---- one client's own step

  /** The two locks of a transfer are its two wallets. */
  lemma LockedPair(op: Op)
    requires op.Transfer?
    ensures {FirstLock(op), SecondLock(op)} == {op.t.sender, op.t.receiver}
    ensures FirstLock(op) != SecondLock(op) <==> op.t.sender != op.t.receiver
  {
  }

  lemma ValidateChecks(db: Store, c: Client)
    requires ClientInv(db, c) && c.pc == Validate
    ensures DoValidate(c).pc != Done ==> ChecksHold(db, DoValidate(c))
  {
    hide HeldAt, RowsAt, TxnsAt, EntriesAt, IssuancesAt, OrderedLockIDs, GetWalletForUpdate, Insertable, ReadIsCurrent;
    hide RulesHold;
  }

  lemma ValidateWrites(db: Store, c: Client)
    requires ClientInv(db, c) && c.pc == Validate
    ensures DoValidate(c).pc != Done ==> WritesMatch(db, DoValidate(c))
  {
    hide HeldAt, RowsAt, TxnsAt, EntriesAt, IssuancesAt, OrderedLockIDs, GetWalletForUpdate, Insertable, ReadIsCurrent;
    hide RulesHold, ChecksHold;
  }

  lemma CheckKeyChecks(db: Store, c: Client)
    requires ClientInv(db, c) && c.pc == CheckKey
    ensures DoCheckKey(db, c).pc != Done ==> ChecksHold(db, DoCheckKey(db, c))
  {
    hide HeldAt, RowsAt, TxnsAt, EntriesAt, IssuancesAt, OrderedLockIDs, GetWalletForUpdate, Insertable, ReadIsCurrent;
    hide RulesHold;
  }

  lemma CheckKeyWrites(db: Store, c: Client)
    requires ClientInv(db, c) && c.pc == CheckKey
    ensures DoCheckKey(db, c).pc != Done ==> WritesMatch(db, DoCheckKey(db, c))
  {
    hide HeldAt, RowsAt, TxnsAt, EntriesAt, IssuancesAt, OrderedLockIDs, GetWalletForUpdate, Insertable, ReadIsCurrent;
    hide RulesHold, ChecksHold;
  }

  lemma BeginChecks(db: Store, c: Client)
    requires ClientInv(db, c) && c.pc == Begin
    ensures c.(pc := LockFirst).pc != Done ==> ChecksHold(db, c.(pc := LockFirst))
  {
    hide HeldAt, RowsAt, TxnsAt, EntriesAt, IssuancesAt, OrderedLockIDs, GetWalletForUpdate, Insertable, ReadIsCurrent;
    hide RulesHold;
  }

  lemma BeginWrites(db: Store, c: Client)
    requires ClientInv(db, c) && c.pc == Begin
    ensures c.(pc := LockFirst).pc != Done ==> WritesMatch(db, c.(pc := LockFirst))
  {
    hide HeldAt, RowsAt, TxnsAt, EntriesAt, IssuancesAt, OrderedLockIDs, GetWalletForUpdate, Insertable, ReadIsCurrent;
    hide RulesHold, ChecksHold;
  }

  lemma LockFirstChecks(db: Store, c: Client)
    requires ClientInv(db, c) && c.pc == LockFirst
    ensures DoLockFirst(db, c).pc != Done ==> ChecksHold(db, DoLockFirst(db, c))
  {
    hide HeldAt, TxnsAt, EntriesAt, IssuancesAt, Before, Insertable;
  }

  lemma LockFirstWrites(db: Store, c: Client)
    requires ClientInv(db, c) && c.pc == LockFirst
    ensures DoLockFirst(db, c).pc != Done ==> WritesMatch(db, DoLockFirst(db, c))
  {
    hide RowsAt, TxnsAt, EntriesAt, IssuancesAt, Before, Insertable, ChecksHold;
  }

  lemma LockSecondChecks(db: Store, c: Client)
    requires ClientInv(db, c) && c.pc == LockSecond
    ensures DoLockSecond(db, c).pc != Done ==> ChecksHold(db, DoLockSecond(db, c))
  {
    hide HeldAt, TxnsAt, EntriesAt, IssuancesAt, Before, Insertable;
  }

  lemma LockSecondWrites(db: Store, c: Client)
    requires ClientInv(db, c) && c.pc == LockSecond
    ensures DoLockSecond(db, c).pc != Done ==> WritesMatch(db, DoLockSecond(db, c))
  {
    hide RowsAt, TxnsAt, EntriesAt, IssuancesAt, Before, Insertable, ChecksHold;
  }

  lemma RulesChecks(db: Store, c: Client)
    requires ClientInv(db, c) && c.pc == Rules
    ensures DoRules(c).pc != Done ==> ChecksHold(db, DoRules(c))
  {
    hide HeldAt, RowsAt, TxnsAt, EntriesAt, IssuancesAt, OrderedLockIDs, GetWalletForUpdate, Insertable;
    if c.op.Transfer? {
      LockedPair(c.op);
    }
  }

  lemma RulesWrites(db: Store, c: Client)
    requires ClientInv(db, c) && c.pc == Rules
    ensures DoRules(c).pc != Done ==> WritesMatch(db, DoRules(c))
  {
    hide HeldAt, RowsAt, TxnsAt, EntriesAt, IssuancesAt, OrderedLockIDs, GetWalletForUpdate, Insertable, ReadIsCurrent;
    hide RulesHold, ChecksHold;
  }

  lemma InsertChecks(db: Store, c: Client)
    requires ClientInv(db, c) && c.pc == Insert
    ensures DoInsert(db, c).pc != Done ==> ChecksHold(db, DoInsert(db, c))
  {
    hide HeldAt, RowsAt, EntriesAt, IssuancesAt, OrderedLockIDs, GetWalletForUpdate, ReadIsCurrent, RulesHold;
    assert db.(txns := db.txns + c.tx.txns) == db;
  }

  lemma InsertWrites(db: Store, c: Client)
    requires ClientInv(db, c) && c.pc == Insert
    ensures DoInsert(db, c).pc != Done ==> WritesMatch(db, DoInsert(db, c))
  {
    hide HeldAt, RowsAt, EntriesAt, IssuancesAt, OrderedLockIDs, GetWalletForUpdate, Insertable, ReadIsCurrent;
    hide RulesHold, ChecksHold;
  }

  lemma DebitChecks(db: Store, c: Client)
    requires ClientInv(db, c) && c.pc == DebitBalance
    ensures DoDebit(db, c).pc != Done ==> ChecksHold(db, DoDebit(db, c))
  {
    hide HeldAt, TxnsAt, EntriesAt, IssuancesAt, OrderedLockIDs, GetWalletForUpdate, Insertable, ReadIsCurrent;
    hide RulesHold;
  }

  lemma DebitWrites(db: Store, c: Client)
    requires ClientInv(db, c) && c.pc == DebitBalance
    ensures DoDebit(db, c).pc != Done ==> WritesMatch(db, DoDebit(db, c))
  {
    hide HeldAt, TxnsAt, EntriesAt, IssuancesAt, OrderedLockIDs, GetWalletForUpdate, Insertable, ReadIsCurrent;
    hide RulesHold, ChecksHold;
  }

  lemma DebitEntryChecks(db: Store, c: Client)
    requires ClientInv(db, c) && c.pc == DebitEntry
    ensures DoDebitEntry(db, c).pc != Done ==> ChecksHold(db, DoDebitEntry(db, c))
  {
    hide HeldAt, RowsAt, TxnsAt, EntriesAt, IssuancesAt, OrderedLockIDs, GetWalletForUpdate, Insertable, ReadIsCurrent;
    hide RulesHold;
  }

  lemma DebitEntryWrites(db: Store, c: Client)
    requires ClientInv(db, c) && c.pc == DebitEntry
    ensures DoDebitEntry(db, c).pc != Done ==> WritesMatch(db, DoDebitEntry(db, c))
  {
    hide HeldAt, RowsAt, TxnsAt, IssuancesAt, OrderedLockIDs, GetWalletForUpdate, Insertable, ReadIsCurrent, RulesHold;
  }

  lemma CreditChecks(db: Store, c: Client)
    requires ClientInv(db, c) && c.pc == CreditBalance
    ensures DoCredit(db, c).pc != Done ==> ChecksHold(db, DoCredit(db, c))
  {
    hide HeldAt, TxnsAt, EntriesAt, IssuancesAt, OrderedLockIDs, GetWalletForUpdate, Insertable, ReadIsCurrent;
    hide RulesHold;
  }

  lemma CreditWrites(db: Store, c: Client)
    requires ClientInv(db, c) && c.pc == CreditBalance
    ensures DoCredit(db, c).pc != Done ==> WritesMatch(db, DoCredit(db, c))
  {
    hide HeldAt, TxnsAt, EntriesAt, IssuancesAt, OrderedLockIDs, GetWalletForUpdate, Insertable, ReadIsCurrent;
    hide RulesHold, ChecksHold;
  }

  lemma CreditEntryChecks(db: Store, c: Client)
    requires ClientInv(db, c) && c.pc == CreditEntry
    ensures DoCreditEntry(db, c).pc != Done ==> ChecksHold(db, DoCreditEntry(db, c))
  {
    hide HeldAt, RowsAt, TxnsAt, EntriesAt, IssuancesAt, OrderedLockIDs, GetWalletForUpdate, Insertable, ReadIsCurrent;
    hide RulesHold;
  }

  lemma CreditEntryWrites(db: Store, c: Client)
    requires ClientInv(db, c) && c.pc == CreditEntry
    ensures DoCreditEntry(db, c).pc != Done ==> WritesMatch(db, DoCreditEntry(db, c))
  {
    CreditEntryPosts(db, c);
    CreditEntryGrows(db, c.op, c.id, c.op.Transfer? && Past(c, DebitEntry));
    hide HeldAt, RowsAt, TxnsAt, IssuancesAt, EntriesAt, OrderedLockIDs, Insertable, ReadIsCurrent, RulesHold;
    hide DoCreditEntry;
  }

  lemma CreditEntryGrows(db: Store, op: Op, id: Uuid, debit: bool)
    ensures EntriesAt(db, op, id, debit, true)
            == EntriesAt(db, op, id, debit, false)
               + [Entry(Payee(op), id, Credit, Amount(op), RowOf(db, Payee(op)).balance + Amount(op))]
  {
  }

  lemma CreditEntryPosts(db: Store, c: Client)
    ensures var d := DoCreditEntry(db, c);
            d.pc != Done ==>
              d == c.(pc := Settle,
                  tx := c.tx.(entries := c.tx.entries + [Entry(Payee(c.op), c.id, Credit, Amount(c.op), c.credited)]))
  {
  }

  lemma SettleChecks(db: Store, c: Client)
    requires ClientInv(db, c) && c.pc == Settle
    ensures DoSettle(c).pc != Done ==> ChecksHold(db, DoSettle(c))
  {
    hide HeldAt, RowsAt, TxnsAt, EntriesAt, IssuancesAt, OrderedLockIDs, GetWalletForUpdate, Insertable, ReadIsCurrent;
    hide RulesHold;
  }

  lemma SettleWrites(db: Store, c: Client)
    requires ClientInv(db, c) && c.pc == Settle
    ensures DoSettle(c).pc != Done ==> WritesMatch(db, DoSettle(c))
  {
    hide HeldAt, RowsAt, EntriesAt, IssuancesAt, OrderedLockIDs, GetWalletForUpdate, Insertable, ReadIsCurrent;
    hide RulesHold, ChecksHold;
    assert SettleTransaction(c.tx, c.id).txns == [TxnOf(c.op, c.id, Settled)];
  }

  lemma RecordChecks(db: Store, c: Client)
    requires ClientInv(db, c) && c.pc == Record
    ensures DoRecord(db, c).pc != Done ==> ChecksHold(db, DoRecord(db, c))
  {
    hide HeldAt, RowsAt, TxnsAt, EntriesAt, IssuancesAt, OrderedLockIDs, GetWalletForUpdate, Insertable, ReadIsCurrent;
    hide RulesHold;
  }

  lemma RecordWrites(db: Store, c: Client)
    requires ClientInv(db, c) && c.pc == Record
    ensures DoRecord(db, c).pc != Done ==> WritesMatch(db, DoRecord(db, c))
  {
    hide HeldAt, RowsAt, TxnsAt, EntriesAt, OrderedLockIDs, GetWalletForUpdate, Insertable, ReadIsCurrent, RulesHold;
    hide ChecksHold;
  }

  lemma AdvanceKeepsShape(db: Store, c: Client)
    requires ClientInv(db, c) && c.pc != CommitTx && c.pc != Done
    ensures var d := Advance(db, c); d.op == c.op && d.id == c.id && ProperPC(d)
    ensures var d := Advance(db, c); d.pc == Done ==> d.tx == EMPTY_TX
    ensures var d := Advance(db, c); d.pc != Done && d.pc != Validate ==> ValidOp(d.op)
  {
    hide ChecksHold, WritesMatch, OrderedLockIDs, TxnOf;
    hide GetWalletForUpdate, CreateTransaction, UpdateWalletBalance, CreateLedgerEntry, SettleTransaction;
    hide InsertIssuanceRecord;
  }

  lemma AdvanceKeepsWork(db: Store, c: Client)
    requires ClientInv(db, c) && c.pc != CommitTx && c.pc != Done
    ensures Advance(db, c).pc != Done ==> ChecksHold(db, Advance(db, c)) && WritesMatch(db, Advance(db, c))
  {
    hide ClientInv, ChecksHold, WritesMatch, DoValidate, DoCheckKey, DoLockFirst, DoLockSecond, DoRules;
    hide DoInsert, DoDebit, DoDebitEntry, DoCredit, DoCreditEntry, DoSettle, DoRecord;
    match c.pc
    case Validate => ValidateChecks(db, c); ValidateWrites(db, c);
    case CheckKey => CheckKeyChecks(db, c); CheckKeyWrites(db, c);
    case Begin => BeginChecks(db, c); BeginWrites(db, c);
    case LockFirst => LockFirstChecks(db, c); LockFirstWrites(db, c);
    case LockSecond => LockSecondChecks(db, c); LockSecondWrites(db, c);
    case Rules => RulesChecks(db, c); RulesWrites(db, c);
    case Insert => InsertChecks(db, c); InsertWrites(db, c);
    case DebitBalance => DebitChecks(db, c); DebitWrites(db, c);
    case DebitEntry => DebitEntryChecks(db, c); DebitEntryWrites(db, c);
    case CreditBalance => CreditChecks(db, c); CreditWrites(db, c);
    case CreditEntry => CreditEntryChecks(db, c); CreditEntryWrites(db, c);
    case Settle => SettleChecks(db, c); SettleWrites(db, c);
    case Record => RecordChecks(db, c); RecordWrites(db, c);
  }

  /** A client's own step keeps what its transaction stands for. */
  lemma AdvanceKeepsClient(db: Store, c: Client)
    requires ClientInv(db, c) && c.pc != CommitTx && c.pc != Done
    ensures ClientInv(db, Advance(db, c))
  {
    AdvanceKeepsShape(db, c);
    AdvanceKeepsWork(db, c);
    hide ChecksHold, WritesMatch, Advance, ValidOp, ProperPC;
  }
}
