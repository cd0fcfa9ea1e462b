/**
 The books: what every serial run of transfers, issuances and wallet changes keeps about balances, entries,
 transactions and issuances. By serialisability the interleaved runs keep it too.
 */
module LedgerBooks {
  import opened Wrappers
  import opened Uuids
  import opened LedgerModel
  import opened LedgerMachine

  // ---- conservation

  /** The sum of all wallet balances. */
  ghost function Total(wallets: map<Uuid, WalletRow>): int {
    if wallets == map[] then 0
    else
      var w :| w in wallets;
      wallets[w].balance + Total(wallets - {w})
  }

  /** The sum of all settled issuances. */
  function Minted(issuances: seq<Issuance>): int {
    if issuances == [] then 0 else Minted(issuances[..|issuances| - 1]) + issuances[|issuances| - 1].amount
  }

  /** Any wallet may be counted first. */
  lemma {:induction false} TotalCountsEach(wallets: map<Uuid, WalletRow>, w: Uuid)
    requires w in wallets
    ensures Total(wallets) == wallets[w].balance + Total(wallets - {w})
    decreases |wallets|
  {
    var v :| v in wallets && Total(wallets) == wallets[v].balance + Total(wallets - {v});
    if v != w {
      TotalCountsEach(wallets - {v}, w);
      TotalCountsEach(wallets - {w}, v);
      assert wallets - {v} - {w} == wallets - {w} - {v};
    }
  }

  lemma TotalAfterUpdate(wallets: map<Uuid, WalletRow>, w: Uuid, row: WalletRow)
    ensures Total(wallets[w := row]) == Total(wallets) + row.balance - (if w in wallets then wallets[w].balance else 0)
  {
    var after := wallets[w := row];
    TotalCountsEach(after, w);
    if w in wallets {
      TotalCountsEach(wallets, w);
      assert after - {w} == wallets - {w};
    } else {
      assert after - {w} == wallets;
    }
  }

  ghost predicate Conserved(db: Store) {
    Total(db.wallets) == Minted(db.issuances)
  }

  // ---- the balance history of each wallet

  /** A wallet's balance according to its last entry; 0 before the first. */
  function LastBalance(entries: seq<Entry>, w: Uuid): int {
    if entries == [] then 0
    else if entries[|entries| - 1].wallet == w then entries[|entries| - 1].balanceAfter
    else LastBalance(entries[..|entries| - 1], w)
  }

  function Signed(e: Entry): int {
    if e.kind == Credit then e.amount else -e.amount
  }

  /** A wallet's credits minus its debits. */
  function Net(entries: seq<Entry>, w: Uuid): int {
    if entries == [] then 0
    else Net(entries[..|entries| - 1], w) + if entries[|entries| - 1].wallet == w then Signed(entries[|entries| - 1])
        else 0
  }

  /** Every entry continues its wallet's balance history. */
  ghost predicate Chained(entries: seq<Entry>) {
    forall k :: 0 <= k < |entries| ==>
      entries[k].amount > 0
          && entries[k].balanceAfter == LastBalance(entries[..k], entries[k].wallet) + Signed(entries[k])
  }

  ghost predicate HistoryMatches(db: Store) {
    && Chained(db.entries)
    && (forall k :: 0 <= k < |db.entries| ==> db.entries[k].wallet in db.wallets)
    && (forall w :: w in db.wallets ==> db.wallets[w].balance == LastBalance(db.entries, w))
  }

  lemma LastBalanceAppend(entries: seq<Entry>, e: Entry, w: Uuid)
    ensures LastBalance(entries + [e], w) == if e.wallet == w then e.balanceAfter else LastBalance(entries, w)
  {
    assert (entries + [e])[..|entries|] == entries;
  }

  lemma ChainedAppend(entries: seq<Entry>, e: Entry)
    requires Chained(entries) && e.amount > 0 && e.balanceAfter == LastBalance(entries, e.wallet) + Signed(e)
    ensures Chained(entries + [e])
  {
    var after := entries + [e];
    forall k | 0 <= k < |after|
      ensures after[k].amount > 0
          && after[k].balanceAfter == LastBalance(after[..k], after[k].wallet) + Signed(after[k])
    {
      assert after[..k] == entries[..k];
      assert entries[..|entries|] == entries;
    }
  }

  lemma {:induction false} LastBalanceOfUnknown(entries: seq<Entry>, w: Uuid)
    requires forall k :: 0 <= k < |entries| ==> entries[k].wallet != w
    ensures LastBalance(entries, w) == 0
  {
    if entries != [] {
      LastBalanceOfUnknown(entries[..|entries| - 1], w);
    }
  }

  /** A chained history telescopes: the last balance is the credits minus the debits. */
  lemma {:induction false} ChainTelescopes(entries: seq<Entry>, w: Uuid)
    requires Chained(entries)
    ensures LastBalance(entries, w) == Net(entries, w)
  {
    if entries != [] {
      var n := |entries| - 1;
      assert Chained(entries[..n]) by {
        forall k | 0 <= k < n
          ensures entries[..n][k].balanceAfter
              == LastBalance(entries[..n][..k], entries[..n][k].wallet) + Signed(entries[..n][k])
        {
          assert entries[..n][..k] == entries[..k];
        }
      }
      ChainTelescopes(entries[..n], w);
    }
  }

  // ---- the shape of transactions and their entries

  function EntriesOf(entries: seq<Entry>, id: Uuid): seq<Entry> {
    if entries == [] then []
    else
      var last := entries[|entries| - 1];
      EntriesOf(entries[..|entries| - 1], id) + if last.txn == id then [last] else []
  }

  function IssuancesOf(issuances: seq<Issuance>, id: Uuid): seq<Issuance> {
    if issuances == [] then []
    else
      var last := issuances[|issuances| - 1];
      IssuancesOf(issuances[..|issuances| - 1], id) + if last.txn == id then [last] else []
  }

  predicate IsEntry(e: Entry, w: Uuid, kind: EntryType, amount: int) {
    e.wallet == w && e.kind == kind && e.amount == amount
  }

  /** A transfer has one debit of its sender and one credit of its receiver, of its amount, and no issuance
      row; an issuance has one credit of its receiver and one issuance row. */
  ghost predicate WellRecorded(t: Txn, entries: seq<Entry>, issuances: seq<Issuance>) {
    && t.status == Settled && t.amount > 0 && t.receiver.Some?
    && if t.sender.Some? then
         && t.sender != t.receiver
         && |entries| == 2 && issuances == []
         && IsEntry(entries[0], t.sender.value, Debit, t.amount)
         && IsEntry(entries[1], t.receiver.value, Credit, t.amount)
       else
         && t.txnType == TypeIssuance
         && |entries| == 1 && |issuances| == 1
         && IsEntry(entries[0], t.receiver.value, Credit, t.amount)
         && issuances[0].wallet == t.receiver.value && issuances[0].amount == t.amount
  }

  ghost predicate TxnsRecorded(txns: seq<Txn>, entries: seq<Entry>, issuances: seq<Issuance>) {
    forall k :: 0 <= k < |txns| ==>
        WellRecorded(txns[k], EntriesOf(entries, txns[k].id), IssuancesOf(issuances, txns[k].id))
  }

  /** No entry and no issuance row stands without its transaction. */
  ghost predicate RowsKnown(txns: seq<Txn>, entries: seq<Entry>, issuances: seq<Issuance>) {
    && (forall k :: 0 <= k < |entries| ==> HasTxn(txns, entries[k].txn))
    && (forall k :: 0 <= k < |issuances| ==> HasTxn(txns, issuances[k].txn))
  }

  ghost predicate AllRecorded(db: Store) {
    TxnsRecorded(db.txns, db.entries, db.issuances) && RowsKnown(db.txns, db.entries, db.issuances)
  }

  lemma EntriesOfAppend(entries: seq<Entry>, e: Entry, id: Uuid)
    ensures EntriesOf(entries + [e], id) == EntriesOf(entries, id) + if e.txn == id then [e] else []
  {
    assert (entries + [e])[..|entries|] == entries;
  }

  lemma IssuancesOfAppend(issuances: seq<Issuance>, r: Issuance, id: Uuid)
    ensures IssuancesOf(issuances + [r], id) == IssuancesOf(issuances, id) + if r.txn == id then [r] else []
  {
    assert (issuances + [r])[..|issuances|] == issuances;
  }

  lemma {:induction false} EntriesOfUnknown(entries: seq<Entry>, id: Uuid)
    requires forall k :: 0 <= k < |entries| ==> entries[k].txn != id
    ensures EntriesOf(entries, id) == []
  {
    if entries != [] {
      EntriesOfUnknown(entries[..|entries| - 1], id);
    }
  }

  lemma {:induction false} IssuancesOfUnknown(issuances: seq<Issuance>, id: Uuid)
    requires forall k :: 0 <= k < |issuances| ==> issuances[k].txn != id
    ensures IssuancesOf(issuances, id) == []
  {
    if issuances != [] {
      IssuancesOfUnknown(issuances[..|issuances| - 1], id);
    }
  }

  // ---- keys

  ghost predicate KeysUnique(db: Store) {
    && (forall k, l :: 0 <= k < l < |db.txns| ==> !SameKey(db.txns[k], db.txns[l]))
    && (forall k, l :: 0 <= k < l < |db.txns| ==> db.txns[k].id != db.txns[l].id)
  }

  ghost predicate Books(db: Store) {
    InRange(db) && Conserved(db) && HistoryMatches(db) && AllRecorded(db) && KeysUnique(db)
  }

  // ---- every event keeps the books

  lemma TransferFacts(db: Store, p: TransferParams, id: Uuid, after: Store)
    requires PerformTransfer(db, p, id) == Ok(after)
    ensures p.amount > 0 && p.sender != p.receiver && p.sender in db.wallets && p.receiver in db.wallets
    ensures db.wallets[p.sender].balance >= p.amount && db.wallets[p.receiver].balance + p.amount <= MAX_BIGINT
    ensures Insertable(db, TransferTxn(p, id, Pending))
    ensures after.wallets
        == db.wallets[p.sender := Pay(db.wallets[p.sender], -p.amount)]
        [p.receiver := Pay(db.wallets[p.receiver], p.amount)]
    ensures after.txns == db.txns + [TransferTxn(p, id, Settled)]
    ensures after.entries == db.entries + [TransferEntries(db, p, id)[0]] + [TransferEntries(db, p, id)[1]]
    ensures after.issuances == db.issuances
  {
    hide Insertable;
  }

  lemma IssueFacts(db: Store, p: IssueParams, id: Uuid, after: Store)
    requires PerformIssue(db, p, id) == Ok(after)
    ensures p.amount > 0 && p.wallet in db.wallets && db.wallets[p.wallet].balance + p.amount <= MAX_BIGINT
    ensures Insertable(db, IssueTxn(p, id, Pending))
    ensures after.wallets == db.wallets[p.wallet := Pay(db.wallets[p.wallet], p.amount)]
    ensures after.txns == db.txns + [IssueTxn(p, id, Settled)]
    ensures after.entries
        == db.entries + [Entry(p.wallet, id, Credit, p.amount, db.wallets[p.wallet].balance + p.amount)]
    ensures after.issuances == db.issuances + [Issuance(p.admin, p.wallet, id, p.amount, p.reason)]
  {
    hide Insertable;
  }

  lemma TransferConserves(db: Store, p: TransferParams, id: Uuid, after: Store)
    requires PerformTransfer(db, p, id) == Ok(after) && InRange(db) && Conserved(db)
    ensures InRange(after) && Conserved(after)
  {
    TransferFacts(db, p, id, after);
    hide PerformTransfer, Insertable;
    var debited := db.wallets[p.sender := Pay(db.wallets[p.sender], -p.amount)];
    TotalAfterUpdate(db.wallets, p.sender, Pay(db.wallets[p.sender], -p.amount));
    TotalAfterUpdate(debited, p.receiver, Pay(db.wallets[p.receiver], p.amount));
  }

  lemma IssueConserves(db: Store, p: IssueParams, id: Uuid, after: Store)
    requires PerformIssue(db, p, id) == Ok(after) && InRange(db) && Conserved(db)
    ensures InRange(after) && Conserved(after)
  {
    IssueFacts(db, p, id, after);
    hide PerformIssue, Insertable;
    TotalAfterUpdate(db.wallets, p.wallet, Pay(db.wallets[p.wallet], p.amount));
    assert after.issuances[..|db.issuances|] == db.issuances;
  }

  /** One more entry, with the wallet row moved to the entry's balance. */
  lemma PostKeepsHistory(wallets: map<Uuid, WalletRow>, entries: seq<Entry>, e: Entry)
    requires HistoryMatches(Store(wallets, [], entries, []))
    requires e.wallet in wallets && e.amount > 0 && e.balanceAfter == wallets[e.wallet].balance + Signed(e)
    ensures HistoryMatches(Store(wallets[e.wallet := Pay(wallets[e.wallet], Signed(e))], [], entries + [e], []))
  {
    ChainedAppend(entries, e);
    var after := wallets[e.wallet := Pay(wallets[e.wallet], Signed(e))];
    forall w | w in after
      ensures after[w].balance == LastBalance(entries + [e], w)
    {
      LastBalanceAppend(entries, e, w);
    }
    hide Chained, LastBalance;
  }

  lemma TransferKeepsHistory(db: Store, p: TransferParams, id: Uuid, after: Store)
    requires PerformTransfer(db, p, id) == Ok(after) && HistoryMatches(db)
    ensures HistoryMatches(after)
  {
    TransferFacts(db, p, id, after);
    hide PerformTransfer, Insertable, Chained, LastBalance;
    var es := TransferEntries(db, p, id);
    PostKeepsHistory(db.wallets, db.entries, es[0]);
    PostKeepsHistory(db.wallets[p.sender := Pay(db.wallets[p.sender], -p.amount)], db.entries + [es[0]], es[1]);
  }

  lemma IssueKeepsHistory(db: Store, p: IssueParams, id: Uuid, after: Store)
    requires PerformIssue(db, p, id) == Ok(after) && HistoryMatches(db)
    ensures HistoryMatches(after)
  {
    IssueFacts(db, p, id, after);
    hide PerformIssue, Insertable, Chained, LastBalance;
    PostKeepsHistory(db.wallets, db.entries,
        Entry(p.wallet, id, Credit, p.amount, db.wallets[p.wallet].balance + p.amount));
  }

  lemma KeysAfterInsert(db: Store, t: Txn, u: Txn, after: seq<Txn>)
    requires KeysUnique(db) && Insertable(db, t) && u == t.(status := Settled) && after == db.txns + [u]
    ensures KeysUnique(Store(map[], after, [], []))
  {
    assert forall k :: 0 <= k < |db.txns| ==> SameKey(db.txns[k], u) == SameKey(t, db.txns[k]);
  }

  lemma NewIsUnknown(db: Store, t: Txn)
    requires AllRecorded(db) && Insertable(db, t)
    ensures EntriesOf(db.entries, t.id) == [] && IssuancesOf(db.issuances, t.id) == []
    ensures forall k :: 0 <= k < |db.txns| ==> db.txns[k].id != t.id
  {
    forall k | 0 <= k < |db.entries|
      ensures db.entries[k].txn != t.id
    {
      assert HasTxn(db.txns, db.entries[k].txn);
    }
    forall k | 0 <= k < |db.issuances|
      ensures db.issuances[k].txn != t.id
    {
      assert HasTxn(db.txns, db.issuances[k].txn);
    }
    EntriesOfUnknown(db.entries, t.id);
    IssuancesOfUnknown(db.issuances, t.id);
  }

  lemma HasTxnAfter(txns: seq<Txn>, u: Txn, id: Uuid)
    ensures HasTxn(txns, id) || id == u.id ==> HasTxn(txns + [u], id)
  {
    if HasTxn(txns, id) {
      var k :| 0 <= k < |txns| && txns[k].id == id;
      assert (txns + [u])[k].id == id;
    } else {
      assert (txns + [u])[|txns|] == u;
    }
  }

  lemma RowsKnownAfter(txns: seq<Txn>, entries: seq<Entry>, issuances: seq<Issuance>, u: Txn, es: seq<Entry>,
      rows: seq<Issuance>)
    requires RowsKnown(txns, entries, issuances)
    requires forall k :: 0 <= k < |es| ==> es[k].txn == u.id
    requires forall k :: 0 <= k < |rows| ==> rows[k].txn == u.id
    ensures RowsKnown(txns + [u], entries + es, issuances + rows)
  {
    hide HasTxn;
    forall k | 0 <= k < |entries + es|
      ensures HasTxn(txns + [u], (entries + es)[k].txn)
    {
      HasTxnAfter(txns, u, (entries + es)[k].txn);
    }
    forall k | 0 <= k < |issuances + rows|
      ensures HasTxn(txns + [u], (issuances + rows)[k].txn)
    {
      HasTxnAfter(txns, u, (issuances + rows)[k].txn);
    }
  }

  /** A new transaction whose rows are `es` and `rows` is recorded, and nobody else's record changes. */
  lemma RecordsAfter(db: Store, t: Txn, u: Txn, es: seq<Entry>, rows: seq<Issuance>, after: Store)
    requires AllRecorded(db) && Insertable(db, t) && u == t.(status := Settled)
    requires after.txns == db.txns + [u] && after.entries == db.entries + es && after.issuances == db.issuances + rows
    requires forall k :: 0 <= k < |es| ==> es[k].txn == t.id
    requires forall k :: 0 <= k < |rows| ==> rows[k].txn == t.id
    requires WellRecorded(u, es, rows)
    requires forall id :: EntriesOf(after.entries, id) == if id == t.id then EntriesOf(db.entries, id) + es
        else EntriesOf(db.entries, id)
    requires forall id :: IssuancesOf(after.issuances, id) == if id == t.id then IssuancesOf(db.issuances, id) + rows
        else IssuancesOf(db.issuances, id)
    ensures AllRecorded(after)
  {
    hide WellRecorded, EntriesOf, IssuancesOf, RowsKnown, HasTxn, Insertable;
    NewIsUnknown(db, t);
    RowsKnownAfter(db.txns, db.entries, db.issuances, u, es, rows);
    forall k | 0 <= k < |after.txns|
      ensures WellRecorded(after.txns[k], EntriesOf(after.entries, after.txns[k].id),
          IssuancesOf(after.issuances, after.txns[k].id))
    {
      if k < |db.txns| {
        assert after.txns[k] == db.txns[k] && db.txns[k].id != t.id;
      } else {
        assert [] + es == es && [] + rows == rows;
      }
    }
  }

  lemma TransferRecords(db: Store, p: TransferParams, id: Uuid, after: Store)
    requires PerformTransfer(db, p, id) == Ok(after) && AllRecorded(db)
    ensures AllRecorded(after)
  {
    TransferFacts(db, p, id, after);
    var es := TransferEntries(db, p, id);
    assert after.entries == db.entries + es;
    forall i: Uuid
      ensures EntriesOf(after.entries, i) == if i == id then EntriesOf(db.entries, i) + es else EntriesOf(db.entries, i)
    {
      EntriesOfAppend(db.entries, es[0], i);
      EntriesOfAppend(db.entries + [es[0]], es[1], i);
    }
    assert forall i: Uuid :: IssuancesOf(db.issuances, i) + [] == IssuancesOf(db.issuances, i);
    hide PerformTransfer, Insertable, AllRecorded, EntriesOf, IssuancesOf;
    RecordsAfter(db, TransferTxn(p, id, Pending), TransferTxn(p, id, Settled), es, [], after);
  }

  lemma IssueRecords(db: Store, p: IssueParams, id: Uuid, after: Store)
    requires PerformIssue(db, p, id) == Ok(after) && AllRecorded(db)
    ensures AllRecorded(after)
  {
    IssueFacts(db, p, id, after);
    var e := Entry(p.wallet, id, Credit, p.amount, db.wallets[p.wallet].balance + p.amount);
    var r := Issuance(p.admin, p.wallet, id, p.amount, p.reason);
    forall i: Uuid
      ensures EntriesOf(after.entries, i) == if i == id then EntriesOf(db.entries, i) + [e]
          else EntriesOf(db.entries, i)
      ensures IssuancesOf(after.issuances, i) == if i == id then IssuancesOf(db.issuances, i) + [r]
          else IssuancesOf(db.issuances, i)
    {
      EntriesOfAppend(db.entries, e, i);
      IssuancesOfAppend(db.issuances, r, i);
    }
    hide PerformIssue, Insertable, AllRecorded, EntriesOf, IssuancesOf;
    RecordsAfter(db, IssueTxn(p, id, Pending), IssueTxn(p, id, Settled), [e], [r], after);
  }

  lemma TransferKeepsBooks(db: Store, p: TransferParams, id: Uuid, after: Store)
    requires PerformTransfer(db, p, id) == Ok(after) && Books(db)
    ensures Books(after)
  {
    TransferFacts(db, p, id, after);
    TransferConserves(db, p, id, after);
    TransferKeepsHistory(db, p, id, after);
    TransferRecords(db, p, id, after);
    hide PerformTransfer, Insertable, AllRecorded, HistoryMatches, Conserved;
    KeysAfterInsert(db, TransferTxn(p, id, Pending), TransferTxn(p, id, Settled), after.txns);
  }

  lemma IssueKeepsBooks(db: Store, p: IssueParams, id: Uuid, after: Store)
    requires PerformIssue(db, p, id) == Ok(after) && Books(db)
    ensures Books(after)
  {
    IssueFacts(db, p, id, after);
    IssueConserves(db, p, id, after);
    IssueKeepsHistory(db, p, id, after);
    IssueRecords(db, p, id, after);
    hide PerformIssue, Insertable, AllRecorded, HistoryMatches, Conserved;
    KeysAfterInsert(db, IssueTxn(p, id, Pending), IssueTxn(p, id, Settled), after.txns);
  }

  /** A wallet opened or flagged: balances keep their values, a new one starts at 0 with no entries. */
  lemma RowKeepsBooks(db: Store, w: Uuid, row: WalletRow)
    requires Books(db) && row.balance == if w in db.wallets then db.wallets[w].balance else 0
    ensures Books(db.(wallets := db.wallets[w := row]))
  {
    var after := db.(wallets := db.wallets[w := row]);
    TotalAfterUpdate(db.wallets, w, row);
    RowKeepsHistory(db, w, row);
    AllRecordedIgnoresWallets(db, after);
    KeysIgnoreWallets(db, after);
    hide HistoryMatches, AllRecorded, KeysUnique, Total;
  }

  lemma RowKeepsHistory(db: Store, w: Uuid, row: WalletRow)
    requires HistoryMatches(db) && row.balance == if w in db.wallets then db.wallets[w].balance else 0
    ensures HistoryMatches(db.(wallets := db.wallets[w := row]))
  {
    if w !in db.wallets {
      LastBalanceOfUnknown(db.entries, w);
    }
    hide Chained, LastBalance;
  }

  lemma AllRecordedIgnoresWallets(db: Store, after: Store)
    requires AllRecorded(db) && after == db.(wallets := after.wallets)
    ensures AllRecorded(after)
  {
    hide WellRecorded, EntriesOf, IssuancesOf, HasTxn;
  }

  lemma KeysIgnoreWallets(db: Store, after: Store)
    requires KeysUnique(db) && after == db.(wallets := after.wallets)
    ensures KeysUnique(after)
  {
    hide SameKey;
  }

  lemma ApplyKeepsBooks(db: Store, e: Event, after: Store)
    requires Books(db) && Apply(db, e) == Ok(after)
    ensures Books(after)
  {
    hide Books, PerformTransfer, PerformIssue;
    match e
    case Committed(op, id) =>
      match op {
        case Transfer(p) => TransferKeepsBooks(db, p, id, after);
        case Issue(p) => IssueKeepsBooks(db, p, id, after);
      }
    case Opened(w) => RowKeepsBooks(db, w, WalletRow(0, false, false));
    case Flagged(w, f, d) => RowKeepsBooks(db, w, WalletRow(db.wallets[w].balance, f, d));
  }

  lemma {:induction false} SerialKeepsBooks(history: seq<Event>, db: Store)
    requires Serial(history) == Ok(db)
    ensures Books(db)
  {
    if history != [] {
      var before := Serial(history[..|history| - 1]).value;
      SerialKeepsBooks(history[..|history| - 1], before);
      ApplyKeepsBooks(before, history[|history| - 1], db);
    }
  }
}
