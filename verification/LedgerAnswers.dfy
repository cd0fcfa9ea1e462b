/**
 What a call writes down and what it is told, on the rows and its own parameters: the columns of the recorded
 transaction, and for each refusal exactly when it is given.
 */
module LedgerAnswers {
  import opened Wrappers
  import opened Uuids
  import opened LedgerModel
  import opened LedgerMachine
  import opened LedgerRuns
  import opened LedgerProgress
  import opened LedgerLone

  // ---- what is recorded

  lemma SettledRecords(op: Op, id: Uuid)
    ensures op.Transfer? ==> RecordsTransfer(TxnOf(op, id, Settled), op.t, id)
    ensures op.Issue? ==> RecordsIssue(TxnOf(op, id, Settled), op.i, id)
  {
  }

  /** However calls interleave: a call that reports success has a committed row that carries its own parameters, column
      by column - for a transfer its type, or TRANSFER if it named none, its key and reference, or NULL if they are
      empty, and its signature. An issuance has its own issuance row beside it. */
  lemma {:induction false} RecordedAsAsked(trace: seq<Action>, i: nat)
    requires i < |Run(trace).clients| && Run(trace).clients[i].outcome.Success?
    ensures var db, c := Run(trace).store, Run(trace).clients[i];
            && c.outcome.txn in db.txns
            && match c.op
               case Transfer(p) => RecordsTransfer(c.outcome.txn, p, c.id)
               case Issue(p) =>
                 && RecordsIssue(c.outcome.txn, p, c.id)
                 && Issuance(p.admin, p.wallet, c.id, p.amount, p.reason) in db.issuances
  {
    RunKeepsInv(trace);
    var s := Run(trace);
    hide Run, Inv, RecordsTransfer, RecordsIssue, TxnOf;
    ClientInvAt(s, i);
    SettledRecords(s.clients[i].op, s.clients[i].id);
  }

  // ---- what is answered

  predicate Missing(db: Store, w: Uuid) { w !in db.wallets || db.wallets[w].deleted }

  /** A committed row has this sender and key. */
  ghost predicate KeyTaken(db: Store, sender: Uuid, key: string) {
    key != "" && exists k :: 0 <= k < |db.txns| && db.txns[k].sender == Some(sender) && db.txns[k].key == Some(key)
  }

  /** What a transfer is told that runs alone on these rows. */
  ghost predicate TransferAnswered(db: Store, p: TransferParams, id: Uuid, o: Outcome) {
    if p.amount <= 0 then o == Failed(AmountZero)
    else if p.sender == p.receiver then o == Failed(SelfTransfer)
    else if KeyTaken(db, p.sender, p.key) then
      o.Replay? && o.original in db.txns && o.original.sender == Some(p.sender) && o.original.key == Some(p.key)
    else if Missing(db, p.sender) || Missing(db, p.receiver) then o == Failed(WalletNotFound)
    else
      var from, to := db.wallets[p.sender], db.wallets[p.receiver];
      if from.frozen || to.frozen then o == Failed(WalletFrozen)
      else if from.balance < p.amount then o == Failed(InsufficientFunds)
      else if to.balance + p.amount > MAX_BIGINT || p.txnType == Some(TypeFee)
        || |p.key| > 128 || |p.reference| > 256 || |p.signature| > 128 then o == Failed(ConstraintViolated)
      else
        && o.Success? && RecordsTransfer(o.txn, p, id)
        && o.debited == from.balance - p.amount && o.credited == to.balance + p.amount
  }

  /** What an issuance is told that runs alone on these rows. */
  ghost predicate IssueAnswered(db: Store, p: IssueParams, id: Uuid, o: Outcome) {
    if p.amount <= 0 then o == Failed(AmountZero)
    else if Missing(db, p.wallet) then o == Failed(WalletNotFound)
    else
      var to := db.wallets[p.wallet];
      if to.frozen then o == Failed(WalletFrozen)
      else if p.amount > 100_000_000 || to.balance + p.amount > MAX_BIGINT || |p.signature| > 128 then
        o == Failed(ConstraintViolated)
      else o.Success? && RecordsIssue(o.txn, p, id) && o.credited == to.balance + p.amount
  }

  lemma KeyIsFound(db: Store, p: TransferParams)
    ensures KeyTaken(db, p.sender, p.key) <==> Recorded(db, Transfer(p)).Some?
  {
    if p.key != "" {
      var found := GetTransactionByIdempotencyKey(db.txns, p.sender, p.key);
      assert found.Some? ==> exists k :: 0 <= k < |db.txns| && db.txns[k] == found.value;
    }
  }

  lemma Insertability(db: Store, t: Txn)
    requires 0 < t.amount <= MAX_BIGINT && (t.sender.Some? && t.receiver.Some? ==> t.sender != t.receiver)
    requires t.sender.Some? ==> t.sender.value in db.wallets
    requires t.receiver.Some? ==> t.receiver.value in db.wallets
    requires forall k :: 0 <= k < |db.txns| ==> db.txns[k].id != t.id
    requires t.sender.Some? && t.key.Some? ==> !KeyTaken(db, t.sender.value, t.key.value)
    requires t.key != Some("")
    ensures Insertable(db, t) <==>
              && t.txnType != TypeFee && (t.key.Some? ==> |t.key.value| <= 128)
              && (t.reference.Some? ==> |t.reference.value| <= 256) && |t.signature| <= 128
  {
  }

  lemma TransferAlone(db: Store, p: TransferParams, id: Uuid)
    requires InRange(db) && forall k :: 0 <= k < |db.txns| ==> db.txns[k].id != id
    ensures TransferAnswered(db, p, id, Alone(db, Transfer(p), id).1)
  {
    KeyIsFound(db, p);
    SettledRecords(Transfer(p), id);
    if p.amount > 0 && p.sender != p.receiver && !Missing(db, p.sender) && !Missing(db, p.receiver)
        && p.amount <= db.wallets[p.sender].balance && !KeyTaken(db, p.sender, p.key) {
      Insertability(db, TransferTxn(p, id, Pending));
    }
    hide KeyTaken, Recorded, Insertable, RecordsTransfer;
  }

  lemma IssueIsAlone(db: Store, p: IssueParams, id: Uuid)
    requires InRange(db) && forall k :: 0 <= k < |db.txns| ==> db.txns[k].id != id
    ensures IssueAnswered(db, p, id, Alone(db, Issue(p), id).1)
  {
    SettledRecords(Issue(p), id);
    if 0 < p.amount <= MAX_BIGINT && !Missing(db, p.wallet) {
      Insertability(db, IssueTxn(p, id, Pending));
    }
    hide Insertable, RecordsIssue;
  }

  lemma FreshOnRows(s: Sys, id: Uuid)
    requires Inv(s) && FreshId(s, id)
    ensures forall k :: 0 <= k < |s.store.txns| ==> s.store.txns[k].id != id
  {
    hide ClientsInv, LocksExclusive, IdsDistinct, OutcomesHold, Serial;
    forall k | 0 <= k < |s.store.txns|
      ensures s.store.txns[k].id != id
    {
      assert Drawn(s, s.store.txns[k].id);
    }
  }

  /** After any run that left no call open, a transfer made alone is told this, and nothing else. */
  lemma {:induction false} LoneTransferAnswers(trace: seq<Action>, p: TransferParams, id: Uuid)
    requires AllDone(Run(trace)) && FreshId(Run(trace), id)
    ensures var s, t := Run(trace), Run(trace + ([Start(Transfer(p), id)] + Calls(|Run(trace).clients|, 14)));
            |t.clients| == |s.clients| + 1 && TransferAnswered(s.store, p, id, t.clients[|s.clients|].outcome)
  {
    var s := Run(trace);
    RunKeepsInv(trace);
    StateInRange(s);
    FreshOnRows(s, id);
    TransferAlone(s.store, p, id);
    LoneCall(s, Transfer(p), id);
    RunsOn(trace, [Start(Transfer(p), id)] + Calls(|s.clients|, 14));
    hide *;
  }

  /** And an issuance this. */
  lemma {:induction false} LoneIssueAnswers(trace: seq<Action>, p: IssueParams, id: Uuid)
    requires AllDone(Run(trace)) && FreshId(Run(trace), id)
    ensures var s, t := Run(trace), Run(trace + ([Start(Issue(p), id)] + Calls(|Run(trace).clients|, 14)));
            |t.clients| == |s.clients| + 1 && IssueAnswered(s.store, p, id, t.clients[|s.clients|].outcome)
  {
    var s := Run(trace);
    RunKeepsInv(trace);
    StateInRange(s);
    FreshOnRows(s, id);
    IssueIsAlone(s.store, p, id);
    LoneCall(s, Issue(p), id);
    RunsOn(trace, [Start(Issue(p), id)] + Calls(|s.clients|, 14));
    hide *;
  }
}
