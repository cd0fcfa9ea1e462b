/**
 What a scan and its looks answer, and what a payment and a cancellation change, on the stored fields and for every
 run.
 */
module MerchantAnswers {
  import opened Wrappers
  import opened Text
  import opened Uuids
  import Q = QrCode
  import L = LedgerModel
  import M = LedgerMachine
  import R = LedgerRuns
  import opened MerchantModel
  import opened MerchantMachine

  /** The payload reads as this URI, which has not expired and carries the system's own MAC of its merchant, amount and
      expiry. */
  predicate GoodCode(payload: string, now: int, secret: Secret, uri: Q.Params) {
    && Q.ParseURI(payload) == Ok(uri) && now <= Q.Instant(uri.expires)
    && uri.signature == secret.mac(secret.key, "merchant=" + String(uri.merchant) + "&amount=" + FormatInt(uri.amount)
                                               + "&expires=" + FormatInt(uri.expires))
  }

  /** The merchant is known and active, is somebody else than the payer, and has this wallet. */
  predicate MayBePaid(merchants: map<Uuid, Merchant>, walletOf: map<Uuid, Uuid>, merchant: Uuid, payer: Uuid,
      wallet: Uuid) {
    && merchant in merchants && merchants[merchant].active && merchants[merchant].user != payer
    && merchants[merchant].user in walletOf && walletOf[merchants[merchant].user] == wallet
  }

  /** Where a scan leads, error by error. */
  predicate ScanAnswered(s: Shop, payload: string, payer: Uuid, secret: Secret, pc: PayPC) {
    match Q.ParseURI(payload)
    case Err(_) => pc == Refused(InvalidPayload)
    case Ok(uri) =>
      if !GoodCode(payload, s.now, secret, uri) then pc == Refused(VerificationFailed)
      else if uri.merchant !in s.merchants then pc == Refused(MerchantNotFound)
      else
        var m := s.merchants[uri.merchant];
        if !m.active then pc == Refused(MerchantInactive)
        else if m.user == payer then pc == Refused(Error.SelfPayment)
        else if m.user !in s.walletOf then pc == Refused(WalletLookupFailed)
        else pc == FindPending(Scan(uri, s.walletOf[m.user]))
  }

  lemma AfterScanAnswers(s: Shop, c: PayCall, secret: Secret)
    ensures ScanAnswered(s, c.payload, c.payerUser, secret, AfterScan(s, c, secret))
  {
    var parsed := Q.ParseURI(c.payload);
    if parsed.Ok? {
      Q.VerifiesExactlyWhen(secret.mac, parsed.value, secret.key, s.now);
    }
    hide Q.ParseURI, Q.Verify, Q.Instant, String, FormatInt;
  }

  /** In every reachable state, the step that verifies a scanned code answers this: it goes on only with a good code of
      a known, active merchant that is not the payer and has a wallet, and refuses each other case with its own
      error. */
  lemma {:induction false} VerifyAnswers(trace: seq<Action>, i: nat, secret: Secret)
    requires i < |Run(trace, secret).calls| && Run(trace, secret).calls[i].pc.Scanned?
    ensures var s, t := Run(trace, secret), Step(Run(trace, secret), Verify(i), secret);
            && t == s.(calls := t.calls) && |t.calls| == |s.calls|
            && ScanAnswered(s, s.calls[i].payload, s.calls[i].payerUser, secret, t.calls[i].pc)
  {
    hide Run, Step, ScanAnswered, AfterScan;
    var s := Run(trace, secret);
    AfterScanAnswers(s, s.calls[i], secret);
    VerifyMoves(s, i, secret);
  }

  /** The scan a call has got from its verified code. */
  function ScanIn(pc: PayPC): Option<Scan> {
    match pc
    case FindPending(scan) => Some(scan)
    case FindAny(scan) => Some(scan)
    case Transferring(scan, _) => Some(scan)
    case Paying(scan, _, _) => Some(scan)
    case Marking(scan, _, _, _) => Some(scan)
    case Finished(scan, _, _, _) => Some(scan)
    case _ => None
  }

  /** Only the verification gives a call its scan. */
  lemma StepKeepsScan(s: Shop, a: Action, i: nat, secret: Secret)
    requires i < |Step(s, a, secret).calls| && ScanIn(Step(s, a, secret).calls[i].pc).Some?
    ensures var t := Step(s, a, secret);
            && i < |s.calls| && t.calls[i].payload == s.calls[i].payload && t.calls[i].payerUser == s.calls[i].payerUser
            && (ScanIn(s.calls[i].pc) == ScanIn(t.calls[i].pc)
                || (a == Verify(i) && s.calls[i].pc.Scanned? && t.calls[i].pc == AfterScan(s, s.calls[i], secret)))
  {
    hide AfterScan, AfterLook, AfterLedger, NewRequest, Cancel, MarkPaid, M.Step, Storable;
    if Enabled(s, a, secret) && i < |s.calls| {
      if a.LookPending? && a.seeker == i {
        LookKeepsScan(s, s.calls[i], Some(Pending));
      } else if a.LookAny? && a.searcher == i {
        LookKeepsScan(s, s.calls[i], None);
      } else if a.Collect? && a.collector == i {
        CollectKeepsScan(s.calls[i].pc, s.ledger.clients[s.calls[i].pc.client].outcome);
      }
    }
  }

  lemma LookKeepsScan(s: Shop, c: PayCall, status: Option<Status>)
    requires c.pc.FindPending? || c.pc.FindAny?
    ensures ScanIn(AfterLook(s, c, status)).Some? ==> ScanIn(AfterLook(s, c, status)) == ScanIn(c.pc)
  {
    hide Match, List;
  }

  lemma CollectKeepsScan(pc: PayPC, o: M.Outcome)
    requires pc.Paying?
    ensures ScanIn(AfterLedger(pc, o)).Some? ==> ScanIn(AfterLedger(pc, o)) == ScanIn(pc)
  {
  }

  /** Step q of the run verified call i, which had this payload and payer and got this scan, when the code was good and
      its merchant could be paid. */
  ghost predicate VerifiedAt(trace: seq<Action>, i: nat, q: nat, payload: string, payer: Uuid, scan: Scan,
      secret: Secret) {
    && q < |trace| && trace[q] == Verify(i)
    && var was := Run(trace[..q], secret);
       && GoodCode(payload, was.now, secret, scan.uri)
       && MayBePaid(was.merchants, was.walletOf, scan.uri.merchant, payer, scan.wallet)
  }

  lemma VerifiedStays(trace: seq<Action>, i: nat, q: nat, payload: string, payer: Uuid, scan: Scan, secret: Secret)
    requires trace != [] && VerifiedAt(trace[..|trace| - 1], i, q, payload, payer, scan, secret)
    ensures VerifiedAt(trace, i, q, payload, payer, scan, secret)
  {
    hide Run, GoodCode, MayBePaid;
    assert trace[..q] == trace[..|trace| - 1][..q];
  }

  lemma VerifiedNow(trace: seq<Action>, i: nat, c: PayCall, secret: Secret)
    requires trace != [] && trace[|trace| - 1] == Verify(i)
    requires ScanIn(AfterScan(Run(trace[..|trace| - 1], secret), c, secret)).Some?
    ensures var scan := ScanIn(AfterScan(Run(trace[..|trace| - 1], secret), c, secret)).value;
            VerifiedAt(trace, i, |trace| - 1, c.payload, c.payerUser, scan, secret)
  {
    hide Run, GoodCode, MayBePaid, AfterScan;
    ScanWasGood(Run(trace[..|trace| - 1], secret), c, secret);
  }

  /** Whoever has got past the verification - to a look, a transfer or a mark - scanned a code that was good and named a
      merchant that was active and somebody else, at the moment it was verified. */
  lemma {:induction false} PayersCodeWasGood(trace: seq<Action>, i: nat, secret: Secret) returns (q: nat)
    requires i < |Run(trace, secret).calls| && ScanIn(Run(trace, secret).calls[i].pc).Some?
    ensures var c := Run(trace, secret).calls[i];
            VerifiedAt(trace, i, q, c.payload, c.payerUser, ScanIn(c.pc).value, secret)
  {
    var c := Run(trace, secret).calls[i];
    assert trace == [] ==> Run(trace, secret).calls == [];
    hide *;
    RunLast(trace, secret);
    var front, a := trace[..|trace| - 1], trace[|trace| - 1];
    var s := Run(front, secret);
    StepKeepsScan(s, a, i, secret);
    if ScanIn(s.calls[i].pc).Some? {
      q := PayersCodeWasGood(front, i, secret);
      VerifiedStays(trace, i, q, c.payload, c.payerUser, ScanIn(c.pc).value, secret);
    } else {
      q := |trace| - 1;
      VerifiedNow(trace, i, s.calls[i], secret);
    }
  }

  lemma RunLast(trace: seq<Action>, secret: Secret)
    ensures Run(trace, secret) == if trace == [] then INIT
                                  else Step(Run(trace[..|trace| - 1], secret), trace[|trace| - 1], secret)
  {
    hide Step;
  }

  lemma ScanWasGood(s: Shop, c: PayCall, secret: Secret)
    requires ScanIn(AfterScan(s, c, secret)).Some?
    ensures var scan := ScanIn(AfterScan(s, c, secret)).value;
            && GoodCode(c.payload, s.now, secret, scan.uri)
            && MayBePaid(s.merchants, s.walletOf, scan.uri.merchant, c.payerUser, scan.wallet)
  {
    hide AfterScan, GoodCode, MayBePaid, ScanAnswered;
    AfterScanAnswers(s, c, secret);
    AnsweredGood(s, c.payload, c.payerUser, secret, AfterScan(s, c, secret));
  }

  lemma AnsweredGood(s: Shop, payload: string, payer: Uuid, secret: Secret, pc: PayPC)
    requires ScanAnswered(s, payload, payer, secret, pc) && ScanIn(pc).Some?
    ensures var scan := ScanIn(pc).value;
            && GoodCode(payload, s.now, secret, scan.uri)
            && MayBePaid(s.merchants, s.walletOf, scan.uri.merchant, payer, scan.wallet)
  {
    hide GoodCode, Q.ParseURI;
  }

  // ---- the looks

  /** What a listing of the merchant's newest rows leads to. */
  lemma LookAnswers(s: Shop, c: PayCall, status: Option<Status>)
    requires c.pc.FindPending? || c.pc.FindAny?
    ensures var found := Match(List(s.rows, c.pc.scan.uri.merchant, status, 100), c.payload);
            var pc := AfterLook(s, c, status);
            && (found.None? ==> pc == if status.Some? then FindAny(c.pc.scan) else Refused(RequestNotFound))
            && (found.Some? ==>
                  && (found.value.status == Pending ==> pc == Transferring(c.pc.scan, found.value.id))
                  && (found.value.status == Paid ==> pc == Refused(RequestAlreadyPaid))
                  && (found.value.status == Expired ==> pc == Refused(RequestExpired))
                  && (found.value.status == Cancelled ==> pc == Refused(RequestCancelled)))
  {
    hide Match, List;
  }

  // ---- the transfer

  /** In every reachable state, the transfer a call begins is a payment, from the payer's wallet to the owning
      merchant's, of the request's own amount, with the request's reference and the caller's key. */
  lemma {:induction false} BeginsAsAsked(trace: seq<Action>, i: nat, txn: Uuid, secret: Secret)
    requires i < |Run(trace, secret).calls| && Run(trace, secret).calls[i].pc.Transferring?
    requires M.FreshId(Run(trace, secret).ledger, txn)
    ensures var s, t := Run(trace, secret), Step(Run(trace, secret), BeginTransfer(i, txn), secret);
            var c, n := s.calls[i], |s.ledger.clients|;
            var k := IndexOf(s.rows, c.pc.request);
            && |t.ledger.clients| == n + 1 && t.ledger.clients[n].id == txn && t.ledger.clients[n].op.Transfer?
            && k < |s.rows| && s.rows[k].qrPayload == c.payload
            && OwnersWallet(s, s.rows[k].merchant, t.ledger.clients[n].op.t.receiver)
            && var p := t.ledger.clients[n].op.t;
               && p.sender == c.payerWallet && p.amount == s.rows[k].amount && p.reference == s.rows[k].reference
               && p.key == c.key && p.txnType == Some(L.TypePayment) && p.signature == ""
  {
    MerchantMachine.RunKeepsInv(trace, secret);
    var s := Run(trace, secret);
    var c := s.calls[i];
    hide Run, Step, Inv;
    CallAt(s, i, secret);
    OfferedTo(s, c);
    var k := IndexOf(s.rows, c.pc.request);
    RowAt(s, k, secret);
    OfferIsScanned(s, c, k, secret);
    BeginStarts(s, i, txn, secret);
  }

  lemma OfferedTo(s: Shop, c: PayCall)
    requires CallHolds(s, c) && c.pc.Transferring?
    ensures ScanHolds(s, c, c.pc.scan) && IndexOf(s.rows, c.pc.request) < |s.rows|
    ensures s.rows[IndexOf(s.rows, c.pc.request)].qrPayload == c.payload
  {
    hide ScanHolds;
  }

  lemma OfferIsScanned(s: Shop, c: PayCall, k: nat, secret: Secret)
    requires k < |s.rows| && Genuine(s.rows[k], secret) && s.rows[k].qrPayload == c.payload && c.pc.Transferring?
    requires ScanHolds(s, c, c.pc.scan)
    ensures c.pc.scan.uri.amount == s.rows[k].amount && c.pc.scan.uri.reference == s.rows[k].reference
    ensures OwnersWallet(s, s.rows[k].merchant, c.pc.scan.wallet)
  {
    var r := s.rows[k];
    Q.RoundTrip(secret.mac, secret.key, r.merchant, r.amount, r.reference, r.description, r.expiresAt);
    hide Q.ParseURI, Q.BuildURI, Q.Sign, OwnersWallet;
  }

  lemma BeginStarts(s: Shop, i: nat, txn: Uuid, secret: Secret)
    requires i < |s.calls| && s.calls[i].pc.Transferring? && M.FreshId(s.ledger, txn)
    ensures var t, c, n := Step(s, BeginTransfer(i, txn), secret), s.calls[i], |s.ledger.clients|;
            && |t.ledger.clients| == n + 1 && t.ledger.clients[n].id == txn && t.ledger.clients[n].op.Transfer?
            && var p := t.ledger.clients[n].op.t;
               && p.sender == c.payerWallet && p.receiver == c.pc.scan.wallet && p.amount == c.pc.scan.uri.amount
               && p.reference == c.pc.scan.uri.reference && p.key == c.key && p.txnType == Some(L.TypePayment)
               && p.signature == ""
  {
    hide M.FreshId;
  }

  /** And what it reports decides: a transfer that went through is marked, a replay and any other error end the call. */
  lemma {:induction false} CollectAnswers(trace: seq<Action>, i: nat, secret: Secret)
    requires var s := Run(trace, secret);
             && i < |s.calls| && s.calls[i].pc.Paying? && s.calls[i].pc.client < |s.ledger.clients|
             && s.ledger.clients[s.calls[i].pc.client].pc == M.Done
    ensures var s, t := Run(trace, secret), Step(Run(trace, secret), Collect(i), secret);
            var pc, next := s.calls[i].pc, t.calls[i].pc;
            match s.ledger.clients[pc.client].outcome
            case Success(txn, _, _) => next == Marking(pc.scan, pc.request, pc.client, txn.id)
            case Replay(_) => next == Refused(LedgerReplayed)
            case _ => next == Refused(LedgerRefused)
  {
    hide Run;
  }

  // ---- cancelling

  /** In every reachable state, a step cancels a row exactly when it is its own merchant's cancellation of it while it
      is pending; that step then changes nothing else. */
  lemma {:induction false} CancelledExactlyWhen(trace: seq<Action>, a: Action, k: nat, secret: Secret)
    requires k < |Run(trace, secret).rows|
    ensures var s, t := Run(trace, secret), Step(Run(trace, secret), a, secret);
            && |s.rows| <= |t.rows|
            && (s.rows[k].status != Cancelled && t.rows[k].status == Cancelled <==>
                  a.CancelRequest? && a.cancelled == s.rows[k].id && a.canceller == s.rows[k].merchant
                  && s.rows[k].status == Pending)
            && (s.rows[k].status != Cancelled && t.rows[k].status == Cancelled ==>
                  t == s.(rows := s.rows[k := s.rows[k].(status := Cancelled)]))
  {
    MerchantMachine.RunKeepsInv(trace, secret);
    var s := Run(trace, secret);
    hide Run;
    assert RequestIdsDistinct(s.rows) by {
      hide R.Inv, RowsHold, RequestIdsDistinct, CallsHold, TransfersDistinct, TransfersExist, RecordsHold;
    }
    hide Inv;
    CancelsExactlyWhen(s, a, k, secret);
  }

  lemma CancelsExactlyWhen(s: Shop, a: Action, k: nat, secret: Secret)
    requires RequestIdsDistinct(s.rows) && k < |s.rows|
    ensures var t := Step(s, a, secret);
            && |s.rows| <= |t.rows|
            && (s.rows[k].status != Cancelled && t.rows[k].status == Cancelled <==>
                  a.CancelRequest? && a.cancelled == s.rows[k].id && a.canceller == s.rows[k].merchant
                  && s.rows[k].status == Pending)
            && (s.rows[k].status != Cancelled && t.rows[k].status == Cancelled ==>
                  t == s.(rows := s.rows[k := s.rows[k].(status := Cancelled)]))
  {
    hide AfterScan, AfterLook, AfterLedger, NewRequest, M.Step, Storable;
    if a.CancelRequest? {
      IndexStands(s.rows, a.cancelled);
      hide IndexOf;
    } else {
      hide IndexOf;
    }
  }

  // ---- a new request

  /** The row holds what was asked for, and the code it shows reads back to the same and is good up to the second it
      expires in. */
  ghost predicate HoldsRequest(
    r: Request, secret: Secret, id: Uuid, merchant: Uuid, amount: int, reference: GoString, description: GoString,
    expirySecs: int, now: int)
  {
    && r.id == id && r.merchant == merchant && r.amount == amount && r.reference == reference
    && r.description == description && r.status == Pending && r.payer == None && r.txn == None && r.paidAt == None
    && r.createdAt == now && r.expiresAt == now + Lifetime(expirySecs)
    && var code := Q.ParseURI(r.qrPayload);
       && code.Ok? && code.value.merchant == merchant && code.value.amount == amount
       && code.value.reference == reference && code.value.description == description
       && code.value.expires == Q.Unix(r.expiresAt)
       && forall at :: GoodCode(r.qrPayload, at, secret, code.value) <==> at <= Q.Unix(r.expiresAt) * Q.NANOS
  }

  lemma StorableFits(rows: seq<Request>, merchants: set<Uuid>, r: Request)
    requires Storable(rows, merchants, r)
    ensures 0 < r.amount <= INT64_MAX && Q.UnixFits(r.expiresAt)
  {
    hide IndexOf, Characters;
  }

  lemma NewHoldsRequest(
    rows: seq<Request>, merchants: set<Uuid>, secret: Secret, id: Uuid, merchant: Uuid, amount: int,
    reference: GoString, description: GoString, expirySecs: int, now: int)
    requires Storable(rows, merchants,
                      NewRequest(secret.mac, secret.key, id, merchant, amount, reference, description, expirySecs, now))
    ensures HoldsRequest(
              NewRequest(secret.mac, secret.key, id, merchant, amount, reference, description, expirySecs, now), secret,
              id, merchant, amount, reference, description, expirySecs, now)
  {
    var r := NewRequest(secret.mac, secret.key, id, merchant, amount, reference, description, expirySecs, now);
    NewFields(secret, id, merchant, amount, reference, description, expirySecs, now);
    hide NewRequest, Storable, Q.ParseURI, Q.BuildURI, Lifetime, Q.Sign, Q.Unix, Q.UnixFits, GoodCode;
    StorableFits(rows, merchants, r);
    Q.RoundTrip(secret.mac, secret.key, merchant, amount, reference, description, r.expiresAt);
    GoodUntil(r, secret);
  }

  lemma NewFields(secret: Secret, id: Uuid, merchant: Uuid, amount: int, reference: GoString, description: GoString,
                  expirySecs: int, now: int)
    ensures var r := NewRequest(secret.mac, secret.key, id, merchant, amount, reference, description, expirySecs, now);
            && r.id == id && r.merchant == merchant && r.amount == amount && r.reference == reference
            && r.description == description && r.status == Pending && r.payer == None && r.txn == None
            && r.paidAt == None && r.createdAt == now && r.expiresAt == now + Lifetime(expirySecs)
            && r.qrPayload
               == Q.BuildURI(secret.mac, secret.key, merchant, amount, reference, description, r.expiresAt)
  {
    hide Q.BuildURI, Lifetime;
  }

  lemma GoodUntil(r: Request, secret: Secret)
    requires Genuine(r, secret) && Q.ParseURI(r.qrPayload).Ok?
    ensures forall at :: GoodCode(r.qrPayload, at, secret, Q.ParseURI(r.qrPayload).value)
                         <==> at <= Q.Unix(r.expiresAt) * Q.NANOS
  {
    hide Q.ParseURI, Q.BuildURI, Q.Unix, Q.UnixFits, Q.Verify, GoodCode, Q.Instant;
    forall at
      ensures GoodCode(r.qrPayload, at, secret, Q.ParseURI(r.qrPayload).value) <==>
                at <= Q.Unix(r.expiresAt) * Q.NANOS
    {
      GoodIsVerified(r.qrPayload, at, secret, Q.ParseURI(r.qrPayload).value);
      Q.BuiltVerifies(secret.mac, secret.key, r.merchant, r.amount, r.reference, r.description, r.expiresAt, at);
    }
  }

  lemma NewRequestFacts(
    rows: seq<Request>, merchants: set<Uuid>, secret: Secret, id: Uuid, merchant: Uuid, amount: int,
    reference: GoString, description: GoString, expirySecs: int, now: int)
    ensures var r := NewRequest(secret.mac, secret.key, id, merchant, amount, reference, description, expirySecs, now);
            && (merchant in merchants ==>
                  (Storable(rows, merchants, r) <==>
                     Acceptable(rows, id, amount, reference, description, expirySecs, now)))
            && (Storable(rows, merchants, r) ==>
                  HoldsRequest(r, secret, id, merchant, amount, reference, description, expirySecs, now))
  {
    hide Storable, Acceptable, HoldsRequest, NewRequest;
    if merchant in merchants {
      StorableExactlyWhen(rows, merchants, secret, id, merchant, amount, reference, description, expirySecs, now);
    }
    if Storable(rows, merchants,
                NewRequest(secret.mac, secret.key, id, merchant, amount, reference, description, expirySecs, now)) {
      NewHoldsRequest(rows, merchants, secret, id, merchant, amount, reference, description, expirySecs, now);
    }
  }

  lemma GoodIsVerified(payload: string, at: int, secret: Secret, uri: Q.Params)
    requires Q.ParseURI(payload) == Ok(uri)
    ensures GoodCode(payload, at, secret, uri) <==> Q.Verify(secret.mac, uri, secret.key, at) == None
  {
    Q.VerifiesExactlyWhen(secret.mac, uri, secret.key, at);
    hide Q.ParseURI, Q.Verify, Q.Instant, String, FormatInt;
  }

  /** What the table asks of a new row, on the request itself. */
  predicate Acceptable(rows: seq<Request>, id: Uuid, amount: int, reference: GoString, description: GoString,
      expirySecs: int, now: int) {
    && (forall k :: 0 <= k < |rows| ==> rows[k].id != id) && 0 < amount <= INT64_MAX
    && Characters(reference) <= 64 && Characters(description) <= 500
    && Lifetime(expirySecs) > 0 && FIRST_TIMESTAMP <= now && now + Lifetime(expirySecs) < END_OF_TIMESTAMPS
  }

  lemma StorableExactlyWhen(
    rows: seq<Request>, merchants: set<Uuid>, secret: Secret, id: Uuid, merchant: Uuid, amount: int,
    reference: GoString, description: GoString, expirySecs: int, now: int)
    requires merchant in merchants
    ensures Storable(rows, merchants, NewRequest(secret.mac, secret.key, id, merchant, amount, reference, description,
                                                 expirySecs, now))
            <==> Acceptable(rows, id, amount, reference, description, expirySecs, now)
  {
    IndexStands(rows, id);
    if IndexOf(rows, id) == |rows| {
      NobodyHas(rows, id);
    }
    hide IndexOf, Characters, Lifetime, Q.BuildURI;
  }
}
