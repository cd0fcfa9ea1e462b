/**
 Any number of PayViaQR calls racing with cancellations, new requests and the rest of the ledger's traffic. The
 transfer and the mark-paid update are two separate atomic steps.
 */
module MerchantMachine {
  import opened Wrappers
  import opened Text
  import opened Uuids
  import Q = QrCode
  import L = LedgerModel
  import M = LedgerMachine
  import R = LedgerRuns
  import opened MerchantModel

  /** The scanned URI, the merchant it names and that merchant's wallet. */
  datatype Scan = Scan(uri: Q.Params, wallet: Uuid)

  datatype PayPC =
    | Scanned
    | FindPending(scan: Scan)
    | FindAny(scan: Scan)
    | Transferring(scan: Scan, request: Uuid)
    | Paying(scan: Scan, request: Uuid, client: nat)
    | Marking(scan: Scan, request: Uuid, client: nat, txn: Uuid)
    | Finished(scan: Scan, request: Uuid, client: nat, txn: Uuid)
    | Refused(error: Error)

  /** One call of PayViaQR. */
  datatype PayCall = PayCall(payload: string, payerUser: Uuid, payerWallet: Uuid, key: string, pc: PayPC)

  datatype Shop = Shop(
    ledger: M.Sys, rows: seq<Request>, merchants: map<Uuid, Merchant>, walletOf: map<Uuid, Uuid>, now: int,
    calls: seq<PayCall>)

  datatype Action =
    | Ledger(step: M.Action)
    | Tick(elapsed: nat)
    | Register(merchant: Uuid, user: Uuid)
    | SetActive(switched: Uuid, active: bool)
    | GiveWallet(owner: Uuid, wallet: Uuid)
    | Create(id: Uuid, creator: Uuid, amount: int, reference: GoString, description: GoString, expirySecs: int)
    | CancelRequest(cancelled: Uuid, canceller: Uuid)
    | ScanCode(payload: string, payerUser: Uuid, payerWallet: Uuid, key: string)
    | Verify(verifier: nat)
    | LookPending(seeker: nat)
    | LookAny(searcher: nat)
    | BeginTransfer(payer: nat, txn: Uuid)
    | Collect(collector: nat)
    | Mark(marker: nat, fails: bool)
    | Abandon(quitter: nat)

  const INIT := Shop(M.INIT, [], map[], map[], 0, [])

  /** The system's secret: how URIs are signed, and with which key. */
  datatype Secret = Secret(mac: Q.MacFunction, key: string)

  /** Steps 1 to 4 of PayViaQR: parse, verify, merchant, self-payment, merchant's wallet. */
  function AfterScan(s: Shop, c: PayCall, secret: Secret): PayPC {
    match Q.ParseURI(c.payload)
    case Err(_) => Refused(InvalidPayload)
    case Ok(uri) =>
      if Q.Verify(secret.mac, uri, secret.key, s.now).Some? then Refused(VerificationFailed)
      else if uri.merchant !in s.merchants then Refused(MerchantNotFound)
      else if !s.merchants[uri.merchant].active then Refused(MerchantInactive)
      else if s.merchants[uri.merchant].user == c.payerUser then Refused(Error.SelfPayment)
      else if s.merchants[uri.merchant].user !in s.walletOf then Refused(WalletLookupFailed)
      else FindPending(Scan(uri, s.walletOf[s.merchants[uri.merchant].user]))
  }

  function AfterFound(scan: Scan, found: Request): PayPC {
    match Guard(found.status)
    case Some(e) => Refused(e)
    case None => Transferring(scan, found.id)
  }

  function AfterLedger(pc: PayPC, o: M.Outcome): PayPC
    requires pc.Paying?
  {
    match o
    case Success(t, _, _) => Marking(pc.scan, pc.request, pc.client, t.id)
    case Replay(_) => Refused(LedgerReplayed)
    case _ => Refused(LedgerRefused)
  }

  /** One listing of the merchant's newest 100 rows and the scan through it. */
  function AfterLook(s: Shop, c: PayCall, status: Option<Status>): PayPC
    requires c.pc.FindPending? || c.pc.FindAny?
  {
    match Match(List(s.rows, c.pc.scan.uri.merchant, status, 100), c.payload)
    case Some(found) => AfterFound(c.pc.scan, found)
    case None => if status.Some? then FindAny(c.pc.scan) else Refused(RequestNotFound)
  }

  function Move(s: Shop, i: nat, pc: PayPC): Shop
    requires i < |s.calls|
  {
    s.(calls := s.calls[i := s.calls[i].(pc := pc)])
  }

  /** The ledger transfer is started as one more ledger call. */
  function Begun(s: Shop, i: nat, txn: Uuid): Shop
    requires i < |s.calls| && s.calls[i].pc.Transferring?
  {
    var c := s.calls[i];
    Move(s, i, Paying(c.pc.scan, c.pc.request, |s.ledger.clients|)).(
      ledger := M.Step(s.ledger,
          M.Start(L.Transfer(PaymentParams(c.payerWallet, c.pc.scan.wallet, c.pc.scan.uri, c.key)), txn)))
  }

  /** The conditional update; an error is only logged. */
  function Marked(s: Shop, i: nat, fails: bool): Shop
    requires i < |s.calls| && s.calls[i].pc.Marking?
  {
    var c := s.calls[i];
    var t := Move(s, i, Finished(c.pc.scan, c.pc.request, c.pc.client, c.pc.txn));
    if fails then t
    else match MarkPaid(s.rows, c.pc.request, c.payerWallet, c.pc.txn, s.now)
      case Ok(rows) => t.(rows := rows)
      case Err(_) => t
  }

  predicate At(s: Shop, i: nat, step: Action) {
    i < |s.calls| &&
    match step
    case Verify(_) => s.calls[i].pc.Scanned?
    case LookPending(_) => s.calls[i].pc.FindPending?
    case LookAny(_) => s.calls[i].pc.FindAny?
    case BeginTransfer(_, _) => s.calls[i].pc.Transferring?
    case Collect(_) => s.calls[i].pc.Paying?
    case Mark(_, _) => s.calls[i].pc.Marking?
    case _ => false
  }

  predicate Enabled(s: Shop, a: Action, secret: Secret) {
    match a
    case Ledger(_) => true
    case Tick(_) => true
    case Register(m, u) => m !in s.merchants && forall k :: k in s.merchants ==> s.merchants[k].user != u
    case SetActive(m, _) => m in s.merchants
    case GiveWallet(u, _) => u !in s.walletOf
    case Create(id, m, amount, ref, desc, secs) =>
      && m in s.merchants && s.merchants[m].active
      && Storable(s.rows, s.merchants.Keys, NewRequest(secret.mac, secret.key, id, m, amount, ref, desc, secs, s.now))
    case CancelRequest(_, _) => true
    case ScanCode(_, _, _, _) => true
    case Verify(i) => At(s, i, a)
    case LookPending(i) => At(s, i, a)
    case LookAny(i) => At(s, i, a)
    case BeginTransfer(i, txn) => At(s, i, a) && M.FreshId(s.ledger, txn)
    case Collect(i) => At(s, i, a) && s.calls[i].pc.client < |s.ledger.clients|
        && s.ledger.clients[s.calls[i].pc.client].pc == M.Done
    case Mark(i, _) => At(s, i, a)
    case Abandon(i) => i < |s.calls| && !s.calls[i].pc.Finished?
  }

  function Do(s: Shop, a: Action, secret: Secret): Shop
    requires Enabled(s, a, secret)
  {
    match a
    case Ledger(step) => s.(ledger := M.Step(s.ledger, step))
    case Tick(d) => s.(now := s.now + d)
    case Register(m, u) => s.(merchants := s.merchants[m := Merchant(u, true)])
    case SetActive(m, b) => s.(merchants := s.merchants[m := s.merchants[m].(active := b)])
    case GiveWallet(u, w) => s.(walletOf := s.walletOf[u := w])
    case Create(id, m, amount, ref, desc, secs) =>
      s.(rows := s.rows + [NewRequest(secret.mac, secret.key, id, m, amount, ref, desc, secs, s.now)])
    case CancelRequest(id, m) => (match Cancel(s.rows, id, m) case Ok(rows) => s.(rows := rows) case Err(_) => s)
    case ScanCode(payload, user, wallet, key) => s.(calls := s.calls + [PayCall(payload, user, wallet, key, Scanned)])
    case Verify(i) => Move(s, i, AfterScan(s, s.calls[i], secret))
    case LookPending(i) => Move(s, i, AfterLook(s, s.calls[i], Some(Pending)))
    case LookAny(i) => Move(s, i, AfterLook(s, s.calls[i], None))
    case BeginTransfer(i, txn) => Begun(s, i, txn)
    case Collect(i) => Move(s, i, AfterLedger(s.calls[i].pc, s.ledger.clients[s.calls[i].pc.client].outcome))
    case Mark(i, fails) => Marked(s, i, fails)
    case Abandon(i) => Move(s, i, Refused(Unavailable))
  }

  function Step(s: Shop, a: Action, secret: Secret): Shop {
    if Enabled(s, a, secret) then Do(s, a, secret) else s
  }

  function Run(trace: seq<Action>, secret: Secret): Shop {
    if trace == [] then INIT else Step(Run(trace[..|trace| - 1], secret), trace[|trace| - 1], secret)
  }

  // ---- the invariant

  /** The ledger holds a settled payment with this id, from this payer to this wallet, of this amount. */
  ghost predicate SettledPayment(db: L.Store, id: Uuid, payer: Uuid, wallet: Uuid, amount: int) {
    exists k :: 0 <= k < |db.txns| && IsPayment(db.txns[k], id, payer, wallet, amount)
  }

  predicate IsPayment(t: L.Txn, id: Uuid, payer: Uuid, wallet: Uuid, amount: int) {
    && t.id == id && t.txnType == L.TypePayment && t.status == L.Settled
    && t.sender == Some(payer) && t.receiver == Some(wallet) && t.amount == amount
  }

  /** The wallet of the merchant that owns a request. */
  ghost predicate OwnersWallet(s: Shop, merchant: Uuid, wallet: Uuid) {
    merchant in s.merchants && s.merchants[merchant].user in s.walletOf
        && s.walletOf[s.merchants[merchant].user] == wallet
  }

  /** Printed by the program itself, from its own fields. */
  ghost predicate Genuine(r: Request, secret: Secret) {
    && 0 < r.amount <= INT64_MAX && Q.UnixFits(r.expiresAt)
    && r.qrPayload == Q.BuildURI(secret.mac, secret.key, r.merchant, r.amount, r.reference, r.description, r.expiresAt)
  }

  /** Paid means paid. */
  ghost predicate PaidMeansPaid(s: Shop, r: Request) {
    if r.status == Paid then
      && r.payer.Some? && r.txn.Some? && r.paidAt.Some? && r.paidAt.value < r.expiresAt && r.paidAt.value <= s.now
      && exists wallet :: OwnersWallet(s, r.merchant, wallet)
          && SettledPayment(s.ledger.store, r.txn.value, r.payer.value, wallet, r.amount)
    else r.payer.None? && r.txn.None? && r.paidAt.None?
  }

  ghost predicate RowsHold(s: Shop, secret: Secret) {
    forall k :: 0 <= k < |s.rows| ==> Genuine(s.rows[k], secret) && PaidMeansPaid(s, s.rows[k])
  }

  ghost predicate RequestIdsDistinct(rows: seq<Request>) {
    forall k, l :: 0 <= k < l < |rows| ==> rows[k].id != rows[l].id
  }

  /** A row with this id carries the scanned payload. */
  ghost predicate Offered(rows: seq<Request>, id: Uuid, payload: string) {
    IndexOf(rows, id) < |rows| && rows[IndexOf(rows, id)].qrPayload == payload
  }

  ghost predicate ScanHolds(s: Shop, c: PayCall, scan: Scan) {
    && Q.ParseURI(c.payload) == Ok(scan.uri) && OwnersWallet(s, scan.uri.merchant, scan.wallet)
    && s.merchants[scan.uri.merchant].user != c.payerUser
  }

  ghost predicate CallHolds(s: Shop, c: PayCall) {
    match c.pc
    case FindPending(scan) => ScanHolds(s, c, scan)
    case FindAny(scan) => ScanHolds(s, c, scan)
    case Transferring(scan, id) => ScanHolds(s, c, scan) && Offered(s.rows, id, c.payload)
    case Paying(scan, id, i) =>
      && ScanHolds(s, c, scan) && Offered(s.rows, id, c.payload)
      && i < |s.ledger.clients|
          && s.ledger.clients[i].op == L.Transfer(PaymentParams(c.payerWallet, scan.wallet, scan.uri, c.key))
    case Marking(scan, id, i, txn) =>
      && ScanHolds(s, c, scan) && Offered(s.rows, id, c.payload)
      && i < |s.ledger.clients| && s.ledger.clients[i].id == txn
      && SettledPayment(s.ledger.store, txn, c.payerWallet, scan.wallet, scan.uri.amount)
    case Finished(scan, id, i, txn) => i < |s.ledger.clients| && s.ledger.clients[i].id == txn
    case _ => true
  }

  ghost predicate CallsHold(s: Shop) {
    forall i :: 0 <= i < |s.calls| ==> CallHolds(s, s.calls[i])
  }

  function ClientOf(pc: PayPC): Option<nat> {
    match pc
    case Paying(_, _, i) => Some(i)
    case Marking(_, _, i, _) => Some(i)
    case Finished(_, _, i, _) => Some(i)
    case _ => None
  }

  /** Each call made its own ledger transfer. */
  ghost predicate TransfersDistinct(calls: seq<PayCall>) {
    forall i, j :: 0 <= i < j < |calls| && ClientOf(calls[i].pc).Some? ==>
        ClientOf(calls[i].pc) != ClientOf(calls[j].pc)
  }

  ghost predicate TransfersExist(s: Shop) {
    forall i :: 0 <= i < |s.calls| && ClientOf(s.calls[i].pc).Some? ==>
        ClientOf(s.calls[i].pc).value < |s.ledger.clients|
  }

  /** A recorded transaction was recorded by a finished call, on the request that call was paying. */
  ghost predicate RecordedBy(calls: seq<PayCall>, r: Request) {
    exists i :: 0 <= i < |calls| && calls[i].pc.Finished? && Some(calls[i].pc.txn) == r.txn
        && calls[i].pc.request == r.id
  }

  ghost predicate RecordsHold(rows: seq<Request>, calls: seq<PayCall>) {
    forall k :: 0 <= k < |rows| && rows[k].txn.Some? ==> RecordedBy(calls, rows[k])
  }

  ghost predicate Inv(s: Shop, secret: Secret) {
    && R.Inv(s.ledger) && RowsHold(s, secret) && RequestIdsDistinct(s.rows) && CallsHold(s)
    && TransfersDistinct(s.calls) && TransfersExist(s) && RecordsHold(s.rows, s.calls)
  }

  // ---- the shop only grows

  ghost predicate LedgerGrows(s: M.Sys, t: M.Sys) {
    && s.store.txns <= t.store.txns && |s.clients| <= |t.clients|
    && forall i :: 0 <= i < |s.clients| ==> t.clients[i].op == s.clients[i].op && t.clients[i].id == s.clients[i].id
  }

  ghost predicate OffersStay(rows: seq<Request>, after: seq<Request>) {
    |rows| <= |after| && forall k :: 0 <= k < |rows| ==> SameOffer(rows[k], after[k])
  }

  ghost predicate OwnersStay(s: Shop, t: Shop) {
    && (forall m :: m in s.merchants ==> m in t.merchants && t.merchants[m].user == s.merchants[m].user)
    && (forall u :: u in s.walletOf ==> u in t.walletOf && t.walletOf[u] == s.walletOf[u])
  }

  ghost predicate Extends(s: Shop, t: Shop) {
    LedgerGrows(s.ledger, t.ledger) && OffersStay(s.rows, t.rows) && OwnersStay(s, t) && s.now <= t.now
  }

  lemma {:induction false} IndexOfStays(rows: seq<Request>, after: seq<Request>, id: Uuid)
    requires OffersStay(rows, after) && IndexOf(rows, id) < |rows|
    ensures IndexOf(after, id) == IndexOf(rows, id)
  {
    if rows[0].id != id {
      assert forall k :: 0 <= k < |rows[1..]| ==> rows[1..][k] == rows[k + 1] && after[1..][k] == after[k + 1];
      IndexOfStays(rows[1..], after[1..], id);
    }
  }

  lemma SettledStays(s: Shop, t: Shop, id: Uuid, payer: Uuid, wallet: Uuid, amount: int)
    requires LedgerGrows(s.ledger, t.ledger) && SettledPayment(s.ledger.store, id, payer, wallet, amount)
    ensures SettledPayment(t.ledger.store, id, payer, wallet, amount)
  {
    var k :| 0 <= k < |s.ledger.store.txns| && IsPayment(s.ledger.store.txns[k], id, payer, wallet, amount);
    hide IsPayment;
    assert t.ledger.store.txns[k] == s.ledger.store.txns[k];
  }

  lemma ScanStays(s: Shop, t: Shop, c: PayCall, scan: Scan)
    requires OwnersStay(s, t) && ScanHolds(s, c, scan)
    ensures ScanHolds(t, c, scan)
  {
    hide Q.ParseURI;
  }

  lemma OfferStays(s: Shop, t: Shop, id: Uuid, payload: string)
    requires OffersStay(s.rows, t.rows) && Offered(s.rows, id, payload)
    ensures Offered(t.rows, id, payload)
  {
    IndexOfStays(s.rows, t.rows, id);
    hide IndexOf;
  }

  lemma CallStays(s: Shop, t: Shop, c: PayCall)
    requires Extends(s, t) && CallHolds(s, c)
    ensures CallHolds(t, c)
  {
    hide ScanHolds, Offered, SettledPayment, PaymentParams, OffersStay, OwnersStay;
    match c.pc
    case FindPending(scan) => ScanStays(s, t, c, scan);
    case FindAny(scan) => ScanStays(s, t, c, scan);
    case Transferring(scan, id) => ScanStays(s, t, c, scan); OfferStays(s, t, id, c.payload);
    case Paying(scan, id, _) => ScanStays(s, t, c, scan); OfferStays(s, t, id, c.payload);
    case Marking(scan, id, _, txn) =>
      ScanStays(s, t, c, scan);
      OfferStays(s, t, id, c.payload);
      hide LedgerGrows;
      SettledStays(s, t, txn, c.payerWallet, scan.wallet, scan.uri.amount);
      CallsClient(s, t, c);
    case _ =>
  }

  lemma CallsClient(s: Shop, t: Shop, c: PayCall)
    requires LedgerGrows(s.ledger, t.ledger) && c.pc.Marking? && c.pc.client < |s.ledger.clients|
    requires s.ledger.clients[c.pc.client].id == c.pc.txn
    ensures c.pc.client < |t.ledger.clients| && t.ledger.clients[c.pc.client].id == c.pc.txn
  {
  }

  lemma CallsStay(s: Shop, t: Shop)
    requires Extends(s, t) && CallsHold(s) && t.calls == s.calls
    ensures CallsHold(t)
  {
    hide Extends, CallHolds;
    forall i | 0 <= i < |t.calls|
      ensures CallHolds(t, t.calls[i])
    {
      CallStays(s, t, s.calls[i]);
    }
  }

  lemma PaidStays(s: Shop, t: Shop, r: Request)
    requires Extends(s, t) && PaidMeansPaid(s, r)
    ensures PaidMeansPaid(t, r)
  {
    if r.status == Paid {
      var wallet :| OwnersWallet(s, r.merchant, wallet)
          && SettledPayment(s.ledger.store, r.txn.value, r.payer.value, wallet, r.amount);
      SettledStays(s, t, r.txn.value, r.payer.value, wallet, r.amount);
      assert OwnersWallet(t, r.merchant, wallet);
    }
    hide SettledPayment;
  }

  /** A step that leaves rows and calls alone and otherwise only adds. */
  lemma GrowthKeeps(s: Shop, t: Shop, secret: Secret)
    requires Inv(s, secret) && Extends(s, t) && R.Inv(t.ledger) && t.rows == s.rows && t.calls == s.calls
    ensures Inv(t, secret)
  {
    CallsStay(s, t);
    forall k | 0 <= k < |t.rows|
      ensures Genuine(t.rows[k], secret) && PaidMeansPaid(t, t.rows[k])
    {
      PaidStays(s, t, s.rows[k]);
      hide Extends, PaidMeansPaid, Genuine;
    }
    hide R.Inv, CallsHold, PaidMeansPaid, Genuine;
  }

  lemma LedgerStepKeeps(s: Shop, step: M.Action, secret: Secret)
    requires Inv(s, secret)
    ensures Inv(s.(ledger := M.Step(s.ledger, step)), secret)
  {
    hide R.Inv, M.Step, RowsHold, CallsHold, RequestIdsDistinct, TransfersDistinct, TransfersExist, RecordsHold;
    hide Extends;
    R.StepKeepsInv(s.ledger, step);
    LedgerExtends(s, step);
    GrowthKeeps(s, s.(ledger := M.Step(s.ledger, step)), secret);
  }

  lemma LedgerExtends(s: Shop, step: M.Action)
    ensures Extends(s, s.(ledger := M.Step(s.ledger, step)))
  {
    R.StepOnlyAdds(s.ledger, step);
    hide M.Step;
  }

  // ---- steps of PayViaQR

  /** The call keeps its own ledger transfer, or takes one that no call has. */
  ghost predicate OwnTransfer(s: Shop, i: nat, pc: PayPC)
    requires i < |s.calls|
  {
    || ClientOf(pc).None?
    || ClientOf(pc) == ClientOf(s.calls[i].pc)
    || (ClientOf(pc).value < |s.ledger.clients| && forall j :: 0 <= j < |s.calls| ==>
        ClientOf(s.calls[j].pc) != ClientOf(pc))
  }

  lemma MoveKeeps(s: Shop, i: nat, pc: PayPC, secret: Secret)
    requires Inv(s, secret) && i < |s.calls| && !s.calls[i].pc.Finished? && CallHolds(s, s.calls[i].(pc := pc))
    requires OwnTransfer(s, i, pc)
    ensures Inv(Move(s, i, pc), secret)
  {
    MoveCalls(s, i, pc);
    MoveRecords(s, i, pc);
    MoveTransfers(s, i, pc);
    assert RowsHold(Move(s, i, pc), secret) by { MoveRows(s, Move(s, i, pc), secret); }
    hide R.Inv, RowsHold, CallsHold, TransfersDistinct, RecordsHold, ClientOf;
  }

  lemma MoveExtends(s: Shop, i: nat, pc: PayPC)
    requires i < |s.calls|
    ensures Extends(s, Move(s, i, pc))
  {
  }

  lemma MoveRows(s: Shop, t: Shop, secret: Secret)
    requires RowsHold(s, secret) && t == s.(calls := t.calls)
    ensures RowsHold(t, secret)
  {
    hide Genuine;
    forall k | 0 <= k < |t.rows|
      ensures PaidMeansPaid(t, t.rows[k])
    {
      assert PaidMeansPaid(s, s.rows[k]);
      PaidStays(s, t, s.rows[k]);
      hide PaidMeansPaid;
    }
  }

  lemma MoveCalls(s: Shop, i: nat, pc: PayPC)
    requires CallsHold(s) && i < |s.calls| && CallHolds(s, s.calls[i].(pc := pc))
    ensures CallsHold(Move(s, i, pc))
  {
    var t := Move(s, i, pc);
    hide CallHolds, Extends;
    MoveExtends(s, i, pc);
    forall j | 0 <= j < |t.calls|
      ensures CallHolds(t, t.calls[j])
    {
      assert CallHolds(s, s.calls[j]);
      CallStays(s, t, t.calls[j]);
    }
  }

  lemma MoveRecords(s: Shop, i: nat, pc: PayPC)
    requires RecordsHold(s.rows, s.calls) && i < |s.calls| && !s.calls[i].pc.Finished?
    ensures RecordsHold(s.rows, Move(s, i, pc).calls)
  {
    var t := Move(s, i, pc);
    forall k | 0 <= k < |s.rows| && s.rows[k].txn.Some?
      ensures RecordedBy(t.calls, s.rows[k])
    {
      assert RecordedBy(s.calls, s.rows[k]);
      var j :| 0 <= j < |s.calls| && s.calls[j].pc.Finished? && Some(s.calls[j].pc.txn) == s.rows[k].txn
          && s.calls[j].pc.request == s.rows[k].id;
      assert t.calls[j] == s.calls[j];
    }
  }

  lemma MoveTransfers(s: Shop, i: nat, pc: PayPC)
    requires TransfersDistinct(s.calls) && TransfersExist(s) && i < |s.calls|
    requires OwnTransfer(s, i, pc)
    ensures TransfersDistinct(Move(s, i, pc).calls) && TransfersExist(Move(s, i, pc))
  {
    hide ClientOf;
  }

  lemma CallAt(s: Shop, i: nat, secret: Secret)
    requires Inv(s, secret) && i < |s.calls|
    ensures CallHolds(s, s.calls[i])
  {
    hide R.Inv, RowsHold, TransfersDistinct, TransfersExist, RecordsHold, RequestIdsDistinct, CallHolds;
  }

  lemma VerifyKeeps(s: Shop, i: nat, secret: Secret)
    requires Inv(s, secret) && i < |s.calls| && s.calls[i].pc.Scanned?
    ensures Inv(Move(s, i, AfterScan(s, s.calls[i], secret)), secret)
  {
    ScanRight(s, s.calls[i], secret);
    hide Inv, AfterScan, CallHolds, Move;
    MoveKeeps(s, i, AfterScan(s, s.calls[i], secret), secret);
  }

  lemma ScanRight(s: Shop, c: PayCall, secret: Secret)
    ensures CallHolds(s, c.(pc := AfterScan(s, c, secret))) && ClientOf(AfterScan(s, c, secret)).None?
  {
    hide Q.ParseURI, Q.Verify;
  }

  /** A listed match is a stored row with the scanned payload. */
  lemma FoundIsOffered(rows: seq<Request>, found: Request, payload: string)
    requires RequestIdsDistinct(rows) && found in rows && found.qrPayload == payload
    ensures Offered(rows, found.id, payload)
  {
    hide RequestIdsDistinct, IndexOf;
    IdFinds(rows, found);
  }

  lemma FoundRight(s: Shop, c: PayCall, found: Request)
    requires CallHolds(s, c) && (c.pc.FindPending? || c.pc.FindAny?) && Offered(s.rows, found.id, c.payload)
    ensures CallHolds(s, c.(pc := AfterFound(c.pc.scan, found))) && ClientOf(AfterFound(c.pc.scan, found)).None?
  {
    hide Offered, Q.ParseURI, OwnersWallet;
    match Guard(found.status)
    case Some(_) =>
    case None => assert ScanHolds(s, c, c.pc.scan);
  }

  lemma NotFoundRight(s: Shop, c: PayCall, status: Option<Status>)
    requires CallHolds(s, c) && (c.pc.FindPending? || c.pc.FindAny?)
    ensures var pc := if status.Some? then FindAny(c.pc.scan) else Refused(RequestNotFound);
            CallHolds(s, c.(pc := pc)) && ClientOf(pc).None?
  {
    hide Q.ParseURI, OwnersWallet;
    assert ScanHolds(s, c, c.pc.scan);
  }

  lemma LookRight(s: Shop, c: PayCall, status: Option<Status>)
    requires RequestIdsDistinct(s.rows) && CallHolds(s, c) && (c.pc.FindPending? || c.pc.FindAny?)
    ensures CallHolds(s, c.(pc := AfterLook(s, c, status))) && ClientOf(AfterLook(s, c, status)).None?
  {
    hide RequestIdsDistinct, List, Match, Offered, CallHolds, ClientOf, AfterFound;
    match Match(List(s.rows, c.pc.scan.uri.merchant, status, 100), c.payload)
    case Some(found) =>
      FoundIsOffered(s.rows, found, c.payload);
      FoundRight(s, c, found);
    case None =>
      NotFoundRight(s, c, status);
  }

  lemma LookKeeps(s: Shop, i: nat, status: Option<Status>, secret: Secret)
    requires Inv(s, secret) && i < |s.calls| && (s.calls[i].pc.FindPending? || s.calls[i].pc.FindAny?)
    ensures Inv(Move(s, i, AfterLook(s, s.calls[i], status)), secret)
  {
    CallAt(s, i, secret);
    assert RequestIdsDistinct(s.rows);
    hide Inv, RequestIdsDistinct, CallHolds, AfterLook, Move;
    LookRight(s, s.calls[i], status);
    MoveKeeps(s, i, AfterLook(s, s.calls[i], status), secret);
  }

  lemma BeginRight(s: Shop, t: Shop, c: PayCall, start: M.Action, txn: Uuid)
    requires c.pc.Transferring? && CallHolds(t, c) && M.FreshId(s.ledger, txn)
    requires start == M.Start(L.Transfer(PaymentParams(c.payerWallet, c.pc.scan.wallet, c.pc.scan.uri, c.key)), txn)
    requires t.ledger == M.Step(s.ledger, start)
    ensures CallHolds(t, c.(pc := Paying(c.pc.scan, c.pc.request, |s.ledger.clients|)))
    ensures |t.ledger.clients| == |s.ledger.clients| + 1
  {
    hide Q.ParseURI, OwnersWallet, Offered, PaymentParams;
    assert t.ledger.clients[|s.ledger.clients|].op == start.op;
  }

  lemma BeginKeeps(s: Shop, i: nat, txn: Uuid, secret: Secret)
    requires Inv(s, secret) && i < |s.calls| && s.calls[i].pc.Transferring? && M.FreshId(s.ledger, txn)
    ensures Inv(Begun(s, i, txn), secret)
  {
    var c := s.calls[i];
    var start := M.Start(L.Transfer(PaymentParams(c.payerWallet, c.pc.scan.wallet, c.pc.scan.uri, c.key)), txn);
    var t := s.(ledger := M.Step(s.ledger, start));
    assert TransfersExist(s);
    hide Inv, CallHolds, PaymentParams, M.Step, M.FreshId, TransfersExist;
    LedgerStepKeeps(s, start, secret);
    CallAt(t, i, secret);
    BeginRight(s, t, c, start, txn);
    BeginFresh(s);
    MoveKeeps(t, i, Paying(c.pc.scan, c.pc.request, |s.ledger.clients|), secret);
  }

  lemma BeginFresh(s: Shop)
    requires TransfersExist(s)
    ensures forall j :: 0 <= j < |s.calls| ==> ClientOf(s.calls[j].pc) != Some(|s.ledger.clients|)
  {
    hide ClientOf;
  }

  /** A successful transfer is the settled payment the scan asked for. */
  lemma CollectRight(s: Shop, c: PayCall, client: M.Client)
    requires CallHolds(s, c) && c.pc.Paying? && c.pc.client < |s.ledger.clients|
    requires client == s.ledger.clients[c.pc.client]
    requires R.OutcomeHolds(s.ledger.store, client)
    ensures CallHolds(s, c.(pc := AfterLedger(c.pc, client.outcome)))
    ensures OwnPc(c.pc, AfterLedger(c.pc, client.outcome))
  {
    hide Q.ParseURI, Offered, OwnersWallet;
    if client.outcome.Success? {
      var k :| 0 <= k < |s.ledger.store.txns| && s.ledger.store.txns[k] == client.outcome.txn;
      assert IsPayment(s.ledger.store.txns[k], client.id, c.payerWallet, c.pc.scan.wallet, c.pc.scan.uri.amount);
    }
  }

  ghost predicate OwnPc(pc: PayPC, next: PayPC) {
    ClientOf(next).None? || ClientOf(next) == ClientOf(pc)
  }

  lemma CollectKeeps(s: Shop, i: nat, secret: Secret)
    requires Inv(s, secret) && Enabled(s, Collect(i), secret)
    ensures Inv(Move(s, i, AfterLedger(s.calls[i].pc, s.ledger.clients[s.calls[i].pc.client].outcome)), secret)
  {
    var c := s.calls[i];
    CallAt(s, i, secret);
    assert R.Inv(s.ledger);
    hide Inv, CallHolds, AfterLedger, R.Inv, Move, R.OutcomeHolds, ClientOf;
    R.ClientInvAt(s.ledger, c.pc.client);
    CollectRight(s, c, s.ledger.clients[c.pc.client]);
    MoveKeeps(s, i, AfterLedger(c.pc, s.ledger.clients[c.pc.client].outcome), secret);
  }

  // ---- the mark-paid update

  /** The row found by payload has the amount and merchant the URI says: it was printed from them. */
  lemma OfferMatchesScan(s: Shop, c: PayCall, scan: Scan, k: nat, secret: Secret)
    requires k < |s.rows| && Genuine(s.rows[k], secret) && s.rows[k].qrPayload == c.payload && ScanHolds(s, c, scan)
    ensures scan.uri.amount == s.rows[k].amount && scan.uri.merchant == s.rows[k].merchant
  {
    var r := s.rows[k];
    Q.RoundTrip(secret.mac, secret.key, r.merchant, r.amount, r.reference, r.description, r.expiresAt);
    hide Q.ParseURI, Q.BuildURI, Q.Sign, OwnersWallet;
  }

  function PaidRow(r: Request, c: PayCall, now: int): Request
    requires c.pc.Marking?
  {
    r.(status := Paid, payer := Some(c.payerWallet), txn := Some(c.pc.txn), paidAt := Some(now))
  }

  lemma MarkedRow(s: Shop, i: nat, k: nat, secret: Secret)
    requires Inv(s, secret) && i < |s.calls| && s.calls[i].pc.Marking? && k == IndexOf(s.rows, s.calls[i].pc.request)
    ensures k < |s.rows|
    ensures s.now < s.rows[k].expiresAt ==> PaidMeansPaid(s, PaidRow(s.rows[k], s.calls[i], s.now))
  {
    var c := s.calls[i];
    hide Inv, RowsHold, Genuine, ScanHolds, Offered, SettledPayment, PaidMeansPaid;
    CallAt(s, i, secret);
    assert k < |s.rows| && s.rows[k].qrPayload == c.payload by { OfferedRow(s, c); }
    RowAt(s, k, secret);
    OfferMatchesScan(s, c, c.pc.scan, k, secret);
    PaidRowHolds(s, c, s.rows[k]);
  }

  lemma OfferedRow(s: Shop, c: PayCall)
    requires CallHolds(s, c) && c.pc.Marking?
    ensures IndexOf(s.rows, c.pc.request) < |s.rows| && s.rows[IndexOf(s.rows, c.pc.request)].qrPayload == c.payload
  {
    hide ScanHolds, SettledPayment;
  }

  lemma PaidRowHolds(s: Shop, c: PayCall, r: Request)
    requires c.pc.Marking? && CallHolds(s, c) && c.pc.scan.uri.amount == r.amount
    requires c.pc.scan.uri.merchant == r.merchant
    ensures s.now < r.expiresAt ==> PaidMeansPaid(s, PaidRow(r, c, s.now))
  {
    hide SettledPayment, Offered, Q.ParseURI;
    assert OwnersWallet(s, r.merchant, c.pc.scan.wallet);
  }

  /** One row's status moves, nothing else about the rows. */
  lemma RowKeeps(s: Shop, k: nat, r: Request, secret: Secret)
    requires Inv(s, secret) && k < |s.rows| && SameOffer(s.rows[k], r) && PaidMeansPaid(s, r)
    requires r.txn.Some? ==> RecordedBy(s.calls, r)
    ensures Inv(s.(rows := s.rows[k := r]), secret)
  {
    hide R.Inv, RowsHold, CallsHold, Genuine, PaidMeansPaid, RequestIdsDistinct, RecordsHold, TransfersDistinct;
    hide ClientOf, RecordedBy, Extends;
    RowsExtend(s, s.rows[k := r]);
    CallsStay(s, s.(rows := s.rows[k := r]));
    RowsAfter(s, k, r, secret);
    RowIds(s.rows, s.calls, k, r);
  }

  lemma RowIds(rows: seq<Request>, calls: seq<PayCall>, k: nat, r: Request)
    requires RequestIdsDistinct(rows) && RecordsHold(rows, calls) && k < |rows| && r.id == rows[k].id
    requires (r.txn.Some? ==> RecordedBy(calls, r))
    ensures RequestIdsDistinct(rows[k := r]) && RecordsHold(rows[k := r], calls)
  {
    hide RecordedBy;
  }

  lemma StaysGenuine(r: Request, q: Request, secret: Secret)
    requires SameOffer(r, q) && Genuine(r, secret)
    ensures Genuine(q, secret)
  {
    hide Q.BuildURI;
  }

  lemma RowsAfter(s: Shop, k: nat, r: Request, secret: Secret)
    requires RowsHold(s, secret) && k < |s.rows| && SameOffer(s.rows[k], r) && PaidMeansPaid(s, r)
    ensures RowsHold(s.(rows := s.rows[k := r]), secret)
  {
    hide Genuine;
    StaysGenuine(s.rows[k], r, secret);
    var t := s.(rows := s.rows[k := r]);
    assert Extends(s, t);
    forall j | 0 <= j < |t.rows|
      ensures Genuine(t.rows[j], secret) && PaidMeansPaid(t, t.rows[j])
    {
      assert Genuine(s.rows[j], secret) && PaidMeansPaid(s, s.rows[j]);
      PaidStays(s, t, t.rows[j]);
      hide PaidMeansPaid, Extends;
    }
  }

  function DonePc(pc: PayPC): PayPC
    requires pc.Marking?
  {
    Finished(pc.scan, pc.request, pc.client, pc.txn)
  }

  lemma DoneRight(s: Shop, c: PayCall)
    requires CallHolds(s, c) && c.pc.Marking?
    ensures CallHolds(s, c.(pc := DonePc(c.pc))) && ClientOf(DonePc(c.pc)) == ClientOf(c.pc)
  {
    hide OwnersWallet, Offered, SettledPayment, Q.ParseURI;
  }

  lemma DoneKeeps(s: Shop, i: nat, secret: Secret)
    requires Inv(s, secret) && i < |s.calls| && s.calls[i].pc.Marking?
    ensures Inv(Move(s, i, DonePc(s.calls[i].pc)), secret)
  {
    hide Inv, CallHolds, ClientOf, Move;
    CallAt(s, i, secret);
    DoneRight(s, s.calls[i]);
    MoveKeeps(s, i, DonePc(s.calls[i].pc), secret);
  }

  lemma RecordedAfter(calls: seq<PayCall>, i: nat, r: Request)
    requires i < |calls| && calls[i].pc.Finished? && Some(calls[i].pc.txn) == r.txn && calls[i].pc.request == r.id
    ensures RecordedBy(calls, r)
  {
  }

  lemma WriteKeeps(s: Shop, i: nat, k: nat, secret: Secret)
    requires Inv(s, secret) && i < |s.calls| && s.calls[i].pc.Marking? && k < |s.rows|
    requires s.rows[k].id == s.calls[i].pc.request
    requires PaidMeansPaid(s, PaidRow(s.rows[k], s.calls[i], s.now))
    ensures Inv(Move(s, i, DonePc(s.calls[i].pc)).(rows := s.rows[k := PaidRow(s.rows[k], s.calls[i], s.now)]), secret)
  {
    var t := Move(s, i, DonePc(s.calls[i].pc));
    var r := PaidRow(s.rows[k], s.calls[i], s.now);
    hide Inv, PaidMeansPaid, RecordedBy, OwnersWallet;
    DoneKeeps(s, i, secret);
    MoveExtends(s, i, DonePc(s.calls[i].pc));
    hide Extends;
    PaidStays(s, t, r);
    RecordedAfter(t.calls, i, r);
    RowKeeps(t, k, r, secret);
  }

  /** Which rows the update leaves. */
  lemma MarkedRows(s: Shop, i: nat, fails: bool)
    requires i < |s.calls| && s.calls[i].pc.Marking?
    ensures var c, k := s.calls[i], IndexOf(s.rows, s.calls[i].pc.request);
            var t := Move(s, i, DonePc(c.pc));
            Marked(s, i, fails) == if !fails && k < |s.rows| && s.rows[k].status == Pending
                && s.now < s.rows[k].expiresAt
                                   then t.(rows := s.rows[k := PaidRow(s.rows[k], c, s.now)]) else t
  {
  }

  lemma MarkKeeps(s: Shop, i: nat, fails: bool, secret: Secret)
    requires Inv(s, secret) && i < |s.calls| && s.calls[i].pc.Marking?
    ensures Inv(Marked(s, i, fails), secret)
  {
    var k := IndexOf(s.rows, s.calls[i].pc.request);
    hide Inv, PaidMeansPaid, Marked, Move, DonePc, PaidRow;
    MarkedRow(s, i, k, secret);
    MarkedRows(s, i, fails);
    if !fails && s.rows[k].status == Pending && s.now < s.rows[k].expiresAt {
      WriteKeeps(s, i, k, secret);
    } else {
      DoneKeeps(s, i, secret);
    }
  }

  // ---- the merchant's own steps

  lemma CancelKeeps(s: Shop, id: Uuid, merchant: Uuid, secret: Secret)
    requires Inv(s, secret) && Cancel(s.rows, id, merchant).Ok?
    ensures Inv(s.(rows := Cancel(s.rows, id, merchant).value), secret)
  {
    var k := IndexOf(s.rows, id);
    RowAt(s, k, secret);
    hide Inv;
    RowKeeps(s, k, s.rows[k].(status := Cancelled), secret);
  }

  lemma RowAt(s: Shop, k: nat, secret: Secret)
    requires Inv(s, secret) && k < |s.rows|
    ensures Genuine(s.rows[k], secret) && PaidMeansPaid(s, s.rows[k])
  {
    hide R.Inv, Genuine, PaidMeansPaid, CallsHold, TransfersDistinct, TransfersExist, RecordsHold, RequestIdsDistinct;
  }

  lemma Unpaid(s: Shop, r: Request)
    requires r.status != Paid && r.payer.None? && r.txn.None? && r.paidAt.None?
    ensures PaidMeansPaid(s, r)
  {
  }

  lemma RowsExtend(s: Shop, rows: seq<Request>)
    requires OffersStay(s.rows, rows)
    ensures Extends(s, s.(rows := rows))
  {
    hide SameOffer;
  }

  lemma CreateRows(s: Shop, r: Request, secret: Secret)
    requires RowsHold(s, secret) && Genuine(r, secret) && PaidMeansPaid(s, r)
    ensures RowsHold(s.(rows := s.rows + [r]), secret)
  {
    var t := s.(rows := s.rows + [r]);
    assert Extends(s, t);
    hide Extends, Genuine, PaidMeansPaid;
    forall k | 0 <= k < |t.rows|
      ensures Genuine(t.rows[k], secret) && PaidMeansPaid(t, t.rows[k])
    {
      if k < |s.rows| {
        assert Genuine(s.rows[k], secret) && PaidMeansPaid(s, s.rows[k]);
        PaidStays(s, t, s.rows[k]);
      } else {
        PaidStays(s, t, r);
      }
    }
  }

  lemma CreateIds(rows: seq<Request>, calls: seq<PayCall>, r: Request)
    requires RequestIdsDistinct(rows) && IndexOf(rows, r.id) == |rows| && RecordsHold(rows, calls) && r.txn.None?
    ensures RequestIdsDistinct(rows + [r]) && RecordsHold(rows + [r], calls)
  {
    hide RecordedBy;
  }

  lemma CreateKeeps(s: Shop, r: Request, secret: Secret)
    requires Inv(s, secret) && Genuine(r, secret) && r.status == Pending && r.payer.None? && r.txn.None?
    requires r.paidAt.None?
    requires IndexOf(s.rows, r.id) == |s.rows|
    ensures Inv(s.(rows := s.rows + [r]), secret)
  {
    hide R.Inv, Genuine, PaidMeansPaid, RowsHold, CallsHold, RequestIdsDistinct, RecordsHold, TransfersDistinct;
    hide ClientOf, Extends;
    Unpaid(s, r);
    RowsExtend(s, s.rows + [r]);
    CallsStay(s, s.(rows := s.rows + [r]));
    CreateRows(s, r, secret);
    CreateIds(s.rows, s.calls, r);
  }

  lemma MoreCalls(s: Shop, c: PayCall)
    requires CallsHold(s) && c.pc == Scanned
    ensures CallsHold(s.(calls := s.calls + [c])) && CallHolds(s, c)
  {
    var t := s.(calls := s.calls + [c]);
    assert Extends(s, t) && CallHolds(s, c);
    hide CallHolds, Extends;
    forall j | 0 <= j < |t.calls|
      ensures CallHolds(t, t.calls[j])
    {
      if j < |s.calls| {
        assert CallHolds(s, s.calls[j]);
        CallStays(s, t, s.calls[j]);
      } else {
        CallStays(s, t, c);
      }
    }
  }

  lemma MoreRecords(rows: seq<Request>, calls: seq<PayCall>, c: PayCall)
    requires RecordsHold(rows, calls)
    ensures RecordsHold(rows, calls + [c])
  {
    forall k | 0 <= k < |rows| && rows[k].txn.Some?
      ensures RecordedBy(calls + [c], rows[k])
    {
      assert RecordedBy(calls, rows[k]);
      var i :| 0 <= i < |calls| && calls[i].pc.Finished? && Some(calls[i].pc.txn) == rows[k].txn
          && calls[i].pc.request == rows[k].id;
      assert (calls + [c])[i] == calls[i];
    }
  }

  lemma MoreTransfers(s: Shop, c: PayCall)
    requires TransfersDistinct(s.calls) && TransfersExist(s) && c.pc == Scanned
    ensures TransfersDistinct(s.calls + [c]) && TransfersExist(s.(calls := s.calls + [c]))
  {
    assert ClientOf(c.pc).None?;
    hide ClientOf;
  }

  lemma ScanCodeKeeps(s: Shop, c: PayCall, secret: Secret)
    requires Inv(s, secret) && c.pc == Scanned
    ensures Inv(s.(calls := s.calls + [c]), secret)
  {
    hide R.Inv, RowsHold, CallsHold, RequestIdsDistinct, TransfersDistinct, TransfersExist, RecordsHold;
    MoveRows(s, s.(calls := s.calls + [c]), secret);
    MoreCalls(s, c);
    MoreRecords(s.rows, s.calls, c);
    MoreTransfers(s, c);
  }

  lemma NewRequestGenuine(s: Shop, a: Action, secret: Secret)
    requires a.Create? && Enabled(s, a, secret)
    ensures var r := NewRequest(secret.mac, secret.key, a.id, a.creator, a.amount, a.reference, a.description,
            a.expirySecs, s.now);
            Genuine(r, secret) && r.status == Pending && r.payer.None? && r.txn.None? && r.paidAt.None? && r.id == a.id
  {
    hide Q.BuildURI, IndexOf, Lifetime;
  }

  lemma CreateStepKeeps(s: Shop, a: Action, secret: Secret)
    requires Inv(s, secret) && a.Create? && Enabled(s, a, secret)
    ensures Inv(Do(s, a, secret), secret)
  {
    NewRequestGenuine(s, a, secret);
    var r := NewRequest(secret.mac, secret.key, a.id, a.creator, a.amount, a.reference, a.description, a.expirySecs,
        s.now);
    hide Inv, NewRequest, Genuine, Q.UnixFits;
    CreateKeeps(s, r, secret);
  }

  lemma AddedExtends(s: Shop, a: Action, secret: Secret)
    requires Enabled(s, a, secret) && (a.Tick? || a.Register? || a.SetActive? || a.GiveWallet?)
    ensures var t := Do(s, a, secret); Extends(s, t) && t.ledger == s.ledger && t.rows == s.rows && t.calls == s.calls
  {
  }

  lemma AddedKeeps(s: Shop, a: Action, secret: Secret)
    requires Inv(s, secret) && Enabled(s, a, secret) && (a.Tick? || a.Register? || a.SetActive? || a.GiveWallet?)
    ensures Inv(Do(s, a, secret), secret)
  {
    assert R.Inv(s.ledger) by { hide R.Inv, RowsHold, RequestIdsDistinct, CallsHold, TransfersDistinct, TransfersExist,
        RecordsHold; }
    hide Inv, Do, Enabled, Extends, R.Inv;
    AddedExtends(s, a, secret);
    GrowthKeeps(s, Do(s, a, secret), secret);
  }

  lemma StepKeepsInv(s: Shop, a: Action, secret: Secret)
    requires Inv(s, secret)
    ensures Inv(Step(s, a, secret), secret)
  {
    if Enabled(s, a, secret) {
      hide Inv, AfterScan, AfterLook, AfterLedger, Begun, Marked, Move, Cancel, M.Step;
      match a
      case Ledger(step) => LedgerStepKeeps(s, step, secret);
      case Tick(_) => AddedKeeps(s, a, secret);
      case Register(_, _) => AddedKeeps(s, a, secret);
      case SetActive(_, _) => AddedKeeps(s, a, secret);
      case GiveWallet(_, _) => AddedKeeps(s, a, secret);
      case Create(_, _, _, _, _, _) => CreateStepKeeps(s, a, secret);
      case CancelRequest(id, m) => if Cancel(s.rows, id, m).Ok? { CancelKeeps(s, id, m, secret); }
      case ScanCode(payload, user, wallet, key) => ScanCodeKeeps(s, PayCall(payload, user, wallet, key, Scanned),
          secret);
      case Verify(i) => VerifyKeeps(s, i, secret);
      case LookPending(i) => LookKeeps(s, i, Some(Pending), secret);
      case LookAny(i) => LookKeeps(s, i, None, secret);
      case BeginTransfer(i, txn) => BeginKeeps(s, i, txn, secret);
      case Collect(i) => CollectKeeps(s, i, secret);
      case Mark(i, fails) => MarkKeeps(s, i, fails, secret);
      case Abandon(i) => AbandonKeeps(s, i, secret);
    }
  }

  lemma AbandonKeeps(s: Shop, i: nat, secret: Secret)
    requires Inv(s, secret) && i < |s.calls| && !s.calls[i].pc.Finished?
    ensures Inv(Move(s, i, Refused(Unavailable)), secret)
  {
    hide Inv, Move;
    MoveKeeps(s, i, Refused(Unavailable), secret);
  }

  lemma {:induction false} RunKeepsInv(trace: seq<Action>, secret: Secret)
    ensures Inv(Run(trace, secret), secret)
  {
    if trace != [] {
      RunKeepsInv(trace[..|trace| - 1], secret);
      hide Inv, Step;
      StepKeepsInv(Run(trace[..|trace| - 1], secret), trace[|trace| - 1], secret);
    } else {
      R.RunKeepsInv([]);
      hide R.Inv;
    }
  }

  // ---- what holds in every reachable state

  /** Every PAID request points to a settled payment of its amount, from its payer to the owning merchant's wallet,
      recorded before it expired. Nothing else points anywhere. */
  lemma {:induction false} PaidMeansPaidAlways(trace: seq<Action>, k: nat, secret: Secret)
    requires k < |Run(trace, secret).rows|
    ensures PaidMeansPaid(Run(trace, secret), Run(trace, secret).rows[k])
  {
    RunKeepsInv(trace, secret);
    hide Run, Inv, PaidMeansPaid;
    RowAt(Run(trace, secret), k, secret);
  }

  /** No transaction is ever recorded on two requests, however many requests a scanned code matches. */
  lemma {:induction false} NoTransactionOnTwoRequests(trace: seq<Action>, k: nat, l: nat, secret: Secret)
    requires var rows := Run(trace, secret).rows;
             k < |rows| && l < |rows| && rows[k].txn.Some? && rows[k].txn == rows[l].txn
    ensures k == l
  {
    RunKeepsInv(trace, secret);
    var s := Run(trace, secret);
    hide Run;
    var i := Recorder(s, k, secret);
    var j := Recorder(s, l, secret);
    assert s.ledger.clients[s.calls[i].pc.client].id == s.ledger.clients[s.calls[j].pc.client].id;
    OneCallPerTransfer(s, i, j, secret);
    assert s.rows[k].id == s.rows[l].id;
    hide R.Inv, RowsHold, CallsHold, TransfersDistinct, TransfersExist, RecordsHold;
  }

  lemma Recorder(s: Shop, k: nat, secret: Secret) returns (i: nat)
    requires Inv(s, secret) && k < |s.rows| && s.rows[k].txn.Some?
    ensures i < |s.calls| && s.calls[i].pc.Finished? && s.calls[i].pc.request == s.rows[k].id
    ensures s.calls[i].pc.client < |s.ledger.clients|
        && Some(s.ledger.clients[s.calls[i].pc.client].id) == s.rows[k].txn
  {
    hide Inv, CallHolds, RecordedBy;
    RecordAt(s, k, secret);
    i := RecordingCall(s.calls, s.rows[k]);
    CallAt(s, i, secret);
    FinishedClient(s, s.calls[i]);
  }

  lemma RecordAt(s: Shop, k: nat, secret: Secret)
    requires Inv(s, secret) && k < |s.rows| && s.rows[k].txn.Some?
    ensures RecordedBy(s.calls, s.rows[k])
  {
    hide R.Inv, RowsHold, CallsHold, TransfersDistinct, TransfersExist, RecordedBy, RequestIdsDistinct;
  }

  lemma RecordingCall(calls: seq<PayCall>, r: Request) returns (i: nat)
    requires RecordedBy(calls, r)
    ensures i < |calls| && calls[i].pc.Finished? && Some(calls[i].pc.txn) == r.txn && calls[i].pc.request == r.id
  {
    i :| 0 <= i < |calls| && calls[i].pc.Finished? && Some(calls[i].pc.txn) == r.txn && calls[i].pc.request == r.id;
  }

  lemma FinishedClient(s: Shop, c: PayCall)
    requires CallHolds(s, c) && c.pc.Finished?
    ensures c.pc.client < |s.ledger.clients| && s.ledger.clients[c.pc.client].id == c.pc.txn
  {
    hide ScanHolds, Offered, SettledPayment;
  }

  lemma OneCallPerTransfer(s: Shop, i: nat, j: nat, secret: Secret)
    requires Inv(s, secret) && i < |s.calls| && j < |s.calls| && s.calls[i].pc.Finished? && s.calls[j].pc.Finished?
    requires s.calls[i].pc.client < |s.ledger.clients| && s.calls[j].pc.client < |s.ledger.clients|
    requires s.ledger.clients[s.calls[i].pc.client].id == s.ledger.clients[s.calls[j].pc.client].id
    ensures i == j
  {
    hide RowsHold, CallsHold, RequestIdsDistinct, TransfersExist, RecordsHold;
    assert R.IdsDistinct(s.ledger) && TransfersDistinct(s.calls) by {
      hide TransfersDistinct, R.ClientsInv, R.OutcomesHold, R.TxnsOwned, R.LocksExclusive, R.IdsDistinct;
    }
    hide Inv;
    assert s.calls[i].pc.client == s.calls[j].pc.client;
    assert ClientOf(s.calls[i].pc) == ClientOf(s.calls[j].pc);
  }

  /** The merchant a call is about to pay. */
  function Payee(pc: PayPC): Option<Uuid> {
    match pc
    case FindPending(scan) => Some(scan.uri.merchant)
    case FindAny(scan) => Some(scan.uri.merchant)
    case Transferring(scan, _) => Some(scan.uri.merchant)
    case Paying(scan, _, _) => Some(scan.uri.merchant)
    case Marking(scan, _, _, _) => Some(scan.uri.merchant)
    case _ => None
  }

  /** No call pays a merchant account of its own user, at any step. */
  lemma {:induction false} NobodyPaysThemselves(trace: seq<Action>, i: nat, secret: Secret)
    requires i < |Run(trace, secret).calls| && Payee(Run(trace, secret).calls[i].pc).Some?
    ensures var s := Run(trace, secret); var m := Payee(s.calls[i].pc).value;
            m in s.merchants && s.merchants[m].user != s.calls[i].payerUser
  {
    RunKeepsInv(trace, secret);
    var s := Run(trace, secret);
    hide Run, Inv, Offered, SettledPayment, Q.ParseURI, PaymentParams;
    CallAt(s, i, secret);
  }

  /** A call goes on to its transfer only from a row that is pending at that moment and carries the scanned payload. */
  lemma {:induction false} TransfersOnlyForPending(trace: seq<Action>, i: nat, a: Action, secret: Secret)
    requires i < |Run(trace, secret).calls| && !Run(trace, secret).calls[i].pc.Transferring?
    requires i < |Step(Run(trace, secret), a, secret).calls|
    requires Step(Run(trace, secret), a, secret).calls[i].pc.Transferring?
    ensures var s, c := Run(trace, secret), Step(Run(trace, secret), a, secret).calls[i];
            var k := IndexOf(s.rows, c.pc.request);
            k < |s.rows| && s.rows[k].status == Pending && s.rows[k].qrPayload == c.payload
                && s.rows[k].merchant == c.pc.scan.uri.merchant
  {
    RunKeepsInv(trace, secret);
    var s := Run(trace, secret);
    hide Run;
    assert RequestIdsDistinct(s.rows) by { hide R.Inv, RowsHold, RequestIdsDistinct, CallsHold, TransfersDistinct,
        TransfersExist, RecordsHold; }
    hide Inv, RequestIdsDistinct;
    var status := LookOf(s, i, a, secret);
    hide Step;
    FoundPending(s, s.calls[i], status);
  }

  /** Only the two looks lead to a transfer. */
  lemma LookOf(s: Shop, i: nat, a: Action, secret: Secret) returns (status: Option<Status>)
    requires i < |s.calls| && !s.calls[i].pc.Transferring?
    requires i < |Step(s, a, secret).calls| && Step(s, a, secret).calls[i].pc.Transferring?
    ensures s.calls[i].pc.FindPending? || s.calls[i].pc.FindAny?
    ensures Step(s, a, secret).calls[i] == s.calls[i].(pc := AfterLook(s, s.calls[i], status))
  {
    hide AfterLook, NewRequest, Cancel, MarkPaid, M.Step, Q.ParseURI, Q.Verify, IndexOf;
    status := if a.LookPending? then Some(Pending) else None;
  }

  lemma FoundPending(s: Shop, c: PayCall, status: Option<Status>)
    requires RequestIdsDistinct(s.rows) && (c.pc.FindPending? || c.pc.FindAny?) && AfterLook(s, c, status).Transferring?
    ensures var pc := AfterLook(s, c, status); var k := IndexOf(s.rows, pc.request);
            k < |s.rows| && s.rows[k].status == Pending && s.rows[k].qrPayload == c.payload
                && s.rows[k].merchant == pc.scan.uri.merchant
  {
    hide RequestIdsDistinct, IndexOf, List, Match;
    var found := Match(List(s.rows, c.pc.scan.uri.merchant, status, 100), c.payload).value;
    IdFinds(s.rows, found);
  }

  lemma IdFinds(rows: seq<Request>, found: Request)
    requires RequestIdsDistinct(rows) && found in rows
    ensures IndexOf(rows, found.id) < |rows| && rows[IndexOf(rows, found.id)] == found
  {
    var k :| 0 <= k < |rows| && rows[k] == found;
    assert IndexOf(rows, found.id) <= k;
  }

  // ---- the life cycle

  /** A pending row may be cancelled, or paid before it expires. A row that is not pending never changes. */
  predicate Moves(r: Request, q: Request) {
    || q == r
    || (r.status == Pending && q == r.(status := Cancelled))
    || (r.status == Pending && q.paidAt.Some? && q.paidAt.value < r.expiresAt
        && q == r.(status := Paid, payer := q.payer, txn := q.txn, paidAt := q.paidAt))
  }

  ghost predicate LivesOn(rows: seq<Request>, after: seq<Request>) {
    |rows| <= |after| && forall k :: 0 <= k < |rows| ==> Moves(rows[k], after[k])
  }

  lemma StepLivesOn(s: Shop, a: Action, secret: Secret)
    ensures LivesOn(s.rows, Step(s, a, secret).rows)
  {
    hide AfterScan, AfterLook, AfterLedger, NewRequest, IndexOf;
    if Enabled(s, a, secret) && a.BeginTransfer? {
      assert Do(s, a, secret).rows == s.rows;
    } else if Enabled(s, a, secret) && a.Mark? {
      assert LivesOn(s.rows, Marked(s, a.marker, a.fails).rows);
    } else if Enabled(s, a, secret) && a.CancelRequest? {
      assert Cancel(s.rows, a.cancelled, a.canceller).Ok? ==>
          LivesOn(s.rows, Cancel(s.rows, a.cancelled, a.canceller).value);
    }
  }

  /** PAID and CANCELLED absorb: whatever runs later, a row keeps its offer, and once it has left PENDING it keeps its
      status, its payer, its transaction and its time of payment. */
  lemma {:induction false} LifeCycle(trace: seq<Action>, more: seq<Action>, secret: Secret)
    ensures LivesOn(Run(trace, secret).rows, Run(trace + more, secret).rows)
    decreases |more|
  {
    if more == [] {
      assert trace + more == trace;
    } else {
      var rest, last := more[..|more| - 1], more[|more| - 1];
      assert (trace + more)[..|trace + more| - 1] == trace + rest;
      LifeCycle(trace, rest, secret);
      StepLivesOn(Run(trace + rest, secret), last, secret);
      hide Step;
      assert Run(trace + more, secret) == Step(Run(trace + rest, secret), last, secret);
    }
  }

  /** The exact condition under which money that moved is recorded: the request is still pending, has not expired and
      the update does not fail. Otherwise no row changes, though the transfer stands. */
  lemma {:induction false} MarkRecordsExactlyWhen(trace: seq<Action>, i: nat, fails: bool, secret: Secret)
    requires i < |Run(trace, secret).calls| && Run(trace, secret).calls[i].pc.Marking?
    ensures var s, t := Run(trace, secret), Step(Run(trace, secret), Mark(i, fails), secret);
            var c, k := s.calls[i], IndexOf(s.rows, s.calls[i].pc.request);
            && k < |s.rows| && s.rows[k].qrPayload == c.payload
            && (if !fails && s.rows[k].status == Pending && s.now < s.rows[k].expiresAt
                then t.rows == s.rows[k := PaidRow(s.rows[k], c, s.now)] else t.rows == s.rows)
            && exists wallet ::
                 OwnersWallet(t, s.rows[k].merchant, wallet)
                 && SettledPayment(t.ledger.store, c.pc.txn, c.payerWallet, wallet, s.rows[k].amount)
  {
    RunKeepsInv(trace, secret);
    var s := Run(trace, secret);
    hide Run, Inv;
    MarkTells(s, i, fails, secret);
  }

  lemma VerifyMoves(s: Shop, i: nat, secret: Secret)
    requires i < |s.calls| && s.calls[i].pc.Scanned?
    ensures Step(s, Verify(i), secret) == Move(s, i, AfterScan(s, s.calls[i], secret))
  {
    hide AfterScan, Move;
  }

  lemma MarkStep(s: Shop, i: nat, fails: bool, secret: Secret)
    requires i < |s.calls| && s.calls[i].pc.Marking?
    ensures Step(s, Mark(i, fails), secret) == Marked(s, i, fails)
  {
    hide Marked;
  }

  lemma MarkTells(s: Shop, i: nat, fails: bool, secret: Secret)
    requires Inv(s, secret) && i < |s.calls| && s.calls[i].pc.Marking?
    ensures var t := Step(s, Mark(i, fails), secret);
            var c, k := s.calls[i], IndexOf(s.rows, s.calls[i].pc.request);
            && k < |s.rows| && s.rows[k].qrPayload == c.payload
            && (if !fails && s.rows[k].status == Pending && s.now < s.rows[k].expiresAt
                then t.rows == s.rows[k := PaidRow(s.rows[k], c, s.now)] else t.rows == s.rows)
            && exists wallet ::
                 OwnersWallet(t, s.rows[k].merchant, wallet)
                 && SettledPayment(t.ledger.store, c.pc.txn, c.payerWallet, wallet, s.rows[k].amount)
  {
    var c, k := s.calls[i], IndexOf(s.rows, s.calls[i].pc.request);
    hide Inv, Step, Genuine, ScanHolds, Offered, SettledPayment, Marked, IndexOf, PaidRow, CallHolds, PaidMeansPaid;
    hide DonePc;
    CallAt(s, i, secret);
    OfferedRow(s, c);
    RowAt(s, k, secret);
    OfferMatchesScan(s, c, c.pc.scan, k, secret);
    MarkStep(s, i, fails, secret);
    MarkedRows(s, i, fails);
    MarkingScan(s, c);
    assert OwnersWallet(Marked(s, i, fails), s.rows[k].merchant, c.pc.scan.wallet);
  }

  lemma MarkingScan(s: Shop, c: PayCall)
    requires CallHolds(s, c) && c.pc.Marking?
    ensures OwnersWallet(s, c.pc.scan.uri.merchant, c.pc.scan.wallet)
    ensures SettledPayment(s.ledger.store, c.pc.txn, c.payerWallet, c.pc.scan.wallet, c.pc.scan.uri.amount)
  {
    hide SettledPayment, Offered, OwnersWallet, Q.ParseURI;
  }

  // ---- two payers

  /** Two calls' transfers are two ledger clients with two transactions. */
  lemma TransfersApart(s: Shop, i: nat, j: nat, secret: Secret)
    requires Inv(s, secret) && i < |s.calls| && j < |s.calls| && i != j
    requires ClientOf(s.calls[i].pc).Some? && ClientOf(s.calls[j].pc).Some?
    ensures var k, l := ClientOf(s.calls[i].pc).value, ClientOf(s.calls[j].pc).value;
            k < |s.ledger.clients| && l < |s.ledger.clients| && s.ledger.clients[k].id != s.ledger.clients[l].id
  {
    hide Inv, ClientOf;
    DistinctParts(s, secret);
  }

  lemma DistinctParts(s: Shop, secret: Secret)
    requires Inv(s, secret)
    ensures R.IdsDistinct(s.ledger) && TransfersDistinct(s.calls) && TransfersExist(s)
  {
    hide TransfersDistinct, TransfersExist, R.ClientsInv, R.OutcomesHold, R.TxnsOwned, R.LocksExclusive;
    hide R.IdsDistinct, RowsHold, CallsHold, RequestIdsDistinct, RecordsHold;
  }

  lemma MarkingClient(s: Shop, c: PayCall)
    requires CallHolds(s, c) && c.pc.Marking?
    ensures c.pc.client < |s.ledger.clients| && s.ledger.clients[c.pc.client].id == c.pc.txn
        && ClientOf(c.pc) == Some(c.pc.client)
  {
    hide ScanHolds, Offered, SettledPayment;
  }

  /** A transaction that is yet to be marked is on no row. */
  lemma NotRecordedYet(s: Shop, j: nat, l: nat, secret: Secret)
    requires Inv(s, secret) && j < |s.calls| && s.calls[j].pc.Marking? && l < |s.rows|
    ensures s.rows[l].txn != Some(s.calls[j].pc.txn)
  {
    hide Inv, CallHolds;
    CallAt(s, j, secret);
    MarkingClient(s, s.calls[j]);
    if s.rows[l].txn.Some? {
      var i := Recorder(s, l, secret);
      assert ClientOf(s.calls[i].pc) == Some(s.calls[i].pc.client) && i != j;
      TransfersApart(s, i, j, secret);
    }
  }

  /** Two calls that have both paid for one pending request: both payments stand, the first to mark is recorded, and the
      other's transaction is recorded on no request. */
  lemma {:induction false} SecondPayerIsNotRecorded(trace: seq<Action>, i: nat, j: nat, secret: Secret)
    requires var s := Run(trace, secret);
             && i < |s.calls| && j < |s.calls| && i != j && s.calls[i].pc.Marking? && s.calls[j].pc.Marking?
             && s.calls[i].pc.request == s.calls[j].pc.request
             && var k := IndexOf(s.rows, s.calls[i].pc.request);
                k < |s.rows| && s.rows[k].status == Pending && s.now < s.rows[k].expiresAt
    ensures var s, t := Run(trace, secret),
            Step(Step(Run(trace, secret), Mark(i, false), secret), Mark(j, false), secret);
            var c, d, k := s.calls[i], s.calls[j], IndexOf(s.rows, s.calls[i].pc.request);
            && PaidTo(t, s.rows[k], c) && PaidTo(t, s.rows[k], d) && c.pc.txn != d.pc.txn
            && t.rows == s.rows[k := PaidRow(s.rows[k], c, s.now)]
            && forall l :: 0 <= l < |t.rows| ==> t.rows[l].txn != Some(d.pc.txn)
  {
    RunKeepsInv(trace, secret);
    hide Run, Inv;
    BothMark(Run(trace, secret), i, j, secret);
  }

  /** The ledger holds this call's settled payment of the request's amount to the owner's wallet. */
  ghost predicate PaidTo(s: Shop, r: Request, c: PayCall)
    requires c.pc.Marking?
  {
    exists wallet :: OwnersWallet(s, r.merchant, wallet)
        && SettledPayment(s.ledger.store, c.pc.txn, c.payerWallet, wallet, r.amount)
  }

  lemma FirstMark(s: Shop, i: nat, secret: Secret)
    requires Inv(s, secret) && i < |s.calls| && s.calls[i].pc.Marking?
    ensures var t := Step(s, Mark(i, false), secret); var c, k := s.calls[i], IndexOf(s.rows, s.calls[i].pc.request);
            && Inv(t, secret) && k < |s.rows| && PaidTo(t, s.rows[k], c)
            && t.rows == (if s.rows[k].status == Pending && s.now < s.rows[k].expiresAt
                          then s.rows[k := PaidRow(s.rows[k], c, s.now)] else s.rows)
            && t.ledger == s.ledger && t.merchants == s.merchants && t.walletOf == s.walletOf
            && |t.calls| == |s.calls| && forall j :: 0 <= j < |s.calls| && j != i ==> t.calls[j] == s.calls[j]
  {
    hide Inv, Step, SettledPayment, PaidRow, OwnersWallet;
    MarkTells(s, i, false, secret);
    StepKeepsInv(s, Mark(i, false), secret);
    MarkStep(s, i, false, secret);
    MarkedRows(s, i, false);
  }

  lemma BothMark(s: Shop, i: nat, j: nat, secret: Secret)
    requires Inv(s, secret) && i < |s.calls| && j < |s.calls| && i != j && s.calls[i].pc.Marking?
    requires s.calls[j].pc.Marking?
    requires s.calls[i].pc.request == s.calls[j].pc.request
    requires var k := IndexOf(s.rows, s.calls[i].pc.request);
             k < |s.rows| && s.rows[k].status == Pending && s.now < s.rows[k].expiresAt
    ensures var t := Step(Step(s, Mark(i, false), secret), Mark(j, false), secret);
            var c, d, k := s.calls[i], s.calls[j], IndexOf(s.rows, s.calls[i].pc.request);
            && PaidTo(t, s.rows[k], c) && PaidTo(t, s.rows[k], d) && c.pc.txn != d.pc.txn
            && t.rows == s.rows[k := PaidRow(s.rows[k], c, s.now)]
            && forall l :: 0 <= l < |t.rows| ==> t.rows[l].txn != Some(d.pc.txn)
  {
    var c, d, k := s.calls[i], s.calls[j], IndexOf(s.rows, s.calls[i].pc.request);
    hide Inv, Step, CallHolds, PaidTo, PaidRow, IndexOf, ClientOf;
    FirstMark(s, i, secret);
    PaidRowFinds(s.rows, c, s.now);
    SecondMark(s, Step(s, Mark(i, false), secret), j, k, c, secret);
    TransactionsApart(s, i, j, secret);
    TxnsAfter(s, j, k, c, secret);
  }

  /** The second call's payment stands too, and its update changes nothing. */
  lemma SecondMark(s: Shop, s': Shop, j: nat, k: nat, c: PayCall, secret: Secret)
    requires Inv(s', secret) && j < |s.calls| && j < |s'.calls| && s'.calls[j] == s.calls[j] && s.calls[j].pc.Marking?
    requires c.pc.Marking?
    requires k < |s.rows| && |s'.rows| == |s.rows| && s'.rows[k].status == Paid
    requires IndexOf(s'.rows, s.calls[j].pc.request) == k
    requires s'.rows[k].merchant == s.rows[k].merchant && s'.rows[k].amount == s.rows[k].amount
    requires PaidTo(s', s.rows[k], c)
    ensures var t := Step(s', Mark(j, false), secret);
            t.rows == s'.rows && PaidTo(t, s.rows[k], c) && PaidTo(t, s.rows[k], s.calls[j])
  {
    hide Inv, Step, PaidTo, IndexOf;
    FirstMark(s', j, secret);
    var t := Step(s', Mark(j, false), secret);
    PaidToStays(s', t, s.rows[k], s.rows[k], c);
    PaidToStays(t, t, s'.rows[k], s.rows[k], s.calls[j]);
  }

  lemma TxnsAfter(s: Shop, j: nat, k: nat, c: PayCall, secret: Secret)
    requires Inv(s, secret) && j < |s.calls| && s.calls[j].pc.Marking? && k < |s.rows| && c.pc.Marking?
    requires c.pc.txn != s.calls[j].pc.txn
    ensures var rows := s.rows[k := PaidRow(s.rows[k], c, s.now)];
            forall l :: 0 <= l < |rows| ==> rows[l].txn != Some(s.calls[j].pc.txn)
  {
    hide Inv, PaidRow;
    PaidRowTxn(s.rows[k], c, s.now);
    forall l | 0 <= l < |s.rows|
      ensures s.rows[l].txn != Some(s.calls[j].pc.txn)
    {
      NotRecordedYet(s, j, l, secret);
    }
  }

  lemma PaidRowTxn(r: Request, c: PayCall, now: int)
    requires c.pc.Marking?
    ensures var q := PaidRow(r, c, now); q.txn == Some(c.pc.txn) && q.status == Paid && SameOffer(r, q)
  {
  }

  /** The paid row is found where the pending one was. */
  lemma PaidRowFinds(rows: seq<Request>, c: PayCall, now: int)
    requires c.pc.Marking? && IndexOf(rows, c.pc.request) < |rows|
    ensures var k := IndexOf(rows, c.pc.request); var q := PaidRow(rows[k], c, now);
            && IndexOf(rows[k := q], c.pc.request) == k && q.status == Paid && q.merchant == rows[k].merchant
                && q.amount == rows[k].amount
  {
    var k := IndexOf(rows, c.pc.request);
    IndexOfStays(rows, rows[k := PaidRow(rows[k], c, now)], c.pc.request);
  }

  lemma TransactionsApart(s: Shop, i: nat, j: nat, secret: Secret)
    requires Inv(s, secret) && i < |s.calls| && j < |s.calls| && i != j && s.calls[i].pc.Marking?
    requires s.calls[j].pc.Marking?
    ensures s.calls[i].pc.txn != s.calls[j].pc.txn
  {
    hide Inv, CallHolds, ClientOf;
    CallAt(s, i, secret);
    CallAt(s, j, secret);
    MarkingClient(s, s.calls[i]);
    MarkingClient(s, s.calls[j]);
    TransfersApart(s, i, j, secret);
  }

  lemma PaidToStays(s: Shop, t: Shop, r: Request, q: Request, c: PayCall)
    requires c.pc.Marking? && PaidTo(s, r, c) && q.merchant == r.merchant && q.amount == r.amount
    requires t.ledger == s.ledger && t.merchants == s.merchants && t.walletOf == s.walletOf
    ensures PaidTo(t, q, c)
  {
    hide SettledPayment;
  }
}
