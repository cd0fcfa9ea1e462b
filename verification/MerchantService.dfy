/** Payment requests as they are written: conditional updates of stored rows, the scan for a payload, and PayViaQR. */
module MerchantService {
  import opened Wrappers
  import opened Text
  import opened Uuids
  import Q = QrCode
  import L = LedgerModel
  import M = LedgerMachine
  import LS = LedgerService
  import opened MerchantModel
  import opened MerchantMachine
  import opened MerchantAnswers

  datatype PayReply = PayReply(txn: Uuid, amount: int, newBalance: int)

  class Repository {
    var rows: seq<Request>
    var merchants: map<Uuid, Merchant>

    method FindByID(id: Uuid, fails: bool) returns (r: Result<Merchant, Error>)
      ensures r == if fails then Err(Unavailable) else if id in merchants then Ok(merchants[id])
          else Err(MerchantNotFound)
    {
      if fails {
        return Err(Unavailable);
      }
      if id !in merchants {
        return Err(MerchantNotFound);
      }
      r := Ok(merchants[id]);
    }

    /** The row is appended exactly when every constraint of the table allows it and the insert does not fail. */
    method CreatePaymentRequest(row: Request, fails: bool) returns (r: Result<(), Error>)
      modifies this`rows
      ensures r.Ok? <==> !fails && Storable(old(rows), merchants.Keys, row)
      ensures rows == if r.Ok? then old(rows) + [row] else old(rows)
      ensures r.Err? ==> r.error == if fails then Unavailable else InsertRefused
    {
      if fails {
        return Err(Unavailable);
      }
      if !Storable(rows, merchants.Keys, row) {
        return Err(InsertRefused);
      }
      rows := rows + [row];
      r := Ok(());
    }

    /** The row with this id, if there is one. */
    method Locate(id: Uuid) returns (i: nat)
      ensures i == IndexOf(rows, id)
    {
      i := 0;
      while i < |rows| && rows[i].id != id
        invariant i <= |rows|
        invariant IndexOf(rows, id) == i + IndexOf(rows[i..], id)
      {
        i := i + 1;
      }
    }

    /** The row with this id is paid if it is pending and in time; otherwise no row changes, and the error says what
        stood in the way. */
    method MarkPaid(id: Uuid, payer: Uuid, txn: Uuid, now: int) returns (r: Result<(), Error>)
      modifies this`rows
      ensures match MerchantModel.MarkPaid(old(rows), id, payer, txn, now)
              case Ok(after) => r == Ok(()) && rows == after
              case Err(e) => r == Err(e) && rows == old(rows)
      ensures r.Err? ==> rows == old(rows)
      ensures forall i: nat :: StandsAt(old(rows), id, i) ==>
                var was := old(rows)[i];
                && (r.Ok? <==> was.status == Pending && now < was.expiresAt)
                && (r.Ok? ==>
                      rows == old(rows)[i := was.(status := Paid, payer := Some(payer), txn := Some(txn),
                                                  paidAt := Some(now))])
                && (r == Err(RequestExpired) <==>
                      was.status == Expired || (was.status == Pending && was.expiresAt <= now))
                && (r == Err(RequestAlreadyPaid) <==> was.status == Paid)
                && (r == Err(RequestCancelled) <==> was.status == Cancelled)
      ensures (forall i: nat :: !StandsAt(old(rows), id, i)) ==> r == Err(RequestNotFound)
    {
      IndexStands(rows, id);
      hide IndexOf;
      var i := Locate(id);
      if i < |rows| && rows[i].status == Pending && rows[i].expiresAt > now {
        rows := rows[i := rows[i].(status := Paid, payer := Some(payer), txn := Some(txn), paidAt := Some(now))];
        return Ok(());
      }
      if i == |rows| {
        return Err(RequestNotFound);
      }
      match rows[i].status
      case Paid => return Err(RequestAlreadyPaid);
      case Expired => return Err(RequestExpired);
      case Cancelled => return Err(RequestCancelled);
      case Pending => return Err(RequestExpired);
    }

    /** Ok exactly when the row with this id is pending and belongs to this merchant and the update does not fail. Then
        that row becomes cancelled, and every other row and column stays; otherwise nothing changes. */
    method CancelPaymentRequest(id: Uuid, merchant: Uuid, fails: bool) returns (r: Result<(), Error>)
      modifies this`rows
      ensures r.Ok? <==>
                !fails && exists i: nat ::
                  StandsAt(old(rows), id, i) && old(rows)[i].status == Pending && old(rows)[i].merchant == merchant
      ensures forall i: nat :: StandsAt(old(rows), id, i) && r.Ok? ==>
                rows == old(rows)[i := old(rows)[i].(status := Cancelled)]
      ensures r.Err? ==> rows == old(rows) && r.error == if fails then Unavailable else RequestNotFound
      ensures !fails ==> (r.Ok? <==> Cancel(old(rows), id, merchant) == Ok(rows))
    {
      IndexStands(rows, id);
      hide IndexOf;
      if fails {
        return Err(Unavailable);
      }
      var i := Locate(id);
      if i == |rows| || rows[i].merchant != merchant || rows[i].status != Pending {
        return Err(RequestNotFound);
      }
      rows := rows[i := rows[i].(status := Cancelled)];
      r := Ok(());
    }

    /** One page of the merchant's rows, newest first, and how many there are in all. */
    method ListByMerchant(merchant: Uuid, status: Option<Status>, page: int, limit: int, fails: bool)
      returns (r: Result<(seq<Request>, nat), Error>)
      ensures fails ==> r == Err(Unavailable)
      ensures !fails ==> var found := Wanted(rows, merchant, status);
                r == Ok((Page(found, OffsetOf(page, limit), LimitOf(limit)), |found|))
    {
      if fails {
        return Err(Unavailable);
      }
      var found: seq<Request> := [];
      for k := 0 to |rows|
        invariant found == Wanted(rows[..k], merchant, status)
      {
        assert rows[..k + 1][..k] == rows[..k];
        if Wants(rows[k], merchant, status) {
          found := found + [rows[k]];
        }
      }
      assert rows[..|rows|] == rows;
      var offset, most := OffsetOf(page, limit), LimitOf(limit);
      var results: seq<Request> := [];
      while |results| < most && offset + |results| < |found|
        invariant |results| <= most && |results| <= (if offset >= |found| then 0 else |found| - offset)
        invariant forall i :: 0 <= i < |results| ==> results[i] == found[|found| - 1 - offset - i]
      {
        results := results + [found[|found| - 1 - offset - |results|]];
      }
      assert results == Page(found, offset, most);
      r := Ok((results, |found|));
    }
  }

  /** The first row of a list with this payload, found by index. */
  method FirstMatch(list: seq<Request>, payload: string) returns (r: Option<Request>)
    ensures r == Match(list, payload)
  {
    var i := 0;
    while i < |list|
      invariant 0 <= i <= |list|
      invariant Match(list, payload) == Match(list[i..], payload)
    {
      if list[i].qrPayload == payload {
        return Some(list[i]);
      }
      i := i + 1;
    }
    r := None;
  }

  /** The shop as one call sees it when nothing else runs. */
  function Snapshot(rows: seq<Request>, merchants: map<Uuid, Merchant>, walletOf: map<Uuid, Uuid>, now: int): Shop {
    Shop(M.INIT, rows, merchants, walletOf, now, [])
  }

  /** The lookup before the transfer that fails in this call, if any. */
  datatype Lookup = NoLookup | MerchantLookup | WalletLookup | PendingList | FullList

  /** The scanned code parses and verifies. */
  predicate Readable(s: Shop, c: PayCall, secret: Secret) {
    var uri := Q.ParseURI(c.payload);
    uri.Ok? && Q.Verify(secret.mac, uri.value, secret.key, s.now).None?
  }

  lemma VerifiedIsGood(payload: string, now: int, secret: Secret)
    ensures var uri := Q.ParseURI(payload);
            uri.Ok? ==>
              (Q.Verify(secret.mac, uri.value, secret.key, now).None? <==> GoodCode(payload, now, secret, uri.value))
    ensures forall uri :: GoodCode(payload, now, secret, uri) ==> Q.ParseURI(payload) == Ok(uri)
  {
    var uri := Q.ParseURI(payload);
    if uri.Ok? {
      Q.VerifiesExactlyWhen(secret.mac, uri.value, secret.key, now);
    }
    hide Q.ParseURI, Q.Verify, Q.Instant, String, FormatInt;
  }

  /** Everything PayViaQR does before the transfer: refused, or about to transfer. */
  function Prepared(s: Shop, c: PayCall, secret: Secret, failing: Lookup): PayPC {
    var scanned := AfterScan(s, c, secret);
    if failing == MerchantLookup && Readable(s, c, secret) then Refused(Unavailable)
    else if failing == WalletLookup && scanned.FindPending? then Refused(WalletLookupFailed)
    else if !scanned.FindPending? then scanned
    else if failing == PendingList then Refused(Unavailable)
    else
      var looked := AfterLook(s, c.(pc := scanned), Some(Pending));
      if !looked.FindAny? then looked
      else if failing == FullList then Refused(Unavailable)
      else AfterLook(s, c.(pc := looked), None)
  }

  /** A look that finds nothing among all rows ends the call. */
  lemma LookEnds(s: Shop, c: PayCall, status: Option<Status>)
    requires c.pc.FindPending? || c.pc.FindAny?
    ensures var pc := AfterLook(s, c, status); pc.Refused? || pc.Transferring? || (status.Some? && pc.FindAny?)
  {
    hide Match, List;
  }

  /** A call is refused or goes on to its transfer. */
  lemma PreparedEnds(s: Shop, c: PayCall, secret: Secret, failing: Lookup)
    ensures var pc := Prepared(s, c, secret, failing); pc.Refused? || pc.Transferring?
  {
    ScanEnds(s, c, secret);
    var scanned := AfterScan(s, c, secret);
    hide AfterScan, AfterLook, Readable;
    if scanned.FindPending? {
      LookEnds(s, c.(pc := scanned), Some(Pending));
      var looked := AfterLook(s, c.(pc := scanned), Some(Pending));
      if looked.FindAny? {
        LookEnds(s, c.(pc := looked), None);
      }
    }
  }

  /** A failing lookup can only refuse: what goes on to its transfer goes on to the one it would without the failure. */
  lemma FailingLookupOnlyRefuses(s: Shop, c: PayCall, secret: Secret, failing: Lookup)
    ensures var pc := Prepared(s, c, secret, failing); pc.Refused? || pc == Prepared(s, c, secret, NoLookup)
  {
    ScanEnds(s, c, secret);
    hide AfterScan, AfterLook, Readable;
  }

  lemma ScanEnds(s: Shop, c: PayCall, secret: Secret)
    ensures AfterScan(s, c, secret).Refused? || AfterScan(s, c, secret).FindPending?
  {
    hide Q.ParseURI, Q.Verify;
  }

  lemma ThreeSteps(s: Shop, i: nat, scanned: PayPC, secret: Secret)
    requires i < |s.calls| && s.calls[i].pc.Scanned? && scanned == AfterScan(s, s.calls[i], secret)
    ensures Step(s, Verify(i), secret) == Move(s, i, scanned)
    ensures scanned.Refused? ==>
              Step(Step(Move(s, i, scanned), LookPending(i), secret), LookAny(i), secret) == Move(s, i, scanned)
  {
    hide AfterScan, AfterLook;
  }

  lemma PassedOver(s: Shop, i: nat, pc: PayPC, secret: Secret)
    requires i < |s.calls| && !pc.FindAny?
    ensures Step(Move(s, i, pc), LookAny(i), secret) == Move(s, i, pc)
  {
    hide AfterLook;
  }

  /** What a call does alone is what the machine's first three steps do to it. */
  lemma PreparedIsThreeSteps(s: Shop, i: nat, secret: Secret)
    requires i < |s.calls| && s.calls[i].pc.Scanned?
    ensures Step(Step(Step(s, Verify(i), secret), LookPending(i), secret), LookAny(i), secret)
            == Move(s, i, Prepared(s, s.calls[i], secret, NoLookup))
  {
    var scanned := AfterScan(s, s.calls[i], secret);
    PreparedBy(s, s.calls[i], secret);
    ScanEnds(s, s.calls[i], secret);
    hide AfterScan, AfterLook, Step, Move, Prepared;
    ThreeSteps(s, i, scanned, secret);
    if scanned.FindPending? {
      TwoLooks(s, i, scanned, secret);
    }
  }

  lemma TwoLooks(s: Shop, i: nat, pc: PayPC, secret: Secret)
    requires i < |s.calls| && pc.FindPending?
    ensures Step(Step(Move(s, i, pc), LookPending(i), secret), LookAny(i), secret)
        == Move(s, i, AfterLooks(s, s.calls[i].(pc := pc)))
  {
    hide AfterLook, Step, Move;
    LookStep(s, i, pc, Some(Pending), secret);
    var looked := AfterLook(s, s.calls[i].(pc := pc), Some(Pending));
    if looked.FindAny? {
      LookStep(s, i, looked, None, secret);
    } else {
      PassedOver(s, i, looked, secret);
    }
  }

  /** Both looks of a call that has scanned its code. */
  function AfterLooks(s: Shop, c: PayCall): PayPC
    requires c.pc.FindPending?
  {
    var looked := AfterLook(s, c, Some(Pending));
    if !looked.FindAny? then looked else AfterLook(s, c.(pc := looked), None)
  }

  lemma PreparedBy(s: Shop, c: PayCall, secret: Secret)
    ensures var scanned := AfterScan(s, c, secret);
            Prepared(s, c, secret, NoLookup) == if scanned.FindPending? then AfterLooks(s, c.(pc := scanned))
                else scanned
  {
    hide AfterScan, AfterLook, Readable;
  }

  lemma LookStep(s: Shop, i: nat, pc: PayPC, status: Option<Status>, secret: Secret)
    requires i < |s.calls| && ((pc.FindPending? && status == Some(Pending)) || (pc.FindAny? && status == None))
    ensures Step(Move(s, i, pc), if pc.FindPending? then LookPending(i) else LookAny(i), secret)
            == Move(s, i, AfterLook(s, s.calls[i].(pc := pc), status))
  {
    hide AfterFound, Match, List;
  }

  lemma PerformedPayer(db: L.Store, p: L.TransferParams, id: Uuid)
    ensures L.PerformTransfer(db, p, id).Ok? ==> p.sender in db.wallets
  {
    hide L.Insertable;
  }

  /** How the rows stand after a transfer for this request: the conditional update, whose error is only logged. */
  ghost predicate Recorded(rows: seq<Request>, request: Uuid, payer: Uuid, txn: Uuid, now: int, fails: bool,
      after: seq<Request>) {
    && (fails ==> after == rows)
    && (forall i: nat :: StandsAt(rows, request, i) && !fails ==>
          var was := rows[i];
          after == if was.status != Pending || was.expiresAt <= now then rows
                   else rows[i := was.(status := Paid, payer := Some(payer), txn := Some(txn), paidAt := Some(now))])
    && ((forall i: nat :: !StandsAt(rows, request, i)) ==> after == rows)
  }

  /**
   What a call that goes on to its transfer leaves and answers, when only `fault` and the update can fail. A transfer
   that goes through is recorded by the conditional update, and the call succeeds whether or not the update did. A
   replay, and every other failure, changes no row.
   */
  ghost predicate PayOutcome(
    scan: Scan, request: Uuid, payerWallet: Uuid, key: string, later: int, txn: Uuid, fault: LS.Fault, markFails: bool,
    rows: seq<Request>, db: L.Store, rows': seq<Request>, db': L.Store, r: Result<PayReply, Error>)
  {
    var p := PaymentParams(payerWallet, scan.wallet, scan.uri, key);
    var known := L.GetTransactionByIdempotencyKey(db.txns, payerWallet, key);
    var done := L.PerformTransfer(db, p, txn);
    if r.Ok? then
      && done == Ok(db') && payerWallet in db.wallets
      && r.value == PayReply(txn, scan.uri.amount, db.wallets[payerWallet].balance - scan.uri.amount)
      && Recorded(rows, request, payerWallet, txn, later, markFails, rows')
    else
      && rows' == rows
      && (db' == db || (fault == Some(M.CommitTx) && done == Ok(db')))
      && (r.error == LedgerReplayed <==>
            fault != Some(M.CheckKey) && scan.uri.amount > 0 && payerWallet != scan.wallet && key != "" && known.Some?)
      && (fault.None? && r.error != LedgerReplayed ==> done.Err?)
  }

  /** The code is good, and its merchant is known, active, somebody else than the payer, and has a wallet. */
  predicate AllowedTo(payload: string, payer: Uuid, now: int, secret: Secret, merchants: map<Uuid, Merchant>,
      wallets: map<Uuid, Uuid>) {
    var uri := Q.ParseURI(payload);
    && uri.Ok? && GoodCode(payload, now, secret, uri.value) && uri.value.merchant in merchants
    && var m := merchants[uri.value.merchant];
       m.active && m.user != payer && m.user in wallets
  }

  /** A good code of a merchant that has been switched off. */
  predicate OfInactive(payload: string, now: int, secret: Secret, merchants: map<Uuid, Merchant>) {
    var uri := Q.ParseURI(payload);
    && uri.Ok? && GoodCode(payload, now, secret, uri.value) && uri.value.merchant in merchants
    && !merchants[uri.value.merchant].active
  }

  /** One settled payment was added, from the payer to the scanned merchant's wallet, of the scanned amount, with the
      scanned reference and the caller's key. */
  predicate PaymentAdded(payload: string, payerWallet: Uuid, key: string, txn: Uuid, merchants: map<Uuid, Merchant>,
      wallets: map<Uuid, Uuid>, before: seq<L.Txn>, after: seq<L.Txn>) {
    var uri, n := Q.ParseURI(payload), |before|;
    && uri.Ok? && uri.value.merchant in merchants && merchants[uri.value.merchant].user in wallets
    && |after| == n + 1 && after[..n] == before
    && var t := after[n];
       && t.id == txn && t.txnType == L.TypePayment && t.status == L.Settled && t.sender == Some(payerWallet)
       && t.receiver == Some(wallets[merchants[uri.value.merchant].user]) && t.amount == uri.value.amount
       && L.Holds(t.reference, uri.value.reference) && L.Holds(t.key, key)
  }

  lemma PaymentIsAdded(payload: string, payerUser: Uuid, payerWallet: Uuid, key: string, now: int, txn: Uuid,
      secret: Secret, merchants: map<Uuid, Merchant>, wallets: map<Uuid, Uuid>, scan: Scan, t: L.Txn,
      before: seq<L.Txn>)
    requires GoodCode(payload, now, secret, scan.uri)
    requires MayBePaid(merchants, wallets, scan.uri.merchant, payerUser, scan.wallet)
    requires L.RecordsTransfer(t, PaymentParams(payerWallet, scan.wallet, scan.uri, key), txn)
    ensures t.id == txn
    ensures PaymentAdded(payload, payerWallet, key, txn, merchants, wallets, before, before + [t])
  {
    hide Q.ParseURI, Q.Instant, String, FormatInt, L.Holds;
  }

  lemma PreparedIsAllowed(payload: string, payerUser: Uuid, now: int, secret: Secret, merchants: map<Uuid, Merchant>,
      wallets: map<Uuid, Uuid>, scan: Scan)
    requires GoodCode(payload, now, secret, scan.uri)
    requires MayBePaid(merchants, wallets, scan.uri.merchant, payerUser, scan.wallet)
    ensures AllowedTo(payload, payerUser, now, secret, merchants, wallets)
    ensures !OfInactive(payload, now, secret, merchants)
  {
    hide Q.ParseURI, Q.Instant, String, FormatInt;
  }

  class Service {
    const repo: Repository
    const ledger: LS.Service
    const secret: Secret
    var wallets: map<Uuid, Uuid>

    constructor (repo: Repository, ledger: LS.Service, secret: Secret, wallets: map<Uuid, Uuid>)
      ensures this.repo == repo && this.ledger == ledger && this.secret == secret && this.wallets == wallets
    {
      this.repo, this.ledger, this.secret, this.wallets := repo, ledger, secret, wallets;
    }

    /** The scanned code's row: among the newest pending rows first, then among the newest of any status. */
    method FindPaymentRequestByPayload(merchant: Uuid, payload: string, failing: Lookup)
      returns (r: Result<Request, Error>)
      ensures var pending := Match(List(repo.rows, merchant, Some(Pending), 100), payload);
              var any := Match(List(repo.rows, merchant, None, 100), payload);
              r == if failing == PendingList then Err(Unavailable)
                   else if pending.Some? then Ok(pending.value)
                   else if failing == FullList then Err(Unavailable)
                   else if any.Some? then Ok(any.value) else Err(RequestNotFound)
    {
      ListIsFirstPage(repo.rows, merchant, Some(Pending), 100);
      ListIsFirstPage(repo.rows, merchant, None, 100);
      hide List, Match, Page, Wanted;
      var list := repo.ListByMerchant(merchant, Some(Pending), 1, 100, failing == PendingList);
      if list.Err? {
        return Err(list.error);
      }
      var found := FirstMatch(list.value.0, payload);
      if found.Some? {
        return Ok(found.value);
      }
      list := repo.ListByMerchant(merchant, None, 1, 100, failing == FullList);
      if list.Err? {
        return Err(list.error);
      }
      found := FirstMatch(list.value.0, payload);
      if found.Some? {
        return Ok(found.value);
      }
      r := Err(RequestNotFound);
    }

    /** A request is stored exactly when its merchant is known and active, nothing fails and the table can take it. Its
        row then holds what was asked for, and its code reads back to that row. */
    method CreatePaymentRequest(id: Uuid, merchant: Uuid, amount: int, reference: GoString, description: GoString,
        expirySecs: int,
                                now: int, lookupFails: bool, insertFails: bool)
      returns (r: Result<Request, Error>)
      modifies repo`rows
      ensures r.Ok? <==>
                && !lookupFails && merchant in repo.merchants && repo.merchants[merchant].active && !insertFails
                && Acceptable(old(repo.rows), id, amount, reference, description, expirySecs, now)
      ensures r.Ok? ==>
                && repo.rows == old(repo.rows) + [r.value]
                && HoldsRequest(r.value, secret, id, merchant, amount, reference, description, expirySecs, now)
      ensures var row := NewRequest(secret.mac, secret.key, id, merchant, amount, reference, description, expirySecs,
              now);
              if r.Ok? then
                && r.value == row && repo.rows == old(repo.rows) + [row]
                && merchant in repo.merchants && repo.merchants[merchant].active
                    && Storable(old(repo.rows), repo.merchants.Keys, row)
              else
                && repo.rows == old(repo.rows)
                && (match r.error
                    case Unavailable => lookupFails || insertFails
                    case MerchantNotFound => merchant !in repo.merchants
                    case MerchantInactive => merchant in repo.merchants && !repo.merchants[merchant].active
                    case InsertRefused => !Storable(repo.rows, repo.merchants.Keys, row)
                    case _ => false)
    {
      hide Q.BuildURI, Lifetime, Storable, HoldsRequest, Acceptable;
      NewRequestFacts(repo.rows, repo.merchants.Keys, secret, id, merchant, amount, reference, description, expirySecs,
                      now);
      var m := repo.FindByID(merchant, lookupFails);
      if m.Err? {
        return Err(m.error);
      }
      if !m.value.active {
        return Err(MerchantInactive);
      }
      var expiresAt := now + Lifetime(expirySecs);
      var payload := Q.BuildURI(secret.mac, secret.key, merchant, amount, reference, description, expiresAt);
      var row := Request(id, merchant, amount, reference, description, payload, Pending, None, None, expiresAt, now,
          None);
      assert row == NewRequest(secret.mac, secret.key, id, merchant, amount, reference, description, expirySecs, now);
      var stored := repo.CreatePaymentRequest(row, insertFails);
      if stored.Err? {
        return Err(stored.error);
      }
      r := Ok(row);
    }

    /** Everything before the transfer. What goes on has a good code, of a known, active merchant that is not the payer
        and has a wallet, and a pending row with this payload; every refusal of the scan has its own error. */
    method Prepare(payload: string, payerUser: Uuid, now: int, failing: Lookup) returns (r: Result<(Scan, Uuid), Error>)
      ensures r.Ok? ==>
                var scan := r.value.0;
                && GoodCode(payload, now, secret, scan.uri)
                && MayBePaid(repo.merchants, wallets, scan.uri.merchant, payerUser, scan.wallet)
                && exists x ::
                     x in repo.rows && x.id == r.value.1 && x.status == Pending && x.qrPayload == payload
                     && x.merchant == scan.uri.merchant
      ensures r == Err(InvalidPayload) <==> Q.ParseURI(payload).Err?
      ensures r == Err(VerificationFailed) <==>
                var uri := Q.ParseURI(payload); uri.Ok? && !GoodCode(payload, now, secret, uri.value)
      ensures forall uri :: GoodCode(payload, now, secret, uri) && failing != MerchantLookup ==>
                && (r == Err(MerchantNotFound) <==> uri.merchant !in repo.merchants)
                && (uri.merchant in repo.merchants ==>
                      var m := repo.merchants[uri.merchant];
                      && (r == Err(MerchantInactive) <==> !m.active)
                      && (r == Err(Error.SelfPayment) <==> m.active && m.user == payerUser)
                      && (r == Err(WalletLookupFailed) <==>
                            m.active && m.user != payerUser && (m.user !in wallets || failing == WalletLookup)))
      ensures forall wallet, key ::
                (match Prepared(Snapshot(repo.rows, repo.merchants, wallets, now),
                    PayCall(payload, payerUser, wallet, key, Scanned), secret, failing)
                 case Transferring(scan, request) => r == Ok((scan, request))
                 case Refused(e) => r == Err(e)
                 case _ => true)
    {
      VerifiedIsGood(payload, now, secret);
      hide Q.ParseURI, Q.Verify, Match, List, GoodCode;
      var parsed := Q.ParseURI(payload);
      if parsed.Err? {
        return Err(InvalidPayload);
      }
      var uri := parsed.value;
      if Q.Verify(secret.mac, uri, secret.key, now).Some? {
        return Err(VerificationFailed);
      }
      var found := repo.FindByID(uri.merchant, failing == MerchantLookup);
      if found.Err? {
        return Err(found.error);
      }
      var merchant := found.value;
      if !merchant.active {
        return Err(MerchantInactive);
      }
      if merchant.user == payerUser {
        return Err(Error.SelfPayment);
      }
      if failing == WalletLookup || merchant.user !in wallets {
        return Err(WalletLookupFailed);
      }
      var request := FindPaymentRequestByPayload(uri.merchant, payload, failing);
      if request.Err? {
        return Err(request.error);
      }
      match request.value.status
      case Paid => return Err(RequestAlreadyPaid);
      case Expired => return Err(RequestExpired);
      case Cancelled => return Err(RequestCancelled);
      case Pending => r := Ok((Scan(uri, wallets[merchant.user]), request.value.id));
    }

    /**
     A refused scan changes nothing. Otherwise the transfer decides: when it goes through, the request is marked by the
     conditional update and the call succeeds whether or not the update did; when it does not, a replay included, no
     row changes and the call fails.
     */
    method PayViaQR(payload: string, payerUser: Uuid, payerWallet: Uuid, key: string, now: int, later: int,
                    txn: Uuid, failing: Lookup, fault: LS.Fault, tookEffect: bool, markFails: bool)
      returns (r: Result<PayReply, Error>)
      requires L.InRange(ledger.repo.db)
      requires LS.TransferFault(fault) || (fault == Some(M.CheckKey) && key != "")
      modifies repo`rows, ledger.repo
      ensures match Prepared(Snapshot(old(repo.rows), repo.merchants, wallets, now),
                             PayCall(payload, payerUser, payerWallet, key, Scanned), secret, failing)
              case Transferring(scan, request) =>
                PayOutcome(scan, request, payerWallet, key, later, txn, fault, markFails,
                           old(repo.rows), old(ledger.repo.db), repo.rows, ledger.repo.db, r)
              case Refused(e) => r == Err(e) && repo.rows == old(repo.rows) && ledger.repo.db == old(ledger.repo.db)
              case _ => true
      ensures repo.rows != old(repo.rows) || ledger.repo.db != old(ledger.repo.db) || r.Ok? ==>
                AllowedTo(payload, payerUser, now, secret, repo.merchants, wallets)
      ensures failing != MerchantLookup && OfInactive(payload, now, secret, repo.merchants) ==>
                r == Err(MerchantInactive) && repo.rows == old(repo.rows) && ledger.repo.db == old(ledger.repo.db)
      ensures r.Ok? ==>
                PaymentAdded(payload, payerWallet, key, txn, repo.merchants, wallets, old(ledger.repo.db).txns,
                             ledger.repo.db.txns)
    {
      var prepared := Prepare(payload, payerUser, now, failing);
      hide Prepared, MerchantModel.MarkPaid, GoodCode, Q.ParseURI, PaymentAdded, L.RecordsTransfer, L.TransferTxn;
      if prepared.Err? {
        return Err(prepared.error);
      }
      PreparedIsAllowed(payload, payerUser, now, secret, repo.merchants, wallets, prepared.value.0);
      hide AllowedTo, OfInactive, MayBePaid;
      PerformedPayer(ledger.repo.db, PaymentParams(payerWallet, prepared.value.0.wallet, prepared.value.0.uri, key),
          txn);
      hide L.PerformTransfer;
      var (scan, request) := prepared.value;
      var moved := ledger.Transfer(PaymentParams(payerWallet, scan.wallet, scan.uri, key), txn, fault, tookEffect);
      match moved
      case Replayed(_) => return Err(LedgerReplayed);
      case Refused(_) => return Err(LedgerRefused);
      case Moved(t, senderBalance, _) =>
        PaymentIsAdded(payload, payerUser, payerWallet, key, now, txn, secret, repo.merchants, wallets, scan, t,
                       old(ledger.repo.db).txns);
        if !markFails {
          var marked := repo.MarkPaid(request, payerWallet, t.id, later);
        }
        r := Ok(PayReply(t.id, scan.uri.amount, senderBalance));
    }
  }
}
