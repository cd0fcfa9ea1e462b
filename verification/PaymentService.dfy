/** Send as it is written: cache check, transfer, reply, cache store. */
module PaymentService {
  import opened Wrappers
  import opened Uuids
  import opened LedgerModel
  import opened LedgerMachine
  import L = LedgerService
  import opened Idempotency

  datatype SendError =
    | MissingIdempotencyKey
    | InvalidAmount
    | ReferenceTooLong
    | SelfPayment
    | LedgerError(error: Error)

  /** `SendRequest.Validate` and the checks before the cache; None when the request passes. */
  function Rejection(p: TransferParams): Option<SendError> {
    if p.amount <= 0 then Some(InvalidAmount)
    else if |p.reference| > 256 then Some(ReferenceTooLong)
    else if p.key == "" then Some(MissingIdempotencyKey)
    else if p.sender == p.receiver then Some(SelfPayment)
    else None
  }

  lemma DebitIsRecorded(db: LedgerModel.Store, p: TransferParams, id: Uuid)
    ensures var r := PerformTransfer(db, p, id);
            r.Ok? ==>
              && p.sender in db.wallets
              && Entry(p.sender, id, Debit, p.amount, db.wallets[p.sender].balance - p.amount) in r.value.entries
  {
    hide Insertable;
    var r := PerformTransfer(db, p, id);
    if r.Ok? {
      assert r.value.entries[|db.entries|]
          == Entry(p.sender, id, Debit, p.amount, db.wallets[p.sender].balance - p.amount);
    }
  }

  class Service {
    const ledger: L.Service
    const idempotent: Idempotency.Store

    constructor (ledger: L.Service, idempotent: Idempotency.Store)
      ensures this.ledger == ledger && this.idempotent == idempotent
    {
      this.ledger, this.idempotent := ledger, idempotent;
    }

    /**
     A rejected request and a cache hit touch nothing. Otherwise the ledger decides: a new transfer is answered with
     its balance and stored under the wallet's key unless that key is taken or Redis fails; a replay is answered with
     the original transaction and balance 0 and is not stored; any other ledger error is returned and nothing is
     stored.
     */
    method Send(p: TransferParams, id: Uuid, fault: L.Fault, tookEffect: bool, readFails: bool, writeFails: bool)
      returns (r: Result<SendReply, SendError>)
      requires InRange(ledger.repo.db)
      requires L.TransferFault(fault) || fault == Some(CheckKey)
      modifies ledger.repo, idempotent
      ensures r == Err(InvalidAmount) <==> p.amount <= 0
      ensures r == Err(ReferenceTooLong) <==> p.amount > 0 && |p.reference| > 256
      ensures r == Err(MissingIdempotencyKey) <==> p.amount > 0 && |p.reference| <= 256 && p.key == ""
      ensures r == Err(SelfPayment) <==>
                p.amount > 0 && |p.reference| <= 256 && p.key != "" && p.sender == p.receiver
      ensures r.Ok? && ledger.repo.db != old(ledger.repo.db) ==>
                && r.value.txn.Some? && RecordsTransfer(r.value.txn.value, p, id)
                && ledger.repo.db.txns == old(ledger.repo.db).txns + [r.value.txn.value]
                && Entry(p.sender, id, Debit, p.amount, r.value.newBalance) in ledger.repo.db.entries
      ensures Rejection(p).Some? ==>
                r == Err(Rejection(p).value) && ledger.repo.db == old(ledger.repo.db)
                    && idempotent.redis == old(idempotent.redis)
      ensures Rejection(p).None? ==>
                var k := BuildKey(String(p.sender), p.key);
                match CheckResult(old(idempotent.redis), k, readFails)
                case Some(reply) =>
                  r == Ok(reply) && ledger.repo.db == old(ledger.repo.db) && idempotent.redis == old(idempotent.redis)
                case None =>
                  match GetTransactionByIdempotencyKey(old(ledger.repo.db).txns, p.sender, p.key)
                  case Some(t) =>
                    && ledger.repo.db == old(ledger.repo.db) && idempotent.redis == old(idempotent.redis)
                    && r == if fault == Some(CheckKey) then Err(LedgerError(Unavailable)) else Ok(SendReply(Some(t), 0))
                  case None =>
                    if r.Ok? then
                      && PerformTransfer(old(ledger.repo.db), p, id) == Ok(ledger.repo.db)
                      && r.value == SendReply(Some(TransferTxn(p, id, Settled)),
                          old(ledger.repo.db).wallets[p.sender].balance - p.amount)
                      && idempotent.redis == if writeFails then old(idempotent.redis)
                          else SetNX(old(idempotent.redis), k, Payment(r.value))
                    else
                      && idempotent.redis == old(idempotent.redis)
                      && (ledger.repo.db == old(ledger.repo.db) ||
                          (r == Err(LedgerError(CommitFailed))
                              && PerformTransfer(old(ledger.repo.db), p, id) == Ok(ledger.repo.db)))
                      && (fault.None? ==>
                          exists e :: r == Err(LedgerError(e)) && PerformTransfer(old(ledger.repo.db), p, id) == Err(e))
    {
      DebitIsRecorded(ledger.repo.db, p, id);
      hide PerformTransfer, Before, String, BuildKey, CheckResult, SetNX, RecordsTransfer, TransferTxn, InRange;
      var rejection := Rejection(p);
      if rejection.Some? {
        return Err(rejection.value);
      }
      var cached := idempotent.Check(String(p.sender), p.key, readFails);
      if cached.Some? {
        return Ok(cached.value);
      }
      var moved := ledger.Transfer(p, id, fault, tookEffect);
      match moved
      case Refused(e) => return Err(LedgerError(e));
      case Replayed(t) => return Ok(SendReply(Some(t), 0));
      case Moved(t, senderBalance, _) =>
        var reply := SendReply(Some(t), senderBalance);
        idempotent.StoreReply(String(p.sender), p.key, reply, writeFails);
        return Ok(reply);
    }
  }
}
