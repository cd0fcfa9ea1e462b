/**
 Any number of Send calls racing and retrying over the shared ledger and the Redis cache, while cache entries vanish or
 rot, Redis fails, other calls use the ledger and administrators store issuance replies.
 */
module PaymentMachine {
  import opened Wrappers
  import opened Uuids
  import opened LedgerModel
  import M = LedgerMachine
  import opened LedgerClient
  import opened LedgerBooks
  import R = LedgerRuns
  import opened Idempotency

  datatype CallPC =
    | CheckCache
    | Transferring
    | Paying(client: nat)
    | Storing(reply: SendReply)
    | Answered(answer: SendReply)
    | Refused

  /** One call of Send whose request has passed validation. */
  datatype Call = Call(p: TransferParams, pc: CallPC)

  datatype Pay = Pay(ledger: M.Sys, cache: map<string, Cached>, calls: seq<Call>)

  datatype Action =
    | Ledger(step: M.Action)
    | Arrive(p: TransferParams)
    | ReadCache(reader: nat, readFails: bool)
    | BeginTransfer(payer: nat, id: Uuid)
    | Collect(collector: nat)
    | WriteCache(writer: nat, writeFails: bool)
    | Evict(evicted: string)
    | Rot(rotted: string)
    | AdminStore(admin: Uuid, key: string, issuance: Uuid)
    | OtherRedisWrite(other: string, value: Cached)

  const INIT := Pay(M.INIT, map[], [])

  function CacheKey(p: TransferParams): string {
    BuildKey(String(p.sender), p.key)
  }

  /** A request that passes validation carries a key and moves money between two wallets; ids of
      administrators are not wallet ids. */
  predicate Acceptable(p: TransferParams, admins: set<Uuid>) {
    p.key != "" && p.amount > 0 && p.sender != p.receiver && p.sender !in admins
  }

  /** Send's reaction to what the ledger returned: a new transfer is cached, a replay is not and shows balance 0. */
  function AfterLedger(o: M.Outcome): CallPC {
    match o
    case Success(t, debited, _) => Storing(SendReply(Some(t), debited))
    case Replay(t) => Answered(SendReply(Some(t), 0))
    case _ => Refused
  }

  predicate Enabled(s: Pay, a: Action, admins: set<Uuid>) {
    match a
    case Ledger(step) => step.OpenWallet? ==> step.wallet !in admins
    case Arrive(p) => Acceptable(p, admins)
    case ReadCache(i, _) => i < |s.calls| && s.calls[i].pc == CheckCache
    case BeginTransfer(i, id) => i < |s.calls| && s.calls[i].pc == Transferring && M.FreshId(s.ledger, id)
    case Collect(i) =>
      i < |s.calls| && s.calls[i].pc.Paying? && s.calls[i].pc.client < |s.ledger.clients|
          && s.ledger.clients[s.calls[i].pc.client].pc == M.Done
    case WriteCache(i, _) => i < |s.calls| && s.calls[i].pc.Storing?
    case Evict(_) => true
    case Rot(k) => k in s.cache
    case AdminStore(admin, _, _) => admin in admins
    case OtherRedisWrite(k, _) => !(KEY_PREFIX <= k)
  }

  function Move(s: Pay, i: nat, pc: CallPC): Pay
    requires i < |s.calls|
  {
    s.(calls := s.calls[i := s.calls[i].(pc := pc)])
  }

  function Do(s: Pay, a: Action, admins: set<Uuid>): Pay
    requires Enabled(s, a, admins)
  {
    match a
    case Ledger(step) => s.(ledger := M.Step(s.ledger, step))
    case Arrive(p) => s.(calls := s.calls + [Call(p, CheckCache)])
    case ReadCache(i, fails) =>
      Move(s, i, match CheckResult(s.cache, CacheKey(s.calls[i].p), fails)
          case Some(reply) => Answered(reply) case None => Transferring)
    case BeginTransfer(i, id) =>
      Move(s, i, Paying(|s.ledger.clients|)).(ledger := M.Step(s.ledger, M.Start(Transfer(s.calls[i].p), id)))
    case Collect(i) => Move(s, i, AfterLedger(s.ledger.clients[s.calls[i].pc.client].outcome))
    case WriteCache(i, fails) =>
      var reply := s.calls[i].pc.reply;
      Move(s, i, Answered(reply)).(cache := if fails then s.cache
          else SetNX(s.cache, CacheKey(s.calls[i].p), Payment(reply)))
    case Evict(k) => s.(cache := s.cache - {k})
    case Rot(k) => s.(cache := s.cache[k := Garbage])
    case AdminStore(admin, key, id) => s.(cache := SetNX(s.cache, BuildKey(String(admin), key), IssuanceReply(id)))
    case OtherRedisWrite(k, v) => s.(cache := s.cache[k := v])
  }

  function Step(s: Pay, a: Action, admins: set<Uuid>): Pay {
    if Enabled(s, a, admins) then Do(s, a, admins) else s
  }

  function Run(trace: seq<Action>, admins: set<Uuid>): Pay {
    if trace == [] then INIT else Step(Run(trace[..|trace| - 1], admins), trace[|trace| - 1], admins)
  }

  // ---- the invariant

  /** The reply names the ledger's transaction under this wallet and key. */
  ghost predicate NamesTxn(db: LedgerModel.Store, w: Uuid, k: string, reply: SendReply) {
    reply.txn.Some? && reply.txn.value in db.txns && reply.txn.value.sender == Some(w) && reply.txn.value.key == Some(k)
  }

  /** And it shows the balance that transaction's debit left. */
  ghost predicate FirstReply(db: LedgerModel.Store, w: Uuid, k: string, reply: SendReply) {
    && NamesTxn(db, w, k, reply)
    && Entry(w, reply.txn.value.id, Debit, reply.txn.value.amount, reply.newBalance) in db.entries
  }

  ghost predicate EntryAgrees(db: LedgerModel.Store, w: Uuid, k: string, v: Cached) {
    v == Garbage || (v.Payment? && FirstReply(db, w, k, v.reply))
  }

  /** Each live entry under a wallet and key holds the ledger's transaction for that wallet and key. */
  ghost predicate CacheAgrees(s: Pay, admins: set<Uuid>) {
    forall w, k :: w !in admins && BuildKey(String(w), k) in s.cache ==>
        EntryAgrees(s.ledger.store, w, k, s.cache[BuildKey(String(w), k)])
  }

  ghost predicate CallHolds(ledger: M.Sys, c: Call, admins: set<Uuid>) {
    && Acceptable(c.p, admins)
    && match c.pc
       case Paying(i) => i < |ledger.clients| && ledger.clients[i].op == Transfer(c.p)
       case Storing(reply) => FirstReply(ledger.store, c.p.sender, c.p.key, reply)
       case Answered(reply) =>
         && NamesTxn(ledger.store, c.p.sender, c.p.key, reply)
         && (reply.newBalance == 0 || FirstReply(ledger.store, c.p.sender, c.p.key, reply))
       case _ => true
  }

  ghost predicate CallsHold(s: Pay, admins: set<Uuid>) {
    forall i :: 0 <= i < |s.calls| ==> CallHolds(s.ledger, s.calls[i], admins)
  }

  ghost predicate Inv(s: Pay, admins: set<Uuid>) {
    R.Inv(s.ledger) && CacheAgrees(s, admins) && CallsHold(s, admins)
  }

  // ---- ledger steps only add

  ghost predicate Grows(s: M.Sys, t: M.Sys) {
    && s.store.txns <= t.store.txns && s.store.entries <= t.store.entries && |s.clients| <= |t.clients|
    && forall i :: 0 <= i < |s.clients| ==> t.clients[i].op == s.clients[i].op
  }

  lemma FirstReplyStays(db: LedgerModel.Store, after: LedgerModel.Store, w: Uuid, k: string, reply: SendReply)
    requires db.txns <= after.txns && db.entries <= after.entries
    ensures NamesTxn(db, w, k, reply) ==> NamesTxn(after, w, k, reply)
    ensures FirstReply(db, w, k, reply) ==> FirstReply(after, w, k, reply)
  {
    assert forall t :: t in db.txns ==> t in after.txns;
    assert forall e :: e in db.entries ==> e in after.entries;
  }

  lemma CallStays(s: M.Sys, t: M.Sys, c: Call, admins: set<Uuid>)
    requires CallHolds(s, c, admins) && Grows(s, t)
    ensures CallHolds(t, c, admins)
  {
    if c.pc.Storing? {
      FirstReplyStays(s.store, t.store, c.p.sender, c.p.key, c.pc.reply);
    } else if c.pc.Answered? {
      FirstReplyStays(s.store, t.store, c.p.sender, c.p.key, c.pc.answer);
    }
    hide FirstReply, NamesTxn;
  }

  lemma LedgerGrowthKeeps(s: Pay, ledger: M.Sys, admins: set<Uuid>)
    requires Inv(s, admins) && R.Inv(ledger) && Grows(s.ledger, ledger)
    ensures Inv(s.(ledger := ledger), admins)
  {
    var t := s.(ledger := ledger);
    forall i | 0 <= i < |t.calls|
      ensures CallHolds(ledger, t.calls[i], admins)
    {
      CallStays(s.ledger, ledger, s.calls[i], admins);
    }
    forall w, k | w !in admins && BuildKey(String(w), k) in t.cache
      ensures EntryAgrees(ledger.store, w, k, t.cache[BuildKey(String(w), k)])
    {
      var v := s.cache[BuildKey(String(w), k)];
      if v.Payment? {
        FirstReplyStays(s.ledger.store, ledger.store, w, k, v.reply);
      }
      hide String, BuildKey, FirstReply;
    }
    hide R.Inv, CallHolds, EntryAgrees, String, BuildKey;
  }

  lemma LedgerStepKeeps(s: Pay, step: M.Action, admins: set<Uuid>)
    requires Inv(s, admins)
    ensures Inv(s.(ledger := M.Step(s.ledger, step)), admins)
  {
    R.StepKeepsInv(s.ledger, step);
    R.StepOnlyAdds(s.ledger, step);
    hide R.Inv, CacheAgrees, CallsHold, M.Step;
    LedgerGrowthKeeps(s, M.Step(s.ledger, step), admins);
  }

  // ---- steps of Send

  lemma MoveKeeps(s: Pay, i: nat, pc: CallPC, admins: set<Uuid>)
    requires Inv(s, admins) && i < |s.calls| && CallHolds(s.ledger, s.calls[i].(pc := pc), admins)
    ensures Inv(Move(s, i, pc), admins)
  {
    hide R.Inv, CallHolds, EntryAgrees, String, BuildKey;
  }

  lemma ReadKeeps(s: Pay, i: nat, fails: bool, admins: set<Uuid>)
    requires Inv(s, admins) && Enabled(s, ReadCache(i, fails), admins)
    ensures Inv(Do(s, ReadCache(i, fails), admins), admins)
  {
    var p := s.calls[i].p;
    assert CallHolds(s.ledger, s.calls[i], admins);
    assert BuildKey(String(p.sender), p.key) in s.cache ==>
        EntryAgrees(s.ledger.store, p.sender, p.key, s.cache[CacheKey(p)]);
    hide R.Inv, String, BuildKey, CacheAgrees, CallsHold, NamesTxn;
    var pc := match CheckResult(s.cache, CacheKey(p), fails)
        case Some(reply) => Answered(reply) case None => Transferring;
    assert CallHolds(s.ledger, s.calls[i].(pc := pc), admins);
    hide CallHolds, Inv;
    MoveKeeps(s, i, pc, admins);
  }

  lemma BeginKeeps(s: Pay, i: nat, id: Uuid, admins: set<Uuid>)
    requires Inv(s, admins) && Enabled(s, BeginTransfer(i, id), admins)
    ensures Inv(Do(s, BeginTransfer(i, id), admins), admins)
  {
    var start := M.Start(Transfer(s.calls[i].p), id);
    LedgerStepKeeps(s, start, admins);
    var t := s.(ledger := M.Step(s.ledger, start));
    assert t.ledger.clients[|s.ledger.clients|].op == Transfer(s.calls[i].p);
    assert CallHolds(t.ledger, t.calls[i], admins);
    hide Inv;
    MoveKeeps(t, i, Paying(|s.ledger.clients|), admins);
  }

  /** What the ledger reports back is what Send may answer. */
  lemma CollectHolds(s: Pay, i: nat, admins: set<Uuid>)
    requires Inv(s, admins) && Enabled(s, Collect(i), admins)
    ensures CallHolds(s.ledger, s.calls[i].(pc := AfterLedger(s.ledger.clients[s.calls[i].pc.client].outcome)), admins)
  {
    assert CallHolds(s.ledger, s.calls[i], admins);
    var c := s.ledger.clients[s.calls[i].pc.client];
    R.ClientInvAt(s.ledger, s.calls[i].pc.client);
    hide R.Inv, CacheAgrees, CallsHold, ClientInv;
  }

  lemma CollectKeeps(s: Pay, i: nat, admins: set<Uuid>)
    requires Inv(s, admins) && Enabled(s, Collect(i), admins)
    ensures Inv(Do(s, Collect(i), admins), admins)
  {
    CollectHolds(s, i, admins);
    hide Inv, CallHolds;
    MoveKeeps(s, i, AfterLedger(s.ledger.clients[s.calls[i].pc.client].outcome), admins);
  }

  // ---- writes to Redis

  /** Setting one key keeps the agreement if the new value agrees wherever that key is a wallet's. */
  lemma SetKeeps(s: Pay, key: string, v: Cached, admins: set<Uuid>)
    requires Inv(s, admins)
    requires forall w, k :: w !in admins && BuildKey(String(w), k) == key ==> EntryAgrees(s.ledger.store, w, k, v)
    ensures Inv(s.(cache := s.cache[key := v]), admins)
  {
    hide R.Inv, CallHolds, EntryAgrees, String, BuildKey;
  }

  lemma WriteKeeps(s: Pay, i: nat, fails: bool, admins: set<Uuid>)
    requires Inv(s, admins) && Enabled(s, WriteCache(i, fails), admins)
    ensures Inv(Do(s, WriteCache(i, fails), admins), admins)
  {
    var p, reply := s.calls[i].p, s.calls[i].pc.reply;
    assert CallHolds(s.ledger, s.calls[i], admins);
    forall w, k | w !in admins && BuildKey(String(w), k) == CacheKey(p)
      ensures EntryAgrees(s.ledger.store, w, k, Payment(reply))
    {
      BuildKeyInjective(w, p.sender, k, p.key);
    }
    hide R.Inv, CacheAgrees, CallsHold, String, BuildKey, FirstReply;
    MoveKeeps(s, i, Answered(reply), admins);
    if !fails && CacheKey(p) !in s.cache {
      SetKeeps(Move(s, i, Answered(reply)), CacheKey(p), Payment(reply), admins);
    }
  }

  lemma AdminKeeps(s: Pay, admin: Uuid, key: string, id: Uuid, admins: set<Uuid>)
    requires Inv(s, admins) && admin in admins
    ensures Inv(s.(cache := SetNX(s.cache, BuildKey(String(admin), key), IssuanceReply(id))), admins)
  {
    forall w, k | w !in admins && BuildKey(String(w), k) == BuildKey(String(admin), key)
      ensures false
    {
      BuildKeyInjective(w, admin, k, key);
    }
    hide Inv, String, BuildKey;
    if BuildKey(String(admin), key) !in s.cache {
      SetKeeps(s, BuildKey(String(admin), key), IssuanceReply(id), admins);
    }
  }

  lemma OtherKeeps(s: Pay, other: string, v: Cached, admins: set<Uuid>)
    requires Inv(s, admins) && !(KEY_PREFIX <= other)
    ensures Inv(s.(cache := s.cache[other := v]), admins)
  {
    forall w, k | w !in admins && BuildKey(String(w), k) == other
      ensures false
    {
      PrefixApart(other, String(w), k);
    }
    hide Inv, String, BuildKey;
    SetKeeps(s, other, v, admins);
  }

  lemma StepKeepsInv(s: Pay, a: Action, admins: set<Uuid>)
    requires Inv(s, admins)
    ensures Inv(Step(s, a, admins), admins)
  {
    if Enabled(s, a, admins) {
      match a
      case Ledger(step) => hide Inv; LedgerStepKeeps(s, step, admins);
      case Arrive(p) => hide R.Inv, EntryAgrees, String, BuildKey, FirstReply, NamesTxn;
      case ReadCache(i, fails) => hide Inv; ReadKeeps(s, i, fails, admins);
      case BeginTransfer(i, id) => hide Inv; BeginKeeps(s, i, id, admins);
      case Collect(i) => hide Inv; CollectKeeps(s, i, admins);
      case WriteCache(i, fails) => hide Inv; WriteKeeps(s, i, fails, admins);
      case Evict(k) => hide R.Inv, EntryAgrees, String, BuildKey, CallHolds;
      case Rot(k) => hide Inv; SetKeeps(s, k, Garbage, admins);
      case AdminStore(admin, key, id) => hide Inv; AdminKeeps(s, admin, key, id, admins);
      case OtherRedisWrite(k, v) => hide Inv; OtherKeeps(s, k, v, admins);
    }
  }

  lemma {:induction false} RunKeepsInv(trace: seq<Action>, admins: set<Uuid>)
    ensures Inv(Run(trace, admins), admins)
  {
    if trace != [] {
      RunKeepsInv(trace[..|trace| - 1], admins);
      hide Inv, Step;
      StepKeepsInv(Run(trace[..|trace| - 1], admins), trace[|trace| - 1], admins);
    }
  }

  // ---- what a call is told

  /** In every reachable state: a live cache entry answers a call as it stands, and anything else sends it to the
      ledger; a transfer that went through is answered with the balance its debit left, once it is stored or its store
      failed; a replay is answered with balance 0; any other ledger error refuses the call. */
  lemma {:induction false} CallAnswers(trace: seq<Action>, admins: set<Uuid>, i: nat, fails: bool)
    requires i < |Run(trace, admins).calls|
    ensures var s := Run(trace, admins); var c, k := s.calls[i], CacheKey(s.calls[i].p);
            match c.pc
            case CheckCache =>
              var pc := Step(s, ReadCache(i, fails), admins).calls[i].pc;
              && (!fails && k in s.cache && s.cache[k].Payment? ==> pc == Answered(s.cache[k].reply))
              && (fails || k !in s.cache || s.cache[k] == Garbage ==> pc == Transferring)
            case Paying(n) =>
              n < |s.ledger.clients| && s.ledger.clients[n].pc == M.Done ==>
                var pc := Step(s, Collect(i), admins).calls[i].pc;
                (match s.ledger.clients[n].outcome
                 case Success(t, debited, _) => pc == Storing(SendReply(Some(t), debited))
                 case Replay(t) => pc == Answered(SendReply(Some(t), 0))
                 case _ => pc == Refused)
            case Storing(reply) =>
              var t := Step(s, WriteCache(i, fails), admins);
              && t.calls[i].pc == Answered(reply)
              && t.cache == if fails || k in s.cache then s.cache else s.cache[k := Payment(reply)]
            case _ => true
  {
    hide Run, CacheKey, M.Step;
  }

  // ---- main results

  lemma UniqueByKey(db: LedgerModel.Store, w: Uuid, k: string, t: Txn)
    requires KeysUnique(db) && t in db.txns && t.sender == Some(w) && t.key == Some(k)
    ensures GetTransactionByIdempotencyKey(db.txns, w, k) == Some(t)
  {
    var found := GetTransactionByIdempotencyKey(db.txns, w, k);
    var i :| 0 <= i < |db.txns| && db.txns[i] == t;
    assert found.Some?;
    var j :| 0 <= j < |db.txns| && db.txns[j] == found.value;
    assert SameKey(db.txns[i], db.txns[j]);
  }

  lemma LedgerKeysUnique(s: M.Sys)
    requires R.Inv(s)
    ensures KeysUnique(s.store)
  {
    hide Books;
    SerialKeepsBooks(s.history, s.store);
    hide R.Inv;
    BooksKeys(s.store);
  }

  lemma BooksKeys(db: LedgerModel.Store)
    requires Books(db)
    ensures KeysUnique(db)
  {
  }

  /** The cache agrees with the ledger it speeds up: after every run, a live payment entry for a wallet and
      key names exactly the transaction the ledger's own key check finds, and shows the balance its debit
      left. No other kind of live entry stands under a wallet's key. */
  lemma {:induction false} CacheAgreesWithLedger(trace: seq<Action>, admins: set<Uuid>, w: Uuid, k: string)
    requires w !in admins && BuildKey(String(w), k) in Run(trace, admins).cache
    requires Run(trace, admins).cache[BuildKey(String(w), k)] != Garbage
    ensures var s := Run(trace, admins); var v := s.cache[BuildKey(String(w), k)];
            && v.Payment? && v.reply.txn.Some?
            && GetTransactionByIdempotencyKey(s.ledger.store.txns, w, k) == v.reply.txn
            && Entry(w, v.reply.txn.value.id, Debit, v.reply.txn.value.amount,
                v.reply.newBalance) in s.ledger.store.entries
  {
    RunKeepsInv(trace, admins);
    hide Run, R.Inv, String, BuildKey, CallsHold, KeysUnique;
    var s := Run(trace, admins);
    LedgerKeysUnique(s.ledger);
    UniqueByKey(s.ledger.store, w, k, s.cache[BuildKey(String(w), k)].reply.txn.value);
  }

  /** Whichever path answers - first execution, cache hit or ledger replay - every answered call with one
      wallet and key names the one transaction the ledger has for them. */
  lemma {:induction false} AnswersAgree(trace: seq<Action>, admins: set<Uuid>, i: nat)
    requires i < |Run(trace, admins).calls| && Run(trace, admins).calls[i].pc.Answered?
    ensures var s := Run(trace, admins); var c := s.calls[i];
            && c.pc.answer.txn.Some?
            && c.pc.answer.txn == GetTransactionByIdempotencyKey(s.ledger.store.txns, c.p.sender, c.p.key)
            && (c.pc.answer.newBalance == 0 ||
                Entry(c.p.sender, c.pc.answer.txn.value.id, Debit, c.pc.answer.txn.value.amount,
                    c.pc.answer.newBalance) in s.ledger.store.entries)
  {
    RunKeepsInv(trace, admins);
    hide Run, R.Inv, CacheAgrees, KeysUnique;
    var s := Run(trace, admins);
    LedgerKeysUnique(s.ledger);
    assert CallHolds(s.ledger, s.calls[i], admins);
    UniqueByKey(s.ledger.store, s.calls[i].p.sender, s.calls[i].p.key, s.calls[i].pc.answer.txn.value);
  }
}
