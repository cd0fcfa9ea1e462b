/**
 Two payers of one request: when both have looked before either has marked, both transfers commit, and the request
 keeps only the first.
 */
module MerchantDouble {
  import opened Wrappers
  import opened Text
  import opened Uuids
  import Q = QrCode
  import L = LedgerModel
  import M = LedgerMachine
  import R = LedgerRuns
  import P = LedgerProgress
  import A = LedgerLone
  import opened MerchantModel
  import opened MerchantMachine

  function RunFrom(s: Shop, actions: seq<Action>, secret: Secret): Shop
    decreases |actions|
  {
    if actions == [] then s else RunFrom(Step(s, actions[0], secret), actions[1..], secret)
  }

  lemma {:induction false} RunFromKeepsInv(s: Shop, actions: seq<Action>, secret: Secret)
    requires Inv(s, secret)
    ensures Inv(RunFrom(s, actions, secret), secret)
    decreases |actions|
  {
    hide Inv, Step;
    if actions != [] {
      StepKeepsInv(s, actions[0], secret);
      RunFromKeepsInv(Step(s, actions[0], secret), actions[1..], secret);
    }
  }

  lemma {:induction false} RunFromJoins(s: Shop, a: seq<Action>, b: seq<Action>, secret: Secret)
    ensures RunFrom(s, a + b, secret) == RunFrom(RunFrom(s, a, secret), b, secret)
    decreases |a|
  {
    hide Step;
    if a == [] {
      assert a + b == b;
    } else {
      assert (a + b)[0] == a[0] && (a + b)[1..] == a[1..] + b;
      RunFromJoins(Step(s, a[0], secret), a[1..], b, secret);
    }
  }

  lemma {:induction false} RunsOn(trace: seq<Action>, more: seq<Action>, secret: Secret)
    ensures Run(trace + more, secret) == RunFrom(Run(trace, secret), more, secret)
    decreases |more|
  {
    hide Step;
    if more == [] {
      assert trace + more == trace;
    } else {
      assert trace + more == (trace + [more[0]]) + more[1..];
      assert (trace + [more[0]])[..|trace|] == trace;
      RunsOn(trace + [more[0]], more[1..], secret);
    }
  }

  lemma RunOne(s: Shop, a: Action, secret: Secret)
    ensures RunFrom(s, [a], secret) == Step(s, a, secret)
  {
    hide Step;
  }

  /** Steps of the ledger alone. */
  function InLedger(steps: seq<M.Action>): (actions: seq<Action>)
    ensures |actions| == |steps| && forall k :: 0 <= k < |steps| ==> actions[k] == Ledger(steps[k])
  {
    if steps == [] then [] else [Ledger(steps[0])] + InLedger(steps[1..])
  }

  lemma {:induction false} LedgerRunsInside(s: Shop, steps: seq<M.Action>, secret: Secret)
    ensures RunFrom(s, InLedger(steps), secret) == s.(ledger := P.RunFrom(s.ledger, steps))
    decreases |steps|
  {
    hide M.Step;
    if steps != [] {
      var t := Step(s, Ledger(steps[0]), secret);
      assert t == s.(ledger := M.Step(s.ledger, steps[0]));
      assert InLedger(steps)[0] == Ledger(steps[0]) && InLedger(steps)[1..] == InLedger(steps[1..]);
      LedgerRunsInside(t, steps[1..], secret);
    }
  }

  // ---- one payer's transfer, alone

  /** Who scans, pays from which wallet, under which idempotency key, and the id the transfer draws. */
  datatype Payer = Payer(user: Uuid, wallet: Uuid, key: string, txn: Uuid)

  function PayOp(scan: Scan, a: Payer): L.Op { L.Transfer(PaymentParams(a.wallet, scan.wallet, scan.uri, a.key)) }

  /** From its look to its mark: the transfer, run to its end, and its answer. */
  function PayAlone(i: nat, client: nat, txn: Uuid): seq<Action> {
    [BeginTransfer(i, txn)] + (InLedger(A.Calls(client, 14)) + [Collect(i)])
  }

  /** The transfer is new and goes through on these rows. */
  predicate GoesThrough(db: L.Store, op: L.Op, txn: Uuid) {
    A.Recorded(db, op).None? && L.Perform(db, op, txn).Ok?
  }

  lemma LonePayment(s: Shop, i: nat, scan: Scan, request: Uuid, a: Payer, secret: Secret)
    requires i < |s.calls|
    requires s.calls[i] == PayCall(s.calls[i].payload, a.user, a.wallet, a.key, Transferring(scan, request))
    requires R.Inv(s.ledger) && P.AllDone(s.ledger) && M.FreshId(s.ledger, a.txn)
    requires GoesThrough(s.ledger.store, PayOp(scan, a), a.txn)
    ensures var n, t := |s.ledger.clients|, RunFrom(s, PayAlone(i, |s.ledger.clients|, a.txn), secret);
            && t == s.(ledger := t.ledger, calls := s.calls[i := s.calls[i].(pc := Marking(scan, request, n, a.txn))])
            && R.Inv(t.ledger) && P.AllDone(t.ledger) && |t.ledger.clients| == n + 1
            && t.ledger.clients[..n] == s.ledger.clients && t.ledger.clients[n].id == a.txn
            && L.Perform(s.ledger.store, PayOp(scan, a), a.txn) == Ok(t.ledger.store)
  {
    hide *;
    RunPayAlone(s, i, |s.ledger.clients|, a.txn, secret);
    TransferRuns(s, i, scan, request, a, secret);
    CollectIs(RunFrom(Step(s, BeginTransfer(i, a.txn), secret), InLedger(A.Calls(|s.ledger.clients|, 14)), secret), i,
              a.txn, secret);
  }

  lemma TransferRuns(s: Shop, i: nat, scan: Scan, request: Uuid, a: Payer, secret: Secret)
    requires i < |s.calls|
    requires s.calls[i] == PayCall(s.calls[i].payload, a.user, a.wallet, a.key, Transferring(scan, request))
    requires R.Inv(s.ledger) && P.AllDone(s.ledger) && M.FreshId(s.ledger, a.txn)
    requires GoesThrough(s.ledger.store, PayOp(scan, a), a.txn)
    ensures var n := |s.ledger.clients|;
            var t := RunFrom(Step(s, BeginTransfer(i, a.txn), secret), InLedger(A.Calls(n, 14)), secret);
            && t == s.(ledger := t.ledger, calls := s.calls[i := s.calls[i].(pc := Paying(scan, request, n))])
            && R.Inv(t.ledger) && P.AllDone(t.ledger) && |t.ledger.clients| == n + 1
            && t.ledger.clients[..n] == s.ledger.clients && t.ledger.clients[n].id == a.txn
            && t.ledger.clients[n].pc == M.Done && t.ledger.clients[n].outcome.Success?
            && t.ledger.clients[n].outcome.txn.id == a.txn
            && L.Perform(s.ledger.store, PayOp(scan, a), a.txn) == Ok(t.ledger.store)
  {
    hide *;
    var calls := A.Calls(|s.ledger.clients|, 14);
    BeginIs(s, i, scan, request, a, secret);
    LoneTransfer(s.ledger, PayOp(scan, a), a.txn);
    LedgerRunsInside(Step(s, BeginTransfer(i, a.txn), secret), calls, secret);
  }

  lemma RunPayAlone(s: Shop, i: nat, n: nat, txn: Uuid, secret: Secret)
    ensures RunFrom(s, PayAlone(i, n, txn), secret)
            == Step(RunFrom(Step(s, BeginTransfer(i, txn), secret), InLedger(A.Calls(n, 14)), secret), Collect(i),
                secret)
  {
    var calls := InLedger(A.Calls(n, 14));
    PayAloneIs(i, n, txn);
    hide *;
    var s1 := Step(s, BeginTransfer(i, txn), secret);
    RunFromFirst(s, BeginTransfer(i, txn), calls + [Collect(i)], secret);
    RunFromJoins(s1, calls, [Collect(i)], secret);
    RunOne(RunFrom(s1, calls, secret), Collect(i), secret);
  }

  lemma LoneTransfer(s: M.Sys, op: L.Op, txn: Uuid)
    requires R.Inv(s) && P.AllDone(s) && M.FreshId(s, txn) && GoesThrough(s.store, op, txn)
    ensures var n, t := |s.clients|, P.RunFrom(M.Step(s, M.Start(op, txn)), A.Calls(|s.clients|, 14));
            && R.Inv(t) && P.AllDone(t) && |t.clients| == n + 1 && t.clients[..n] == s.clients
            && t.clients[n].id == txn && t.clients[n].pc == M.Done
            && t.clients[n].outcome.Success? && t.clients[n].outcome.txn.id == txn
            && L.Perform(s.store, op, txn) == Ok(t.store)
  {
    var n := |s.clients|;
    A.LoneCall(s, op, txn);
    LoneOutcome(s.store, op, txn);
    A.RunFromFirst(s, M.Start(op, txn), A.Calls(n, 14));
    hide R.Inv, M.FreshId, GoesThrough, P.RunFrom, A.Calls, A.Alone, M.Step, L.Perform;
    assert P.AllDone(P.RunFrom(M.Step(s, M.Start(op, txn)), A.Calls(n, 14)));
  }

  lemma PayAloneIs(i: nat, client: nat, txn: Uuid)
    ensures PayAlone(i, client, txn) == [BeginTransfer(i, txn)] + (InLedger(A.Calls(client, 14)) + [Collect(i)])
  {
    hide InLedger, A.Calls;
  }

  lemma RunFromFirst(s: Shop, a: Action, more: seq<Action>, secret: Secret)
    ensures RunFrom(s, [a] + more, secret) == RunFrom(Step(s, a, secret), more, secret)
  {
    assert ([a] + more)[0] == a && ([a] + more)[1..] == more;
    hide Step;
  }

  lemma BeginIs(s: Shop, i: nat, scan: Scan, request: Uuid, a: Payer, secret: Secret)
    requires i < |s.calls| && M.FreshId(s.ledger, a.txn)
    requires s.calls[i] == PayCall(s.calls[i].payload, a.user, a.wallet, a.key, Transferring(scan, request))
    ensures Step(s, BeginTransfer(i, a.txn), secret)
            == s.(ledger := M.Step(s.ledger, M.Start(PayOp(scan, a), a.txn)),
                  calls := s.calls[i := s.calls[i].(pc := Paying(scan, request, |s.ledger.clients|))])
  {
    hide M.Step, M.FreshId;
  }

  lemma CollectIs(s: Shop, i: nat, txn: Uuid, secret: Secret)
    requires i < |s.calls| && s.calls[i].pc.Paying? && s.calls[i].pc.client < |s.ledger.clients|
    requires var c := s.ledger.clients[s.calls[i].pc.client];
             c.pc == M.Done && c.outcome.Success? && c.outcome.txn.id == txn
    ensures var pc := s.calls[i].pc;
            Step(s, Collect(i), secret)
            == s.(calls := s.calls[i := s.calls[i].(pc := Marking(pc.scan, pc.request, pc.client, txn))])
  {
  }

  lemma LoneOutcome(db: L.Store, op: L.Op, txn: Uuid)
    requires GoesThrough(db, op, txn)
    ensures var (after, o) := A.Alone(db, op, txn); o.Success? && o.txn.id == txn && L.Perform(db, op, txn) == Ok(after)
  {
    R.TxnKeepsId(op, txn, L.Settled);
    hide L.Perform, A.Recorded, L.TxnOf;
  }

  // ---- two payers

  /** What the request's code says. */
  function UriOf(r: Request, secret: Secret): Q.Params {
    var expires := Q.Unix(r.expiresAt);
    Q.Params(r.merchant, r.amount, r.reference, r.description, expires,
             Q.Sign(secret.mac, secret.key, r.merchant, r.amount, expires))
  }

  /** What a scan of the request names. */
  function ScanOf(s: Shop, r: Request, secret: Secret): Scan
    requires r.merchant in s.merchants && s.merchants[r.merchant].user in s.walletOf
  {
    Scan(UriOf(r, secret), s.walletOf[s.merchants[r.merchant].user])
  }

  /** Row k can be paid: it is pending, in time, the first its payload finds, and its merchant's. */
  ghost predicate Open(s: Shop, k: nat) {
    k < |s.rows| &&
    var r := s.rows[k];
    && r.status == Pending && s.now < r.expiresAt && s.now <= Q.Unix(r.expiresAt) * Q.NANOS
    && r.merchant in s.merchants && s.merchants[r.merchant].active && s.merchants[r.merchant].user in s.walletOf
    && Match(List(s.rows, r.merchant, Some(Pending), 100), r.qrPayload) == Some(r)
  }

  predicate NotTheMerchant(s: Shop, k: nat, a: Payer)
    requires k < |s.rows| && s.rows[k].merchant in s.merchants
  {
    s.merchants[s.rows[k].merchant].user != a.user
  }

  function CallOf(payload: string, a: Payer, pc: PayPC): PayCall { PayCall(payload, a.user, a.wallet, a.key, pc) }

  /** The printed code is read back and verifies. */
  lemma CodeIsGood(r: Request, now: int, secret: Secret)
    requires Genuine(r, secret) && now <= Q.Unix(r.expiresAt) * Q.NANOS
    ensures Q.ParseURI(r.qrPayload) == Ok(UriOf(r, secret))
    ensures Q.Verify(secret.mac, UriOf(r, secret), secret.key, now).None?
  {
    Q.RoundTrip(secret.mac, secret.key, r.merchant, r.amount, r.reference, r.description, r.expiresAt);
    Q.BuiltVerifies(secret.mac, secret.key, r.merchant, r.amount, r.reference, r.description, r.expiresAt, now);
    hide Q.ParseURI, Q.BuildURI, Q.Sign, Q.Unix, Q.Verify, Q.UnixFits;
  }

  lemma VerifyIs(s: Shop, i: nat, k: nat, a: Payer, secret: Secret)
    requires Open(s, k) && NotTheMerchant(s, k, a) && Genuine(s.rows[k], secret)
    requires i < |s.calls| && s.calls[i] == CallOf(s.rows[k].qrPayload, a, Scanned)
    ensures Step(s, Verify(i), secret) == Move(s, i, FindPending(ScanOf(s, s.rows[k], secret)))
  {
    hide Step, Genuine, Move, AfterScan, UriOf, Q.Unix, Match, List, Q.ParseURI, Q.Verify;
    CodeIsGood(s.rows[k], s.now, secret);
    UriNames(s.rows[k], secret);
    AfterScanIs(s, s.calls[i], UriOf(s.rows[k], secret), secret);
    VerifyMoves(s, i, secret);
  }

  lemma UriNames(r: Request, secret: Secret)
    ensures UriOf(r, secret).merchant == r.merchant && UriOf(r, secret).amount == r.amount
  {
  }

  lemma AfterScanIs(s: Shop, c: PayCall, uri: Q.Params, secret: Secret)
    requires Q.ParseURI(c.payload) == Ok(uri) && Q.Verify(secret.mac, uri, secret.key, s.now).None?
    requires uri.merchant in s.merchants && s.merchants[uri.merchant].active
    requires s.merchants[uri.merchant].user != c.payerUser && s.merchants[uri.merchant].user in s.walletOf
    ensures AfterScan(s, c, secret) == FindPending(Scan(uri, s.walletOf[s.merchants[uri.merchant].user]))
  {
    hide Q.ParseURI, Q.Verify;
  }

  lemma LookIs(s: Shop, i: nat, k: nat, scan: Scan, secret: Secret)
    requires Open(s, k) && scan.uri.merchant == s.rows[k].merchant
    requires i < |s.calls| && s.calls[i].payload == s.rows[k].qrPayload && s.calls[i].pc == FindPending(scan)
    ensures Step(s, LookPending(i), secret) == Move(s, i, Transferring(scan, s.rows[k].id))
  {
    hide Q.Unix, Match, List;
  }

  /** Two calls scan one request's code, and both look before either pays. */
  function BothLook(n: nat, payload: string, a: Payer, b: Payer): seq<Action> {
    [ScanCode(payload, a.user, a.wallet, a.key), ScanCode(payload, b.user, b.wallet, b.key), Verify(n), LookPending(n),
     Verify(n + 1), LookPending(n + 1)]
  }

  lemma OneLook(s: Shop, i: nat, k: nat, a: Payer, secret: Secret)
    requires Open(s, k) && NotTheMerchant(s, k, a) && Genuine(s.rows[k], secret)
    requires i < |s.calls| && s.calls[i] == CallOf(s.rows[k].qrPayload, a, Scanned)
    ensures var pc := Transferring(ScanOf(s, s.rows[k], secret), s.rows[k].id);
            Step(Step(s, Verify(i), secret), LookPending(i), secret) == Move(s, i, pc)
  {
    hide Step, Genuine, List, Match, UriOf, Q.Unix;
    var scan := ScanOf(s, s.rows[k], secret);
    VerifyIs(s, i, k, a, secret);
    UriNames(s.rows[k], secret);
    var t := Move(s, i, FindPending(scan));
    assert Open(t, k);
    hide Open;
    LookIs(t, i, k, scan, secret);
  }

  /** Reading the code looks only at these. */
  lemma CallsDoNotMatter(s: Shop, t: Shop, k: nat, a: Payer, secret: Secret)
    requires Open(s, k) && NotTheMerchant(s, k, a) && t == s.(calls := t.calls)
    ensures Open(t, k) && NotTheMerchant(t, k, a) && ScanOf(t, t.rows[k], secret) == ScanOf(s, s.rows[k], secret)
  {
    hide List, Match, UriOf, Q.Unix;
  }

  lemma BothScanned(s: Shop, payload: string, a: Payer, b: Payer, secret: Secret)
    ensures Step(Step(s, ScanCode(payload, a.user, a.wallet, a.key), secret),
                ScanCode(payload, b.user, b.wallet, b.key), secret)
            == s.(calls := s.calls + [CallOf(payload, a, Scanned), CallOf(payload, b, Scanned)])
  {
  }

  lemma BothLooked(s: Shop, k: nat, a: Payer, b: Payer, secret: Secret)
    requires Open(s, k) && NotTheMerchant(s, k, a) && NotTheMerchant(s, k, b) && Genuine(s.rows[k], secret)
    ensures var r := s.rows[k];
            var pc := Transferring(ScanOf(s, r, secret), r.id);
            RunFrom(s, BothLook(|s.calls|, r.qrPayload, a, b), secret)
            == s.(calls := s.calls + [CallOf(r.qrPayload, a, pc), CallOf(r.qrPayload, b, pc)])
  {
    hide Step, ScanOf, Genuine, RunFrom, List, Match, Q.Unix;
    var n, p, pc := |s.calls|, s.rows[k].qrPayload, Transferring(ScanOf(s, s.rows[k], secret), s.rows[k].id);
    var all := BothLook(n, p, a, b);
    hide Open, NotTheMerchant;
    SixSteps(s, all, secret);
    BothScanned(s, p, a, b, secret);
    var s2 := s.(calls := s.calls + [CallOf(p, a, Scanned), CallOf(p, b, Scanned)]);
    CallsDoNotMatter(s, s2, k, a, secret);
    OneLook(s2, n, k, a, secret);
    var s4 := s.(calls := s.calls + [CallOf(p, a, pc), CallOf(p, b, Scanned)]);
    assert Move(s2, n, pc) == s4;
    CallsDoNotMatter(s, s4, k, b, secret);
    OneLook(s4, n + 1, k, b, secret);
    assert Move(s4, n + 1, pc).calls == s.calls + [CallOf(p, a, pc), CallOf(p, b, pc)];
  }

  lemma SixSteps(s: Shop, all: seq<Action>, secret: Secret)
    requires |all| == 6
    ensures RunFrom(s, all, secret)
            == Step(Step(Step(Step(Step(Step(s, all[0], secret), all[1], secret), all[2], secret), all[3], secret),
                all[4], secret), all[5], secret)
  {
    hide Step;
    assert all == [all[0]] + ([all[1]] + ([all[2]] + ([all[3]] + ([all[4]] + [all[5]]))));
    hide RunFrom;
    RunFromFirst(s, all[0], [all[1]] + ([all[2]] + ([all[3]] + ([all[4]] + [all[5]]))), secret);
    var s1 := Step(s, all[0], secret);
    RunFromFirst(s1, all[1], [all[2]] + ([all[3]] + ([all[4]] + [all[5]])), secret);
    var s2 := Step(s1, all[1], secret);
    RunFromFirst(s2, all[2], [all[3]] + ([all[4]] + [all[5]]), secret);
    var s3 := Step(s2, all[2], secret);
    RunFromFirst(s3, all[3], [all[4]] + [all[5]], secret);
    var s4 := Step(s3, all[3], secret);
    RunFromFirst(s4, all[4], [all[5]], secret);
    RunOne(Step(s4, all[4], secret), all[5], secret);
  }

  /** Both look, then both transfer, one after the other: nobody has marked the request yet. */
  function BothPaying(n: nat, client: nat, payload: string, a: Payer, b: Payer): seq<Action> {
    BothLook(n, payload, a, b) + (PayAlone(n, client, a.txn) + PayAlone(n + 1, client + 1, b.txn))
  }

  /** The two transfers are new, and go through one after the other. */
  predicate BothGoThrough(db: L.Store, scan: Scan, a: Payer, b: Payer) {
    && GoesThrough(db, PayOp(scan, a), a.txn)
    && GoesThrough(L.Perform(db, PayOp(scan, a), a.txn).value, PayOp(scan, b), b.txn)
  }

  lemma BothTransferred(s: Shop, n: nat, scan: Scan, request: Uuid, a: Payer, b: Payer, secret: Secret)
    requires |s.calls| == n + 2
    requires s.calls[n] == CallOf(s.calls[n].payload, a, Transferring(scan, request))
    requires s.calls[n + 1] == CallOf(s.calls[n + 1].payload, b, Transferring(scan, request))
    requires R.Inv(s.ledger) && P.AllDone(s.ledger) && M.FreshId(s.ledger, a.txn) && M.FreshId(s.ledger, b.txn)
    requires a.txn != b.txn && BothGoThrough(s.ledger.store, scan, a, b)
    ensures var m := |s.ledger.clients|;
            var t := RunFrom(s, PayAlone(n, m, a.txn) + PayAlone(n + 1, m + 1, b.txn), secret);
            var c := CallOf(s.calls[n].payload, a, Marking(scan, request, m, a.txn));
            var d := CallOf(s.calls[n + 1].payload, b, Marking(scan, request, m + 1, b.txn));
            && t == s.(ledger := t.ledger, calls := s.calls[n := c][n + 1 := d])
            && P.AllDone(t.ledger)
  {
    hide *;
    var m, p, q := |s.ledger.clients|, s.calls[n].payload, s.calls[n + 1].payload;
    BothArePayments(s.ledger.store, scan, a, b);
    CallIs(p, a, Transferring(scan, request));
    CallIs(q, b, Transferring(scan, request));
    LonePayment(s, n, scan, request, a, secret);
    var t := RunFrom(s, PayAlone(n, m, a.txn), secret);
    StaysFresh(s.ledger, t.ledger, b.txn);
    LonePayment(t, n + 1, scan, request, b, secret);
    CallIs(p, a, Marking(scan, request, m, a.txn));
    CallIs(q, b, Marking(scan, request, m + 1, b.txn));
    RunFromJoins(s, PayAlone(n, m, a.txn), PayAlone(n + 1, m + 1, b.txn), secret);
  }

  lemma BothPaid(s: Shop, k: nat, a: Payer, b: Payer, secret: Secret)
    requires Inv(s, secret) && P.AllDone(s.ledger)
    requires M.FreshId(s.ledger, a.txn) && M.FreshId(s.ledger, b.txn) && a.txn != b.txn
    requires Open(s, k) && NotTheMerchant(s, k, a) && NotTheMerchant(s, k, b)
    requires BothGoThrough(s.ledger.store, ScanOf(s, s.rows[k], secret), a, b)
    ensures var n, m, r, scan := |s.calls|, |s.ledger.clients|, s.rows[k], ScanOf(s, s.rows[k], secret);
            var t := RunFrom(s, BothPaying(n, m, r.qrPayload, a, b), secret);
            && t == s.(ledger := t.ledger, calls := s.calls
                       + [CallOf(r.qrPayload, a, Marking(scan, r.id, m, a.txn)),
                          CallOf(r.qrPayload, b, Marking(scan, r.id, m + 1, b.txn))])
            && P.AllDone(t.ledger)
  {
    var n, m, r, scan := |s.calls|, |s.ledger.clients|, s.rows[k], ScanOf(s, s.rows[k], secret);
    var p, pc := r.qrPayload, Transferring(scan, r.id);
    var look, pay := BothLook(n, p, a, b), PayAlone(n, m, a.txn) + PayAlone(n + 1, m + 1, b.txn);
    assert BothPaying(n, m, p, a, b) == look + pay;
    CallIs(p, a, pc);
    CallIs(p, b, pc);
    hide *;
    RowAt(s, k, secret);
    BothLooked(s, k, a, b, secret);
    LedgerHolds(s, secret);
    var s1 := s.(calls := s.calls + [CallOf(p, a, pc), CallOf(p, b, pc)]);
    BothTransferred(s1, n, scan, r.id, a, b, secret);
    RunFromJoins(s, look, pay, secret);
    PutTwo(s.calls, CallOf(p, a, pc), CallOf(p, b, pc), CallOf(p, a, Marking(scan, r.id, m, a.txn)),
           CallOf(p, b, Marking(scan, r.id, m + 1, b.txn)));
  }

  lemma PutTwo<T>(s: seq<T>, x: T, y: T, x': T, y': T)
    ensures (s + [x, y])[|s| := x'][|s| + 1 := y'] == s + [x', y']
  {
  }

  lemma CallIs(payload: string, a: Payer, pc: PayPC)
    ensures CallOf(payload, a, pc) == PayCall(payload, a.user, a.wallet, a.key, pc)
  {
  }

  lemma BothArePayments(db: L.Store, scan: Scan, a: Payer, b: Payer)
    requires BothGoThrough(db, scan, a, b)
    ensures GoesThrough(db, PayOp(scan, a), a.txn) && L.Perform(db, PayOp(scan, a), a.txn).Ok?
    ensures GoesThrough(L.Perform(db, PayOp(scan, a), a.txn).value, PayOp(scan, b), b.txn)
  {
    hide L.Perform;
  }

  lemma LedgerHolds(s: Shop, secret: Secret)
    requires Inv(s, secret)
    ensures R.Inv(s.ledger)
  {
    hide R.Inv, RowsHold, CallsHold, TransfersDistinct, TransfersExist, RecordsHold, RequestIdsDistinct;
  }

  lemma StaysFresh(s: M.Sys, t: M.Sys, id: Uuid)
    requires M.FreshId(s, id) && |t.clients| == |s.clients| + 1 && t.clients[..|s.clients|] == s.clients
    requires t.clients[|s.clients|].id != id
    ensures M.FreshId(t, id)
  {
    forall j | 0 <= j < |t.clients|
      ensures t.clients[j].id != id
    {
      assert j < |s.clients| ==> t.clients[j] == t.clients[..|s.clients|][j];
    }
  }

  // ---- both mark

  function TwoPayers(n: nat, client: nat, payload: string, a: Payer, b: Payer): seq<Action> {
    BothPaying(n, client, payload, a, b) + [Mark(n, false), Mark(n + 1, false)]
  }

  /** Both payments stand, in the merchant's wallet, and the rows keep only the first. */
  ghost predicate PaidTwice(t: Shop, before: seq<Request>, k: nat, a: Payer, b: Payer, at: int)
    requires k < |before|
  {
    var r := before[k];
    && a.txn != b.txn
    && (exists wallet ::
          && OwnersWallet(t, r.merchant, wallet)
          && SettledPayment(t.ledger.store, a.txn, a.wallet, wallet, r.amount)
          && SettledPayment(t.ledger.store, b.txn, b.wallet, wallet, r.amount))
    && t.rows == before[k := r.(status := Paid, payer := Some(a.wallet), txn := Some(a.txn), paidAt := Some(at))]
    && forall l :: 0 <= l < |t.rows| ==> t.rows[l].txn != Some(b.txn)
  }

  /** From every reachable state with a request open for payment and no ledger call under way, for every two payers who
      can each pay it: when both look before either marks, both pay. */
  lemma {:induction false} DoublePayment(trace: seq<Action>, k: nat, a: Payer, b: Payer, secret: Secret)
    requires var s := Run(trace, secret);
             && P.AllDone(s.ledger) && M.FreshId(s.ledger, a.txn) && M.FreshId(s.ledger, b.txn) && a.txn != b.txn
             && Open(s, k) && NotTheMerchant(s, k, a) && NotTheMerchant(s, k, b)
             && BothGoThrough(s.ledger.store, ScanOf(s, s.rows[k], secret), a, b)
    ensures var s := Run(trace, secret);
            var more := TwoPayers(|s.calls|, |s.ledger.clients|, s.rows[k].qrPayload, a, b);
            PaidTwice(Run(trace + more, secret), s.rows, k, a, b, s.now)
  {
    var s := Run(trace, secret);
    var more := TwoPayers(|s.calls|, |s.ledger.clients|, s.rows[k].qrPayload, a, b);
    MerchantMachine.RunKeepsInv(trace, secret);
    RunsOn(trace, more, secret);
    hide *;
    BothPaidAndMarked(s, k, a, b, secret);
  }

  lemma BothPaidAndMarked(s: Shop, k: nat, a: Payer, b: Payer, secret: Secret)
    requires Inv(s, secret) && P.AllDone(s.ledger)
    requires M.FreshId(s.ledger, a.txn) && M.FreshId(s.ledger, b.txn) && a.txn != b.txn
    requires Open(s, k) && NotTheMerchant(s, k, a) && NotTheMerchant(s, k, b)
    requires BothGoThrough(s.ledger.store, ScanOf(s, s.rows[k], secret), a, b)
    ensures var more := TwoPayers(|s.calls|, |s.ledger.clients|, s.rows[k].qrPayload, a, b);
            PaidTwice(RunFrom(s, more, secret), s.rows, k, a, b, s.now)
  {
    var n, m, r, scan := |s.calls|, |s.ledger.clients|, s.rows[k], ScanOf(s, s.rows[k], secret);
    var paying := BothPaying(n, m, r.qrPayload, a, b);
    var c := CallOf(r.qrPayload, a, Marking(scan, r.id, m, a.txn));
    var d := CallOf(r.qrPayload, b, Marking(scan, r.id, m + 1, b.txn));
    assert TwoPayers(n, m, r.qrPayload, a, b) == paying + [Mark(n, false), Mark(n + 1, false)];
    RowIsPending(s, k, secret);
    hide *;
    BothPaid(s, k, a, b, secret);
    var u := RunFrom(s, paying, secret);
    RunFromKeepsInv(s, paying, secret);
    RunFromJoins(s, paying, [Mark(n, false), Mark(n + 1, false)], secret);
    RunTwo(u, Mark(n, false), Mark(n + 1, false), secret);
    CallIs(r.qrPayload, a, Marking(scan, r.id, m, a.txn));
    CallIs(r.qrPayload, b, Marking(scan, r.id, m + 1, b.txn));
    assert u.calls[n] == c && u.calls[n + 1] == d;
    BothMark(u, n, n + 1, secret);
    PaidBoth(Step(Step(u, Mark(n, false), secret), Mark(n + 1, false), secret), s.rows, k, a, b, c, d, s.now);
  }

  lemma RunTwo(s: Shop, a: Action, b: Action, secret: Secret)
    ensures RunFrom(s, [a, b], secret) == Step(Step(s, a, secret), b, secret)
  {
    hide *;
    assert [a, b] == [a] + [b];
    RunFromFirst(s, a, [b], secret);
    RunOne(Step(s, a, secret), b, secret);
  }

  lemma RowIsPending(s: Shop, k: nat, secret: Secret)
    requires Inv(s, secret) && Open(s, k)
    ensures IndexOf(s.rows, s.rows[k].id) == k && s.rows[k].status == Pending && s.now < s.rows[k].expiresAt
  {
    hide R.Inv, RowsHold, CallsHold, TransfersDistinct, TransfersExist, RecordsHold, List, Match, Q.Unix, IndexOf;
  }

  lemma PaidBoth(t: Shop, before: seq<Request>, k: nat, a: Payer, b: Payer, c: PayCall, d: PayCall, at: int)
    requires k < |before| && c.pc.Marking? && d.pc.Marking?
    requires c.payerWallet == a.wallet && c.pc.txn == a.txn && d.payerWallet == b.wallet && d.pc.txn == b.txn
    requires PaidTo(t, before[k], c) && PaidTo(t, before[k], d) && a.txn != b.txn
    requires t.rows == before[k := PaidRow(before[k], c, at)]
    requires forall l :: 0 <= l < |t.rows| ==> t.rows[l].txn != Some(d.pc.txn)
    ensures PaidTwice(t, before, k, a, b, at)
  {
    hide SettledPayment;
  }

  /** And only then: a call goes on to its transfer only if nothing had been recorded on the request up to its look. A
      payment that comes second has looked before the first was recorded. */
  lemma {:induction false} LooksBeforeAnyRecord(trace: seq<Action>, i: nat, a: Action, p: nat, secret: Secret)
    requires i < |Run(trace, secret).calls| && !Run(trace, secret).calls[i].pc.Transferring?
    requires i < |Step(Run(trace, secret), a, secret).calls|
    requires Step(Run(trace, secret), a, secret).calls[i].pc.Transferring?
    requires p <= |trace|
    ensures var s, c := Run(trace, secret), Step(Run(trace, secret), a, secret).calls[i];
            var k, rows := IndexOf(s.rows, c.pc.request), Run(trace[..p], secret).rows;
            k < |s.rows| && (k < |rows| ==> rows[k].status == Pending && rows[k].id == c.pc.request)
  {
    hide *;
    TransfersOnlyForPending(trace, i, a, secret);
    assert trace[..p] + trace[p..] == trace;
    LifeCycle(trace[..p], trace[p..], secret);
    PendingBefore(Run(trace[..p], secret).rows, Run(trace, secret).rows,
                  Step(Run(trace, secret), a, secret).calls[i].pc.request);
  }

  lemma PendingBefore(rows: seq<Request>, after: seq<Request>, id: Uuid)
    requires LivesOn(rows, after) && IndexOf(after, id) < |after| && after[IndexOf(after, id)].status == Pending
    ensures var k := IndexOf(after, id); k < |rows| ==> rows[k].status == Pending && rows[k].id == id
  {
    hide IndexOf;
    var k := IndexOf(after, id);
    assert k < |rows| ==> Moves(rows[k], after[k]);
  }

  // ---- such a run, from the empty system

  /** A merchant with a wallet, and two payers who are each issued the amount of one request. */
  datatype Cast = Cast(
    merchant: Uuid, user: Uuid, wallet: Uuid, a: Payer, b: Payer, admin: Uuid, issueA: Uuid, issueB: Uuid,
    request: Uuid, amount: int)

  /** Everybody is somebody else, the amount can be issued, and the keys fit their column. */
  predicate Sensible(x: Cast) {
    && x.a.wallet != x.b.wallet && x.a.wallet != x.wallet && x.b.wallet != x.wallet
    && x.a.user != x.user && x.b.user != x.user
    && x.issueA != x.issueB && x.a.txn != x.issueA && x.a.txn != x.issueB && x.b.txn != x.issueA
    && x.b.txn != x.issueB && x.a.txn != x.b.txn
    && 0 < x.amount <= L.ISSUANCE_CAP && |x.a.key| <= 128 && |x.b.key| <= 128
  }

  function IssueTo(x: Cast, a: Payer): L.Op { L.Issue(L.IssueParams(x.admin, a.wallet, x.amount, "", "")) }

  function IssueAlone(x: Cast, client: nat, a: Payer, txn: Uuid): seq<M.Action> {
    [M.Start(IssueTo(x, a), txn)] + A.Calls(client, 14)
  }

  function Opens(x: Cast): seq<M.Action> {
    [M.OpenWallet(x.a.wallet), M.OpenWallet(x.b.wallet), M.OpenWallet(x.wallet)]
  }

  function Funding(x: Cast): seq<M.Action> {
    Opens(x) + (IssueAlone(x, 0, x.a, x.issueA) + IssueAlone(x, 1, x.b, x.issueB))
  }

  function FreeRow(balance: int): L.WalletRow { L.WalletRow(balance, false, false) }

  lemma Opened(x: Cast)
    requires Sensible(x)
    ensures var s := P.RunFrom(M.INIT, Opens(x));
            && R.Inv(s) && s.clients == [] && s.store.txns == []
            && s.store.wallets == map[x.a.wallet := FreeRow(0), x.b.wallet := FreeRow(0), x.wallet := FreeRow(0)]
  {
    hide M.Step, R.Inv, P.RunFrom;
    var first, second, third := M.OpenWallet(x.a.wallet), M.OpenWallet(x.b.wallet), M.OpenWallet(x.wallet);
    assert Opens(x) == [first] + ([second] + ([third] + []));
    A.RunFromFirst(M.INIT, first, [second] + ([third] + []));
    InitHolds();
    OpenStep(M.INIT, x.a.wallet);
    var s1 := M.Step(M.INIT, first);
    A.RunFromFirst(s1, second, [third] + []);
    OpenStep(s1, x.b.wallet);
    var s2 := M.Step(s1, second);
    A.RunFromFirst(s2, third, []);
    OpenStep(s2, x.wallet);
    RunNothing(M.Step(s2, third));
  }

  lemma RunNothing(s: M.Sys)
    ensures P.RunFrom(s, []) == s
  {
  }

  lemma OpenStep(s: M.Sys, w: Uuid)
    requires R.Inv(s) && w !in s.store.wallets
    ensures var t := M.Step(s, M.OpenWallet(w));
            && R.Inv(t) && t.clients == s.clients && t.store.txns == s.store.txns
            && t.store.wallets == s.store.wallets[w := FreeRow(0)]
  {
    R.StepKeepsInv(s, M.OpenWallet(w));
    hide R.Inv;
  }

  lemma InitHolds()
    ensures R.Inv(M.INIT)
  {
    R.RunKeepsInv([]);
    hide R.Inv;
  }

  lemma IssuePerformed(db: L.Store, x: Cast, a: Payer, id: Uuid)
    requires Sensible(x) && a.wallet in db.wallets && db.wallets[a.wallet] == FreeRow(0)
    requires forall k :: 0 <= k < |db.txns| ==> db.txns[k].id != id
    ensures var r := L.Perform(db, IssueTo(x, a), id);
            && r.Ok? && r.value.wallets == db.wallets[a.wallet := FreeRow(x.amount)]
            && r.value.txns == db.txns + [L.TxnOf(IssueTo(x, a), id, L.Settled)]
  {
  }

  lemma Issued(s: M.Sys, x: Cast, a: Payer, id: Uuid)
    requires R.Inv(s) && P.AllDone(s) && M.FreshId(s, id) && Sensible(x)
    requires a.wallet in s.store.wallets && s.store.wallets[a.wallet] == FreeRow(0)
    requires forall k :: 0 <= k < |s.store.txns| ==> s.store.txns[k].id != id
    ensures var n, t := |s.clients|, P.RunFrom(s, IssueAlone(x, |s.clients|, a, id));
            && R.Inv(t) && P.AllDone(t) && |t.clients| == n + 1 && t.clients[..n] == s.clients && t.clients[n].id == id
            && t.store.wallets == s.store.wallets[a.wallet := FreeRow(x.amount)]
            && t.store.txns == s.store.txns + [L.TxnOf(IssueTo(x, a), id, L.Settled)]
  {
    A.LoneCall(s, IssueTo(x, a), id);
    IssuePerformed(s.store, x, a, id);
    hide R.Inv, P.AllDone, M.FreshId, P.RunFrom, A.Calls, L.Perform, A.BalanceOf, L.TxnOf;
  }

  lemma FirstIssued(s: M.Sys, x: Cast)
    requires Sensible(x) && R.Inv(s) && s.clients == [] && s.store.txns == []
    requires s.store.wallets == map[x.a.wallet := FreeRow(0), x.b.wallet := FreeRow(0), x.wallet := FreeRow(0)]
    ensures var t := P.RunFrom(s, IssueAlone(x, 0, x.a, x.issueA));
            && R.Inv(t) && P.AllDone(t) && |t.clients| == 1 && t.clients[0].id == x.issueA
            && t.store.wallets == map[x.a.wallet := FreeRow(x.amount), x.b.wallet := FreeRow(0), x.wallet := FreeRow(0)]
            && t.store.txns == [L.TxnOf(IssueTo(x, x.a), x.issueA, L.Settled)]
  {
    hide R.Inv, P.RunFrom, IssueAlone, L.TxnOf, IssueTo;
    Issued(s, x, x.a, x.issueA);
  }

  lemma SecondIssued(s: M.Sys, x: Cast)
    requires Sensible(x) && R.Inv(s) && P.AllDone(s) && |s.clients| == 1 && s.clients[0].id == x.issueA
    requires s.store.wallets == map[x.a.wallet := FreeRow(x.amount), x.b.wallet := FreeRow(0), x.wallet := FreeRow(0)]
    requires s.store.txns == [L.TxnOf(IssueTo(x, x.a), x.issueA, L.Settled)]
    ensures var t := P.RunFrom(s, IssueAlone(x, 1, x.b, x.issueB));
            && P.AllDone(t) && |t.clients| == 2 && t.clients[0].id == x.issueA && t.clients[1].id == x.issueB
            && t.store.wallets
               == map[x.a.wallet := FreeRow(x.amount), x.b.wallet := FreeRow(x.amount), x.wallet := FreeRow(0)]
            && t.store.txns == [L.TxnOf(IssueTo(x, x.a), x.issueA, L.Settled),
                                L.TxnOf(IssueTo(x, x.b), x.issueB, L.Settled)]
  {
    R.TxnKeepsId(IssueTo(x, x.a), x.issueA, L.Settled);
    hide R.Inv, P.RunFrom, IssueAlone, L.TxnOf, IssueTo, P.AllDone;
    Issued(s, x, x.b, x.issueB);
    var t := P.RunFrom(s, IssueAlone(x, 1, x.b, x.issueB));
    assert t.clients[0] == t.clients[..1][0];
  }

  /** Two wallets hold the amount, and every call has returned. */
  lemma Funded(x: Cast)
    requires Sensible(x)
    ensures var s := P.RunFrom(M.INIT, Funding(x));
            && P.AllDone(s) && |s.clients| == 2 && s.clients[0].id == x.issueA && s.clients[1].id == x.issueB
            && s.store.wallets
               == map[x.a.wallet := FreeRow(x.amount), x.b.wallet := FreeRow(x.amount), x.wallet := FreeRow(0)]
            && s.store.txns == [L.TxnOf(IssueTo(x, x.a), x.issueA, L.Settled),
                                L.TxnOf(IssueTo(x, x.b), x.issueB, L.Settled)]
  {
    hide R.Inv, P.RunFrom, P.AllDone, IssueAlone, Opens, Sensible, FreeRow, L.TxnOf, IssueTo;
    var s0, toA, toB := P.RunFrom(M.INIT, Opens(x)), IssueAlone(x, 0, x.a, x.issueA), IssueAlone(x, 1, x.b, x.issueB);
    assert Funding(x) == Opens(x) + (toA + toB);
    Opened(x);
    FirstIssued(s0, x);
    SecondIssued(P.RunFrom(s0, toA), x);
    LedgerJoins(M.INIT, Opens(x), toA + toB);
    LedgerJoins(s0, toA, toB);
  }

  lemma {:induction false} LedgerJoins(s: M.Sys, a: seq<M.Action>, b: seq<M.Action>)
    ensures P.RunFrom(s, a + b) == P.RunFrom(P.RunFrom(s, a), b)
    decreases |a|
  {
    hide M.Step;
    if a == [] {
      assert a + b == b;
    } else {
      assert (a + b)[0] == a[0] && (a + b)[1..] == a[1..] + b;
      LedgerJoins(M.Step(s, a[0]), a[1..], b);
    }
  }

  /** A new transfer from a wallet that holds the amount and never paid goes through. */
  lemma PaymentGoesThrough(db: L.Store, scan: Scan, a: Payer)
    requires 0 < scan.uri.amount <= L.ISSUANCE_CAP && scan.uri.reference == "" && |a.key| <= 128
    requires a.wallet != scan.wallet && a.wallet in db.wallets && db.wallets[a.wallet] == FreeRow(scan.uri.amount)
    requires scan.wallet in db.wallets && !db.wallets[scan.wallet].frozen && !db.wallets[scan.wallet].deleted
    requires db.wallets[scan.wallet].balance <= L.ISSUANCE_CAP
    requires forall k :: 0 <= k < |db.txns| ==> db.txns[k].id != a.txn && db.txns[k].sender != Some(a.wallet)
    ensures GoesThrough(db, PayOp(scan, a), a.txn)
    ensures var after := L.Perform(db, PayOp(scan, a), a.txn).value;
            && after.txns == db.txns + [L.TxnOf(PayOp(scan, a), a.txn, L.Settled)]
            && after.wallets == db.wallets[a.wallet := FreeRow(0)]
                                          [scan.wallet := L.Pay(db.wallets[scan.wallet], scan.uri.amount)]
  {
    assert A.Recorded(db, PayOp(scan, a)).None?;
    hide A.Recorded;
  }

  lemma PayOpNames(scan: Scan, a: Payer)
    ensures var t := L.TxnOf(PayOp(scan, a), a.txn, L.Settled); t.id == a.txn && t.sender == Some(a.wallet)
  {
  }

  lemma BothFunded(x: Cast, scan: Scan)
    requires Sensible(x) && scan.wallet == x.wallet && scan.uri.amount == x.amount && scan.uri.reference == ""
    ensures BothGoThrough(P.RunFrom(M.INIT, Funding(x)).store, scan, x.a, x.b)
  {
    Funded(x);
    hide P.RunFrom, Funding, PayOp, L.Perform, IssueTo;
    var db := P.RunFrom(M.INIT, Funding(x)).store;
    IssueNames(x, x.a, x.issueA);
    IssueNames(x, x.b, x.issueB);
    PaymentGoesThrough(db, scan, x.a);
    hide L.TxnOf, GoesThrough;
    SecondGoesThrough(db, x, scan, L.Perform(db, PayOp(scan, x.a), x.a.txn).value);
  }

  lemma IssueNames(x: Cast, a: Payer, id: Uuid)
    ensures var t := L.TxnOf(IssueTo(x, a), id, L.Settled); t.id == id && t.sender == None
  {
  }

  /** The first payment leaves the second payer's wallet alone. */
  lemma SecondGoesThrough(db: L.Store, x: Cast, scan: Scan, after: L.Store)
    requires Sensible(x) && scan.wallet == x.wallet && scan.uri.amount == x.amount && scan.uri.reference == ""
    requires x.b.wallet in db.wallets && db.wallets[x.b.wallet] == FreeRow(x.amount)
    requires x.wallet in db.wallets && db.wallets[x.wallet] == FreeRow(0)
    requires forall k :: 0 <= k < |db.txns| ==> db.txns[k].id != x.b.txn && db.txns[k].sender != Some(x.b.wallet)
    requires after.txns == db.txns + [L.TxnOf(PayOp(scan, x.a), x.a.txn, L.Settled)]
    requires after.wallets == db.wallets[x.a.wallet := FreeRow(0)][x.wallet := L.Pay(db.wallets[x.wallet], x.amount)]
    ensures GoesThrough(after, PayOp(scan, x.b), x.b.txn)
  {
    PayOpNames(scan, x.a);
    hide GoesThrough, PayOp, L.TxnOf, L.Perform;
    PaymentGoesThrough(after, scan, x.b);
  }

  // ---- the merchant's offer

  /** The wallets are funded, the merchant registers and asks for the amount, for a quarter of an hour. */
  function Setup(x: Cast): seq<Action> {
    InLedger(Funding(x)) + Offer(x)
  }

  function Offer(x: Cast): seq<Action> {
    [Register(x.merchant, x.user), GiveWallet(x.user, x.wallet), Create(x.request, x.merchant, x.amount, "", "", 900)]
  }

  function Asked(x: Cast, secret: Secret): Request {
    NewRequest(secret.mac, secret.key, x.request, x.merchant, x.amount, "", "", 900, 0)
  }

  lemma NewIsStorable(x: Cast, secret: Secret)
    requires Sensible(x)
    ensures Storable([], {x.merchant}, Asked(x, secret)) && Asked(x, secret).expiresAt == 900 * Q.NANOS
  {
    hide Q.BuildURI;
  }

  lemma MerchantJoins(s: Shop, x: Cast, secret: Secret)
    requires s == INIT.(ledger := s.ledger)
    ensures var s1 := s.(merchants := map[x.merchant := Merchant(x.user, true)]);
            Step(s, Offer(x)[0], secret) == s1
            && Step(s1, Offer(x)[1], secret) == s1.(walletOf := map[x.user := x.wallet])
  {
    hide NewRequest, Storable;
  }

  lemma MerchantAsks(s: Shop, x: Cast, secret: Secret)
    requires Sensible(x) && s.merchants == map[x.merchant := Merchant(x.user, true)] && s.rows == [] && s.now == 0
    ensures Step(s, Offer(x)[2], secret) == s.(rows := [Asked(x, secret)])
  {
    hide Step, NewRequest, Storable;
    NewIsStorable(x, secret);
    assert s.merchants.Keys == {x.merchant};
    CreateIs(s, x, secret);
  }

  lemma CreateIs(s: Shop, x: Cast, secret: Secret)
    requires x.merchant in s.merchants && s.merchants[x.merchant].active && s.now == 0 && s.rows == []
    requires Storable([], s.merchants.Keys, Asked(x, secret))
    ensures Step(s, Offer(x)[2], secret) == s.(rows := [Asked(x, secret)])
  {
    hide NewRequest, Storable;
  }

  lemma OfferIs(s: Shop, x: Cast, secret: Secret)
    requires Sensible(x) && s == INIT.(ledger := s.ledger)
    ensures RunFrom(s, Offer(x), secret)
            == s.(merchants := map[x.merchant := Merchant(x.user, true)], walletOf := map[x.user := x.wallet],
                  rows := [Asked(x, secret)])
  {
    hide Step, RunFrom, Asked, Sensible;
    var s1 := s.(merchants := map[x.merchant := Merchant(x.user, true)]);
    var s2 := s1.(walletOf := map[x.user := x.wallet]);
    MerchantJoins(s, x, secret);
    MerchantAsks(s2, x, secret);
    assert Offer(x) == [Offer(x)[0]] + ([Offer(x)[1]] + [Offer(x)[2]]);
    RunFromFirst(s, Offer(x)[0], [Offer(x)[1]] + [Offer(x)[2]], secret);
    RunFromFirst(s1, Offer(x)[1], [Offer(x)[2]], secret);
    RunOne(s2, Offer(x)[2], secret);
  }

  lemma SetUp(x: Cast, secret: Secret)
    requires Sensible(x)
    ensures Run(Setup(x), secret)
            == INIT.(ledger := P.RunFrom(M.INIT, Funding(x)), merchants := map[x.merchant := Merchant(x.user, true)],
                     walletOf := map[x.user := x.wallet], rows := [Asked(x, secret)])
  {
    var steps := InLedger(Funding(x));
    assert Setup(x) == steps + Offer(x) && [] + Setup(x) == Setup(x) && Run([], secret) == INIT;
    hide *;
    RunsOn([], Setup(x), secret);
    RunFromJoins(INIT, steps, Offer(x), secret);
    LedgerRunsInside(INIT, Funding(x), secret);
    OfferIs(INIT.(ledger := P.RunFrom(M.INIT, Funding(x))), x, secret);
  }

  lemma RequestIsOpen(s: Shop, x: Cast, secret: Secret)
    requires Sensible(x) && s == Run(Setup(x), secret)
    ensures Open(s, 0) && s.now == 0 && NotTheMerchant(s, 0, x.a) && NotTheMerchant(s, 0, x.b)
    ensures ScanOf(s, s.rows[0], secret) == Scan(UriOf(Asked(x, secret), secret), x.wallet)
  {
    SetUp(x, secret);
    AskedIs(x, secret);
    hide *;
    OnlyRowIsOpen(s, x, Asked(x, secret), secret);
  }

  lemma OnlyRowIsOpen(s: Shop, x: Cast, r: Request, secret: Secret)
    requires Sensible(x) && r.merchant == x.merchant && r.status == Pending && r.expiresAt == 900 * Q.NANOS
    requires s.merchants == map[x.merchant := Merchant(x.user, true)] && s.walletOf == map[x.user := x.wallet]
    requires s.rows == [r] && s.now == 0
    ensures Open(s, 0) && NotTheMerchant(s, 0, x.a) && NotTheMerchant(s, 0, x.b)
    ensures ScanOf(s, s.rows[0], secret) == Scan(UriOf(r, secret), x.wallet)
  {
    hide UriOf;
    FoundAlone(r);
    hide List, Match;
  }

  lemma FoundAlone(r: Request)
    requires r.status == Pending
    ensures Match(List([r], r.merchant, Some(Pending), 100), r.qrPayload) == Some(r)
  {
    assert List([r], r.merchant, Some(Pending), 100) == [r] + List([], r.merchant, Some(Pending), 99);
    assert Match([r], r.qrPayload) == Some(r);
  }

  lemma AskedIs(x: Cast, secret: Secret)
    ensures var r := Asked(x, secret); r.merchant == x.merchant && r.status == Pending && r.expiresAt == 900 * Q.NANOS
  {
    hide Q.BuildURI;
  }

  /** Such a run from the empty system: whoever the merchant and the two payers are, both pay for one request. */
  lemma {:induction false} DoublePaymentHappens(x: Cast, secret: Secret)
    requires Sensible(x)
    ensures var r := Asked(x, secret);
            PaidTwice(Run(Setup(x) + TwoPayers(0, 2, r.qrPayload, x.a, x.b), secret), [r], 0, x.a, x.b, 0)
  {
    var s := Run(Setup(x), secret);
    SetUp(x, secret);
    RequestIsOpen(s, x, secret);
    Funded(x);
    AskedNames(x, secret);
    BothFunded(x, ScanOf(s, s.rows[0], secret));
    PayersAreNew(s.ledger, x);
    hide *;
    DoublePayment(Setup(x), 0, x.a, x.b, secret);
  }

  lemma AskedNames(x: Cast, secret: Secret)
    ensures var uri := UriOf(Asked(x, secret), secret); uri.amount == x.amount && uri.reference == ""
  {
    hide Q.BuildURI;
  }

  lemma PayersAreNew(s: M.Sys, x: Cast)
    requires Sensible(x) && |s.clients| == 2 && s.clients[0].id == x.issueA && s.clients[1].id == x.issueB
    ensures M.FreshId(s, x.a.txn) && M.FreshId(s, x.b.txn) && x.a.txn != x.b.txn
  {
  }
}
