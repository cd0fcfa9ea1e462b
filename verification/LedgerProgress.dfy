/**
 No deadlock and termination: because every transfer locks its two rows in the text order of their UUIDs, some
 unfinished call can always make its next repository call, and calls run out.
 */
module LedgerProgress {
  import opened Uuids
  import opened LedgerModel
  import opened LedgerMachine
  import opened LedgerClient
  import opened LedgerRuns

  ghost function WalletsAfter(s: Sys, w: Uuid): set<Uuid> {
    set v | v in s.store.wallets && Before(w, v)
  }

  /** What it means that a lock request waits. */
  lemma WaitsForHolder(s: Sys, i: nat, w: Uuid) returns (j: nat)
    requires Inv(s) && i < |s.clients| && !LockFree(s, i, w)
    ensures Unfinished(s, j) && j != i && w in s.clients[j].tx.held && w in s.store.wallets
  {
    hide ClientInv, OutcomeHolds, Serial;
    j :| 0 <= j < |s.clients| && j != i && w in s.clients[j].tx.held;
    HolderUnfinished(s, j, w);
    HeldExist(s, j);
  }

  lemma HolderUnfinished(s: Sys, j: nat, w: Uuid)
    requires Inv(s) && j < |s.clients| && w in s.clients[j].tx.held
    ensures Unfinished(s, j)
  {
    hide ChecksHold, WritesMatch, OutcomeHolds, Serial;
    assert ClientInv(s.store, s.clients[j]);
  }

  /** A blocked client that holds a row is a transfer waiting for its second, later row. */
  lemma BlockedHolder(s: Sys, j: nat, w: Uuid)
    requires Inv(s) && Unfinished(s, j) && w in s.clients[j].tx.held && Blocked(s, j)
    ensures s.clients[j].pc == LockSecond && Before(w, SecondLock(s.clients[j].op))
    ensures !LockFree(s, j, SecondLock(s.clients[j].op))
  {
    if s.clients[j].pc == Insert {
      InsertNeverWaitsIn(s, j);
    }
    HoldsFirstOnly(s.store, s.clients[j], w);
    hide Inv, Before;
  }

  lemma HoldsFirstOnly(db: Store, c: Client, w: Uuid)
    requires ClientInv(db, c) && w in c.tx.held
    ensures c.pc != LockFirst
    ensures c.pc == LockSecond ==> w == FirstLock(c.op) && Before(w, SecondLock(c.op))
  {
    hide ChecksHold, RowsAt, TxnsAt, EntriesAt, IssuancesAt;
    if c.pc == LockSecond {
      LockOrderIsSymmetric(c.op.t.sender, c.op.t.receiver);
    }
    hide Before;
  }

  lemma NotBlockedMoves(s: Sys, i: nat)
    requires Inv(s) && Unfinished(s, i) && !Blocked(s, i)
    ensures Enabled(s, Call(i))
  {
    hide ChecksHold, WritesMatch, OutcomeHolds, Serial, Blocked;
    assert ClientInv(s.store, s.clients[i]);
  }

  lemma FewerAfter(s: Sys, w: Uuid, v: Uuid)
    requires Before(w, v) && v in s.store.wallets
    ensures WalletsAfter(s, v) < WalletsAfter(s, w)
  {
    LockOrderIsStrictTotal(v, v, v);
    forall u | u in WalletsAfter(s, v)
      ensures u in WalletsAfter(s, w)
    {
      LockOrderIsStrictTotal(w, v, u);
    }
    hide Before;
    assert v in WalletsAfter(s, w) && v !in WalletsAfter(s, v);
  }

  /** Follow the waits: each goes to a row later in the lock order, so the chase ends at a client that can move. */
  lemma {:induction false} Chase(s: Sys, i: nat, w: Uuid) returns (j: nat)
    requires Inv(s) && Unfinished(s, i) && w in s.clients[i].tx.held
    ensures Enabled(s, Call(j))
    decreases WalletsAfter(s, w)
  {
    hide Inv, Blocked, Before;
    if Blocked(s, i) {
      BlockedHolder(s, i, w);
      var v := SecondLock(s.clients[i].op);
      var k := WaitsForHolder(s, i, v);
      FewerAfter(s, w, v);
      j := Chase(s, k, v);
    } else {
      NotBlockedMoves(s, i);
      j := i;
    }
  }

  lemma SomebodyMoves(s: Sys, i: nat) returns (j: nat)
    requires Inv(s) && Unfinished(s, i)
    ensures Enabled(s, Call(j))
  {
    hide Inv, FirstLock, SecondLock;
    if !Blocked(s, i) {
      NotBlockedMoves(s, i);
      return i;
    }
    if s.clients[i].pc == Insert {
      InsertNeverWaitsIn(s, i);
      assert false;
    }
    var w := if s.clients[i].pc == LockFirst then FirstLock(s.clients[i].op) else SecondLock(s.clients[i].op);
    var k := WaitsForHolder(s, i, w);
    j := Chase(s, k, w);
  }

  /** No deadlock: in every reachable state with an unfinished call, some call can make its next step
      without any failure. */
  lemma {:induction false} NoDeadlock(trace: seq<Action>, i: nat)
    requires Unfinished(Run(trace), i)
    ensures exists j :: Enabled(Run(trace), Call(j))
  {
    RunKeepsInv(trace);
    hide Run, Enabled;
    var j := SomebodyMoves(Run(trace), i);
  }

  // ---- termination

  /** The steps every call may still take. */
  function Remaining(clients: seq<Client>): nat {
    if clients == [] then 0 else Remaining(clients[..|clients| - 1]) + (14 - Rank(clients[|clients| - 1].pc))
  }

  lemma {:induction false} RemainingUpdate(clients: seq<Client>, i: nat, d: Client)
    requires i < |clients|
    ensures Remaining(clients[i := d]) == Remaining(clients) + Rank(clients[i].pc) - Rank(d.pc)
  {
    var n := |clients| - 1;
    if i < n {
      RemainingUpdate(clients[..n], i, d);
      assert clients[i := d][..n] == clients[..n][i := d];
    } else {
      assert clients[i := d][..n] == clients[..n];
    }
  }

  lemma AdvanceRanks(db: Store, c: Client)
    requires ProperPC(c) && c.pc != CommitTx && c.pc != Done
    ensures Rank(Advance(db, c).pc) > Rank(c.pc)
  {
    hide GetWalletForUpdate, CreateTransaction, UpdateWalletBalance, CreateLedgerEntry, SettleTransaction;
    hide InsertIssuanceRecord, OrderedLockIDs, TxnOf;
  }

  predicate ByClient(a: Action) { a.Call? || a.Fail? || a.LoseCommitReply? }

  /** Every step of a call, failed or not, uses up at least one remaining step; others' steps use none. */
  lemma StepUsesUp(s: Sys, a: Action)
    requires !a.Start?
    ensures Remaining(Step(s, a).clients) <= Remaining(s.clients)
    ensures ByClient(a) && Enabled(s, a) ==> Remaining(Step(s, a).clients) < Remaining(s.clients)
  {
    hide Blocked, Advance, Commit;
    if ByClient(a) && Enabled(s, a) {
      var c := s.clients[a.client];
      if a.Call? && c.pc != CommitTx {
        AdvanceRanks(s.store, c);
      }
      RemainingUpdate(s.clients, a.client, Step(s, a).clients[a.client]);
    }
  }

  function RunFrom(s: Sys, actions: seq<Action>): Sys
    decreases |actions|
  {
    if actions == [] then s else RunFrom(Step(s, actions[0]), actions[1..])
  }

  /** How many of the actions are steps that some call really takes. */
  function StepsTaken(s: Sys, actions: seq<Action>): nat
    decreases |actions|
  {
    if actions == [] then 0
    else
      (if ByClient(actions[0]) && Enabled(s, actions[0]) then 1 else 0)
      + StepsTaken(Step(s, actions[0]), actions[1..])
  }

  /** Termination: with no new calls, no run from s has more than Remaining(s) steps in it, whatever the
      interleaving and whatever fails. */
  lemma {:induction false} CallsRunOut(s: Sys, actions: seq<Action>)
    requires forall k :: 0 <= k < |actions| ==> !actions[k].Start?
    ensures StepsTaken(s, actions) + Remaining(RunFrom(s, actions).clients) <= Remaining(s.clients)
    decreases |actions|
  {
    if actions != [] {
      StepUsesUp(s, actions[0]);
      hide Enabled, Step;
      CallsRunOut(Step(s, actions[0]), actions[1..]);
    }
  }

  ghost predicate AllDone(s: Sys) {
    forall i :: 0 <= i < |s.clients| ==> s.clients[i].pc == Done
  }

  /** And from every state that keeps the invariant, error-free steps alone can finish every call. */
  lemma {:induction false} CanFinish(s: Sys) returns (actions: seq<Action>)
    requires Inv(s)
    ensures forall k :: 0 <= k < |actions| ==> actions[k].Call?
    ensures AllDone(RunFrom(s, actions))
    decreases Remaining(s.clients)
  {
    hide Inv, Enabled, Step;
    if AllDone(s) {
      return [];
    }
    var i :| 0 <= i < |s.clients| && s.clients[i].pc != Done;
    var j := SomebodyMoves(s, i);
    StepKeepsInv(s, Call(j));
    StepUsesUp(s, Call(j));
    var rest := CanFinish(Step(s, Call(j)));
    actions := [Call(j)] + rest;
    assert actions[0] == Call(j) && actions[1..] == rest;
  }

  /** Every reachable state can be run to completion, all calls finished. */
  lemma {:induction false} EveryRunCanFinish(trace: seq<Action>)
    ensures exists actions: seq<Action> ::
              (forall k :: 0 <= k < |actions| ==> actions[k].Call?) && AllDone(RunFrom(Run(trace), actions))
  {
    RunKeepsInv(trace);
    hide Run, Step;
    var actions := CanFinish(Run(trace));
  }
}
