/**
 Lock waits never form a cycle, and a pool of any size at least one is enough: in every reachable state with
 work left, some call or the database can move.
 */
module Deadlock {
  import opened Payments
  import opened Protocol
  import opened ProtocolInvariant
  import opened ProtocolRuns

  /** A database session: a call's transaction, or the single autocommitted statement it has outside one. */
  datatype Session = TxnOf(id: nat) | StatementOf(id: nat)

  predicate WaitsOnPayment(s: State, id: nat) {
    && id in s.callers && s.callers[id].txn == Open
    && (s.callers[id].phase.InsertingPayment?
        || (s.callers[id].phase.LockingPayment? && s.callers[id].resourceId in s.payments))
  }

  predicate WaitsOnRecord(s: State, w: Session) {
    && w.id in s.callers
    && match w
       case TxnOf(id) => s.callers[id].phase.Completing? && s.callers[id].txn == Open
       case StatementOf(id) =>
         s.callers[id].phase.Reactivating? || s.callers[id].phase.TakingOver? || s.callers[id].phase.Closing?
  }

  /** Session `w` waits for a lock that session `h` holds. A call can even wait for its own unresolved transaction. */
  predicate WaitsFor(s: State, w: Session, h: Session) {
    && w.id in s.callers && h.TxnOf? && h.id in s.callers && w != h
    && (|| (w.TxnOf? && WaitsOnPayment(s, w.id) && s.callers[h.id].paymentLock
            && s.callers[h.id].resourceId == s.callers[w.id].resourceId)
        || (WaitsOnRecord(s, w) && s.callers[h.id].recordLock
            && KeyOf(s.callers[h.id].cmd) == KeyOf(s.callers[w.id].cmd)))
  }

  /** The lock order: statements before transactions, payment rows before idempotency rows. */
  function Rank(s: State, w: Session): nat {
    if w.StatementOf? then 3
    else if w.id !in s.callers || !s.callers[w.id].paymentLock then 2
    else if !s.callers[w.id].recordLock then 1
    else 0
  }

  lemma WaitingDescends(s: State, w: Session, h: Session)
    requires CallersOk(s) && WaitsFor(s, w, h)
    ensures Rank(s, h) < Rank(s, w)
  {
    assert CallerOk(s, s.callers[w.id]) && CallerOk(s, s.callers[h.id]);
  }

  predicate Behind(s: State, path: seq<Session>, i: int)
    requires 0 <= i < |path| - 1
  {
    WaitsFor(s, path[i], path[i + 1])
  }

  predicate IsWaitPath(s: State, path: seq<Session>) {
    forall i :: 0 <= i < |path| - 1 ==> Behind(s, path, i)
  }

  lemma BehindDescends(s: State, path: seq<Session>, i: nat)
    requires CallersOk(s) && i < |path| - 1 && Behind(s, path, i)
    ensures Rank(s, path[i + 1]) < Rank(s, path[i])
  {
    WaitingDescends(s, path[i], path[i + 1]);
  }

  /** A sequence of ranks that falls at every place. */
  lemma {:induction false} Falls(ranks: seq<nat>, n: nat)
    requires n < |ranks| && forall i :: 0 <= i < |ranks| - 1 ==> ranks[i + 1] < ranks[i]
    ensures ranks[n] + n <= ranks[0]
  {
    if n > 0 { Falls(ranks, n - 1); }
  }

  lemma PathDescends(s: State, path: seq<Session>)
    requires CallersOk(s) && IsWaitPath(s, path) && path != []
    ensures Rank(s, path[|path| - 1]) + |path| - 1 <= Rank(s, path[0])
  {
    var ranks := seq(|path|, i requires 0 <= i < |path| => Rank(s, path[i]));
    forall i | 0 <= i < |path| - 1 ensures ranks[i + 1] < ranks[i] { BehindDescends(s, path, i); }
    Falls(ranks, |path| - 1);
  }

  /** The wait-for graph is acyclic, and a chain of waits has at most four sessions. */
  lemma NoWaitCycle(s: State, path: seq<Session>)
    requires Reachable(s) && IsWaitPath(s, path) && |path| >= 2
    ensures path[0] != path[|path| - 1]
    ensures |path| <= 4
  {
    ReachableInv(s);
    PathDescends(s, path);
  }

  // ----- connections -----

  /** The call's process is inside `transactionManager.run`. */
  predicate InsideTransaction(c: Caller) {
    InTransaction(c.phase) || c.phase.AwaitingCommit?
  }

  /** The call's autocommitted statement is blocked on a row that a transaction has locked. */
  ghost predicate Blocked(s: State, id: nat) {
    id in s.callers && WaitsOnRecord(s, StatementOf(id)) && !RecordFree(s, KeyOf(s.callers[id].cmd))
  }

  /** Who has a pooled connection checked out while others move: transactions, and blocked statements. */
  ghost predicate HoldsConnection(s: State, id: nat) {
    id in s.callers && (InsideTransaction(s.callers[id]) || Blocked(s, id))
  }

  /** The step checks a connection out of the pool. */
  predicate NeedsConnection(step: Step) {
    step.Lookup? || step.TryInsert? || step.Reactivate? || step.Takeover? || step.Begin? || step.CloseFailed?
  }

  ghost function Holders(s: State): set<nat> {
    set id | id in s.callers && HoldsConnection(s, id)
  }

  /** The step can be taken with a pool of `n` connections. */
  ghost predicate EnabledWith(s: State, step: Step, n: nat) {
    Enabled(s, step) && (NeedsConnection(step) ==> |Holders(s)| < n)
  }

  predicate Unfinished(c: Caller) {
    !c.phase.Done? && !c.phase.Crashed?
  }

  /** Steps that are work, or the database resolving a transaction no process is attending to any more. */
  predicate Productive(s: State, step: Step) {
    match step
    case Tick(_) => false
    case Arrive(_, _) => false
    case TryInsert(_, _, lost) => !lost
    case Reactivate(_, _, lost) => !lost
    case Takeover(_, _, _, lost) => !lost
    case CloseFailed(_, lost) => !lost
    case AcquireFails(_) => false
    case AuthorizeThrows(_) => false
    case BeginFails(_) => false
    case CaptureThrows(_) => false
    case Crash(_) => false
    case StatementFails(id) => id in s.callers && s.callers[id].txn == Aborted
    case DbAbort(id) => id in s.callers && s.callers[id].phase.Crashed?
    case CommitFails(id) => id in s.callers && s.callers[id].txn == Aborted
    case _ => true
  }

  /** A transaction holding an idempotency row waits for nothing. */
  lemma RecordHolderMoves(s: State, id: nat, n: nat) returns (step: Step)
    requires id in s.callers && CallerOk(s, s.callers[id]) && s.callers[id].recordLock
    ensures EnabledWith(s, step, n) && Productive(s, step)
  {
    var c := s.callers[id];
    step := if c.txn == Committing then DbCommit(id)
            else if c.phase.Crashed? then DbAbort(id)
            else SendCommit(id);
  }

  /** A transaction holding a payment row can move, or the holder of the idempotency row it waits for can. */
  lemma PaymentHolderMoves(s: State, id: nat, n: nat) returns (step: Step)
    requires CallersOk(s)
    requires id in s.callers && s.callers[id].paymentLock
    ensures EnabledWith(s, step, n) && Productive(s, step)
  {
    var c := s.callers[id];
    assert CallerOk(s, c);
    if c.recordLock {
      step := RecordHolderMoves(s, id, n);
    } else if c.phase.Crashed? {
      step := DbAbort(id);
    } else if c.phase.Completing? {
      step := RecordWaiterMoves(s, id, n);
    } else {
      step := LockedWorkMoves(s, id, n);
    }
  }

  lemma LockedWorkMoves(s: State, id: nat, n: nat) returns (step: Step)
    requires id in s.callers && ControlOk(s.callers[id])
    requires s.callers[id].paymentLock && !s.callers[id].recordLock
    requires !s.callers[id].phase.Crashed? && !s.callers[id].phase.Completing?
    ensures EnabledWith(s, step, n) && Productive(s, step)
  {
    var c := s.callers[id];
    step := if c.phase.Checking? then CallCapture(id, true)
            else if c.phase.InCapture? then CaptureReturns(id, CaptureSuccess, 0)
            else if c.phase.UpdatingPayment? then UpdatePayment(id)
            else RecordOutbox(id, 0);
  }

  lemma RecordWaiterMoves(s: State, id: nat, n: nat) returns (step: Step)
    requires CallersOk(s)
    requires id in s.callers && s.callers[id].phase.Completing? && s.callers[id].txn == Open
    ensures EnabledWith(s, step, n) && Productive(s, step)
  {
    var c := s.callers[id];
    assert CallerOk(s, c);
    if RecordFree(s, KeyOf(c.cmd)) {
      step := Complete(id);
    } else {
      var d :| d in s.callers && s.callers[d].recordLock && KeyOf(s.callers[d].cmd) == KeyOf(c.cmd);
      assert CallerOk(s, s.callers[d]);
      step := RecordHolderMoves(s, d, n);
    }
  }

  /** Whoever blocks a statement holds an idempotency row, and can move without a connection. */
  lemma BlockerMoves(s: State, id: nat, n: nat) returns (step: Step)
    requires CallersOk(s) && Blocked(s, id)
    ensures EnabledWith(s, step, n) && Productive(s, step)
  {
    var d :| d in s.callers && s.callers[d].recordLock && KeyOf(s.callers[d].cmd) == KeyOf(s.callers[id].cmd);
    assert CallerOk(s, s.callers[d]);
    step := RecordHolderMoves(s, d, n);
  }

  /** A call with a connection checked out, or whoever it waits for, can move. */
  lemma HolderMoves(s: State, id: nat, n: nat) returns (step: Step)
    requires CallersOk(s) && HoldsConnection(s, id)
    ensures EnabledWith(s, step, n) && Productive(s, step)
  {
    if Blocked(s, id) {
      step := BlockerMoves(s, id, n);
    } else {
      step := TransactionMoves(s, id, n);
    }
  }

  lemma TransactionMoves(s: State, id: nat, n: nat) returns (step: Step)
    requires CallersOk(s)
    requires id in s.callers && InsideTransaction(s.callers[id])
    ensures EnabledWith(s, step, n) && Productive(s, step)
  {
    var c := s.callers[id];
    assert CallerOk(s, c);
    if c.paymentLock {
      step := PaymentHolderMoves(s, id, n);
    } else if c.phase.AwaitingCommit? {
      step := if c.txn == Committed then CommitAcknowledged(id) else CommitFails(id);
    } else if c.txn == Open {
      step := PaymentWaiterMoves(s, id, n);
    } else {
      step := DeadTransactionMoves(s, id, n);
    }
  }

  lemma PaymentWaiterMoves(s: State, id: nat, n: nat) returns (step: Step)
    requires CallersOk(s)
    requires id in s.callers && s.callers[id].txn == Open && InTransaction(s.callers[id].phase)
    requires !s.callers[id].paymentLock
    ensures EnabledWith(s, step, n) && Productive(s, step)
  {
    var c := s.callers[id];
    assert CallerOk(s, c);
    if PaymentFree(s, id, c.resourceId) {
      step := if c.phase.InsertingPayment? then InsertPayment(id, 0) else LockPayment(id);
    } else {
      var d :| d in s.callers && d != id && s.callers[d].paymentLock && s.callers[d].resourceId == c.resourceId;
      step := PaymentHolderMoves(s, d, n);
    }
  }

  /** A process whose transaction is gone still runs into its next statement. */
  lemma DeadTransactionMoves(s: State, id: nat, n: nat) returns (step: Step)
    requires id in s.callers && ControlOk(s.callers[id])
    requires InTransaction(s.callers[id].phase) && s.callers[id].txn == Aborted
    ensures EnabledWith(s, step, n) && Productive(s, step)
  {
    var c := s.callers[id];
    step := if c.phase.Checking? then CallCapture(id, true)
            else if c.phase.InCapture? then CaptureReturns(id, CaptureSuccess, 0)
            else StatementFails(id);
  }

  lemma ReactivatingMoves(s: State, id: nat, n: nat) returns (step: Step)
    requires |Holders(s)| < n && In(s, id, Reactivating) && RecordFree(s, KeyOf(s.callers[id].cmd))
    ensures EnabledWith(s, step, n) && Productive(s, step)
  {
    step := Reactivate(id, 0, false);
  }

  lemma TakingOverMoves(s: State, id: nat, n: nat) returns (step: Step)
    requires |Holders(s)| < n && In(s, id, TakingOver) && RecordFree(s, KeyOf(s.callers[id].cmd))
    ensures EnabledWith(s, step, n) && Productive(s, step)
  {
    step := Takeover(id, 0, s.now, false);
  }

  lemma ClosingMoves(s: State, id: nat, n: nat) returns (step: Step)
    requires |Holders(s)| < n && id in s.callers && ControlOk(s.callers[id])
    requires s.callers[id].phase.Closing? && RecordFree(s, KeyOf(s.callers[id].cmd))
    ensures EnabledWith(s, step, n) && Productive(s, step)
  {
    step := CloseFailed(id, false);
  }

  /** With a connection to be had, a call that holds none can move. */
  lemma OutsiderMoves(s: State, id: nat, n: nat) returns (step: Step)
    requires |Holders(s)| < n
    requires id in s.callers && ControlOk(s.callers[id]) && Unfinished(s.callers[id]) && !HoldsConnection(s, id)
    ensures EnabledWith(s, step, n) && Productive(s, step)
  {
    var phase := s.callers[id].phase;
    if phase.Reactivating? {
      step := ReactivatingMoves(s, id, n);
    } else if phase.TakingOver? {
      step := TakingOverMoves(s, id, n);
    } else if phase.Closing? {
      step := ClosingMoves(s, id, n);
    } else {
      step := FreeCallMoves(s, id, n);
    }
  }

  lemma FreeCallMoves(s: State, id: nat, n: nat) returns (step: Step)
    requires |Holders(s)| < n
    requires id in s.callers && ControlOk(s.callers[id])
    requires Unfinished(s.callers[id]) && !InsideTransaction(s.callers[id])
    requires !s.callers[id].phase.Reactivating? && !s.callers[id].phase.TakingOver? && !s.callers[id].phase.Closing?
    ensures EnabledWith(s, step, n) && Productive(s, step)
  {
    var c := s.callers[id];
    step := if c.phase.FirstLookup? || c.phase.SecondLookup? then Lookup(id, 0)
            else if c.phase.Inserting? then TryInsert(id, 0, false)
            else if c.phase.ReadyToAuthorize? then CallAuthorize(id)
            else if c.phase.InAuthorize? then AuthorizeReturns(id, AuthorizeSuccess("", ""), 0)
            else Begin(id);
  }

  /** Who asks for a connection holds none. */
  lemma AskersHoldNone(s: State, step: Step)
    requires Enabled(s, step) && NeedsConnection(step)
    ensures step.id in s.callers && !HoldsConnection(s, step.id)
  {
  }

  /**
   Progress: while a call is unfinished, some productive step is possible with a pool of any size n >= 1. A full
   pool is full of transactions and of statements blocked by one, and among transactions some one waits for nothing.
   No call ever asks for a connection while it holds one.
   */
  lemma Progress(s: State, id: nat, n: nat) returns (step: Step)
    requires Reachable(s) && n >= 1
    requires id in s.callers && Unfinished(s.callers[id])
    ensures EnabledWith(s, step, n) && Productive(s, step)
    ensures forall other :: Enabled(s, other) && NeedsConnection(other) ==> !HoldsConnection(s, other.id)
  {
    ReachableInv(s);
    if exists h :: h in Holders(s) {
      var h :| h in Holders(s);
      step := HolderMoves(s, h, n);
    } else {
      assert HoldsConnection(s, id) ==> id in Holders(s);
      assert Holders(s) == {} && CallerOk(s, s.callers[id]);
      step := OutsiderMoves(s, id, n);
    }
    forall other | Enabled(s, other) && NeedsConnection(other) ensures !HoldsConnection(s, other.id) {
      AskersHoldNone(s, other);
    }
  }
}
