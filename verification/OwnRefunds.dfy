/**
 Bling's own refunds. A captured payment whose call finished without going live
 is owed back in full; Bling requests that refund itself unless some refund of
 the payment was on record first, however little it returned.
 */
module OwnRefunds {
  import opened Common
  import opened Tables
  import opened Steps
  import opened Invariants
  import opened Preservation
  import opened QueuePreservation
  import opened RefundPreservation
  import opened Runs
  import opened Settlement
  import opened Timers
  import opened RefundWorker
  import L = Ledger

  // ------------------------------------------------------------ what is owed and what is returned

  /** The payment was captured and its call finished without going live. */
  ghost predicate Owed(db: Db, a: AttemptId) {
    && a in db.attempts && db.attempts[a].status == PayCaptured
    && (exists c :: c in db.calls && db.calls[c].attempt == Some(a) && Finished(db.calls[c].status) && db.calls[c].startedAt.None?)
  }

  /** A refund Bling requested for payment `a`, of the whole amount. */
  predicate OwnFull(refund: Refund, a: AttemptId, amountCents: nat) {
    refund.own && refund.attempt == a && refund.amountCents == amountCents
  }

  ghost predicate FullRefundRequested(db: Db, a: AttemptId) {
    a in db.attempts && exists r :: r in db.refunds && OwnFull(db.refunds[r], a, db.attempts[a].amountCents)
  }

  /** Every refund Bling requested is of a captured payment, in full. */
  ghost predicate OwnRowsFull(db: Db) {
    forall r :: r in db.refunds && db.refunds[r].own ==>
      && db.refunds[r].attempt in db.attempts && db.attempts[db.refunds[r].attempt].status == PayCaptured
      && db.refunds[r].amountCents == db.attempts[db.refunds[r].attempt].amountCents
  }

  // ------------------------------------------------------------ the rows a step adds

  /** A refund row of Bling's own is full and the payment's first; another's changes no call and no payment. */
  ghost predicate RowsAdded(db: Db, db': Db) {
    forall r :: r in db'.refunds && r !in db.refunds ==>
      if db'.refunds[r].own then
        && db'.refunds[r].attempt in db'.attempts && db'.attempts[db'.refunds[r].attempt].status == PayCaptured
        && db'.refunds[r].amountCents == db'.attempts[db'.refunds[r].attempt].amountCents
        && db'.refunds[r].attempt !in RefundedAttempts(db.refunds)
      else db'.calls == db.calls && db'.attempts == db.attempts
  }

  lemma RowStepAdds(db: Db, op: Op, db': Db)
    requires RowStep(db, op, db')
    ensures RowsAdded(db, db')
  {
    hide RefundedAttempts, RowStep, OldRow, ClaimedBy;
    if db'.refunds != db.refunds {
      var r := WrittenRow(db, op, db');
      if OldRow(db, op, r, db'.refunds[r]) {
        OldRowMoves(db, op, r, db'.refunds[r]);
      }
    }
  }

  // ------------------------------------------------------------ one step

  /** What stays as it is: calls that are over, captured payments and their amounts, refund rows. */
  ghost predicate Kept(db: Db, db': Db) {
    && StaysOver(db.calls, db'.calls)
    && (exists failed :: AttemptsMove(db.attempts, db'.attempts, failed))
    && (exists claimed :: RefundsMove(db.refunds, db'.refunds, claimed))
    && RowsAdded(db, db')
  }

  lemma NextKept(db: Db, op: Op)
    requires Inv(db)
    ensures Kept(db, Next(db, op))
  {
    hide LinksInv, CouplingInv, MoneyInv, PresenceInv, Step, StaysOver, AttemptsMove, RefundsMove, RowsAdded;
    NextKeeps(db, op);
    IdsKnown(db);
    hide Linked, Next;
    StepSeats(db, op);
    FailuresAreReported(db, op);
    StepWritesOneRow(db, op);
    hide RowStep;
    RowStepMoves(db, op, Step(db, op));
    RowStepAdds(db, op, Step(db, op));
  }

  /** What is owed stays owed, and what Bling requested in full stays requested. */
  lemma OwedStays(db: Db, db': Db, a: AttemptId)
    requires Kept(db, db')
    ensures Owed(db, a) ==> Owed(db', a)
    ensures FullRefundRequested(db, a) ==> FullRefundRequested(db', a)
    ensures a in RefundedAttempts(db.refunds) ==> a in RefundedAttempts(db'.refunds)
  {
    hide RowsAdded;
    if FullRefundRequested(db, a) {
      var r :| r in db.refunds && OwnFull(db.refunds[r], a, db.attempts[a].amountCents);
      assert OwnFull(db'.refunds[r], a, db'.attempts[a].amountCents);
    }
    if Owed(db, a) {
      var c :| c in db.calls && db.calls[c].attempt == Some(a) && Finished(db.calls[c].status) && db.calls[c].startedAt.None?;
      assert db'.calls[c] == db.calls[c];
    }
    if a in RefundedAttempts(db.refunds) {
      var r :| r in db.refunds && db.refunds[r].attempt == a;
      assert r in db'.refunds && db'.refunds[r].attempt == a;
    }
  }

  /** A payment with a refund on record gets no refund of Bling's own any more. */
  lemma NoOwnAfterAnother(db: Db, db': Db, a: AttemptId)
    requires Kept(db, db') && OwnRowsFull(db)
    requires a in RefundedAttempts(db.refunds) && !FullRefundRequested(db, a)
    ensures !FullRefundRequested(db', a)
  {
    hide RefundedAttempts, Owed;
    forall r | r in db'.refunds && db'.refunds[r].own ensures db'.refunds[r].attempt != a {
      if r in db.refunds {
        OwnRowIsFull(db, r);
      }
    }
    hide FullRefundRequested;
    NoRowNotFull(db', a);
  }

  lemma OwnRowIsFull(db: Db, r: RefundId)
    requires OwnRowsFull(db) && r in db.refunds && db.refunds[r].own
    ensures FullRefundRequested(db, db.refunds[r].attempt)
  {
    var a := db.refunds[r].attempt;
    assert OwnFull(db.refunds[r], a, db.attempts[a].amountCents);
  }

  lemma NoRowNotFull(db: Db, a: AttemptId)
    requires forall r :: r in db.refunds && db.refunds[r].own ==> db.refunds[r].attempt != a
    ensures !FullRefundRequested(db, a)
  {
  }

  lemma RowsStayFull(db: Db, db': Db)
    requires Kept(db, db') && OwnRowsFull(db)
    ensures OwnRowsFull(db')
  {
    hide RefundedAttempts;
  }

  /** Bling's own refunds are of calls that finished without going live. */
  lemma OwnMeansOwed(db: Db, a: AttemptId)
    requires MoneyInv(db) && OwnRowsFull(db) && FullRefundRequested(db, a)
    ensures Owed(db, a)
  {
    var r :| r in db.refunds && OwnFull(db.refunds[r], a, db.attempts[a].amountCents);
    hide L.Valid, EarningsFollowCalls, WorkerOk;
    assert db.refunds[r].call in db.calls;
  }

  lemma LateCallFound(db: Db, a: AttemptId)
    requires OneCallPerAttempt(db.calls) && LateSuccess(db, a)
    ensures var c := CallFor(db.calls, a); c.Some? && Finished(db.calls[c.value].status) && IsLive(db.shows, db.calls[c.value].show)
  {
    hide RefundedAttempts;
  }

  lemma LateRecord(db: Db, a: AttemptId)
    requires Linked(db) && OneCallPerAttempt(db.calls) && LateSuccess(db, a)
    ensures a in db.attempts && RecordCaptured(db, a).refunds == db.refunds
  {
    LateCallFound(db, a);
    hide CallFor, RequestRefund, OneCallPerAttempt;
  }

  /** A late success writes the payment and nothing else. */
  lemma LateAddsNothing(db: Db, op: Op)
    requires OneCallPerAttempt(db.calls) && Linked(db) && LateStep(db, op)
    ensures Step(db, op).refunds == db.refunds
  {
    hide RecordCaptured, OneCallPerAttempt;
    var a := SuccessNoticeFor(db, op).value;
    LateRecord(db, a);
    if op.WebhookOp? {
      var noted := db.(events := db.events + {op.event});
      assert LateSuccess(noted, a);
      LateRecord(noted, a);
    }
    hide Linked, LateSuccess;
  }

  /** A payment that becomes owed and has a refund on record now, but had none, has Bling's own. */
  lemma NewlyOwedIsOwn(db: Db, db': Db, a: AttemptId)
    requires Kept(db, db') && !Owed(db, a) && Owed(db', a)
    requires a !in RefundedAttempts(db.refunds) && a in RefundedAttempts(db'.refunds)
    ensures FullRefundRequested(db', a)
  {
    var r :| r in db'.refunds && db'.refunds[r].attempt == a;
    assert forall x :: x in db.refunds ==> db.refunds[x].attempt in RefundedAttempts(db.refunds);
    hide Owed, RefundedAttempts;
    if db'.calls == db.calls && db'.attempts == db.attempts {
      SameOwed(db, db', a);
    }
    assert OwnFull(db'.refunds[r], a, db'.attempts[a].amountCents);
  }

  lemma SameOwed(db: Db, db': Db, a: AttemptId)
    requires db'.calls == db.calls && db'.attempts == db.attempts
    ensures Owed(db', a) <==> Owed(db, a)
  {
  }

  lemma OwedIsSettled(db: Db, a: AttemptId)
    requires Settled(db) && Owed(db, a)
    ensures a in RefundedAttempts(db.refunds)
  {
    hide RefundedAttempts;
    var c :| c in db.calls && db.calls[c].attempt == Some(a) && Finished(db.calls[c].status) && db.calls[c].startedAt.None?;
    assert CallSettled(db.calls[c], db.attempts, RefundedAttempts(db.refunds));
  }

  /**
   The step that makes a payment owed, by finishing its unstarted call or by
   capturing it too late, records Bling's own refund of the whole amount if and
   only if no refund of the payment was on record before, and the step is not a
   late success.
   */
  lemma StepRefundsIff(db: Db, op: Op, a: AttemptId)
    requires Inv(db) && Settled(db) && OwnRowsFull(db)
    requires !Owed(db, a) && Owed(Next(db, op), a)
    ensures FullRefundRequested(Next(db, op), a) <==> a !in RefundedAttempts(db.refunds) && !LateStep(db, op)
  {
    hide LinksInv, CouplingInv, MoneyInv, PresenceInv, Settled, Step, LateStep, Owed, FullRefundRequested, RefundedAttempts, OwnRowsFull, Kept;
    NextKeeps(db, op);
    NextKept(db, op);
    var db' := Next(db, op);
    hide Linked, Next;
    if FullRefundRequested(db, a) {
      OwnMeansOwed(db, a);
    }
    if a in RefundedAttempts(db.refunds) {
      NoOwnAfterAnother(db, db', a);
    } else if LateStep(db, op) {
      CallsArePaidOnce(db);
      hide OneCallPerAttempt;
      LateAddsNothing(db, op);
      UnrefundedHasNoOwn(db', a);
    } else {
      StepSettlesIff(db, op);
      OwedIsSettled(db', a);
      NewlyOwedIsOwn(db, db', a);
    }
  }

  lemma CallsArePaidOnce(db: Db)
    requires CouplingInv(db)
    ensures OneCallPerAttempt(db.calls)
  {
  }

  lemma UnrefundedHasNoOwn(db: Db, a: AttemptId)
    requires a !in RefundedAttempts(db.refunds)
    ensures !FullRefundRequested(db, a)
  {
  }

  // ------------------------------------------------------------ whole runs

  /** A refund made outside Bling is on record. */
  ghost predicate OutsideRow(db: Db, a: AttemptId) {
    exists r :: r in db.refunds && db.refunds[r].attempt == a && !db.refunds[r].own
  }

  /** At some moment of the run a refund made outside Bling was on record and nothing was owed yet. */
  ghost predicate OutsideFirst(db: Db, ops: seq<Op>, a: AttemptId)
    decreases |ops|
  {
    (!Owed(db, a) && OutsideRow(db, a)) || (ops != [] && OutsideFirst(Next(db, ops[0]), ops[1..], a))
  }

  /** Once owed, nothing changes about who refunds. */
  lemma {:induction false} OwedRunIff(db: Db, ops: seq<Op>, a: AttemptId)
    requires Inv(db) && OwnRowsFull(db) && Owed(db, a) && a in RefundedAttempts(db.refunds)
    ensures FullRefundRequested(Run(db, ops), a) <==> FullRefundRequested(db, a)
    ensures !OutsideFirst(db, ops, a)
    decreases |ops|
  {
    hide Inv, Next, Owed, FullRefundRequested, RefundedAttempts, OwnRowsFull, Kept;
    if ops != [] {
      var db' := Next(db, ops[0]);
      NextKeeps(db, ops[0]);
      NextKept(db, ops[0]);
      OwedStays(db, db', a);
      RowsStayFull(db, db');
      if !FullRefundRequested(db, a) {
        NoOwnAfterAnother(db, db', a);
      }
      OwedRunIff(db', ops[1..], a);
    }
  }

  /** A refund on record before anything was owed keeps Bling's own from ever being requested. */
  lemma {:induction false} OutsideRunNeverOwn(db: Db, ops: seq<Op>, a: AttemptId)
    requires Inv(db) && OwnRowsFull(db) && a in RefundedAttempts(db.refunds) && !FullRefundRequested(db, a)
    ensures !FullRefundRequested(Run(db, ops), a)
    decreases |ops|
  {
    hide Inv, Next, FullRefundRequested, RefundedAttempts, OwnRowsFull, Kept;
    if ops != [] {
      var db' := Next(db, ops[0]);
      NextKeeps(db, ops[0]);
      NextKept(db, ops[0]);
      OwedStays(db, db', a);
      RowsStayFull(db, db');
      NoOwnAfterAnother(db, db', a);
      OutsideRunNeverOwn(db', ops[1..], a);
    }
  }

  lemma NotOwedHasOnlyOutside(db: Db, a: AttemptId)
    requires MoneyInv(db) && OwnRowsFull(db) && !Owed(db, a)
    ensures OutsideRow(db, a) <==> a in RefundedAttempts(db.refunds)
    ensures !FullRefundRequested(db, a)
  {
    forall r | r in db.refunds && db.refunds[r].own ensures Owed(db, db.refunds[r].attempt) {
      hide Owed, MoneyInv;
      OwnRowIsFull(db, r);
      OwnMeansOwed(db, db.refunds[r].attempt);
    }
    hide Owed, MoneyInv;
    if FullRefundRequested(db, a) {
      OwnMeansOwed(db, a);
    }
  }

  lemma {:induction false} RunRefundsIff(db: Db, ops: seq<Op>, a: AttemptId)
    requires Inv(db) && Settled(db) && OwnRowsFull(db) && NoLateSuccess(db, ops)
    requires !Owed(db, a) && Owed(Run(db, ops), a)
    ensures FullRefundRequested(Run(db, ops), a) <==> !OutsideFirst(db, ops, a)
    decreases |ops|
  {
    hide LinksInv, CouplingInv, MoneyInv, PresenceInv, Settled, LateStep, Owed, FullRefundRequested, RefundedAttempts, OwnRowsFull, Kept, OutsideRow;
    assert ops != [];
    var db' := Next(db, ops[0]);
    NextKeeps(db, ops[0]);
    NextKept(db, ops[0]);
    NotOwedHasOnlyOutside(db, a);
    StepSettlesIff(db, ops[0]);
    RowsStayFull(db, db');
    if Owed(db', a) {
      StepRefundsIff(db, ops[0], a);
    }
    hide Next, Step, Linked;
    if OutsideRow(db, a) {
      OutsideRunNeverOwn(db, ops, a);
    } else if Owed(db', a) {
      OwedIsSettled(db', a);
      OwedRunIff(db', ops[1..], a);
    } else {
      RunRefundsIff(db', ops[1..], a);
    }
  }

  /**
   In every run without a late success, a captured payment whose call finished
   without going live has a refund row that Bling requested for the whole amount
   if and only if no refund made outside Bling was on record while nothing was
   owed yet. Whether that row's refund is the one made, ForeignNotices says.
   */
  lemma OwnRefundIff(start: Db, ops: seq<Op>, a: AttemptId)
    requires Initial(start) && NoLateSuccess(start, ops) && Owed(Run(start, ops), a)
    ensures FullRefundRequested(Run(start, ops), a) <==> !OutsideFirst(start, ops, a)
  {
    hide *;
    InitialInv(start);
    NothingOwedYet(start, a);
    RunRefundsIff(start, ops, a);
  }

  lemma NothingOwedYet(start: Db, a: AttemptId)
    requires Initial(start)
    ensures Settled(start) && OwnRowsFull(start) && !Owed(start, a)
  {
  }

  lemma {:induction false} RunNeverLate(db: Db, ops: seq<Op>, failed: set<AttemptId>)
    requires Inv(db) && Settled(db) && FailuresWithin(db, failed) && Consistent(ops)
    requires forall op :: op in ops && SuccessNoticeOf(op).Some? ==> SuccessNoticeOf(op).value !in failed
    ensures NoLateSuccess(db, ops)
    decreases |ops|
  {
    hide LinksInv, CouplingInv, MoneyInv, PresenceInv, Settled, LateStep, FailuresWithin, Consistent, FailedSoFar;
    if ops != [] {
      StepSettles(db, ops[0], failed);
      NextKeeps(db, ops[0]);
      StepSettlesIff(db, ops[0]);
      hide Next, Step, Linked;
      ConsistentTail(ops, failed);
      RunNeverLate(Next(db, ops[0]), ops[1..], FailedSoFar(failed, ops[0]));
    }
  }

  /**
   With consistent Stripe outcomes a captured payment whose call finished without
   going live was never earned, and Bling requests a refund of the whole amount
   if and only if no refund made outside Bling was on record while nothing was
   owed yet.
   */
  lemma OwnSettlementComplete(start: Db, ops: seq<Op>, a: AttemptId)
    requires Initial(start) && Consistent(ops) && Owed(Run(start, ops), a)
    ensures L.EarningFor(Run(start, ops).ledger.entries, a).None?
    ensures FullRefundRequested(Run(start, ops), a) <==> !OutsideFirst(start, ops, a)
  {
    InitialInv(start);
    assert Settled(start) && FailuresWithin(start, {});
    hide LinksInv, CouplingInv, MoneyInv, PresenceInv, Initial, Settled, FullRefundRequested, OutsideFirst, NoLateSuccess, Run;
    Reachable(start, ops);
    RunNeverLate(start, ops, {});
    OwnRefundIff(start, ops, a);
    OwedNotEarned(Run(start, ops), a);
  }

  lemma OwedNotEarned(db: Db, a: AttemptId)
    requires MoneyInv(db) && CouplingInv(db) && Owed(db, a)
    ensures L.EarningFor(db.ledger.entries, a).None?
  {
    L.EarningByKey(db.ledger, a);
    hide L.Valid, L.EarningFor, L.Keys, RefundsOk, WorkerOk;
    var c :| c in db.calls && db.calls[c].attempt == Some(a) && Finished(db.calls[c].status) && db.calls[c].startedAt.None?;
  }
}
