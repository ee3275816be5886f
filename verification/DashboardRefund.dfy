/**
 Why Bling may owe a payer and never pay. Support refunds part of a payment in
 the Stripe dashboard, or tries to, while the call is waiting to connect; the
 call then fails, and Bling, finding a refund on record, requests none. Or the
 call fails first, and the dashboard's notice settles the row of Bling's own
 request before Stripe's answer to that request is recorded.
 */
module DashboardRefund {
  import opened Common
  import opened Tables
  import opened Steps
  import opened Runs
  import opened Settlement
  import opened LateSuccess
  import opened RefundWorker
  import opened OwnRefunds
  import opened ForeignNotices
  import L = Ledger
  import Fees

  /** The payment of LateSuccess's caller is captured and the call opens. */
  function Opened(): Db {
    Picked().(attempts := map[1 := Hold(PayCaptured, true, Some(2))], calls := map[3 := PaidCall(CallCreated, None)])
  }

  function Outside(outcome: RefundStatus, amount: nat): Refund {
    Refund(1, 3, amount, false, outcome, 0, 0, Some(5))
  }

  function PartlyRefunded(outcome: RefundStatus, amount: nat): Db {
    Opened().(refunds := map[4 := Outside(outcome, amount)], events := {0}, nextId := 5)
  }

  function GivenUp(outcome: RefundStatus, amount: nat): Db {
    PartlyRefunded(outcome, amount).(
      calls := map[3 := PaidCall(CallFailed, Some(0))], entries := map[2 := Caller(EntryEnded)])
  }

  /** The caller is picked as before, the payment is captured, the dashboard refund arrives, the call fails. */
  function Quarrel(outcome: RefundStatus, amount: nat): seq<Op> {
    Mishap()[..7]
    + [CapturedOp(1), WebhookOp(0, RefundNotice(5, Some(1), outcome, Some(amount))), TransitionOp(3, Creator, CallFailed)]
  }

  lemma OpenedRows()
    ensures 1 in Picked().attempts && Linked(Picked()) && RecordCaptured(Picked(), 1) == Opened()
  {
    hide L.EMPTY, Fees.FeesFor, RequestRefund, FailUnpaid, CallFor, Linked;
    Patched(1, Hold(PayCapturing, true, Some(2)), Hold(PayCaptured, true, Some(2)));
    Patched(3, PaidCall(PaymentPending, None), PaidCall(CallCreated, None));
    Tidy(Picked());
    OnlyCall(PaidCall(PaymentPending, None));
  }

  lemma CallOpens()
    ensures Next(Picked(), CapturedOp(1)) == Opened()
  {
    assert Picked().attempts[1].hasIntent;
    hide RecordCaptured, Linked, Picked, Opened;
    OpenedRows();
    Takes(Picked(), CapturedOp(1), Opened());
  }

  lemma AdoptedRow(outcome: RefundStatus, amount: nat)
    requires outcome == Succeeded || outcome == RefundFailed
    ensures Linked(Opened())
    ensures Webhook(Opened(), 0, RefundNotice(5, Some(1), outcome, Some(amount))) == PartlyRefunded(outcome, amount)
  {
    OpenedLinked();
    hide L.Valid, SettleRefund, AdoptRefund, RefundFor, Fees.FeesFor;
    var noted := Opened().(events := {0});
    assert {} + {0} == {0};
    AdoptedNow(amount);
    SettledNow(outcome, amount);
  }

  function Noted(): Db {
    Opened().(events := {0})
  }

  function Adopted(amount: nat): Db {
    Noted().(refunds := map[4 := Outside(Pending, amount)], nextId := 5)
  }

  lemma AdoptedNow(amount: nat)
    ensures RefundFor(Noted().refunds, 5, Some(1)).None?
    ensures AdoptRefund(Noted(), 5, Some(1), Some(amount)) == Some(Adopted(amount))
  {
    hide Fees.FeesFor, L.EMPTY;
    assert 3 in Noted().calls;
    assert CallFor(Noted().calls, 1) == Some(3);
    Patched(4, Outside(Pending, amount), Outside(Pending, amount));
  }

  lemma SettledNow(outcome: RefundStatus, amount: nat)
    requires outcome == Succeeded || outcome == RefundFailed
    requires L.Valid(L.EMPTY)
    ensures SettleRefund(Adopted(amount), 4, 5, outcome) == PartlyRefunded(outcome, amount)
  {
    hide Fees.FeesFor, L.Valid;
    Patched(4, Outside(Pending, amount), Outside(outcome, amount));
  }

  lemma RefundArrives(outcome: RefundStatus, amount: nat)
    requires outcome == Succeeded || outcome == RefundFailed
    ensures Next(Opened(), WebhookOp(0, RefundNotice(5, Some(1), outcome, Some(amount)))) == PartlyRefunded(outcome, amount)
  {
    hide Webhook, Linked, Opened, PartlyRefunded;
    AdoptedRow(outcome, amount);
    Takes(Opened(), WebhookOp(0, RefundNotice(5, Some(1), outcome, Some(amount))), PartlyRefunded(outcome, amount));
  }

  lemma PartlyLinked(outcome: RefundStatus, amount: nat)
    ensures Linked(PartlyRefunded(outcome, amount))
  {
    OpenedLinked();
    hide Linked, L.EMPTY, Fees.FeesFor;
    RefundStaysLinked(Opened(), PartlyRefunded(outcome, amount));
  }

  lemma OpenedLinked()
    ensures Linked(Opened())
  {
    hide Fees.FeesFor, L.EMPTY;
    Tidy(Opened());
  }

  lemma RefundStaysLinked(db: Db, db': Db)
    requires Linked(db) && db' == db.(refunds := db'.refunds, events := db'.events, nextId := db'.nextId)
    requires forall r :: r in db'.refunds ==> db'.refunds[r].attempt in db.attempts
    ensures Linked(db')
  {
    hide L.Valid;
  }

  lemma FailedRows(outcome: RefundStatus, amount: nat)
    ensures Linked(PartlyRefunded(outcome, amount))
    ensures Transition(PartlyRefunded(outcome, amount), 3, Creator, CallFailed) == Ok(GivenUp(outcome, amount))
  {
    PartlyLinked(outcome, amount);
    hide L.EMPTY, Fees.FeesFor, Linked;
    var db := PartlyRefunded(outcome, amount);
    Patched(3, PaidCall(CallCreated, None), PaidCall(CallFailed, Some(0)));
    Patched(2, Caller(Selected), Caller(EntryEnded));
    assert db.refunds[4].attempt == 1;
    assert 1 in RefundedAttempts(db.refunds);
    hide RefundedAttempts;
    assert PresenceWithout(db.presence, 3) == map[];
    assert Finish(db, 3, CallFailed) == GivenUp(outcome, amount);
  }

  lemma CallFails(outcome: RefundStatus, amount: nat)
    ensures Next(PartlyRefunded(outcome, amount), TransitionOp(3, Creator, CallFailed)) == GivenUp(outcome, amount)
  {
    hide Transition, Linked, PartlyRefunded, GivenUp;
    FailedRows(outcome, amount);
    Takes(PartlyRefunded(outcome, amount), TransitionOp(3, Creator, CallFailed), GivenUp(outcome, amount));
  }

  lemma QuarrelEnds(outcome: RefundStatus, amount: nat)
    requires outcome == Succeeded || outcome == RefundFailed
    ensures Run(Opening(), Quarrel(outcome, amount)) == GivenUp(outcome, amount)
  {
    hide Next, Run;
    CallOpens();
    RefundArrives(outcome, amount);
    CallFails(outcome, amount);
    var q := Quarrel(outcome, amount);
    hide Opened, PartlyRefunded, GivenUp, Picked, Opening;
    CallerIsPickedAfter(q);
    RunOne(Picked(), q, 7);
    RunOne(Opened(), q, 8);
    RunOne(PartlyRefunded(outcome, amount), q, 9);
    EndOfRun(GivenUp(outcome, amount), q[10..]);
  }

  /**
   A reachable state, with consistent Stripe outcomes, in which a payment is owed
   back and Bling requests nothing: the only refund on record is the dashboard's,
   whatever its amount, and even if it failed.
   */
  lemma OwedAndNotRefunded(outcome: RefundStatus, amount: nat)
    requires outcome == Succeeded || outcome == RefundFailed
    ensures Initial(Opening()) && Consistent(Quarrel(outcome, amount))
    ensures var db := Run(Opening(), Quarrel(outcome, amount));
      && Owed(db, 1) && db.attempts[1].amountCents == 50 && !FullRefundRequested(db, 1)
      && db.refunds == map[4 := Outside(outcome, amount)]
  {
    QuarrelEnds(outcome, amount);
    hide Run, Initial, Consistent, Quarrel, Owed, FullRefundRequested, Fees.FeesFor;
    QuarrelIsConsistent(outcome, amount);
    OpeningIsInitial();
    GivenUpOwes(outcome, amount);
  }

  lemma OpeningIsInitial()
    ensures Initial(Opening())
  {
  }

  lemma GivenUpOwes(outcome: RefundStatus, amount: nat)
    ensures Owed(GivenUp(outcome, amount), 1) && !FullRefundRequested(GivenUp(outcome, amount), 1)
  {
    hide Fees.FeesFor;
    var db := GivenUp(outcome, amount);
    assert 3 in db.calls && db.calls[3] == PaidCall(CallFailed, Some(0));
    assert forall r :: r in db.refunds ==> !db.refunds[r].own;
  }

  lemma QuarrelIsConsistent(outcome: RefundStatus, amount: nat)
    ensures Consistent(Quarrel(outcome, amount))
  {
    QuarrelReportsNoFailure(outcome, amount);
    hide Quarrel;
  }

  lemma QuarrelReportsNoFailure(outcome: RefundStatus, amount: nat)
    ensures forall op :: op in Quarrel(outcome, amount) ==> FailureNoticeOf(op).None?
  {
  }

  /** Ten cents back of fifty, or nothing back at all, and Bling owes the rest. */
  lemma PayerIsLeftShort()
    ensures var db := Run(Opening(), Quarrel(Succeeded, 10));
      Owed(db, 1) && !FullRefundRequested(db, 1) && db.attempts[1].amountCents == 50
      && (forall r :: r in db.refunds ==> db.refunds[r].amountCents == 10)
    ensures var db := Run(Opening(), Quarrel(RefundFailed, 50));
      Owed(db, 1) && !FullRefundRequested(db, 1)
      && (forall r :: r in db.refunds ==> db.refunds[r].status == RefundFailed)
  {
    hide Run, Owed, FullRefundRequested;
    OwedAndNotRefunded(Succeeded, 10);
    OwedAndNotRefunded(RefundFailed, 50);
  }

  // ------------------------------------------------------------ the notice that takes the row

  /** The call failed and Bling requested the whole amount. */
  function Asked(): Db {
    Opened().(
      calls := map[3 := PaidCall(CallFailed, Some(0))], entries := map[2 := Caller(EntryEnded)],
      refunds := map[4 := Own(Requested, None)], nextId := 5, jobs := Opened().jobs + multiset{RunRefund(0, 4)})
  }

  function Own(status: RefundStatus, stripeId: Option<nat>): Refund {
    Refund(1, 3, 50, true, status, 0, 0, stripeId)
  }

  /** The dashboard's refund 5 has settled Bling's own row. */
  function Taken5(outcome: RefundStatus): Db {
    Asked().(refunds := map[4 := Own(outcome, Some(5))], events := {0})
  }

  function DashboardNotice(outcome: RefundStatus, amount: nat): Op {
    WebhookOp(0, RefundNotice(5, Some(1), outcome, Some(amount)))
  }

  function Mixup(outcome: RefundStatus, amount: nat): seq<Op> {
    Mishap()[..7] + [CapturedOp(1), TransitionOp(3, Creator, CallFailed), DashboardNotice(outcome, amount)]
  }

  lemma AskedRows()
    ensures Linked(Opened())
    ensures Transition(Opened(), 3, Creator, CallFailed) == Ok(Asked())
  {
    OpenedLinked();
    hide L.EMPTY, Fees.FeesFor, Linked;
    var db := Opened();
    Patched(3, PaidCall(CallCreated, None), PaidCall(CallFailed, Some(0)));
    Patched(2, Caller(Selected), Caller(EntryEnded));
    Patched(4, Own(Requested, None), Own(Requested, None));
    assert RefundedAttempts(db.refunds) == {};
    assert PresenceWithout(db.presence, 3) == map[];
    assert Finish(db, 3, CallFailed) == Asked();
  }

  lemma CallFailsFirst()
    ensures Next(Opened(), TransitionOp(3, Creator, CallFailed)) == Asked()
  {
    hide Transition, Linked, Opened, Asked;
    AskedRows();
    Takes(Opened(), TransitionOp(3, Creator, CallFailed), Asked());
  }

  lemma AskedLinked()
    ensures Linked(Asked())
  {
    OpenedLinked();
    hide Linked, L.EMPTY, Fees.FeesFor;
    RowsStayLinked(Opened(), Asked());
  }

  /** Rows that keep what they refer to keep a database linked. */
  lemma RowsStayLinked(db: Db, db': Db)
    requires Linked(db) && db'.ledger == db.ledger && db'.attempts == db.attempts && db'.entries.Keys == db.entries.Keys
    requires forall c :: c in db'.calls ==>
      c in db.calls && db'.calls[c].entry == db.calls[c].entry && db'.calls[c].attempt == db.calls[c].attempt
    requires forall r :: r in db'.refunds ==> db'.refunds[r].attempt in db.attempts
    ensures Linked(db')
  {
    hide L.Valid;
  }

  lemma TakenRows(outcome: RefundStatus, amount: nat)
    requires outcome == Succeeded || outcome == RefundFailed
    ensures Linked(Asked())
    ensures Webhook(Asked(), 0, RefundNotice(5, Some(1), outcome, Some(amount))) == Taken5(outcome)
  {
    hide Asked, Taken5, Linked, RefundFor, SettleRefund, Webhook, L.Valid, L.EMPTY, Fees.FeesFor;
    AskedLinked();
    NoticeFindsRow();
    EmptyLedger();
    AskedUnseen();
    SettledFour(outcome);
    FoundIsSettled(Asked(), Asked().(events := {0}), 0, RefundNotice(5, Some(1), outcome, Some(amount)), 4);
  }

  lemma AskedUnseen()
    ensures 0 !in Asked().events && Asked().events + {0} == {0} && 4 in Asked().refunds
  {
  }

  lemma FoundIsSettled(db: Db, noted: Db, event: nat, n: Notice, r: RefundId)
    requires Linked(db) && event !in db.events && db.events + {event} == noted.events && noted == db.(events := noted.events)
    requires n.RefundNotice? && RefundFor(db.refunds, n.stripeId, n.refunded) == Some(r) && r in db.refunds
    ensures L.Valid(db.ledger) && db.refunds[r].attempt in db.attempts && db.attempts[db.refunds[r].attempt].amountCents > 0
    ensures Webhook(db, event, n) == SettleRefund(noted, r, n.stripeId, n.outcome)
  {
    hide RefundFor, SettleRefund, L.Valid;
  }

  lemma EmptyLedger()
    ensures L.Valid(L.EMPTY)
  {
  }

  lemma NoticeFindsRow()
    ensures RefundFor(Asked().refunds, 5, Some(1)) == Some(4)
  {
    hide Fees.FeesFor, L.EMPTY;
    MarksIff(Asked().refunds, 5, Some(1), 4);
    hide RefundFor;
  }

  lemma SettledFour(outcome: RefundStatus)
    requires L.Valid(L.EMPTY) && (outcome == Succeeded || outcome == RefundFailed)
    ensures SettleRefund(Asked().(events := {0}), 4, 5, outcome) == Taken5(outcome)
  {
    hide Fees.FeesFor, L.Valid;
    Patched(4, Own(Requested, None), Own(outcome, Some(5)));
  }

  lemma NoticeTakesRow(outcome: RefundStatus, amount: nat)
    requires outcome == Succeeded || outcome == RefundFailed
    ensures Next(Asked(), DashboardNotice(outcome, amount)) == Taken5(outcome)
  {
    hide Webhook, Linked, Asked, Taken5;
    TakenRows(outcome, amount);
    Takes(Asked(), DashboardNotice(outcome, amount), Taken5(outcome));
  }

  lemma MixupEnds(outcome: RefundStatus, amount: nat)
    requires outcome == Succeeded || outcome == RefundFailed
    ensures Run(Opening(), Mixup(outcome, amount)) == Taken5(outcome)
  {
    hide Next, Run;
    CallOpens();
    CallFailsFirst();
    NoticeTakesRow(outcome, amount);
    var q := Mixup(outcome, amount);
    hide Opened, Asked, Taken5, Picked, Opening;
    CallerIsPickedAfter(q);
    RunOne(Picked(), q, 7);
    RunOne(Opened(), q, 8);
    RunOne(Asked(), q, 9);
    EndOfRun(Taken5(outcome), q[10..]);
  }

  lemma MixupIsConsistent(outcome: RefundStatus, amount: nat)
    ensures Consistent(Mixup(outcome, amount))
  {
    assert forall op :: op in Mixup(outcome, amount) ==> FailureNoticeOf(op).None?;
  }

  lemma Taken5Owes(outcome: RefundStatus)
    requires outcome == Succeeded || outcome == RefundFailed
    ensures Owed(Taken5(outcome), 1) && FullRefundRequested(Taken5(outcome), 1) && !ReturnedInFull(Taken5(outcome), 1, map[])
    ensures !Claimable(Taken5(outcome).refunds[4], Taken5(outcome).now)
  {
    hide Fees.FeesFor;
    var db := Taken5(outcome);
    assert 3 in db.calls && db.calls[3] == PaidCall(CallFailed, Some(0));
    assert OwnFull(db.refunds[4], 1, db.attempts[1].amountCents);
  }

  /**
   A reachable state, with consistent Stripe outcomes and no refund on record when
   the call failed: Bling requested the whole amount, but the row bears the
   dashboard refund's id and outcome, whatever its amount. Stripe has made no
   refund for Bling's request, and no worker will take the row up again.
   */
  lemma ForeignNoticeTakesOver(outcome: RefundStatus, amount: nat)
    requires outcome == Succeeded || outcome == RefundFailed
    ensures Initial(Opening()) && Consistent(Mixup(outcome, amount)) && !OutsideFirst(Opening(), Mixup(outcome, amount), 1)
    ensures var db := Run(Opening(), Mixup(outcome, amount));
      && Owed(db, 1) && FullRefundRequested(db, 1) && !ReturnedInFull(db, 1, map[])
      && db.refunds == map[4 := Own(outcome, Some(5))] && !Claimable(db.refunds[4], db.now)
  {
    hide Run, Initial, Consistent, Mixup, Owed, FullRefundRequested, ReturnedInFull, OutsideFirst, Fees.FeesFor, Claimable;
    MixupEnds(outcome, amount);
    MixupIsConsistent(outcome, amount);
    OpeningIsInitial();
    Taken5Owes(outcome);
    OwnSettlementComplete(Opening(), Mixup(outcome, amount), 1);
  }
}
