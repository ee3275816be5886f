/**
 The refund worker and the webhook together: claims, results, retries and
 Stripe's own events in any order. A refund with a final outcome is never
 picked up again, and no refund is picked up more than ten times.
 */
module RefundWorker {
  import opened Common
  import opened Tables
  import opened Steps
  import opened Invariants
  import opened Preservation
  import opened QueuePreservation
  import opened RefundPreservation
  import opened Runs
  import L = Ledger

  /** The refund a step hands to a worker, if any. */
  function ClaimedBy(db: Db, op: Op): Option<RefundId> {
    if op.ClaimRefundOp? && op.refund in db.refunds && Claimable(db.refunds[op.refund], db.now) then Some(op.refund) else None
  }

  // ------------------------------------------------------------ the one row a step may write

  /** A row of Bling's own is full and the payment's first; one made outside carries its Stripe id and changes nothing else. */
  ghost predicate NewRow(db: Db, db': Db, r: RefundId)
    requires r in db'.refunds
  {
    var refund := db'.refunds[r];
    && r !in db.refunds && refund.attempts == 0
    && if refund.own then
         && refund.stripeId.None? && refund.status == Requested
         && refund.attempt in db'.attempts && db'.attempts[refund.attempt].status == PayCaptured
         && refund.amountCents == db'.attempts[refund.attempt].amountCents
         && refund.attempt !in RefundedAttempts(db.refunds)
       else refund.stripeId.Some? && db'.calls == db.calls && db'.attempts == db.attempts
  }

  /** A refund notice finds row `r` only because that row has no Stripe id yet. */
  ghost predicate MarksRow(db: Db, op: Op, r: RefundId) {
    && op.WebhookOp? && op.event !in db.events && op.notice.RefundNotice? && NoticeOk(op.notice)
    && r in db.refunds && db.refunds[r].stripeId.None?
    && RefundFor(db.refunds, op.notice.stripeId, op.notice.refunded) == Some(r)
    && !(FinalRefund(db.refunds[r].status) && op.notice.outcome == Pending)
  }

  /** Where a row's Stripe id may come from: it stays, a worker records it, or a notice marks the row with its own. */
  ghost predicate IdMoves(db: Db, op: Op, r: RefundId, id: Option<nat>)
    requires r in db.refunds
  {
    || id == db.refunds[r].stripeId
    || (op.RecordRefundOp? && op.refund == r && id == Some(op.stripeId))
    || (MarksRow(db, op, r) && id == Some(op.notice.stripeId))
  }

  /** A notice names the row by the Stripe id it has. */
  predicate NamesRow(db: Db, op: Op, r: RefundId) {
    op.WebhookOp? && op.notice.RefundNotice? && r in db.refunds && db.refunds[r].stripeId == Some(op.notice.stripeId)
  }

  /** Where a row's outcome may come from: it stays, a worker of the row wrote it, or a notice that names or marks the row. */
  ghost predicate StatusMoves(db: Db, op: Op, r: RefundId, status: RefundStatus)
    requires r in db.refunds
  {
    || status == db.refunds[r].status
    || ((op.ClaimRefundOp? || op.RecordRefundOp? || op.RetryRefundOp?) && op.refund == r)
    || ((NamesRow(db, op, r) || MarksRow(db, op, r)) && status == op.notice.outcome)
  }

  /** A row keeps what it refunds, stays final, counts its claims, and succeeds only with a Stripe id. */
  ghost predicate OldRow(db: Db, op: Op, r: RefundId, refund': Refund) {
    && r in db.refunds && SameRefund(db.refunds[r], refund')
    && (FinalRefund(db.refunds[r].status) ==> FinalRefund(refund'.status))
    && refund'.attempts == db.refunds[r].attempts + (if ClaimedBy(db, op) == Some(r) then 1 else 0)
    && IdMoves(db, op, r, refund'.stripeId)
    && StatusMoves(db, op, r, refund'.status)
    && (refund'.status == Succeeded ==> refund'.stripeId.Some?)
    && (FinalRefund(db.refunds[r].status) && db.refunds[r].stripeId.Some? ==> refund'.stripeId == db.refunds[r].stripeId)
  }

  /** Every step leaves the refunds alone or writes one row, in one of these ways. */
  ghost predicate RowStep(db: Db, op: Op, db': Db) {
    || (db'.refunds == db.refunds && ClaimedBy(db, op).None?)
    || (exists r :: r in db'.refunds && db'.refunds == db.refunds[r := db'.refunds[r]]
                    && (ClaimedBy(db, op).Some? ==> ClaimedBy(db, op) == Some(r))
                    && (NewRow(db, db', r) || OldRow(db, op, r, db'.refunds[r])))
  }

  lemma WrittenRow(db: Db, op: Op, db': Db) returns (r: RefundId)
    requires RowStep(db, op, db') && db'.refunds != db.refunds
    ensures r in db'.refunds && db'.refunds == db.refunds[r := db'.refunds[r]]
    ensures ClaimedBy(db, op).Some? ==> ClaimedBy(db, op) == Some(r)
    ensures NewRow(db, db', r) || OldRow(db, op, r, db'.refunds[r])
  {
    hide NewRow, OldRow, ClaimedBy;
    r :| r in db'.refunds && db'.refunds == db.refunds[r := db'.refunds[r]]
         && (ClaimedBy(db, op).Some? ==> ClaimedBy(db, op) == Some(r))
         && (NewRow(db, db', r) || OldRow(db, op, r, db'.refunds[r]));
  }

  lemma NothingWritten(db: Db, op: Op, db': Db)
    requires RowStep(db, op, db') && db'.refunds == db.refunds
    ensures ClaimedBy(db, op).None?
  {
    hide RefundedAttempts, ClaimedBy, IdMoves, StatusMoves;
  }

  lemma NewRowIsNew(db: Db, db': Db, r: RefundId)
    requires r in db'.refunds && NewRow(db, db', r)
    ensures r !in db.refunds && db'.refunds[r].attempts == 0
  {
    hide RefundedAttempts;
  }

  lemma NoRow(db: Db, op: Op, db': Db)
    requires db'.refunds == db.refunds && ClaimedBy(db, op).None?
    ensures RowStep(db, op, db')
  {
  }

  lemma OneRow(db: Db, op: Op, db': Db, r: RefundId)
    requires r in db'.refunds && db'.refunds == db.refunds[r := db'.refunds[r]]
    requires ClaimedBy(db, op).Some? ==> ClaimedBy(db, op) == Some(r)
    requires NewRow(db, db', r) || OldRow(db, op, r, db'.refunds[r])
    ensures RowStep(db, op, db')
  {
  }

  /** A refund requested in state `mid` on the way from `db` to `db'`. */
  lemma RequestRow(db: Db, mid: Db, op: Op, db': Db, a: AttemptId, c: CallId)
    requires a in mid.attempts && mid.refunds == db.refunds && mid.nextId !in db.refunds && !op.ClaimRefundOp?
    requires db'.refunds == RequestRefund(mid, a, c).refunds && db'.attempts == mid.attempts
    ensures RowStep(db, op, db')
  {
    hide RefundedAttempts, RowStep;
    if db'.refunds == db.refunds {
      NoRow(db, op, db');
    } else {
      OneRow(db, op, db', mid.nextId);
    }
  }

  lemma FinishRow(db: Db, mid: Db, op: Op, db': Db, c: CallId, target: CallStatus)
    requires Linked(mid) && c in mid.calls && mid.refunds == db.refunds && mid.nextId !in db.refunds && !op.ClaimRefundOp?
    requires db'.refunds == Finish(mid, c, target).refunds && db'.attempts == mid.attempts
    ensures RowStep(db, op, db')
  {
    hide RequestRefund, RowStep;
    var call := mid.calls[c];
    if call.startedAt.None? && call.attempt.Some? {
      var over := mid.(
        calls := mid.calls[c := call.(status := target, endedAt := Some(mid.now))],
        entries := mid.entries[call.entry := mid.entries[call.entry].(status := EntryEnded)],
        presence := PresenceWithout(mid.presence, c));
      RequestRow(db, over, op, db', call.attempt.value, c);
    } else {
      NoRow(db, op, db');
    }
  }

  lemma TransitionRow(db: Db, op: Op, c: CallId, target: CallStatus)
    requires Linked(db) && c in db.calls && db.nextId !in db.refunds && !op.ClaimRefundOp?
    ensures var r := ApplyTransition(db, c, target); r.Ok? ==> RowStep(db, op, r.value)
  {
    hide Finish, RowStep, CreditEarning;
    var r := ApplyTransition(db, c, target);
    if r.Ok? {
      if db.calls[c].status != target && Finished(target) {
        FinishRow(db, db, op, r.value, c, target);
      } else {
        NoRow(db, op, r.value);
      }
    }
  }

  lemma EndShowRow(db: Db, op: Op, sh: ShowId, creator: UserId)
    requires Linked(db) && db.nextId !in db.refunds && !op.ClaimRefundOp?
    ensures var r := EndShow(db, sh, creator); r.Ok? ==> RowStep(db, op, r.value)
  {
    hide Finish, RowStep;
    var r := EndShow(db, sh, creator);
    var current := ActiveCall(db.calls, sh);
    if r.Ok? {
      if r.value.refunds == db.refunds {
        NoRow(db, op, r.value);
      } else {
        FinishRow(db, db, op, r.value, current.value, CallEnded);
      }
    }
  }

  lemma ExpireRow(db: Db, op: Op, due: Millis, c: CallId)
    requires Linked(db) && db.nextId !in db.refunds && !op.ClaimRefundOp?
    ensures RowStep(db, op, Expire(db, due, c))
  {
    hide Finish, RowStep;
    var db' := Expire(db, due, c);
    if db'.refunds == db.refunds {
      NoRow(db, op, db');
    } else {
      TakenLinked(db, ExpireCall(due, c));
      FinishRow(db, Taken(db, ExpireCall(due, c)), op, db', c, CallEnded);
    }
  }

  lemma GraceRow(db: Db, op: Op, due: Millis, seat: Seat, at: Millis)
    requires Linked(db) && db.nextId !in db.refunds && !op.ClaimRefundOp?
    ensures RowStep(db, op, RunCheckGrace(db, due, seat, at))
  {
    hide Finish, RowStep;
    var db' := RunCheckGrace(db, due, seat, at);
    if db'.refunds == db.refunds {
      NoRow(db, op, db');
    } else {
      TakenLinked(db, CheckGrace(due, seat, at));
      FinishRow(db, Taken(db, CheckGrace(due, seat, at)), op, db', seat.call, CallFailed);
    }
  }

  lemma CapturedRow(db: Db, op: Op, a: AttemptId)
    requires Linked(db) && a in db.attempts && db.nextId !in db.refunds && !op.ClaimRefundOp?
    ensures RowStep(db, op, RecordCaptured(db, a))
  {
    hide RequestRefund, RowStep, FailUnpaid, CallFor;
    var db' := RecordCaptured(db, a);
    var found := CallFor(db.calls, a);
    if db'.refunds == db.refunds {
      NoRow(db, op, db');
    } else {
      var paid := db.(attempts := db.attempts[a := db.attempts[a].(status := PayCaptured)]);
      RequestRow(db, FailUnpaid(paid, found.value), op, db', a, found.value);
    }
  }

  lemma ClaimRow(db: Db, r: RefundId)
    ensures RowStep(db, ClaimRefundOp(r), ClaimRefund(db, r))
  {
    hide RowStep;
    var op := ClaimRefundOp(r);
    if ClaimedBy(db, op).Some? {
      OneRow(db, op, ClaimRefund(db, r), r);
    } else {
      NoRow(db, op, ClaimRefund(db, r));
    }
  }

  lemma RecordRow(db: Db, r: RefundId, sid: nat, outcome: RefundStatus)
    requires Linked(db)
    ensures RowStep(db, RecordRefundOp(r, sid, outcome), RecordRefund(db, r, sid, outcome))
  {
    var op := RecordRefundOp(r, sid, outcome);
    var db' := RecordRefund(db, r, sid, outcome);
    hide Linked, L.Valid, Reverse, RowStep;
    if r in db.refunds && !FinalRefund(db.refunds[r].status) {
      OneRow(db, op, db', r);
    } else {
      NoRow(db, op, db');
    }
  }

  lemma RetriedRowMoves(refund: Refund, now: Millis)
    ensures SameRefund(refund, RetriedRow(refund, now)) && RetriedRow(refund, now).attempts == refund.attempts
    ensures RetriedRow(refund, now).stripeId == refund.stripeId && RetriedRow(refund, now).status != Succeeded
  {
    hide RetryDelay;
  }

  lemma RetryRow(db: Db, r: RefundId)
    ensures RowStep(db, RetryRefundOp(r), RetryRefund(db, r))
  {
    hide RetriedRow, RowStep;
    if r in db.refunds && db.refunds[r].status == Processing {
      RetriedRowMoves(db.refunds[r], db.now);
      OneRow(db, RetryRefundOp(r), RetryRefund(db, r), r);
    } else {
      NoRow(db, RetryRefundOp(r), RetryRefund(db, r));
    }
  }

  /** What settling writes: the outcome, and the notice's id where there was none. */
  lemma SettledRow(db: Db, r: RefundId, sid: nat, outcome: RefundStatus)
    requires L.Valid(db.ledger)
    requires r in db.refunds && db.refunds[r].attempt in db.attempts && db.attempts[db.refunds[r].attempt].amountCents > 0
    ensures var refund := db.refunds[r];
      SettleRefund(db, r, sid, outcome).refunds
      == if FinalRefund(refund.status) && outcome == Pending then db.refunds
         else db.refunds[r := refund.(status := outcome, stripeId := if refund.stripeId.Some? then refund.stripeId else Some(sid))]
  {
    hide L.Valid, Reverse;
  }

  /** The row found has the notice's id, or none. */
  lemma FoundByName(refunds: map<RefundId, Refund>, sid: nat, intent: Option<AttemptId>)
    requires RefundFor(refunds, sid, intent).Some?
    ensures var r := RefundFor(refunds, sid, intent).value; refunds[r].stripeId == Some(sid) || refunds[r].stripeId.None?
  {
  }

  lemma FoundRow(db: Db, op: Op, noted: Db)
    requires op.WebhookOp? && op.event !in db.events && op.notice.RefundNotice? && NoticeOk(op.notice)
    requires Linked(noted) && noted == db.(events := noted.events)
    requires RefundFor(db.refunds, op.notice.stripeId, op.notice.refunded).Some?
    ensures RowStep(db, op, ApplyNotice(noted, op.notice))
  {
    hide RefundFor, SettleRefund, RowStep, L.Valid;
    var r := RefundFor(db.refunds, op.notice.stripeId, op.notice.refunded).value;
    var db' := ApplyNotice(noted, op.notice);
    SettledRow(noted, r, op.notice.stripeId, op.notice.outcome);
    FoundByName(db.refunds, op.notice.stripeId, op.notice.refunded);
    if db'.refunds == db.refunds {
      NoRow(db, op, db');
    } else {
      OneRow(db, op, db', r);
    }
  }

  lemma AdoptedRow(db: Db, op: Op, noted: Db)
    requires op.WebhookOp? && op.event !in db.events && op.notice.RefundNotice? && NoticeOk(op.notice)
    requires Linked(noted) && noted == db.(events := noted.events) && db.nextId !in db.refunds
    requires RefundFor(db.refunds, op.notice.stripeId, op.notice.refunded).None?
    ensures RowStep(db, op, ApplyNotice(noted, op.notice))
  {
    hide RefundFor, SettleRefund, RowStep, L.Valid, CallFor;
    var n := op.notice;
    var db' := ApplyNotice(noted, n);
    var adopted := AdoptRefund(noted, n.stripeId, n.refunded, n.amount);
    if adopted.None? {
      NoRow(db, op, db');
    } else {
      SettledRow(adopted.value, db.nextId, n.stripeId, n.outcome);
      assert db'.refunds == db.refunds[db.nextId := db'.refunds[db.nextId]];
      OneRow(db, op, db', db.nextId);
    }
  }

  lemma FromNoted(db: Db, noted: Db, op: Op, db': Db)
    requires noted == db.(events := noted.events) && op.WebhookOp? && !op.notice.RefundNotice? && RowStep(noted, op, db')
    ensures RowStep(db, op, db')
  {
    hide RefundedAttempts, RefundFor;
  }

  lemma WebhookRow(db: Db, event: nat, n: Notice)
    requires Linked(db) && db.nextId !in db.refunds && NoticeOk(n)
    ensures RowStep(db, WebhookOp(event, n), Webhook(db, event, n))
  {
    hide RowStep, RefundFor, AdoptRefund, SettleRefund, RecordCaptured, RecordNotCaptured, L.Valid, ChangeDispute;
    var op := WebhookOp(event, n);
    var noted := db.(events := db.events + {event});
    if event in db.events {
      NoRow(db, op, db);
    } else if n.RefundNotice? {
      if RefundFor(db.refunds, n.stripeId, n.refunded).Some? {
        FoundRow(db, op, noted);
      } else {
        AdoptedRow(db, op, noted);
      }
    } else if n.IntentSucceeded? && AttemptForIntent(db.attempts, Some(n.intent)).Some? {
      CapturedRow(noted, op, n.intent);
      FromNoted(db, noted, op, RecordCaptured(noted, n.intent));
    } else {
      NoRow(db, op, ApplyNotice(noted, n));
    }
  }

  /** Steps that may request a refund. */
  predicate MayRequest(op: Op) {
    op.EndShowOp? || op.CapturedOp? || op.TransitionOp? || op.ExpireOp? || op.CheckGraceOp?
  }

  lemma RequestingStepRow(db: Db, op: Op)
    requires Linked(db) && db.nextId !in db.refunds && MayRequest(op)
    ensures RowStep(db, op, Step(db, op))
  {
    hide EndShow, RecordCaptured, ApplyTransition, Expire, RunCheckGrace, Linked, RowStep;
    NoRow(db, op, db);
    match op
    case EndShowOp(sh, creator) => EndShowRow(db, op, sh, creator);
    case CapturedOp(a) => if a in db.attempts { CapturedRow(db, op, a); }
    case TransitionOp(c, role, target) => if c in db.calls { TransitionRow(db, op, c, target); }
    case ExpireOp(due, c) => ExpireRow(db, op, due, c);
    case CheckGraceOp(due, seat, at) => GraceRow(db, op, due, seat, at);
  }

  lemma WorkerStepRow(db: Db, op: Op)
    requires Linked(db) && db.nextId !in db.refunds && !MayRequest(op) && !Refundless(op)
    ensures RowStep(db, op, Step(db, op))
  {
    hide ClaimRefund, RecordRefund, RetryRefund, Webhook, Linked, RowStep, Claimable;
    match op
    case ClaimRefundOp(r) => ClaimRow(db, r);
    case RecordRefundOp(r, sid, outcome) =>
      NoRow(db, op, db);
      RecordRow(db, r, sid, outcome);
    case RetryRefundOp(r) => RetryRow(db, r);
    case WebhookOp(event, n) =>
      NoRow(db, op, db);
      if NoticeOk(n) { WebhookRow(db, event, n); }
  }

  /** Steps that touch no refund. */
  predicate Refundless(op: Op) {
    || op.Tick? || op.CreateShowOp? || op.StartShowOp? || op.CloseQueueOp? || op.PrepareOp? || op.AttachIntentOp?
    || op.AuthorizeOp? || op.JoinOp? || op.LeaveOp? || op.SelectOp? || op.NotCapturedOp? || op.HeartbeatOp?
    || op.LeaveCallOp? || op.CheckSeenOp? || op.ReserveOp?
  }

  lemma QueueStepsMoveNoRefund(db: Db, op: Op)
    requires Linked(db) && Refundless(op) && ShowOrQueue(op)
    ensures Step(db, op).refunds == db.refunds
  {
    hide StartShow, CloseQueueBatch, Prepare, Join, Leave, Select, IsCloseBatch, Linked;
  }

  lemma OthersMoveNoRefund(db: Db, op: Op)
    requires Linked(db) && Refundless(op) && !ShowOrQueue(op)
    ensures Step(db, op).refunds == db.refunds
  {
    hide RecordNotCaptured, Heartbeat, LeaveCall, RunCheckSeen, L.Post, Linked;
  }

  lemma NoRefundMoves(db: Db, op: Op)
    requires Linked(db) && Refundless(op)
    ensures Step(db, op).refunds == db.refunds
  {
    hide Step, Linked;
    if ShowOrQueue(op) {
      QueueStepsMoveNoRefund(db, op);
    } else {
      OthersMoveNoRefund(db, op);
    }
  }

  /** Every step writes at most one refund row, in one of the ways above. */
  lemma StepWritesOneRow(db: Db, op: Op)
    requires Linked(db) && db.nextId !in db.refunds
    ensures RowStep(db, op, Step(db, op))
  {
    hide Step, Linked, RowStep;
    if MayRequest(op) {
      RequestingStepRow(db, op);
    } else if Refundless(op) {
      NoRefundMoves(db, op);
      NoRow(db, op, Step(db, op));
    } else {
      WorkerStepRow(db, op);
    }
  }

  // ------------------------------------------------------------ what that means for all rows

  /** Refunds stay as they were made, final ones stay final, only a claim counts as an attempt, and new ones start with none. */
  ghost predicate RefundsMove(refunds: map<RefundId, Refund>, refunds': map<RefundId, Refund>, claimed: Option<RefundId>) {
    && (forall r :: r in refunds ==> r in refunds')
    && (forall r :: r in refunds ==> SameRefund(refunds[r], refunds'[r]))
    && (forall r :: r in refunds && FinalRefund(refunds[r].status) ==> FinalRefund(refunds'[r].status))
    && (forall r :: r in refunds ==> refunds'[r].attempts == refunds[r].attempts + (if claimed == Some(r) then 1 else 0))
    && (forall r :: r in refunds' && r !in refunds ==> refunds'[r].attempts == 0)
  }

  lemma OldRowMoves(db: Db, op: Op, r: RefundId, refund: Refund)
    requires OldRow(db, op, r, refund)
    ensures r in db.refunds && SameRefund(db.refunds[r], refund)
    ensures FinalRefund(db.refunds[r].status) ==> FinalRefund(refund.status)
    ensures refund.attempts == db.refunds[r].attempts + (if ClaimedBy(db, op) == Some(r) then 1 else 0)
  {
    hide IdMoves, StatusMoves, ClaimedBy, SameRefund;
  }

  lemma OneRowMoves(refunds: map<RefundId, Refund>, r: RefundId, refund: Refund, claimed: Option<RefundId>)
    requires claimed.Some? ==> claimed == Some(r)
    requires if r in refunds
             then && SameRefund(refunds[r], refund) && (FinalRefund(refunds[r].status) ==> FinalRefund(refund.status))
                  && refund.attempts == refunds[r].attempts + (if claimed == Some(r) then 1 else 0)
             else refund.attempts == 0
    ensures RefundsMove(refunds, refunds[r := refund], claimed)
  {
  }

  lemma NoRowMoves(refunds: map<RefundId, Refund>)
    ensures RefundsMove(refunds, refunds, None)
  {
  }

  lemma RowStepMoves(db: Db, op: Op, db': Db)
    requires RowStep(db, op, db')
    ensures RefundsMove(db.refunds, db'.refunds, ClaimedBy(db, op))
  {
    hide RowStep, NewRow, OldRow, RefundsMove, ClaimedBy;
    if db'.refunds == db.refunds {
      NothingWritten(db, op, db');
      NoRowMoves(db.refunds);
    } else {
      var r := WrittenRow(db, op, db');
      if NewRow(db, db', r) {
        NewRowIsNew(db, db', r);
      } else {
        OldRowMoves(db, op, r, db'.refunds[r]);
      }
      OneRowMoves(db.refunds, r, db'.refunds[r], ClaimedBy(db, op));
    }
  }

  /** Every step moves refunds in these ways only. */
  lemma StepMoves(db: Db, op: Op)
    requires Linked(db) && db.nextId !in db.refunds
    ensures RefundsMove(db.refunds, Step(db, op).refunds, ClaimedBy(db, op))
  {
    hide Step, Linked, RowStep, RefundsMove;
    StepWritesOneRow(db, op);
    RowStepMoves(db, op, Step(db, op));
  }

  // ------------------------------------------------------------ whole runs

  /** How often a run hands refund `r` to a worker. */
  ghost function Claims(db: Db, ops: seq<Op>, r: RefundId): nat
    decreases |ops|
  {
    if ops == [] then 0
    else (if ClaimedBy(db, ops[0]) == Some(r) then 1 else 0) + Claims(Next(db, ops[0]), ops[1..], r)
  }

  lemma NextMoves(db: Db, op: Op)
    requires Inv(db)
    ensures RefundsMove(db.refunds, Next(db, op).refunds, ClaimedBy(db, op))
  {
    hide LinksInv, CouplingInv, MoneyInv, PresenceInv, Step, RefundsMove, ClaimedBy;
    NextKeeps(db, op);
    IdsKnown(db);
    hide Linked, Next;
    StepMoves(db, op);
  }

  /** Attempts count the claims, whatever else happens in between. */
  lemma {:induction false} AttemptsCountClaims(db: Db, ops: seq<Op>, r: RefundId)
    requires Inv(db) && r in db.refunds
    ensures r in Run(db, ops).refunds
    ensures Run(db, ops).refunds[r].attempts == db.refunds[r].attempts + Claims(db, ops, r)
    decreases |ops|
  {
    hide Inv, Next, ClaimedBy;
    if ops != [] {
      NextKeeps(db, ops[0]);
      NextMoves(db, ops[0]);
      AttemptsCountClaims(Next(db, ops[0]), ops[1..], r);
    }
  }

  /** Once final, a refund stays final and is never handed out again. */
  lemma {:induction false} FinalIsFinal(db: Db, ops: seq<Op>, r: RefundId)
    requires Inv(db) && r in db.refunds && FinalRefund(db.refunds[r].status)
    ensures r in Run(db, ops).refunds && FinalRefund(Run(db, ops).refunds[r].status)
    ensures Claims(db, ops, r) == 0
    decreases |ops|
  {
    hide Inv, Next;
    if ops != [] {
      NextKeeps(db, ops[0]);
      NextMoves(db, ops[0]);
      FinalIsFinal(Next(db, ops[0]), ops[1..], r);
    }
  }

  lemma WorkerKnown(db: Db)
    requires MoneyInv(db)
    ensures WorkerOk(db.refunds, db.now)
  {
  }

  /** What a worker may still do with a refund at time `now`. */
  ghost predicate WorkerPromises(refund: Refund, now: Millis) {
    && refund.attempts <= MAX_REFUND_ATTEMPTS
    && (FinalRefund(refund.status) ==> !Claimable(refund, now))
    && (!FinalRefund(refund.status) && refund.attempts < MAX_REFUND_ATTEMPTS ==>
          && (forall later: Millis :: refund.nextAttemptAt <= later ==> Claimable(refund, later))
          && Claimable(refund, now + REFUND_LEASE_MS))
  }

  /**
   In every reachable state: at most ten attempts; a final refund is not
   claimable; any other with attempts left is claimable from its nextAttemptAt
   on, which is never more than five minutes away.
   */
  lemma WorkerNeverStalls(start: Db, ops: seq<Op>, r: RefundId)
    requires Initial(start) && r in Run(start, ops).refunds
    ensures WorkerPromises(Run(start, ops).refunds[r], Run(start, ops).now)
  {
    hide LinksInv, CouplingInv, MoneyInv, PresenceInv, Run, Initial;
    Reachable(start, ops);
    WorkerKnown(Run(start, ops));
  }

  /** However a run goes on, a refund's attempts so far and its later claims never pass ten. */
  lemma AtMostTenClaims(start: Db, ops: seq<Op>, more: seq<Op>, r: RefundId)
    requires Initial(start) && r in Run(start, ops).refunds
    ensures Run(start, ops).refunds[r].attempts + Claims(Run(start, ops), more, r) <= MAX_REFUND_ATTEMPTS
  {
    hide LinksInv, CouplingInv, MoneyInv, PresenceInv, Run, Initial, Claims;
    Reachable(start, ops);
    var db := Run(start, ops);
    AttemptsCountClaims(db, more, r);
    RunKeeps(db, more);
    WorkerKnown(Run(db, more));
  }
}
