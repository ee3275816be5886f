/**
 The ledger inside the machine. Whatever happens to shows, calls and refunds,
 the ledger only moves by the business events of LedgerRuns, over tables whose
 amounts never change; so what is proved there of every event sequence holds in
 every reachable state.
 */
module Books {
  import opened Common
  import opened Tables
  import opened Steps
  import opened Invariants
  import opened Preservation
  import opened RefundPreservation
  import opened Runs
  import opened Settlement
  import opened RefundWorker
  import L = Ledger
  import LR = LedgerRuns
  import D = DisputeTotals

  // ------------------------------------------------------------ tables only grow

  /** The amounts the ledger reads, as the database has them now. */
  ghost predicate Agrees(t: LR.Tables, db: Db) {
    && LR.ValidTables(t)
    && (forall a :: a in db.attempts ==> a in t.charges && t.charges[a] == ChargeOf(db.attempts[a]))
    && (forall r :: r in db.refunds ==>
          r in t.refunds && t.refunds[r] == L.Refunding(db.refunds[r].attempt, db.refunds[r].amountCents))
    && (forall d :: d in db.disputes && db.disputes[d].attempt.Some? ==>
          d in t.disputes && t.disputes[d] == db.disputes[d].attempt.value)
  }

  /** A dispute keeps the attempt it was found to be about. */
  ghost predicate DisputesMove(disputes: map<DisputeId, Dispute>, disputes': map<DisputeId, Dispute>) {
    forall d :: d in disputes && disputes[d].attempt.Some? ==> d in disputes' && disputes'[d].attempt == disputes[d].attempt
  }

  lemma AgreesBefore(t: LR.Tables, db: Db, db': Db, claimed: Option<RefundId>, failed: Option<AttemptId>)
    requires Agrees(t, db')
    requires RefundsMove(db.refunds, db'.refunds, claimed) && AttemptsMove(db.attempts, db'.attempts, failed)
    requires DisputesMove(db.disputes, db'.disputes)
    ensures Agrees(t, db)
  {
    hide ChargeOf, LR.ValidTables;
  }

  lemma NoticeDisputes(db: Db, n: Notice)
    requires Linked(db)
    ensures DisputesMove(db.disputes, ApplyNotice(db, n).disputes)
  {
    if n.RefundNotice? {
      RefundNoticeFrame(db, n);
      hide ApplyNotice, Linked;
    } else {
      hide RecordCaptured, RecordNotCaptured, L.AdjustForDispute, Linked;
    }
  }

  lemma WebhookDisputes(db: Db, event: nat, n: Notice)
    requires Linked(db)
    ensures DisputesMove(db.disputes, Webhook(db, event, n).disputes)
  {
    hide ApplyNotice;
    if event !in db.events {
      NoticeDisputes(db.(events := db.events + {event}), n);
    }
  }

  lemma ShowStepsLeaveDisputes(db: Db, op: Op)
    requires Linked(db) && ShowOrQueue(op)
    ensures Step(db, op).disputes == db.disputes
  {
    hide CreateShow, StartShow, EndShow, CloseQueueBatch, Prepare, AttachIntent, MarkAuthorized, Join, Leave, Select;
    hide Linked, IsCloseBatch;
  }

  lemma CallStepsLeaveDisputes(db: Db, op: Op)
    requires Linked(db) && PaymentOrCall(op) && !op.ExpireOp?
    ensures Step(db, op).disputes == db.disputes
  {
    hide RecordCaptured, RecordNotCaptured, Transition, Linked;
  }

  lemma EndingStepsLeaveDisputes(db: Db, op: Op)
    requires Linked(db) && (op.ExpireOp? || op.CheckGraceOp?)
    ensures Step(db, op).disputes == db.disputes
  {
    if op.CheckGraceOp? {
      GraceFrame(db, op.due, op.seat, op.disconnectedAt);
    } else {
      ExpireFrame(db, op.due, op.call);
    }
    hide Linked, Expire, RunCheckGrace;
  }

  lemma SeatStepsLeaveDisputes(db: Db, op: Op)
    requires Linked(db) && OfSeat(op) && !op.CheckGraceOp?
    ensures Step(db, op).disputes == db.disputes
  {
    hide Heartbeat, LeaveCall, RunCheckSeen, Linked;
  }

  lemma WorkersLeaveDisputes(db: Db, op: Op)
    requires Linked(db) && (op.ClaimRefundOp? || op.RecordRefundOp? || op.RetryRefundOp? || op.ReserveOp?)
    ensures Step(db, op).disputes == db.disputes
  {
    hide ClaimRefund, RecordRefund, RetryRefund, L.Post, Linked;
  }

  lemma StepDisputes(db: Db, op: Op)
    requires Linked(db)
    ensures DisputesMove(db.disputes, Step(db, op).disputes)
  {
    if op.WebhookOp? {
      hide Webhook, Linked;
      WebhookDisputes(db, op.event, op.notice);
    } else {
      hide Step, Linked;
      if ShowOrQueue(op) {
        ShowStepsLeaveDisputes(db, op);
      } else if op.ExpireOp? || op.CheckGraceOp? {
        EndingStepsLeaveDisputes(db, op);
      } else if PaymentOrCall(op) {
        CallStepsLeaveDisputes(db, op);
      } else if OfSeat(op) {
        SeatStepsLeaveDisputes(db, op);
      } else {
        WorkersLeaveDisputes(db, op);
      }
    }
  }

  lemma StepAgrees(t: LR.Tables, db: Db, op: Op)
    requires Inv(db) && Agrees(t, Next(db, op))
    ensures Agrees(t, db)
  {
    hide LinksInv, CouplingInv, MoneyInv, PresenceInv, Step, Agrees, RefundsMove, AttemptsMove, DisputesMove;
    NextKeeps(db, op);
    IdsKnown(db);
    hide Linked, Next;
    StepMoves(db, op);
    FailuresAreReported(db, op);
    StepDisputes(db, op);
    AgreesBefore(t, db, Step(db, op), ClaimedBy(db, op), FailureNoticeOf(op));
  }

  lemma TablesKnown(t: LR.Tables, db: Db)
    requires Agrees(t, db)
    ensures LR.ValidTables(t)
  {
    hide LR.ValidTables;
  }

  // ------------------------------------------------------------ one step, at most one event

  /** The call goes live for the first time and its payment was captured. */
  predicate Earns(db: Db, op: Op) {
    op.TransitionOp? && op.target == CallLive && op.call in db.calls && db.calls[op.call].status == CallConnecting
    && db.calls[op.call].startedAt.None? && db.calls[op.call].attempt.Some? && db.calls[op.call].attempt.value in db.attempts
    && db.attempts[db.calls[op.call].attempt.value].status == PayCaptured
  }

  ghost function NoticeEvent(db: Db, n: Notice): Option<LR.Event> {
    match n
    case RefundNotice(sid, intent, outcome, amount) =>
      if outcome != Succeeded then None
      else
        var found := RefundFor(db.refunds, sid, intent);
        if found.Some? then Some(LR.Refunded(found.value, db.now))
        else if AdoptRefund(db, sid, intent, amount).Some? then Some(LR.Refunded(db.nextId, db.now))
        else None
    case DisputeNotice(d, intent, status) =>
      if DisputedAttempt(db, d, intent).Some? then Some(LR.Disputed(d, status, db.now)) else None
    case _ => None
  }

  /** The business event a step amounts to, as far as the ledger is concerned. */
  ghost function EventOf(db: Db, op: Op): Option<LR.Event> {
    match op
    case TransitionOp(c, role, target) =>
      if Earns(db, op) then Some(LR.Credited(db.calls[c].attempt.value, db.now + db.holdMs)) else None
    case RecordRefundOp(r, sid, outcome) =>
      if outcome == Succeeded && r in db.refunds && !FinalRefund(db.refunds[r].status) then Some(LR.Refunded(r, db.now)) else None
    case WebhookOp(event, n) => if NoticeOk(n) && event !in db.events then NoticeEvent(db, n) else None
    case ReserveOp(item, account, amount) => Some(LR.Reserved(item, account, amount, db.now))
    case _ => None
  }

  ghost function Posted(t: LR.Tables, l: L.Ledger, ev: Option<LR.Event>): L.Ledger
    requires LR.ValidTables(t) && L.Valid(l)
  {
    if ev.None? then l else LR.Step(t, l, ev.value)
  }

  lemma CreditIsEvent(t: LR.Tables, db: Db, a: AttemptId)
    requires LR.ValidTables(t) && L.Valid(db.ledger) && a in t.charges
    requires a in db.attempts && db.attempts[a].status == PayCaptured && t.charges[a] == ChargeOf(db.attempts[a])
    ensures CreditEarning(db, a) == LR.Step(t, db.ledger, LR.Credited(a, db.now + db.holdMs))
  {
    hide L.Post, L.Valid;
  }

  /** A transition posts only when it earns. */
  lemma TransitionLedger(db: Db, c: CallId, role: Role, target: CallStatus)
    requires c in db.calls ==> db.calls[c].entry in db.entries
    requires c in db.calls && db.calls[c].attempt.Some? ==> db.calls[c].attempt.value in db.attempts
    ensures var r := Transition(db, c, role, target);
      if Earns(db, TransitionOp(c, role, target)) then r.Ok? && r.value.ledger == CreditEarning(db, db.calls[c].attempt.value)
      else r.Ok? ==> r.value.ledger == db.ledger
  {
    hide Finish, L.Post, ChargeOf;
  }

  lemma TransitionIsEvent(t: LR.Tables, db: Db, c: CallId, role: Role, target: CallStatus)
    requires Linked(db) && Agrees(t, db)
    ensures var r := Transition(db, c, role, target);
      if r.Ok? then r.value.ledger == Posted(t, db.ledger, EventOf(db, TransitionOp(c, role, target)))
      else EventOf(db, TransitionOp(c, role, target)) == None
  {
    hide LR.Step, LR.ValidTables, L.Valid, ChargeOf, CreditEarning, Transition;
    TransitionLedger(db, c, role, target);
    if Earns(db, TransitionOp(c, role, target)) {
      CreditIsEvent(t, db, db.calls[c].attempt.value);
    }
    hide Agrees, Linked;
  }

  lemma ReverseIsEvent(t: LR.Tables, db: Db, r: RefundId)
    requires LR.ValidTables(t) && L.Valid(db.ledger)
    requires r in db.refunds && db.refunds[r].attempt in db.attempts && db.attempts[db.refunds[r].attempt].amountCents > 0
    requires r in t.refunds && t.refunds[r] == L.Refunding(db.refunds[r].attempt, db.refunds[r].amountCents)
    requires db.refunds[r].attempt in t.charges
    requires t.charges[db.refunds[r].attempt] == ChargeOf(db.attempts[db.refunds[r].attempt])
    ensures Reverse(db, r) == LR.Step(t, db.ledger, LR.Refunded(r, db.now))
  {
    hide L.ReverseForRefund, L.Valid;
  }

  lemma RecordLedger(db: Db, r: RefundId, sid: nat, outcome: RefundStatus)
    requires L.Valid(db.ledger)
    requires r in db.refunds ==> db.refunds[r].attempt in db.attempts && db.attempts[db.refunds[r].attempt].amountCents > 0
    ensures RecordRefund(db, r, sid, outcome).ledger
         == if outcome == Succeeded && r in db.refunds && !FinalRefund(db.refunds[r].status) then Reverse(db, r) else db.ledger
  {
    hide Reverse, L.Valid;
  }

  lemma RecordIsEvent(t: LR.Tables, db: Db, r: RefundId, sid: nat, outcome: RefundStatus)
    requires Linked(db) && Agrees(t, db)
    ensures RecordRefund(db, r, sid, outcome).ledger == Posted(t, db.ledger, EventOf(db, RecordRefundOp(r, sid, outcome)))
  {
    hide Reverse, Agrees, LR.Step, LR.ValidTables, L.Valid, RecordRefund, ChargeOf;
    TablesKnown(t, db);
    RecordLedger(db, r, sid, outcome);
    if r in db.refunds {
      RowAgrees(t, db, db, r);
      ReverseIsEvent(t, db, r);
    }
  }

  /** The refund row a notice settles is the one the tables will show. */
  lemma SettleIsEvent(t: LR.Tables, db: Db, r: RefundId, sid: nat, outcome: RefundStatus)
    requires LR.ValidTables(t) && L.Valid(db.ledger)
    requires r in db.refunds && db.refunds[r].attempt in db.attempts && db.attempts[db.refunds[r].attempt].amountCents > 0
    requires r in t.refunds && t.refunds[r] == L.Refunding(db.refunds[r].attempt, db.refunds[r].amountCents)
    requires db.refunds[r].attempt in t.charges
    requires t.charges[db.refunds[r].attempt] == ChargeOf(db.attempts[db.refunds[r].attempt])
    ensures SettleRefund(db, r, sid, outcome).ledger
         == Posted(t, db.ledger, if outcome == Succeeded then Some(LR.Refunded(r, db.now)) else None)
  {
    hide LR.Step, LR.ValidTables, L.Valid, Reverse;
    ReverseIsEvent(t, db, r);
  }

  lemma SettleKeepsRow(db: Db, r: RefundId, sid: nat, outcome: RefundStatus)
    requires L.Valid(db.ledger)
    requires r in db.refunds && db.refunds[r].attempt in db.attempts && db.attempts[db.refunds[r].attempt].amountCents > 0
    ensures var refunds' := SettleRefund(db, r, sid, outcome).refunds;
      r in refunds' && SameRefund(db.refunds[r], refunds'[r])
  {
    SettledRow(db, r, sid, outcome);
    hide L.Valid, SettleRefund;
  }

  /** What a refund row has to show for its reversal to be the event of the tables. */
  lemma RowAgrees(t: LR.Tables, db: Db, db': Db, r: RefundId)
    requires Agrees(t, db) && Agrees(t, db') && r in db'.refunds && db'.refunds[r].attempt in db.attempts
    ensures r in t.refunds && t.refunds[r] == L.Refunding(db'.refunds[r].attempt, db'.refunds[r].amountCents)
    ensures db'.refunds[r].attempt in t.charges && t.charges[db'.refunds[r].attempt] == ChargeOf(db.attempts[db'.refunds[r].attempt])
  {
    hide ChargeOf, LR.ValidTables;
  }

  lemma AdoptedIsEvent(t: LR.Tables, db: Db, sid: nat, intent: Option<AttemptId>, outcome: RefundStatus, amount: Option<nat>)
    requires Linked(db) && Agrees(t, db) && AdoptRefund(db, sid, intent, amount).Some?
    requires Agrees(t, SettleRefund(AdoptRefund(db, sid, intent, amount).value, db.nextId, sid, outcome))
    ensures SettleRefund(AdoptRefund(db, sid, intent, amount).value, db.nextId, sid, outcome).ledger
         == Posted(t, db.ledger, if outcome == Succeeded then Some(LR.Refunded(db.nextId, db.now)) else None)
  {
    var adopted := AdoptRefund(db, sid, intent, amount).value;
    var r := db.nextId;
    assert adopted.attempts == db.attempts && adopted.ledger == db.ledger && adopted.now == db.now;
    assert LR.ValidTables(t);
    assert adopted.attempts[adopted.refunds[r].attempt].amountCents > 0;
    hide SettleRefund, Agrees, ChargeOf, LR.ValidTables, L.Valid, LR.Step, AdoptRefund, Posted;
    SettleKeepsRow(adopted, r, sid, outcome);
    RowAgrees(t, db, SettleRefund(adopted, r, sid, outcome), r);
    SettleIsEvent(t, adopted, r, sid, outcome);
  }

  lemma RefundNoticeIsEvent(t: LR.Tables, db: Db, n: Notice)
    requires Linked(db) && Agrees(t, db) && Agrees(t, ApplyNotice(db, n)) && n.RefundNotice? && NoticeOk(n)
    ensures ApplyNotice(db, n).ledger == Posted(t, db.ledger, NoticeEvent(db, n))
  {
    assert LR.ValidTables(t);
    hide LR.Step, LR.ValidTables, L.Valid, ChargeOf, SettleRefund, AdoptRefund, Agrees;
    var found := RefundFor(db.refunds, n.stripeId, n.refunded);
    if found.Some? {
      RowAgrees(t, db, db, found.value);
      SettleIsEvent(t, db, found.value, n.stripeId, n.outcome);
    } else if AdoptRefund(db, n.stripeId, n.refunded, n.amount).Some? {
      AdoptedIsEvent(t, db, n.stripeId, n.refunded, n.outcome, n.amount);
    }
  }

  lemma DisputeNoticeIsEvent(t: LR.Tables, db: Db, n: Notice)
    requires Linked(db) && Agrees(t, ApplyNotice(db, n)) && n.DisputeNotice?
    ensures ApplyNotice(db, n).ledger == Posted(t, db.ledger, NoticeEvent(db, n))
  {
    hide LR.ValidTables, L.Valid, L.AdjustForDispute;
    var a := DisputedAttempt(db, n.dispute, n.disputed);
    assert ApplyNotice(db, n).disputes[n.dispute].attempt == a;
    if a.None? {
      NoAttemptNoDispute(db.ledger, n.dispute, n.status, db.now);
    } else {
      assert n.dispute in t.disputes && t.disputes[n.dispute] == a.value;
    }
  }

  lemma NoAttemptNoDispute(l: L.Ledger, d: DisputeId, s: L.DisputeStatus, now: int)
    ensures L.AdjustForDispute(l, d, None, s, now) == l
  {
  }

  lemma NoticeIsEvent(t: LR.Tables, db: Db, n: Notice)
    requires Linked(db) && Agrees(t, db) && Agrees(t, ApplyNotice(db, n)) && NoticeOk(n)
    ensures ApplyNotice(db, n).ledger == Posted(t, db.ledger, NoticeEvent(db, n))
  {
    if n.RefundNotice? {
      RefundNoticeIsEvent(t, db, n);
    } else if n.DisputeNotice? {
      DisputeNoticeIsEvent(t, db, n);
    } else {
      hide RecordCaptured, RecordNotCaptured, Agrees, L.Valid, LR.ValidTables;
    }
  }

  lemma WebhookIsEvent(t: LR.Tables, db: Db, event: nat, n: Notice)
    requires Linked(db) && Agrees(t, db) && Agrees(t, Webhook(db, event, n)) && NoticeOk(n)
    ensures Webhook(db, event, n).ledger == Posted(t, db.ledger, EventOf(db, WebhookOp(event, n)))
  {
    hide ApplyNotice, LR.Step, NoticeEvent, L.Valid, LR.ValidTables, Agrees;
    TablesKnown(t, db);
    if event !in db.events {
      var noted := db.(events := db.events + {event});
      AgreesNoted(t, db, noted);
      NoticeIsEvent(t, noted, n);
      EventsDoNotMatter(db, noted, n);
    }
  }

  lemma AgreesNoted(t: LR.Tables, db: Db, noted: Db)
    requires Agrees(t, db) && noted == db.(events := noted.events)
    ensures Agrees(t, noted)
  {
    hide LR.ValidTables, ChargeOf;
  }

  lemma EventsDoNotMatter(db: Db, noted: Db, n: Notice)
    requires noted == db.(events := noted.events)
    ensures NoticeEvent(noted, n) == NoticeEvent(db, n)
  {
  }

  /** The steps that may post. */
  predicate Posts(op: Op) {
    op.TransitionOp? || op.RecordRefundOp? || op.WebhookOp? || op.ReserveOp?
  }

  /** The steps of seats and of the refund worker that post nothing. */
  predicate SeatOrWorker(op: Op) {
    || op.HeartbeatOp? || op.LeaveCallOp? || op.CheckSeenOp? || op.CheckGraceOp? || op.ClaimRefundOp? || op.RetryRefundOp?
  }

  predicate QueueOrShow(op: Op) {
    || op.Tick? || op.CreateShowOp? || op.StartShowOp? || op.EndShowOp? || op.CloseQueueOp? || op.JoinOp? || op.LeaveOp?
  }

  lemma SeatsPostNothing(db: Db, op: Op)
    requires Linked(db) && (op.HeartbeatOp? || op.LeaveCallOp? || op.CheckSeenOp?)
    ensures Step(db, op).ledger == db.ledger
  {
    hide Linked, Heartbeat, LeaveCall, RunCheckSeen;
  }

  lemma WorkersPostNothing(db: Db, op: Op)
    requires Linked(db) && (op.ClaimRefundOp? || op.RetryRefundOp?)
    ensures Step(db, op).ledger == db.ledger
  {
    hide Linked, ClaimRefund, RetryRefund;
  }

  lemma JobsPostNothing(db: Db, op: Op)
    requires Linked(db) && (op.CheckGraceOp? || op.ExpireOp?)
    ensures Step(db, op).ledger == db.ledger
  {
    if op.CheckGraceOp? {
      GraceFrame(db, op.due, op.seat, op.disconnectedAt);
    } else {
      ExpireFrame(db, op.due, op.call);
    }
    hide Linked, Expire, RunCheckGrace;
  }

  lemma ShowsPostNothing(db: Db, op: Op)
    requires Linked(db) && QueueOrShow(op)
    ensures Step(db, op).ledger == db.ledger
  {
    hide Linked, IsCloseBatch, StartShow, EndShow, CloseQueueBatch, Join, Leave;
  }

  lemma PaymentsPostNothing(db: Db, op: Op)
    requires Linked(db) && !Posts(op) && !SeatOrWorker(op) && !QueueOrShow(op) && !op.ExpireOp?
    ensures Step(db, op).ledger == db.ledger
  {
    hide Linked, Prepare, Select, RecordCaptured, RecordNotCaptured;
  }

  lemma OthersPostNothing(db: Db, op: Op)
    requires Linked(db) && !Posts(op)
    ensures Step(db, op).ledger == db.ledger && EventOf(db, op) == None
  {
    hide EventOf, Step, Linked;
    OthersAreNoEvents(db, op);
    if op.HeartbeatOp? || op.LeaveCallOp? || op.CheckSeenOp? {
      SeatsPostNothing(db, op);
    } else if op.CheckGraceOp? || op.ExpireOp? {
      JobsPostNothing(db, op);
    } else if SeatOrWorker(op) {
      WorkersPostNothing(db, op);
    } else if QueueOrShow(op) {
      ShowsPostNothing(db, op);
    } else {
      PaymentsPostNothing(db, op);
    }
  }

  lemma OthersAreNoEvents(db: Db, op: Op)
    requires !Posts(op)
    ensures EventOf(db, op) == None
  {
    hide NoticeEvent, Earns;
  }

  lemma ReserveIsEvent(t: LR.Tables, db: Db, item: ItemId, account: L.Account, amount: nat)
    requires LR.ValidTables(t) && L.Valid(db.ledger)
    ensures L.Post(db.ledger, Reservation(item, account, amount, db.now)) == LR.Step(t, db.ledger, LR.Reserved(item, account, amount, db.now))
  {
    hide L.Post, L.Valid, LR.ValidTables;
  }

  lemma LinkedLedger(db: Db)
    requires Linked(db)
    ensures L.Valid(db.ledger)
  {
    hide L.Valid;
  }

  /** The ledger after a step is the ledger before it with at most one event applied. */
  lemma StepIsEvent(t: LR.Tables, db: Db, op: Op)
    requires Linked(db) && Agrees(t, db) && Agrees(t, Step(db, op))
    ensures Step(db, op).ledger == Posted(t, db.ledger, EventOf(db, op))
  {
    hide L.Valid, LR.ValidTables, LR.Step, Agrees, Linked, NoticeEvent, Earns, Transition, RecordRefund, Webhook, L.Post;
    hide CreateShow, StartShow, EndShow, CloseQueueBatch, Prepare, AttachIntent, MarkAuthorized, Join, Leave, Select, Expire;
    hide RecordCaptured, RecordNotCaptured, Heartbeat, LeaveCall, RunCheckSeen, RunCheckGrace, ClaimRefund, RetryRefund, IsCloseBatch;
    TablesKnown(t, db);
    LinkedLedger(db);
    match op
    case TransitionOp(c, role, target) => TransitionIsEvent(t, db, c, role, target);
    case RecordRefundOp(r, sid, outcome) => RecordIsEvent(t, db, r, sid, outcome);
    case WebhookOp(event, n) => if NoticeOk(n) { WebhookIsEvent(t, db, event, n); }
    case ReserveOp(item, account, amount) => ReserveIsEvent(t, db, item, account, amount);
    case _ =>
      hide Step;
      OthersPostNothing(db, op);
  }

  // ------------------------------------------------------------ whole runs

  ghost function AsSeq(ev: Option<LR.Event>): seq<LR.Event> {
    if ev.None? then [] else [ev.value]
  }

  /** The business events of a run, in order. */
  ghost function EventsOf(db: Db, ops: seq<Op>): seq<LR.Event>
    decreases |ops|
  {
    if ops == [] then [] else AsSeq(EventOf(db, ops[0])) + EventsOf(Next(db, ops[0]), ops[1..])
  }

  lemma PostedIsRun(t: LR.Tables, l: L.Ledger, ev: Option<LR.Event>, rest: seq<LR.Event>)
    requires LR.ValidTables(t) && L.Valid(l)
    ensures L.Valid(Posted(t, l, ev))
    ensures LR.Run(t, l, AsSeq(ev) + rest) == LR.Run(t, Posted(t, l, ev), rest)
  {
    hide L.Valid, LR.ValidTables, LR.Step;
    if ev.Some? {
      assert ([ev.value] + rest)[1..] == rest;
    } else {
      assert [] + rest == rest;
    }
  }

  lemma LedgerKnown(db: Db)
    requires MoneyInv(db)
    ensures L.Valid(db.ledger)
  {
    hide L.Valid;
  }

  lemma {:induction false} RunAgrees(t: LR.Tables, db: Db, ops: seq<Op>)
    requires Inv(db) && Agrees(t, Run(db, ops))
    ensures Agrees(t, db)
    decreases |ops|
  {
    hide LinksInv, CouplingInv, MoneyInv, PresenceInv, Agrees, Next;
    if ops != [] {
      NextKeeps(db, ops[0]);
      RunAgrees(t, Next(db, ops[0]), ops[1..]);
      StepAgrees(t, db, ops[0]);
    }
  }

  lemma {:induction false} RunIsEvents(t: LR.Tables, db: Db, ops: seq<Op>)
    requires Inv(db) && Agrees(t, Run(db, ops)) && LR.ValidTables(t) && L.Valid(db.ledger)
    ensures Run(db, ops).ledger == LR.Run(t, db.ledger, EventsOf(db, ops))
    decreases |ops|
  {
    hide LinksInv, CouplingInv, MoneyInv, PresenceInv, Agrees, Next, LR.ValidTables, L.Valid, EventOf, AsSeq, Posted, LR.Run;
    if ops == [] {
      EmptyRun(t, db.ledger);
    } else {
      var db' := Next(db, ops[0]);
      NextKeeps(db, ops[0]);
      LedgerKnown(db');
      RunAgrees(t, db', ops[1..]);
      StepAgrees(t, db, ops[0]);
      hide Step, Linked;
      StepIsEvent(t, db, ops[0]);
      RunIsEvents(t, db', ops[1..]);
      PostedIsRun(t, db.ledger, EventOf(db, ops[0]), EventsOf(db', ops[1..]));
    }
  }

  lemma EmptyRun(t: LR.Tables, l: L.Ledger)
    requires LR.ValidTables(t) && L.Valid(l)
    ensures LR.Run(t, l, []) == l
  {
    hide LR.ValidTables, L.Valid;
  }

  /** The amounts of the final state, which were the amounts all along. */
  ghost function TablesOf(db: Db): LR.Tables {
    LR.Tables(
      map a | a in db.attempts :: ChargeOf(db.attempts[a]),
      map r | r in db.refunds :: L.Refunding(db.refunds[r].attempt, db.refunds[r].amountCents),
      map d | d in db.disputes && db.disputes[d].attempt.Some? :: db.disputes[d].attempt.value)
  }

  lemma TablesAgree(db: Db)
    requires LinksInv(db) && MoneyInv(db)
    ensures Agrees(TablesOf(db), db)
  {
    hide L.Valid, EntriesOk, CallsLinked, IdsBelow, TiersOk, EarningsFollowCalls, WorkerOk;
  }

  /**
   The machine refines the ledger model: in every reachable state the ledger is
   what its business events, replayed over the amounts in the database, produce.
   */
  lemma LedgerRefines(start: Db, ops: seq<Op>)
    requires Initial(start)
    ensures LR.ValidTables(TablesOf(Run(start, ops))) && L.Valid(L.EMPTY)
    ensures Run(start, ops).ledger == LR.Run(TablesOf(Run(start, ops)), L.EMPTY, EventsOf(start, ops))
  {
    LR.EmptyIsValid();
    InitialInv(start);
    assert start.ledger == L.EMPTY;
    Reachable(start, ops);
    var db := Run(start, ops);
    hide LinksInv, CouplingInv, MoneyInv, PresenceInv, Initial, Run, Agrees, TablesOf, EventsOf, L.Valid, LR.ValidTables, L.EMPTY, LR.Run;
    TablesAgree(db);
    TablesKnown(TablesOf(db), db);
    RunIsEvents(TablesOf(db), start, ops);
  }

  /** In every reachable state the books balance, to the cent and at every moment. */
  lemma BooksBalance(start: Db, ops: seq<Op>, acct: L.Account, now: int)
    requires Initial(start)
    ensures var l := Run(start, ops).ledger;
      && L.Total(l, acct) == L.Sum(l.entries, L.Of(acct))
      && L.BalanceAt(l, acct, now).availableCents == L.Sum(l.entries, L.Matured(acct, now))
      && (forall i, j :: 0 <= i < |l.entries| && 0 <= j < |l.entries| && l.entries[i].key == l.entries[j].key ==> i == j)
  {
    LedgerRefines(start, ops);
    hide Initial, Run, TablesOf, EventsOf, LR.Run;
    LR.RunKeepsBooks(TablesOf(Run(start, ops)), EventsOf(start, ops), acct, now);
  }

  /** In every reachable state a dispute has cost its creator nothing, or exactly the earning it is about. */
  lemma DisputesCostTheEarning(start: Db, ops: seq<Op>, d: DisputeId)
    requires Initial(start)
    ensures var db := Run(start, ops);
      var net := L.Sum(db.ledger.entries, L.DisputeOf(d));
      || net == 0
      || (&& d in db.disputes && db.disputes[d].attempt.Some?
          && L.EarningFor(db.ledger.entries, db.disputes[d].attempt.value).Some?
          && net == -L.EarningFor(db.ledger.entries, db.disputes[d].attempt.value).value.amountCents)
  {
    LedgerRefines(start, ops);
    var t := TablesOf(Run(start, ops));
    assert forall x :: x in t.disputes ==>
      x in Run(start, ops).disputes && Run(start, ops).disputes[x].attempt == Some(t.disputes[x]);
    hide Initial, Run, TablesOf, EventsOf, LR.Run, LR.ValidTables, L.Valid, L.EarningFor, L.Sum;
    LR.DisputeNetEffect(t, EventsOf(start, ops), d);
  }

  lemma EarnedIsCharged(db: Db, a: AttemptId)
    requires MoneyInv(db) && L.EarningFor(db.ledger.entries, a).Some?
    ensures a in TablesOf(db).charges
  {
    L.EarningByKey(db.ledger, a);
    hide L.Valid, L.EarningFor, L.Keys, RefundsOk, WorkerOk;
  }

  lemma NothingEarnedYet(t: LR.Tables, a: AttemptId)
    ensures LR.ReversalsTraced(t, L.EMPTY) && LR.Unreversed(L.EMPTY, a) && L.EarningFor(L.EMPTY.entries, a).None?
  {
  }

  lemma ShareSumBounds(t: LR.Tables, a: AttemptId, earning: int, rs: set<RefundId>)
    requires LR.ValidTables(t) && a in t.charges && earning > 0 && rs <= LR.SharesOf(t, a, earning).Keys
    ensures LR.SumOver(LR.SharesOf(t, a, earning), rs) >= 0
  {
    hide LR.ValidTables;
    LR.SumOverNonNegative(LR.SharesOf(t, a, earning), rs);
  }

  /**
   In every reachable state the amount taken back from the creator for a payment
   lies between nothing and the earning, and is the smaller of the earning and
   the sum of the rounded shares of the refunds that succeeded after the credit.
   */
  lemma RefundsTakeBackTheirShares(start: Db, ops: seq<Op>, a: AttemptId)
    requires Initial(start) && L.EarningFor(Run(start, ops).ledger.entries, a).Some?
    ensures LR.ValidTables(TablesOf(Run(start, ops))) && L.Valid(L.EMPTY) && a in TablesOf(Run(start, ops)).charges
    ensures var db := Run(start, ops);
      var t := TablesOf(db);
      var earning := L.EarningFor(db.ledger.entries, a).value.amountCents;
      && 0 <= LR.Reversed(db.ledger, a) <= earning
      && LR.Reversed(db.ledger, a)
         == Min(earning, LR.SumOver(LR.SharesOf(t, a, earning),
                                    LR.RefundsIn(t, LR.AfterCredit(t, L.EMPTY, EventsOf(start, ops), a), a)))
  {
    hide LinksInv, CouplingInv, MoneyInv, PresenceInv, Initial, Run, LR.Run, LR.AfterCredit, TablesOf, EventsOf;
    hide L.Valid, LR.ValidTables, L.EarningFor, LR.ReversalsTraced, LR.Unreversed, LR.Reversed, L.EMPTY;
    LedgerRefines(start, ops);
    Reachable(start, ops);
    var db := Run(start, ops);
    EarnedIsCharged(db, a);
    var t := TablesOf(db);
    NothingEarnedYet(t, a);
    var since := LR.AfterCredit(t, L.EMPTY, EventsOf(start, ops), a);
    LR.RefundTotalSinceCredit(t, L.EMPTY, EventsOf(start, ops), a);
    var earning := L.EarningFor(db.ledger.entries, a).value.amountCents;
    ShareSumBounds(t, a, earning, LR.RefundsIn(t, since, a));
  }

  /**
   In every reachable state what a creator keeps of a payment is the earning,
   less what refunds took back, less the earning again for every open dispute;
   more was taken than earned unless no dispute is open, or just one and no
   refund has taken anything back.
   */
  lemma WhatACreatorKeeps(start: Db, ops: seq<Op>, a: AttemptId)
    requires Initial(start) && L.EarningFor(Run(start, ops).ledger.entries, a).Some?
    ensures var db := Run(start, ops);
      var earning := L.EarningFor(db.ledger.entries, a).value.amountCents;
      var open := |D.OpenDisputes(TablesOf(db), db.ledger, a)|;
      && D.Kept(db.ledger, a) == earning - LR.Reversed(db.ledger, a) - open * earning
      && (D.Kept(db.ledger, a) >= 0 <==> open == 0 || (open == 1 && LR.Reversed(db.ledger, a) == 0))
  {
    hide LinksInv, CouplingInv, MoneyInv, PresenceInv, Initial, Run, LR.Run, TablesOf, EventsOf;
    hide L.Valid, LR.ValidTables, L.EarningFor, LR.Reversed, L.EMPTY, D.Kept, D.OpenDisputes;
    LedgerRefines(start, ops);
    Reachable(start, ops);
    EarnedIsCharged(Run(start, ops), a);
    D.TakenForAPayment(TablesOf(Run(start, ops)), EventsOf(start, ops), a);
  }
}
