/**
 Every run of the calls-and-payments machine: any sequence of mutations, job
 runs, Stripe notices and clock ticks, in any order, from an empty database.
 */
module Runs {
  import opened Common
  import opened Tables
  import opened Steps
  import opened Invariants
  import opened Frames
  import opened Preservation
  import opened QueuePreservation
  import opened RefundPreservation
  import L = Ledger

  datatype Op =
    | Tick(to: Millis)
    | CreateShowOp(creator: UserId)
    | StartShowOp(show: ShowId, creator: UserId, ready: bool)
    | EndShowOp(show: ShowId, creator: UserId)
    | CloseQueueOp(due: Millis, show: ShowId, batch: set<EntryId>)
    | PrepareOp(show: ShowId, tier: TierId, payer: UserId)
    | AttachIntentOp(attempt: AttemptId)
    | AuthorizeOp(attempt: AttemptId)
    | JoinOp(show: ShowId, viewer: UserId, tier: TierId, payment: Option<AttemptId>)
    | LeaveOp(show: ShowId, viewer: UserId)
    | SelectOp(show: ShowId, creator: UserId, entry: EntryId)
    | CapturedOp(attempt: AttemptId)
    | NotCapturedOp(attempt: AttemptId, canceled: bool)
    | TransitionOp(call: CallId, role: Role, target: CallStatus)
    | ExpireOp(due: Millis, call: CallId)
    | HeartbeatOp(seat: Seat)
    | LeaveCallOp(seat: Seat)
    | CheckSeenOp(due: Millis, seat: Seat, seenAt: Millis)
    | CheckGraceOp(due: Millis, seat: Seat, disconnectedAt: Millis)
    | ClaimRefundOp(refund: RefundId)
    | RecordRefundOp(refund: RefundId, stripeId: nat, outcome: RefundStatus)
    | RetryRefundOp(refund: RefundId)
    | WebhookOp(event: nat, notice: Notice)
    | ReserveOp(item: ItemId, account: L.Account, amount: nat)

  function OrElse(r: Result<Db, Error>, db: Db): Db {
    if r.Ok? then r.value else db
  }

  function Reservation(item: ItemId, account: L.Account, amount: nat, now: int): L.Entry {
    L.Entry(account, L.PayoutReservation, -(amount as int), now, L.ReservationKey(item), None)
  }

  /** Time only moves forward. */
  function Advance(db: Db, to: Millis): (d: Db)
    ensures d == db.(now := d.now)
  {
    if db.now <= to then db.(now := to) else db
  }

  /** One step. A failed mutation, or a job that is not scheduled, changes nothing. */
  ghost function Step(db: Db, op: Op): Db
    requires Linked(db)
  {
    match op
    case Tick(to) => Advance(db, to)
    case CreateShowOp(creator) => CreateShow(db, creator)
    case StartShowOp(sh, creator, ready) => OrElse(StartShow(db, sh, creator, ready), db)
    case EndShowOp(sh, creator) => OrElse(EndShow(db, sh, creator), db)
    case CloseQueueOp(due, sh, batch) =>
      if CloseQueue(due, sh) in db.jobs && IsCloseBatch(db.entries, sh, batch) then CloseQueueBatch(db, due, sh, batch) else db
    case PrepareOp(sh, tier, payer) => OrElse(Prepare(db, sh, tier, payer), db)
    case AttachIntentOp(a) => OrElse(AttachIntent(db, a), db)
    case AuthorizeOp(a) => MarkAuthorized(db, a)
    case JoinOp(sh, viewer, tier, payment) => OrElse(Join(db, sh, viewer, tier, payment), db)
    case LeaveOp(sh, viewer) => OrElse(Leave(db, sh, viewer), db)
    case SelectOp(sh, creator, e) => OrElse(Select(db, sh, creator, e), db)
    case CapturedOp(a) => if a in db.attempts && db.attempts[a].hasIntent then RecordCaptured(db, a) else db
    case NotCapturedOp(a, canceled) =>
      if a in db.attempts && db.attempts[a].hasIntent
      then RecordNotCaptured(db, a, if canceled then PayCanceled else PayFailed) else db
    case TransitionOp(c, role, target) => OrElse(Transition(db, c, role, target), db)
    case ExpireOp(due, c) => if ExpireCall(due, c) in db.jobs && due <= db.now then Expire(db, due, c) else db
    case HeartbeatOp(seat) => OrElse(Heartbeat(db, seat), db)
    case LeaveCallOp(seat) => OrElse(LeaveCall(db, seat), db)
    case CheckSeenOp(due, seat, seenAt) =>
      if CheckSeen(due, seat, seenAt) in db.jobs then RunCheckSeen(db, due, seat, seenAt) else db
    case CheckGraceOp(due, seat, at) =>
      if CheckGrace(due, seat, at) in db.jobs then RunCheckGrace(db, due, seat, at) else db
    case ClaimRefundOp(r) => ClaimRefund(db, r)
    case RecordRefundOp(r, sid, outcome) =>
      if outcome == Succeeded || outcome == RefundFailed || outcome == Pending then RecordRefund(db, r, sid, outcome) else db
    case RetryRefundOp(r) => RetryRefund(db, r)
    case WebhookOp(event, n) => if NoticeOk(n) then Webhook(db, event, n) else db
    case ReserveOp(item, account, amount) =>
      db.(ledger := L.Post(db.ledger, Reservation(item, account, amount, db.now)))
  }

  lemma TickStep(db: Db, to: Millis)
    requires Linked(db)
    ensures Step(db, Tick(to)) == Advance(db, to)
  {
    hide Linked, Advance;
  }

  lemma TickKeeps(db: Db, to: Millis)
    requires Inv(db) && db.now <= to
    ensures Inv(db.(now := to))
  {
    hide LinksInv, CouplingInv, MoneyInv, PresenceInv;
    var db' := db.(now := to);
    LinksSame(db, db');
    ClosesKnown(db);
    CouplingSame(db, db');
    MoneySame(db, db');
    PresenceSame(db, db');
  }

  lemma ReserveKeeps(db: Db, item: ItemId, account: L.Account, amount: nat)
    requires Inv(db) && L.Valid(db.ledger)
    ensures Inv(db.(ledger := L.Post(db.ledger, Reservation(item, account, amount, db.now))))
  {
    hide LinksInv, CouplingInv, MoneyInv, PresenceInv, L.Valid, L.Post, L.Keys;
    PostOtherKeeps(db.ledger, Reservation(item, account, amount, db.now));
    LedgerKeeps(db, db.(ledger := L.Post(db.ledger, Reservation(item, account, amount, db.now))));
  }

  lemma ExpireKeeps(db: Db, due: Millis, c: CallId)
    requires Inv(db) && Linked(db)
    ensures Inv(Expire(db, due, c))
  {
    hide LinksInv, CouplingInv, MoneyInv, PresenceInv, Finish;
    var taken := Taken(db, ExpireCall(due, c));
    TakenKeeps(db, ExpireCall(due, c));
    if Expire(db, due, c) != taken {
      FinishKeeps(taken, c, CallEnded);
    }
  }

  lemma TransitionOpKeeps(db: Db, c: CallId, role: Role, target: CallStatus)
    requires Inv(db) && Linked(db)
    ensures Transition(db, c, role, target).Ok? ==> Inv(Transition(db, c, role, target).value)
  {
    hide LinksInv, CouplingInv, MoneyInv, PresenceInv, ApplyTransition;
    if Transition(db, c, role, target).Ok? {
      TransitionKeeps(db, c, target);
    }
  }

  /** Steps of shows, the queue and holds. */
  predicate ShowOrQueue(op: Op) {
    || op.Tick? || op.CreateShowOp? || op.StartShowOp? || op.EndShowOp? || op.CloseQueueOp? || op.PrepareOp?
    || op.AttachIntentOp? || op.AuthorizeOp? || op.JoinOp? || op.LeaveOp? || op.SelectOp?
  }

  /** Steps of payments and calls. */
  predicate PaymentOrCall(op: Op) {
    op.CapturedOp? || op.NotCapturedOp? || op.TransitionOp? || op.ExpireOp?
  }

  /** Steps of participants' seats. */
  predicate OfSeat(op: Op) {
    op.HeartbeatOp? || op.LeaveCallOp? || op.CheckSeenOp? || op.CheckGraceOp?
  }

  lemma ShowStepKeeps(db: Db, op: Op)
    requires Inv(db) && Linked(db) && ShowOrQueue(op)
    ensures Inv(Step(db, op))
  {
    hide LinksInv, CouplingInv, MoneyInv, PresenceInv, Linked;
    hide CreateShow, StartShow, EndShow, CloseQueueBatch, Prepare, AttachIntent, MarkAuthorized, Join, Leave, Select, ActiveEntries;
    match op
    case Tick(to) => if db.now <= to { TickKeeps(db, to); }
    case CreateShowOp(creator) => CreateShowKeeps(db, creator);
    case StartShowOp(sh, creator, ready) => StartShowKeeps(db, sh, creator, ready);
    case EndShowOp(sh, creator) => EndShowKeeps(db, sh, creator);
    case CloseQueueOp(due, sh, batch) =>
      if CloseQueue(due, sh) in db.jobs && IsCloseBatch(db.entries, sh, batch) { CloseQueueKeeps(db, due, sh, batch); }
    case PrepareOp(sh, tier, payer) => PrepareKeeps(db, sh, tier, payer);
    case AttachIntentOp(a) => AttachIntentKeeps(db, a);
    case AuthorizeOp(a) => MarkAuthorizedKeeps(db, a);
    case JoinOp(sh, viewer, tier, payment) => JoinKeeps(db, sh, viewer, tier, payment);
    case LeaveOp(sh, viewer) => LeaveKeeps(db, sh, viewer);
    case SelectOp(sh, creator, e) => SelectKeeps(db, sh, creator, e);
  }

  lemma CallStepKeeps(db: Db, op: Op)
    requires Inv(db) && Linked(db) && PaymentOrCall(op)
    ensures Inv(Step(db, op))
  {
    hide LinksInv, CouplingInv, MoneyInv, PresenceInv;
    hide RecordCaptured, RecordNotCaptured, Transition, Expire;
    match op
    case CapturedOp(a) => if a in db.attempts && db.attempts[a].hasIntent { RecordCapturedKeeps(db, a); }
    case NotCapturedOp(a, canceled) =>
      if a in db.attempts && db.attempts[a].hasIntent {
        RecordNotCapturedKeeps(db, a, if canceled then PayCanceled else PayFailed);
      }
    case TransitionOp(c, role, target) => TransitionOpKeeps(db, c, role, target);
    case ExpireOp(due, c) => ExpireKeeps(db, due, c);
  }

  lemma OtherStepKeeps(db: Db, op: Op)
    requires Inv(db) && Linked(db) && !ShowOrQueue(op) && !PaymentOrCall(op)
    ensures Inv(Step(db, op))
  {
    hide LinksInv, CouplingInv, MoneyInv, PresenceInv;
    hide Heartbeat, LeaveCall, RunCheckSeen, RunCheckGrace, ClaimRefund, RecordRefund, RetryRefund, Webhook, L.Post;
    match op
    case HeartbeatOp(seat) => HeartbeatKeeps(db, seat);
    case LeaveCallOp(seat) => LeaveCallKeeps(db, seat);
    case CheckSeenOp(due, seat, seenAt) => CheckSeenKeeps(db, due, seat, seenAt);
    case CheckGraceOp(due, seat, at) => if CheckGrace(due, seat, at) in db.jobs { CheckGraceKeeps(db, due, seat, at); }
    case ClaimRefundOp(r) => ClaimKeeps(db, r);
    case RecordRefundOp(r, sid, outcome) =>
      if outcome == Succeeded || outcome == RefundFailed || outcome == Pending { RecordKeeps(db, r, sid, outcome); }
    case RetryRefundOp(r) => RetryKeeps(db, r);
    case WebhookOp(event, n) => if NoticeOk(n) { WebhookKeeps(db, event, n); }
    case ReserveOp(item, account, amount) => ReserveKeeps(db, item, account, amount);
  }

  /** Every step keeps the invariant. */
  lemma StepKeeps(db: Db, op: Op)
    requires Inv(db) && Linked(db)
    ensures Inv(Step(db, op))
  {
    hide Inv, Linked, Step;
    if ShowOrQueue(op) {
      ShowStepKeeps(db, op);
    } else if PaymentOrCall(op) {
      CallStepKeeps(db, op);
    } else {
      OtherStepKeeps(db, op);
    }
  }

  /** Nothing has happened yet: only tiers, rates and the clock are set. */
  ghost predicate Initial(db: Db) {
    && db.shows == map[] && db.entries == map[] && db.attempts == map[] && db.calls == map[] && db.refunds == map[]
    && db.ledger == L.EMPTY && db.presence == map[] && db.disputes == map[] && db.events == {} && db.jobs == multiset{}
    && TiersOk(db.tiers, db.feeRates)
  }

  lemma InitialInv(db: Db)
    requires Initial(db)
    ensures Inv(db)
  {
  }

  /** The state a step leads to; every reachable state is linked, see RunKeeps. */
  ghost function Next(db: Db, op: Op): Db {
    if Linked(db) then Step(db, op) else db
  }

  ghost function Run(db: Db, ops: seq<Op>): Db
    decreases |ops|
  {
    if ops == [] then db else Run(Next(db, ops[0]), ops[1..])
  }

  lemma NextKeeps(db: Db, op: Op)
    requires Inv(db)
    ensures Linked(db) && Next(db, op) == Step(db, op) && Inv(Next(db, op))
  {
    hide LinksInv, CouplingInv, MoneyInv, PresenceInv, Step, Linked;
    InvLinked(db);
    StepKeeps(db, op);
    assert Next(db, op) == Step(db, op);
  }

  lemma {:induction false} RunKeeps(db: Db, ops: seq<Op>)
    requires Inv(db)
    ensures Inv(Run(db, ops))
    decreases |ops|
  {
    hide LinksInv, CouplingInv, MoneyInv, PresenceInv, Next;
    if ops != [] {
      NextKeeps(db, ops[0]);
      RunKeeps(Next(db, ops[0]), ops[1..]);
    }
  }

  /** The invariant holds in every reachable state. */
  lemma Reachable(start: Db, ops: seq<Op>)
    requires Initial(start)
    ensures Inv(Run(start, ops))
  {
    InitialInv(start);
    hide LinksInv, CouplingInv, MoneyInv, PresenceInv, Initial, Run;
    RunKeeps(start, ops);
  }
}
