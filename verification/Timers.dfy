/**
 The presence timers: who is watched, how long a silent participant can stay
 on a call, and that a heartbeat always beats the grace timer it raced.
 */
module Timers {
  import opened Common
  import opened Tables
  import opened Steps
  import opened Invariants
  import opened Preservation
  import opened QueuePreservation
  import opened RefundPreservation
  import opened Runs
  import L = Ledger

  // ------------------------------------------------------------ what a step does to seats

  /** A seat stays as it was, is seen now, or is marked disconnected now. */
  ghost predicate SeatsMove(presence: map<Seat, Presence>, presence': map<Seat, Presence>, now: Millis) {
    forall s :: s in presence' ==>
      || (s in presence && presence'[s] == presence[s])
      || presence'[s] == Presence(now, None)
      || (s in presence && presence[s].disconnectedAt.None? && presence'[s] == presence[s].(disconnectedAt := Some(now)))
  }

  /** A seat is emptied only when its call is over. */
  ghost predicate SeatsEmpty(presence: map<Seat, Presence>, presence': map<Seat, Presence>, calls': map<CallId, Call>) {
    forall s :: s in presence && s !in presence' ==> s.call in calls' && Finished(calls'[s.call].status)
  }

  /** A call that is over stays as it is. */
  ghost predicate StaysOver(calls: map<CallId, Call>, calls': map<CallId, Call>) {
    forall c :: c in calls && Finished(calls[c].status) ==> c in calls' && calls'[c] == calls[c]
  }

  ghost predicate SeatStep(db: Db, db': Db) {
    && SeatsMove(db.presence, db'.presence, db.now)
    && SeatsEmpty(db.presence, db'.presence, db'.calls)
    && StaysOver(db.calls, db'.calls)
  }

  lemma NothingHappens(db: Db, db': Db)
    requires db'.presence == db.presence && db'.calls == db.calls
    ensures SeatStep(db, db')
  {
  }

  lemma HeartbeatSeats(db: Db, seat: Seat)
    ensures Heartbeat(db, seat).Ok? ==> SeatStep(db, Heartbeat(db, seat).value)
  {
  }

  lemma LeaveSeats(db: Db, seat: Seat)
    ensures LeaveCall(db, seat).Ok? ==> SeatStep(db, LeaveCall(db, seat).value)
  {
  }

  lemma CheckSeenSeats(db: Db, due: Millis, seat: Seat, seenAt: Millis)
    ensures SeatStep(db, RunCheckSeen(db, due, seat, seenAt))
  {
    var db' := RunCheckSeen(db, due, seat, seenAt);
    if seat !in db.presence || db.presence[seat].lastSeenAt != seenAt || db.presence[seat].disconnectedAt.Some? {
      NothingHappens(db, db');
    } else {
      assert db'.presence == db.presence[seat := db.presence[seat].(disconnectedAt := Some(db.now))];
      hide RunCheckSeen;
    }
  }

  lemma FinishSeats(db: Db, c: CallId, target: CallStatus)
    requires Linked(db) && c in db.calls && Connectable(db.calls[c].status) && Finished(target)
    ensures SeatStep(db, Finish(db, c, target))
  {
    FinishedRows(db, c, target);
    hide Finish, Linked;
  }

  lemma FinishedRows(db: Db, c: CallId, target: CallStatus)
    requires c in db.calls && db.calls[c].entry in db.entries
    requires db.calls[c].attempt.Some? ==> db.calls[c].attempt.value in db.attempts
    ensures var db' := Finish(db, c, target);
      && db'.presence == PresenceWithout(db.presence, c)
      && db'.calls == db.calls[c := db.calls[c].(status := target, endedAt := Some(db.now))]
  {
    hide RequestRefund, PresenceWithout;
  }

  ghost predicate MovesOnly(calls: map<CallId, Call>, calls': map<CallId, Call>, c: CallId) {
    c in calls' && calls' == calls[c := calls'[c]]
  }

  lemma RowMoves(calls: map<CallId, Call>, c: CallId, call: Call)
    ensures MovesOnly(calls, calls[c := call], c)
  {
  }

  lemma GoLiveRows(db: Db, c: CallId)
    requires c in db.calls && db.calls[c].entry in db.entries
    requires db.calls[c].attempt.Some? ==> db.calls[c].attempt.value in db.attempts
    ensures GoLive(db, c).presence == db.presence && MovesOnly(db.calls, GoLive(db, c).calls, c)
  {
    hide CreditEarning;
  }

  lemma OpenTransitionRows(db: Db, c: CallId, target: CallStatus)
    requires c in db.calls && db.calls[c].entry in db.entries && !Finished(target)
    requires db.calls[c].attempt.Some? ==> db.calls[c].attempt.value in db.attempts
    requires ApplyTransition(db, c, target).Ok?
    ensures var db' := ApplyTransition(db, c, target).value;
      && db'.presence == db.presence
      && (db'.calls == db.calls || (Connectable(db.calls[c].status) && MovesOnly(db.calls, db'.calls, c)))
  {
    hide Finish, GoLive, MovesOnly;
    var call := db.calls[c];
    if call.status != target {
      if target == CallLive && call.startedAt.None? {
        GoLiveRows(db, c);
      } else {
        RowMoves(db.calls, c, call.(status := target));
      }
    }
  }

  lemma OpenTransitionSeats(db: Db, c: CallId, target: CallStatus)
    requires Linked(db) && c in db.calls && !Finished(target) && ApplyTransition(db, c, target).Ok?
    ensures SeatStep(db, ApplyTransition(db, c, target).value)
  {
    hide ApplyTransition;
    OpenTransitionRows(db, c, target);
    hide Linked;
  }

  lemma TransitionSeats(db: Db, c: CallId, target: CallStatus)
    requires Linked(db) && c in db.calls
    ensures ApplyTransition(db, c, target).Ok? ==> SeatStep(db, ApplyTransition(db, c, target).value)
  {
    if Finished(target) {
      hide SeatStep, Finish;
      NothingHappens(db, db);
      if CanTransition(db.calls[c].status, target) {
        FinishSeats(db, c, target);
      }
    } else if ApplyTransition(db, c, target).Ok? {
      OpenTransitionSeats(db, c, target);
    }
  }

  lemma EndShowSeats(db: Db, sh: ShowId, creator: UserId)
    requires Linked(db)
    ensures EndShow(db, sh, creator).Ok? ==> SeatStep(db, EndShow(db, sh, creator).value)
  {
    hide Finish;
    NothingHappens(db, db);
    var current := ActiveCall(db.calls, sh);
    if current.Some? && Connectable(db.calls[current.value].status) {
      FinishSeats(db, current.value, CallEnded);
    }
  }

  lemma ExpireSeats(db: Db, due: Millis, c: CallId)
    requires Linked(db)
    ensures SeatStep(db, Expire(db, due, c))
  {
    hide Finish;
    NothingHappens(db, Taken(db, ExpireCall(due, c)));
    if c in db.calls && db.calls[c].status == CallLive {
      FinishSeats(Taken(db, ExpireCall(due, c)), c, CallEnded);
    }
  }

  lemma GraceSeats(db: Db, due: Millis, seat: Seat, at: Millis)
    requires Linked(db) && CheckGrace(due, seat, at) in db.jobs
    ensures SeatStep(db, RunCheckGrace(db, due, seat, at))
  {
    hide Finish;
    NothingHappens(db, Taken(db, CheckGrace(due, seat, at)));
    if seat.call in db.calls && Connectable(db.calls[seat.call].status) {
      var taken := Taken(db, CheckGrace(due, seat, at));
      TakenCommutes(db, seat.call, CheckGrace(due, seat, at));
      FinishSeats(db, seat.call, CallFailed);
    }
  }

  /** The one call a capture notice can move was waiting for it. */
  lemma CapturedSeats(db: Db, a: AttemptId)
    requires Linked(db) && a in db.attempts
    ensures SeatStep(db, RecordCaptured(db, a))
  {
    hide RecordCaptured;
    CapturedRows(db, a);
    hide Linked, CallFor;
  }

  lemma NotCapturedSeats(db: Db, a: AttemptId, status: PaymentStatus)
    requires Linked(db) && a in db.attempts
    ensures SeatStep(db, RecordNotCaptured(db, a, status))
  {
  }

  lemma SelectSeats(db: Db, sh: ShowId, creator: UserId, e: EntryId)
    requires db.nextId !in db.calls
    ensures Select(db, sh, creator, e).Ok? ==> SeatStep(db, Select(db, sh, creator, e).value)
  {
  }

  lemma NoticeSeats(db: Db, n: Notice)
    requires Linked(db)
    ensures SeatStep(db, ApplyNotice(db, n))
  {
    hide RecordCaptured, RecordNotCaptured, SettleRefund, SeatStep, L.AdjustForDispute;
    NothingHappens(db, db);
    match n
    case IntentSucceeded(i) => if i in db.attempts { CapturedSeats(db, i); }
    case IntentCanceled(i) => if i in db.attempts { NotCapturedSeats(db, i, PayCanceled); }
    case IntentFailed(i) => if i in db.attempts { NotCapturedSeats(db, i, PayFailed); }
    case _ => NothingHappens(db, ApplyNotice(db, n));
  }

  lemma WebhookSeats(db: Db, event: nat, n: Notice)
    requires Linked(db)
    ensures SeatStep(db, Webhook(db, event, n))
  {
    hide ApplyNotice;
    NothingHappens(db, db);
    if event !in db.events {
      NoticeSeats(db.(events := db.events + {event}), n);
    }
  }

  /** Steps that touch neither calls nor seats. */
  predicate Seatless(op: Op) {
    || op.Tick? || op.CreateShowOp? || op.StartShowOp? || op.CloseQueueOp? || op.PrepareOp? || op.AttachIntentOp?
    || op.AuthorizeOp? || op.JoinOp? || op.LeaveOp? || op.ClaimRefundOp? || op.RecordRefundOp? || op.RetryRefundOp?
    || op.ReserveOp?
  }

  lemma SeatlessShowSteps(db: Db, op: Op)
    requires Linked(db) && Seatless(op) && ShowOrQueue(op)
    ensures Step(db, op).presence == db.presence && Step(db, op).calls == db.calls
  {
    hide Advance, CreateShow, StartShow, CloseQueueBatch, Prepare, AttachIntent, MarkAuthorized, Join, Leave, Linked, IsCloseBatch;
  }

  lemma SeatlessWorkerSteps(db: Db, op: Op)
    requires Linked(db) && Seatless(op) && !ShowOrQueue(op)
    ensures Step(db, op).presence == db.presence && Step(db, op).calls == db.calls
  {
    hide ClaimRefund, RecordRefund, RetryRefund, L.Post, Linked;
  }

  lemma SeatlessSteps(db: Db, op: Op)
    requires Linked(db) && Seatless(op)
    ensures SeatStep(db, Step(db, op))
  {
    hide Step, Linked;
    if ShowOrQueue(op) {
      SeatlessShowSteps(db, op);
    } else {
      SeatlessWorkerSteps(db, op);
    }
    NothingHappens(db, Step(db, op));
  }

  lemma CallStepSeats(db: Db, op: Op)
    requires Linked(db) && db.nextId !in db.calls && (PaymentOrCall(op) || op.EndShowOp? || op.SelectOp? || op.WebhookOp?)
    ensures SeatStep(db, Step(db, op))
  {
    hide EndShow, Select, RecordCaptured, RecordNotCaptured, ApplyTransition, Expire, Webhook, Linked, SeatStep;
    NothingHappens(db, db);
    match op
    case EndShowOp(sh, creator) => EndShowSeats(db, sh, creator);
    case SelectOp(sh, creator, e) => SelectSeats(db, sh, creator, e);
    case CapturedOp(a) => if a in db.attempts { CapturedSeats(db, a); }
    case NotCapturedOp(a, canceled) => if a in db.attempts { NotCapturedSeats(db, a, if canceled then PayCanceled else PayFailed); }
    case TransitionOp(c, role, target) => if c in db.calls { TransitionSeats(db, c, target); }
    case ExpireOp(due, c) => ExpireSeats(db, due, c);
    case WebhookOp(event, n) => WebhookSeats(db, event, n);
  }

  lemma SeatOpSeats(db: Db, op: Op)
    requires Linked(db) && OfSeat(op)
    ensures SeatStep(db, Step(db, op))
  {
    hide Heartbeat, LeaveCall, RunCheckSeen, RunCheckGrace, Linked, SeatStep;
    NothingHappens(db, db);
    match op
    case HeartbeatOp(seat) => HeartbeatSeats(db, seat);
    case LeaveCallOp(seat) => LeaveSeats(db, seat);
    case CheckSeenOp(due, seat, seenAt) => CheckSeenSeats(db, due, seat, seenAt);
    case CheckGraceOp(due, seat, at) => if CheckGrace(due, seat, at) in db.jobs { GraceSeats(db, due, seat, at); }
  }

  /** Every step moves seats in one of these ways only. */
  lemma StepSeats(db: Db, op: Op)
    requires Linked(db) && db.nextId !in db.calls
    ensures SeatStep(db, Step(db, op))
  {
    hide Step, Linked, SeatStep;
    if Seatless(op) {
      SeatlessSteps(db, op);
    } else if OfSeat(op) {
      SeatOpSeats(db, op);
    } else {
      CallStepSeats(db, op);
    }
  }

  // ------------------------------------------------------------ silence

  /**
   The scheduler runs a job at most `late` milliseconds after it is due, so the
   clock never passes a pending presence check or call expiry by more than that.
   */
  ghost predicate Punctual(db: Db, op: Op, late: nat) {
    op.Tick? ==> forall j :: j in db.jobs && (j.CheckSeen? || j.CheckGrace? || j.ExpireCall?) ==> op.to <= j.due + late
  }

  ghost predicate PunctualRun(db: Db, ops: seq<Op>, late: nat)
    decreases |ops|
  {
    ops == [] || (Punctual(db, ops[0], late) && PunctualRun(Next(db, ops[0]), ops[1..], late))
  }

  /** Nobody's watch is overdue by more than `late`, and nobody was marked disconnected later than that. */
  ghost predicate Prompt(presence: map<Seat, Presence>, now: Millis, late: nat) {
    forall s :: s in presence ==>
      && now <= Watch(s, presence[s]).due + late
      && (presence[s].disconnectedAt.Some? ==> presence[s].disconnectedAt.value <= presence[s].lastSeenAt + PRESENCE_TTL_MS + late)
  }

  lemma SeatsStayPrompt(presence: map<Seat, Presence>, presence': map<Seat, Presence>, now: Millis, late: nat)
    requires Prompt(presence, now, late) && SeatsMove(presence, presence', now)
    ensures Prompt(presence', now, late)
  {
  }

  lemma TickStaysPrompt(db: Db, to: Millis, late: nat)
    requires Prompt(db.presence, db.now, late) && PresenceInv(db) && Punctual(db, Tick(to), late)
    ensures Prompt(db.presence, to, late)
  {
  }

  lemma NextStaysPrompt(db: Db, op: Op, late: nat)
    requires Inv(db) && Prompt(db.presence, db.now, late) && Punctual(db, op, late)
    ensures Prompt(Next(db, op).presence, Next(db, op).now, late)
  {
    hide LinksInv, CouplingInv, MoneyInv, PresenceInv, Prompt;
    NextKeeps(db, op);
    hide Next;
    if op.Tick? {
      TickStaysPrompt(db, op.to, late);
    } else {
      IdsKnown(db);
      OnlyTicksMoveTime(db, op);
      hide Step;
      StepSeats(db, op);
      SeatsStayPrompt(db.presence, Step(db, op).presence, db.now, late);
    }
  }

  lemma ShowStepsKeepTime(db: Db, op: Op)
    requires Linked(db) && !op.Tick? && ShowOrQueue(op)
    ensures Step(db, op).now == db.now
  {
    hide StartShow, EndShow, CloseQueueBatch, Prepare, Join, Leave, Select, Linked, IsCloseBatch;
  }

  lemma CallStepsKeepTime(db: Db, op: Op)
    requires Linked(db) && (op.CapturedOp? || op.NotCapturedOp? || op.TransitionOp?)
    ensures Step(db, op).now == db.now
  {
    hide RecordCaptured, RecordNotCaptured, Transition, Linked;
  }

  lemma SeatStepsKeepTime(db: Db, op: Op)
    requires Linked(db) && (op.HeartbeatOp? || op.LeaveCallOp? || op.CheckSeenOp?)
    ensures Step(db, op).now == db.now
  {
    hide Heartbeat, LeaveCall, RunCheckSeen, Linked;
  }

  lemma JobsKeepTime(db: Db, op: Op)
    requires Linked(db) && (op.ExpireOp? || op.CheckGraceOp?)
    ensures Step(db, op).now == db.now
  {
    if op.CheckGraceOp? {
      GraceFrame(db, op.due, op.seat, op.disconnectedAt);
    } else {
      ExpireFrame(db, op.due, op.call);
    }
    hide Linked, Expire, RunCheckGrace;
  }

  lemma RefundStepsKeepTime(db: Db, op: Op)
    requires Linked(db)
    requires op.ClaimRefundOp? || op.RecordRefundOp? || op.RetryRefundOp? || op.WebhookOp? || op.ReserveOp?
    ensures Step(db, op).now == db.now
  {
    hide ClaimRefund, RecordRefund, RetryRefund, Webhook, L.Post, Linked;
  }

  lemma OnlyTicksMoveTime(db: Db, op: Op)
    requires Linked(db) && !op.Tick?
    ensures Step(db, op).now == db.now
  {
    hide Step, Linked;
    if ShowOrQueue(op) {
      ShowStepsKeepTime(db, op);
    } else if op.ExpireOp? || op.CheckGraceOp? {
      JobsKeepTime(db, op);
    } else if PaymentOrCall(op) {
      CallStepsKeepTime(db, op);
    } else if op.HeartbeatOp? || op.LeaveCallOp? || op.CheckSeenOp? {
      SeatStepsKeepTime(db, op);
    } else {
      RefundStepsKeepTime(db, op);
    }
  }

  lemma {:induction false} RunStaysPrompt(db: Db, ops: seq<Op>, late: nat)
    requires Inv(db) && Prompt(db.presence, db.now, late) && PunctualRun(db, ops, late)
    ensures Prompt(Run(db, ops).presence, Run(db, ops).now, late)
    decreases |ops|
  {
    hide LinksInv, CouplingInv, MoneyInv, PresenceInv, Prompt, Next, Punctual;
    if ops != [] {
      NextStaysPrompt(db, ops[0], late);
      NextKeeps(db, ops[0]);
      RunStaysPrompt(Next(db, ops[0]), ops[1..], late);
    }
  }

  /** Every participant is on an open call, is watched by a pending job, and was heard from recently enough. */
  ghost predicate Watched(db: Db, late: nat) {
    forall s :: s in db.presence ==>
      && s.call in db.calls && Connectable(db.calls[s.call].status)
      && Watch(s, db.presence[s]) in db.jobs
      && db.now <= db.presence[s].lastSeenAt + PRESENCE_TTL_MS + DISCONNECT_GRACE_MS + 2 * late
  }

  lemma WatchedOfInv(db: Db, late: nat)
    requires PresenceInv(db) && Prompt(db.presence, db.now, late)
    ensures Watched(db, late)
  {
  }

  /**
   In every run whose jobs run within `late` milliseconds of their due time, no
   participant of an open call has been silent for more than 50 seconds plus
   twice that delay; with a punctual scheduler, for more than 50 seconds.
   */
  lemma SilenceIsBounded(start: Db, ops: seq<Op>, late: nat)
    requires Initial(start) && PunctualRun(start, ops, late)
    ensures Watched(Run(start, ops), late)
  {
    hide LinksInv, CouplingInv, MoneyInv, PresenceInv, Prompt, Run, PunctualRun, Watched, Initial;
    InitialInv(start);
    InitialPrompt(start, late);
    Reachable(start, ops);
    RunStaysPrompt(start, ops, late);
    WatchedOfInv(Run(start, ops), late);
  }

  lemma InitialPrompt(start: Db, late: nat)
    requires Initial(start)
    ensures Prompt(start.presence, start.now, late)
  {
  }

  // ------------------------------------------------------------ a heartbeat beats an older grace timer

  /** The participant was heard from after `d`, or their call is over for good. */
  ghost predicate HeardAfter(presence: map<Seat, Presence>, calls: map<CallId, Call>, seat: Seat, d: Millis) {
    if seat in presence then presence[seat].lastSeenAt > d
    else seat.call in calls && Finished(calls[seat.call].status)
  }

  lemma StillHeard(db: Db, db': Db, seat: Seat, d: Millis)
    requires HeardAfter(db.presence, db.calls, seat, d) && SeatStep(db, db')
    requires PresenceInv(db) && PresenceInv(db') && d < db.now
    ensures HeardAfter(db'.presence, db'.calls, seat, d)
  {
  }

  lemma {:induction false} HeardForever(db: Db, ops: seq<Op>, seat: Seat, d: Millis)
    requires Inv(db) && HeardAfter(db.presence, db.calls, seat, d) && d < db.now
    ensures HeardAfter(Run(db, ops).presence, Run(db, ops).calls, seat, d)
    decreases |ops|
  {
    hide LinksInv, CouplingInv, MoneyInv, PresenceInv, HeardAfter;
    if ops != [] {
      NextKeeps(db, ops[0]);
      IdsKnown(db);
      TimeGoesOn(db, ops[0]);
      hide Step, Next;
      StepSeats(db, ops[0]);
      StillHeard(db, Next(db, ops[0]), seat, d);
      HeardForever(Next(db, ops[0]), ops[1..], seat, d);
    }
  }

  lemma TimeGoesOn(db: Db, op: Op)
    requires Linked(db)
    ensures db.now <= Step(db, op).now
  {
    if !op.Tick? {
      hide Step;
      OnlyTicksMoveTime(db, op);
    }
  }

  /** A grace timer for disconnect `d` touches no call once the participant was heard from after `d`. */
  lemma GraceIsHarmless(db: Db, due: Millis, seat: Seat, d: Millis)
    requires PresenceInv(db) && Linked(db) && HeardAfter(db.presence, db.calls, seat, d)
    ensures RunCheckGrace(db, due, seat, d) == Taken(db, CheckGrace(due, seat, d))
  {
    hide Linked;
  }

  /**
   A heartbeat sent later than a disconnect wins for good: in every run that
   follows, the grace timer scheduled for that disconnect fails no call. For a
   heartbeat in the very millisecond of it, see GraceNeedsANewDisconnect.
   */
  lemma HeartbeatBeatsGrace(db: Db, seat: Seat, d: Millis, ops: seq<Op>, due: Millis)
    requires Inv(db) && d < db.now
    requires Heartbeat(db, seat).Ok?
    ensures var later := Run(Next(db, HeartbeatOp(seat)), ops);
      Next(later, CheckGraceOp(due, seat, d)).calls == later.calls
  {
    hide LinksInv, CouplingInv, MoneyInv, PresenceInv, Run, HeardAfter, Heartbeat;
    var db1 := Next(db, HeartbeatOp(seat));
    NextKeeps(db, HeartbeatOp(seat));
    HeardNow(db, seat, d);
    hide Next, Step;
    HeardForever(db1, ops, seat, d);
    RunKeeps(db1, ops);
    GraceChangesNothing(Run(db1, ops), due, seat, d);
  }

  lemma HeardNow(db: Db, seat: Seat, d: Millis)
    requires Heartbeat(db, seat).Ok? && d < db.now
    ensures var db1 := Heartbeat(db, seat).value;
      HeardAfter(db1.presence, db1.calls, seat, d) && d < db1.now
  {
  }

  lemma GraceChangesNothing(db: Db, due: Millis, seat: Seat, d: Millis)
    requires Inv(db) && HeardAfter(db.presence, db.calls, seat, d)
    ensures Next(db, CheckGraceOp(due, seat, d)).calls == db.calls
  {
    hide LinksInv, CouplingInv, MoneyInv, PresenceInv, HeardAfter, RunCheckGrace, Linked;
    InvLinked(db);
    GraceIsHarmless(db, due, seat, d);
  }

  // ------------------------------------------------------------ the very millisecond of the disconnect

  /** The participant is marked disconnected at time `d`. */
  predicate MarkedAt(presence: map<Seat, Presence>, seat: Seat, d: Millis) {
    seat in presence && presence[seat].disconnectedAt == Some(d)
  }

  /** Some step of the run, taken at time `d`, marks the participant disconnected again. */
  ghost predicate MarkedAgain(db: Db, ops: seq<Op>, seat: Seat, d: Millis)
    decreases |ops|
  {
    ops != []
    && ((db.now == d && !MarkedAt(db.presence, seat, d) && MarkedAt(Next(db, ops[0]).presence, seat, d))
        || MarkedAgain(Next(db, ops[0]), ops[1..], seat, d))
  }

  lemma {:induction false} MarkedOnlyAgain(db: Db, ops: seq<Op>, seat: Seat, d: Millis)
    requires Inv(db) && !MarkedAt(db.presence, seat, d)
    ensures MarkedAt(Run(db, ops).presence, seat, d) ==> MarkedAgain(db, ops, seat, d)
    decreases |ops|
  {
    hide LinksInv, CouplingInv, MoneyInv, PresenceInv;
    if ops != [] {
      NextKeeps(db, ops[0]);
      IdsKnown(db);
      hide Step, Next, Linked;
      StepSeats(db, ops[0]);
      if !MarkedAt(Next(db, ops[0]).presence, seat, d) {
        MarkedOnlyAgain(Next(db, ops[0]), ops[1..], seat, d);
      }
    }
  }

  /**
   After any heartbeat, in the very millisecond of the disconnect or later, the
   grace timer of that disconnect touches a call only if the participant was
   marked disconnected again, by a step of that same millisecond.
   */
  lemma GraceNeedsANewDisconnect(db: Db, seat: Seat, d: Millis, ops: seq<Op>, due: Millis)
    requires Inv(db) && Heartbeat(db, seat).Ok?
    ensures var db1 := Next(db, HeartbeatOp(seat));
      var later := Run(db1, ops);
      Next(later, CheckGraceOp(due, seat, d)).calls != later.calls ==> MarkedAgain(db1, ops, seat, d)
  {
    hide LinksInv, CouplingInv, MoneyInv, PresenceInv, Run, MarkedAgain;
    var db1 := Next(db, HeartbeatOp(seat));
    NextKeeps(db, HeartbeatOp(seat));
    assert !MarkedAt(db1.presence, seat, d);
    hide Next, Step, Heartbeat;
    MarkedOnlyAgain(db1, ops, seat, d);
    RunKeeps(db1, ops);
    if !MarkedAt(Run(db1, ops).presence, seat, d) {
      UnmarkedGrace(Run(db1, ops), due, seat, d);
    }
  }

  lemma UnmarkedGrace(db: Db, due: Millis, seat: Seat, d: Millis)
    requires Inv(db) && !MarkedAt(db.presence, seat, d)
    ensures Next(db, CheckGraceOp(due, seat, d)).calls == db.calls
  {
    hide LinksInv, CouplingInv, MoneyInv, PresenceInv;
    InvLinked(db);
    assert RunCheckGrace(db, due, seat, d).calls == db.calls;
    hide Linked, RunCheckGrace;
  }
}
