/**
 Calls end on time without any polling worker: a call that goes live has its
 expiry fixed and scheduled in the same step, and keeps both while it is live.
 */
module Expiry {
  import opened Common
  import opened Tables
  import opened Steps
  import opened Invariants
  import opened Preservation
  import opened QueuePreservation
  import opened RefundPreservation
  import opened Runs
  import opened Timers
  import L = Ledger

  /** A live call expires its paid-for duration after it went live, and the job for that is scheduled. */
  ghost predicate OnTheClock(c: CallId, call: Call, jobs: multiset<Job>, now: Millis) {
    && call.startedAt.Some? && call.startedAt.value <= now
    && call.expiresAt == Some(call.startedAt.value + call.durationSeconds * 1000)
    && ExpireCall(call.expiresAt.value, c) in jobs
  }

  ghost predicate LiveCallsOnTheClock(db: Db) {
    forall c :: c in db.calls && db.calls[c].status == CallLive ==> OnTheClock(c, db.calls[c], db.jobs, db.now)
  }

  /** Scheduled expiries stay scheduled. */
  ghost predicate ExpiriesWait(jobs: multiset<Job>, jobs': multiset<Job>) {
    forall due, c :: ExpireCall(due, c) in jobs ==> ExpireCall(due, c) in jobs'
  }

  /** A live call was live before, with its expiry still scheduled, or goes live now and has it scheduled. */
  ghost predicate ClockStep(db: Db, db': Db) {
    forall c :: c in db'.calls && db'.calls[c].status == CallLive ==>
      || (OnTheClock(c, db'.calls[c], db'.jobs, db.now) && db'.calls[c].startedAt == Some(db.now))
      || (&& c in db.calls && db'.calls[c] == db.calls[c]
          && (forall due: Millis :: ExpireCall(due, c) in db.jobs && db.calls[c].expiresAt == Some(due) ==> ExpireCall(due, c) in db'.jobs))
  }

  lemma ClockStepKeeps(db: Db, db': Db)
    requires LiveCallsOnTheClock(db) && ClockStep(db, db') && db.now <= db'.now
    ensures LiveCallsOnTheClock(db')
  {
  }

  lemma ClocksAlone(db: Db, db': Db)
    requires db'.calls == db.calls && ExpiriesWait(db.jobs, db'.jobs)
    ensures ClockStep(db, db')
  {
  }

  lemma OtherJobRuns(jobs: multiset<Job>, job: Job)
    requires !job.ExpireCall?
    ensures ExpiriesWait(jobs, jobs - multiset{job})
  {
  }

  lemma MoreJobs(jobs: multiset<Job>, jobs': multiset<Job>)
    requires jobs <= jobs'
    ensures ExpiriesWait(jobs, jobs')
  {
  }

  /** A call that does not go live is patched or inserted. */
  lemma OneCallMoves(db: Db, db': Db, c: CallId)
    requires c in db'.calls && db'.calls == db.calls[c := db'.calls[c]] && db'.calls[c].status != CallLive
    requires ExpiriesWait(db.jobs, db'.jobs)
    ensures ClockStep(db, db')
  {
  }

  lemma FinishClock(db: Db, c: CallId, target: CallStatus)
    requires Linked(db) && c in db.calls && Finished(target)
    ensures ClockStep(db, Finish(db, c, target))
  {
    var db' := Finish(db, c, target);
    assert db'.calls == db.calls[c := db.calls[c].(status := target, endedAt := Some(db.now))];
    assert db.jobs <= db'.jobs;
    hide Finish, Linked, ClockStep;
    MoreJobs(db.jobs, db'.jobs);
    OneCallMoves(db, db', c);
  }

  /** Going live fixes and schedules the expiry at once. */
  lemma GoLiveClock(db: Db, c: CallId)
    requires Linked(db) && c in db.calls
    ensures ClockStep(db, GoLive(db, c))
  {
    hide CreditEarning;
    var db' := GoLive(db, c);
    var call' := db'.calls[c];
    assert db'.calls == db.calls[c := call'] && OnTheClock(c, call', db'.jobs, db.now);
    assert db.jobs <= db'.jobs;
    hide GoLive, Linked, OnTheClock;
    MoreJobs(db.jobs, db'.jobs);
  }

  lemma TransitionClock(db: Db, c: CallId, target: CallStatus)
    requires Linked(db) && c in db.calls
    requires db.calls[c].status == CallConnecting ==> db.calls[c].startedAt.None?
    ensures var r := ApplyTransition(db, c, target); r.Ok? ==> ClockStep(db, r.value)
  {
    hide Finish, GoLive, ClockStep;
    if ApplyTransition(db, c, target).Ok? {
      var db' := ApplyTransition(db, c, target).value;
      if db.calls[c].status == target {
        ClocksAlone(db, db);
      } else if Finished(target) {
        FinishClock(db, c, target);
      } else if target == CallLive {
        GoLiveClock(db, c);
      } else {
        OneCallMoves(db, db', c);
      }
    }
  }

  lemma AfterMore(db: Db, mid: Db, db': Db)
    requires ClockStep(db, mid) && db'.calls == mid.calls && mid.jobs <= db'.jobs
    ensures ClockStep(db, db')
  {
  }

  lemma EndShowClock(db: Db, sh: ShowId, creator: UserId)
    requires Linked(db)
    ensures var r := EndShow(db, sh, creator); r.Ok? ==> ClockStep(db, r.value)
  {
    hide Finish, ClockStep;
    var current := ActiveCall(db.calls, sh);
    var r := EndShow(db, sh, creator);
    ClocksAlone(db, db);
    if current.Some? && Connectable(db.calls[current.value].status) {
      FinishClock(db, current.value, CallEnded);
      if r.Ok? && r.value != db {
        AfterMore(db, Finish(db, current.value, CallEnded), r.value);
      }
    } else if r.Ok? && r.value != db {
      AfterMore(db, db, r.value);
    }
  }

  /** The expiry job that runs is the one of a call that ends, or of one that is over already. */
  lemma ExpireClock(db: Db, due: Millis, c: CallId)
    requires Linked(db) && ExpireCall(due, c) in db.jobs && due <= db.now
    ensures ClockStep(db, Expire(db, due, c))
  {
    hide Finish, ClockStep;
    var job := ExpireCall(due, c);
    var taken := Taken(db, job);
    if c in db.calls && db.calls[c].status == CallLive && (db.calls[c].expiresAt.Some? ==> db.calls[c].expiresAt.value <= db.now) {
      TakenLinked(db, job);
      FinishClock(taken, c, CallEnded);
      FinishRows(taken, c, CallEnded);
      AfterExpiry(db, due, c, Finish(taken, c, CallEnded));
    } else {
      AfterExpiry(db, due, c, taken);
    }
  }

  /** Taking an expiry job off the schedule matters only to a live call that expires just then. */
  lemma AfterExpiry(db: Db, due: Millis, c: CallId, db': Db)
    requires ClockStep(Taken(db, ExpireCall(due, c)), db') || db' == Taken(db, ExpireCall(due, c))
    requires c in db'.calls && db'.calls[c].status == CallLive ==> db'.calls[c].expiresAt != Some(due)
    ensures ClockStep(db, db')
  {
    var taken := Taken(db, ExpireCall(due, c));
    assert forall at, d :: ExpireCall(at, d) in db.jobs && ExpireCall(at, d) != ExpireCall(due, c) ==> ExpireCall(at, d) in taken.jobs;
  }

  lemma FinishRows(db: Db, c: CallId, target: CallStatus)
    requires Linked(db) && c in db.calls && Finished(target)
    ensures var db' := Finish(db, c, target); c in db'.calls && db'.calls[c].status == target && db.jobs <= db'.jobs
  {
    hide RefundedAttempts;
  }

  lemma GraceClock(db: Db, due: Millis, seat: Seat, at: Millis)
    requires Linked(db) && CheckGrace(due, seat, at) in db.jobs
    ensures ClockStep(db, RunCheckGrace(db, due, seat, at))
  {
    hide Finish, ClockStep;
    var job := CheckGrace(due, seat, at);
    var taken := Taken(db, job);
    OtherJobRuns(db.jobs, job);
    ClocksAlone(db, taken);
    if seat.call in db.calls {
      TakenLinked(db, job);
      FinishClock(taken, seat.call, CallFailed);
      AfterTaken(db, job, Finish(taken, seat.call, CallFailed));
    }
  }

  lemma AfterTaken(db: Db, job: Job, db': Db)
    requires !job.ExpireCall? && ClockStep(Taken(db, job), db')
    ensures ClockStep(db, db')
  {
    OtherJobRuns(db.jobs, job);
  }

  lemma CapturedClock(db: Db, a: AttemptId)
    requires Linked(db) && a in db.attempts
    ensures ClockStep(db, RecordCaptured(db, a))
  {
    hide RecordCaptured, ClockStep;
    CapturedRows(db, a);
    var db' := RecordCaptured(db, a);
    var found := CallFor(db.calls, a);
    hide CallFor, Linked;
    MoreJobs(db.jobs, db'.jobs);
    if found.Some? && db.calls[found.value].status == PaymentPending {
      OneCallMoves(db, db', found.value);
    } else {
      ClocksAlone(db, db');
    }
  }

  lemma NotCapturedClock(db: Db, a: AttemptId, status: PaymentStatus)
    requires Linked(db) && a in db.attempts
    ensures ClockStep(db, RecordNotCaptured(db, a, status))
  {
    hide ClockStep;
    var db' := RecordNotCaptured(db, a, status);
    var found := CallFor(db.calls, a);
    if db'.calls == db.calls {
      ClocksAlone(db, db');
    } else {
      OneCallMoves(db, db', found.value);
    }
  }

  lemma SelectClock(db: Db, sh: ShowId, creator: UserId, e: EntryId)
    ensures var r := Select(db, sh, creator, e); r.Ok? ==> ClockStep(db, r.value)
  {
    hide ClockStep;
    var r := Select(db, sh, creator, e);
    if r.Ok? {
      OneCallMoves(db, r.value, db.nextId);
    }
  }

  lemma NoticeClock(db: Db, n: Notice)
    requires Linked(db)
    ensures ClockStep(db, ApplyNotice(db, n))
  {
    hide RecordCaptured, RecordNotCaptured, ClockStep, RefundFor, AdoptRefund, SettleRefund;
    ClocksAlone(db, db);
    match n
    case IntentSucceeded(i) => if i in db.attempts { CapturedClock(db, i); }
    case IntentCanceled(i) => if i in db.attempts { NotCapturedClock(db, i, PayCanceled); }
    case IntentFailed(i) => if i in db.attempts { NotCapturedClock(db, i, PayFailed); }
    case _ =>
      MoneyNoticeFrame(db, n);
      hide ApplyNotice;
      ClocksAlone(db, ApplyNotice(db, n));
  }

  lemma WebhookClock(db: Db, event: nat, n: Notice)
    requires Linked(db)
    ensures ClockStep(db, Webhook(db, event, n))
  {
    hide ApplyNotice;
    if event !in db.events {
      NoticeClock(db.(events := db.events + {event}), n);
    }
  }

  /** Steps that move calls. */
  predicate MovesCalls(op: Op) {
    PaymentOrCall(op) || op.EndShowOp? || op.SelectOp? || op.CheckGraceOp? || op.WebhookOp?
  }

  lemma CallStepClock(db: Db, op: Op)
    requires Linked(db) && CallsClocked(db.calls) && MovesCalls(op)
    ensures ClockStep(db, Step(db, op))
  {
    hide EndShow, Select, RecordCaptured, RecordNotCaptured, ApplyTransition, Expire, RunCheckGrace, Webhook, Linked, ClockStep;
    ClocksAlone(db, db);
    match op
    case EndShowOp(sh, creator) => EndShowClock(db, sh, creator);
    case SelectOp(sh, creator, e) => SelectClock(db, sh, creator, e);
    case CapturedOp(a) => if a in db.attempts { CapturedClock(db, a); }
    case NotCapturedOp(a, canceled) => if a in db.attempts { NotCapturedClock(db, a, if canceled then PayCanceled else PayFailed); }
    case TransitionOp(c, role, target) =>
      if c in db.calls {
        assert Clocked(db.calls[c]);
        TransitionClock(db, c, target);
      }
    case ExpireOp(due, c) => if ExpireCall(due, c) in db.jobs && due <= db.now { ExpireClock(db, due, c); }
    case CheckGraceOp(due, seat, at) => if CheckGrace(due, seat, at) in db.jobs { GraceClock(db, due, seat, at); }
    case WebhookOp(event, n) => WebhookClock(db, event, n);
  }

  /** What the other steps do to jobs. */
  lemma BatchClock(db: Db, due: Millis, sh: ShowId, batch: set<EntryId>)
    requires CloseQueue(due, sh) in db.jobs
    ensures ClockStep(db, CloseQueueBatch(db, due, sh, batch))
  {
    hide ReleasesFor, CloseEntries;
  }

  lemma QueueClock(db: Db, sh: ShowId, viewer: UserId)
    ensures Leave(db, sh, viewer).Ok? ==> ClockStep(db, Leave(db, sh, viewer).value)
  {
  }

  lemma SeatClock(db: Db, seat: Seat, due: Millis, seenAt: Millis)
    ensures Heartbeat(db, seat).Ok? ==> ClockStep(db, Heartbeat(db, seat).value)
    ensures LeaveCall(db, seat).Ok? ==> ClockStep(db, LeaveCall(db, seat).value)
    ensures ClockStep(db, RunCheckSeen(db, due, seat, seenAt))
  {
    hide ClockStep, ExpiriesWait;
    if Heartbeat(db, seat).Ok? {
      MoreJobs(db.jobs, Heartbeat(db, seat).value.jobs);
      ClocksAlone(db, Heartbeat(db, seat).value);
    }
    if LeaveCall(db, seat).Ok? {
      MoreJobs(db.jobs, LeaveCall(db, seat).value.jobs);
      ClocksAlone(db, LeaveCall(db, seat).value);
    }
    SeenClock(db, due, seat, seenAt);
  }

  lemma SeenClock(db: Db, due: Millis, seat: Seat, seenAt: Millis)
    ensures ClockStep(db, RunCheckSeen(db, due, seat, seenAt))
  {
    var job := CheckSeen(due, seat, seenAt);
    OtherJobRuns(db.jobs, job);
    ClocksAlone(db, RunCheckSeen(db, due, seat, seenAt));
    hide ClockStep;
  }

  lemma RecordClock(db: Db, r: RefundId, sid: nat, outcome: RefundStatus)
    requires Linked(db)
    ensures ClockStep(db, RecordRefund(db, r, sid, outcome))
  {
    var db' := RecordRefund(db, r, sid, outcome);
    hide Linked, L.Valid, Reverse;
    assert db.jobs <= db'.jobs;
    hide RecordRefund;
    MoreJobs(db.jobs, db'.jobs);
  }

  lemma RetryClock(db: Db, r: RefundId)
    ensures ClockStep(db, RetryRefund(db, r))
  {
    hide RetryDelay;
    var db' := RetryRefund(db, r);
    assert db.jobs <= db'.jobs;
    hide RetryRefund;
    MoreJobs(db.jobs, db'.jobs);
  }

  lemma OtherStepClock(db: Db, op: Op)
    requires Linked(db) && !MovesCalls(op)
    ensures ClockStep(db, Step(db, op))
  {
    hide Advance, StartShow, CloseQueueBatch, Prepare, AttachIntent, MarkAuthorized, Join, Leave, Heartbeat, LeaveCall, RunCheckSeen;
    hide ClaimRefund, RecordRefund, RetryRefund, L.Post, IsCloseBatch, ClockStep;
    ClocksAlone(db, db);
    match op
    case CloseQueueOp(due, sh, batch) => hide Linked; if CloseQueue(due, sh) in db.jobs { BatchClock(db, due, sh, batch); }
    case LeaveOp(sh, viewer) => hide Linked; QueueClock(db, sh, viewer);
    case HeartbeatOp(seat) => hide Linked; SeatClock(db, seat, 0, 0);
    case LeaveCallOp(seat) => hide Linked; SeatClock(db, seat, 0, 0);
    case CheckSeenOp(due, seat, seenAt) => hide Linked; SeatClock(db, seat, due, seenAt);
    case RecordRefundOp(r, sid, outcome) => RecordClock(db, r, sid, outcome);
    case RetryRefundOp(r) => hide Linked; RetryClock(db, r);
    case _ =>
      hide Step, Linked;
      JoblessSteps(db, op);
      ClocksAlone(db, Step(db, op));
  }

  /** Steps that touch neither calls nor jobs. */
  lemma JoblessSteps(db: Db, op: Op)
    requires Linked(db)
    requires || op.Tick? || op.CreateShowOp? || op.StartShowOp? || op.PrepareOp? || op.AttachIntentOp? || op.AuthorizeOp?
             || op.JoinOp? || op.ClaimRefundOp? || op.ReserveOp?
    ensures Step(db, op).calls == db.calls
    ensures ExpiriesWait(db.jobs, Step(db, op).jobs)
  {
    hide Advance, StartShow, Prepare, Join, ClaimRefund, L.Post, Linked;
  }

  lemma NextClock(db: Db, op: Op)
    requires Inv(db) && LiveCallsOnTheClock(db)
    ensures LiveCallsOnTheClock(Next(db, op))
  {
    hide LinksInv, CouplingInv, MoneyInv, PresenceInv, LiveCallsOnTheClock, ClockStep, Step;
    NextKeeps(db, op);
    CallsAreClocked(db);
    TimeGoesOn(db, op);
    hide Next, Linked, CallsClocked;
    if MovesCalls(op) {
      CallStepClock(db, op);
    } else {
      OtherStepClock(db, op);
    }
    ClockStepKeeps(db, Step(db, op));
  }

  lemma CallsAreClocked(db: Db)
    requires CouplingInv(db)
    ensures CallsClocked(db.calls)
  {
  }

  lemma {:induction false} RunClock(db: Db, ops: seq<Op>)
    requires Inv(db) && LiveCallsOnTheClock(db)
    ensures LiveCallsOnTheClock(Run(db, ops))
    decreases |ops|
  {
    hide LinksInv, CouplingInv, MoneyInv, PresenceInv, LiveCallsOnTheClock, Next;
    if ops != [] {
      NextKeeps(db, ops[0]);
      NextClock(db, ops[0]);
      RunClock(Next(db, ops[0]), ops[1..]);
    }
  }

  /** The clock has not passed a live call's expiry by more than `late`. */
  ghost predicate ExpiriesPrompt(calls: map<CallId, Call>, now: Millis, late: nat) {
    forall c :: c in calls && calls[c].status == CallLive && calls[c].expiresAt.Some? ==> now <= calls[c].expiresAt.value + late
  }

  lemma StepStaysPrompt(db: Db, db': Db, late: nat)
    requires ExpiriesPrompt(db.calls, db.now, late) && ClockStep(db, db') && db'.now == db.now
    ensures ExpiriesPrompt(db'.calls, db'.now, late)
  {
  }

  lemma TickKeepsPrompt(db: Db, to: Millis, late: nat)
    requires LiveCallsOnTheClock(db) && Punctual(db, Tick(to), late)
    ensures ExpiriesPrompt(db.calls, to, late)
  {
    forall c | c in db.calls && db.calls[c].status == CallLive && db.calls[c].expiresAt.Some?
      ensures to <= db.calls[c].expiresAt.value + late
    {
      assert OnTheClock(c, db.calls[c], db.jobs, db.now);
      assert ExpireCall(db.calls[c].expiresAt.value, c).due + late >= to;
    }
  }

  lemma NextStaysOnTime(db: Db, op: Op, late: nat)
    requires Inv(db) && LiveCallsOnTheClock(db) && ExpiriesPrompt(db.calls, db.now, late) && Punctual(db, op, late)
    ensures ExpiriesPrompt(Next(db, op).calls, Next(db, op).now, late)
  {
    hide LinksInv, CouplingInv, MoneyInv, PresenceInv, LiveCallsOnTheClock, ClockStep, Step, ExpiriesPrompt;
    NextKeeps(db, op);
    hide Next;
    if op.Tick? {
      hide Linked, Punctual;
      TickStep(db, op.to);
      if db.now <= op.to {
        TickKeepsPrompt(db, op.to, late);
      }
    } else {
      CallsAreClocked(db);
      OnlyTicksMoveTime(db, op);
      hide Linked, CallsClocked;
      if MovesCalls(op) {
        CallStepClock(db, op);
      } else {
        OtherStepClock(db, op);
      }
      StepStaysPrompt(db, Step(db, op), late);
    }
  }

  lemma {:induction false} RunStaysOnTime(db: Db, ops: seq<Op>, late: nat)
    requires Inv(db) && LiveCallsOnTheClock(db) && ExpiriesPrompt(db.calls, db.now, late) && PunctualRun(db, ops, late)
    ensures ExpiriesPrompt(Run(db, ops).calls, Run(db, ops).now, late)
    decreases |ops|
  {
    hide LinksInv, CouplingInv, MoneyInv, PresenceInv, LiveCallsOnTheClock, ExpiriesPrompt, Next, Punctual;
    if ops != [] {
      NextKeeps(db, ops[0]);
      NextClock(db, ops[0]);
      NextStaysOnTime(db, ops[0], late);
      RunStaysOnTime(Next(db, ops[0]), ops[1..], late);
    }
  }

  /**
   In every reachable state each live call's expiry is its start plus its
   duration, and the job that will end it is still on the schedule.
   */
  lemma LiveCallsExpire(start: Db, ops: seq<Op>)
    requires Initial(start)
    ensures LiveCallsOnTheClock(Run(start, ops))
  {
    InitialInv(start);
    assert LiveCallsOnTheClock(start);
    hide Inv, Initial, Run, LiveCallsOnTheClock;
    RunClock(start, ops);
  }

  /** No live call has run for longer than its duration and `late` milliseconds. */
  ghost predicate NobodyOverruns(db: Db, late: nat) {
    forall c :: c in db.calls && db.calls[c].status == CallLive ==>
      && db.calls[c].startedAt.Some?
      && db.now <= db.calls[c].startedAt.value + db.calls[c].durationSeconds * 1000 + late
  }

  /**
   Calls end on time: in every run whose jobs run within `late` milliseconds of
   their due time, no call is live for longer than its duration plus that delay.
   */
  lemma CallsEndOnTime(start: Db, ops: seq<Op>, late: nat)
    requires Initial(start) && PunctualRun(start, ops, late)
    ensures NobodyOverruns(Run(start, ops), late)
  {
    hide Inv, Initial, Run, PunctualRun, LiveCallsOnTheClock, ExpiriesPrompt, NobodyOverruns;
    InitialInv(start);
    NobodyLiveYet(start, late);
    RunClock(start, ops);
    RunStaysOnTime(start, ops, late);
    OnTimeMeansNoOverrun(Run(start, ops), late);
  }

  lemma NobodyLiveYet(start: Db, late: nat)
    requires Initial(start)
    ensures LiveCallsOnTheClock(start) && ExpiriesPrompt(start.calls, start.now, late)
  {
  }

  lemma OnTimeMeansNoOverrun(db: Db, late: nat)
    requires LiveCallsOnTheClock(db) && ExpiriesPrompt(db.calls, db.now, late)
    ensures NobodyOverruns(db, late)
  {
    assert forall c :: c in db.calls && db.calls[c].status == CallLive ==> OnTheClock(c, db.calls[c], db.jobs, db.now);
  }
}
