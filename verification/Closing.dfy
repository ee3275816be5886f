/**
 Closing the queue of an ended show: no step adds an active entry to it, every
 batch closes as many as it may, and while one is left a batch is scheduled.
 */
module Closing {
  import opened Common
  import opened Tables
  import opened Steps
  import opened Invariants
  import opened Preservation
  import opened QueuePreservation
  import opened RefundPreservation
  import opened Runs
  import L = Ledger

  predicate Ended(shows: map<ShowId, Show>, sh: ShowId) {
    sh in shows && shows[sh].status == ShowEnded
  }

  /** Outside live shows no entry becomes active. */
  ghost predicate NoneRevived(entries: map<EntryId, Entry>, entries': map<EntryId, Entry>, shows: map<ShowId, Show>) {
    forall e :: e in entries' && ActiveEntry(entries'[e].status) && !IsLive(shows, entries'[e].show) ==>
      e in entries && entries[e].show == entries'[e].show && ActiveEntry(entries[e].status)
  }

  /** A show that ended stays ended. */
  ghost predicate EndedForGood(shows: map<ShowId, Show>, shows': map<ShowId, Show>) {
    forall sh :: Ended(shows, sh) ==> Ended(shows', sh)
  }

  /** Every pending batch stays pending. */
  ghost predicate BatchesWait(jobs: multiset<Job>, jobs': multiset<Job>) {
    forall due, sh :: CloseQueue(due, sh) in jobs ==> CloseQueue(due, sh) in jobs'
  }

  /** What a step other than a batch does to queues. */
  ghost predicate QueueStep(db: Db, db': Db) {
    && NoneRevived(db.entries, db'.entries, db.shows)
    && EndedForGood(db.shows, db'.shows)
    && BatchesWait(db.jobs, db'.jobs)
  }

  /** A show that ends has a batch scheduled at once. */
  ghost predicate EndSchedules(db: Db, db': Db) {
    forall sh :: Ended(db'.shows, sh) ==> Ended(db.shows, sh) || CloseQueue(db.now, sh) in db'.jobs
  }

  lemma QueuesAlone(db: Db, db': Db)
    requires db'.entries == db.entries && db'.shows == db.shows && db.jobs <= db'.jobs
    ensures QueueStep(db, db') && EndSchedules(db, db')
  {
  }

  /** One entry is patched. */
  lemma EntryPatched(db: Db, db': Db, e: EntryId)
    requires db'.shows == db.shows && db.jobs <= db'.jobs
    requires e in db'.entries && db'.entries == db.entries[e := db'.entries[e]]
    requires IsLive(db.shows, db'.entries[e].show) || !ActiveEntry(db'.entries[e].status)
    ensures QueueStep(db, db') && EndSchedules(db, db')
  {
  }

  lemma FinishQueue(db: Db, c: CallId, target: CallStatus)
    requires Linked(db) && c in db.calls
    ensures QueueStep(db, Finish(db, c, target)) && EndSchedules(db, Finish(db, c, target))
  {
    var db' := Finish(db, c, target);
    var e := db.calls[c].entry;
    assert db'.entries == db.entries[e := db.entries[e].(status := EntryEnded)];
    assert db.jobs <= db'.jobs;
    EntryPatched(db, db', e);
  }

  lemma OpenInLiveShow(db: Db, c: CallId)
    requires LinksInv(db) && CouplingInv(db) && c in db.calls && Connectable(db.calls[c].status)
    ensures db.calls[c].entry in db.entries && IsLive(db.shows, db.entries[db.calls[c].entry].show)
  {
    hide EntriesMirrorCalls, EntriesOk, OneActiveCall, OneLiveShow, IdsBelow;
  }

  /** A call that goes on keeps its entry active, in a show that is live. */
  lemma OpenTransitionQueue(db: Db, c: CallId, target: CallStatus)
    requires Linked(db) && c in db.calls && Connectable(db.calls[c].status)
    requires IsLive(db.shows, db.entries[db.calls[c].entry].show)
    requires !Finished(target) && db.calls[c].status != target
    requires ApplyTransition(db, c, target).Ok?
    ensures var db' := ApplyTransition(db, c, target).value; QueueStep(db, db') && EndSchedules(db, db')
  {
    hide QueueStep, EndSchedules, CreditEarning;
    var db' := ApplyTransition(db, c, target).value;
    var e := db.calls[c].entry;
    assert db'.entries == db.entries[e := db.entries[e].(status := db'.entries[e].status)];
    assert db.jobs <= db'.jobs;
    hide Linked, ApplyTransition;
    EntryPatched(db, db', e);
  }

  lemma TransitionQueue(db: Db, c: CallId, target: CallStatus)
    requires Inv(db) && Linked(db) && c in db.calls
    ensures var r := ApplyTransition(db, c, target); r.Ok? ==> QueueStep(db, r.value) && EndSchedules(db, r.value)
  {
    hide LinksInv, CouplingInv, MoneyInv, PresenceInv, Finish, GoLive, QueueStep, EndSchedules;
    if ApplyTransition(db, c, target).Err? {
      return;
    }
    if db.calls[c].status == target {
      QueuesAlone(db, db);
    } else if Finished(target) {
      FinishQueue(db, c, target);
    } else {
      OpenInLiveShow(db, c);
      OpenTransitionQueue(db, c, target);
    }
  }

  lemma ShowEnds(db: Db, hungUp: Db, db': Db, sh: ShowId)
    requires sh in db.shows && QueueStep(db, hungUp) && hungUp.shows == db.shows
    requires db'.entries == hungUp.entries && db'.jobs == hungUp.jobs + multiset{CloseQueue(db.now, sh)}
    requires db'.shows == db.shows[sh := Show(db.shows[sh].creator, ShowEnded)]
    ensures QueueStep(db, db') && EndSchedules(db, db')
  {
  }

  lemma EndShowQueue(db: Db, sh: ShowId, creator: UserId)
    requires Linked(db)
    ensures var r := EndShow(db, sh, creator); r.Ok? ==> QueueStep(db, r.value) && EndSchedules(db, r.value)
  {
    hide Finish, QueueStep, EndSchedules;
    QueuesAlone(db, db);
    var current := ActiveCall(db.calls, sh);
    if EndShow(db, sh, creator).Ok? && sh in db.shows && db.shows[sh].status == ShowLive {
      var db' := EndShow(db, sh, creator).value;
      if current.Some? && Connectable(db.calls[current.value].status) {
        FinishQueue(db, current.value, CallEnded);
        ShowEnds(db, Finish(db, current.value, CallEnded), db', sh);
      } else {
        ShowEnds(db, db, db', sh);
      }
    }
  }

  lemma GraceQueue(db: Db, due: Millis, seat: Seat, at: Millis)
    requires Linked(db) && CheckGrace(due, seat, at) in db.jobs
    ensures QueueStep(db, RunCheckGrace(db, due, seat, at)) && EndSchedules(db, RunCheckGrace(db, due, seat, at))
  {
    hide Finish, QueueStep, EndSchedules;
    var job := CheckGrace(due, seat, at);
    JobIsTaken(db, job, Taken(db, job));
    if seat.call in db.calls {
      TakenLinked(db, job);
      FinishQueue(Taken(db, job), seat.call, CallFailed);
      JobIsTaken(db, job, Finish(Taken(db, job), seat.call, CallFailed));
    }
  }

  /** Taking a job other than a batch off the schedule leaves queues alone. */
  lemma JobIsTaken(db: Db, job: Job, db': Db)
    requires !job.CloseQueue?
    requires db' == Taken(db, job) || (QueueStep(Taken(db, job), db') && EndSchedules(Taken(db, job), db'))
    ensures QueueStep(db, db') && EndSchedules(db, db')
  {
  }

  lemma ExpireQueue(db: Db, due: Millis, c: CallId)
    requires Linked(db)
    ensures QueueStep(db, Expire(db, due, c)) && EndSchedules(db, Expire(db, due, c))
  {
    hide Finish, QueueStep, EndSchedules;
    var job := ExpireCall(due, c);
    JobIsTaken(db, job, Taken(db, job));
    if c in db.calls {
      TakenLinked(db, job);
      FinishQueue(Taken(db, job), c, CallEnded);
      JobIsTaken(db, job, Finish(Taken(db, job), c, CallEnded));
    }
  }

  lemma CheckSeenQueue(db: Db, due: Millis, seat: Seat, seenAt: Millis)
    ensures QueueStep(db, RunCheckSeen(db, due, seat, seenAt)) && EndSchedules(db, RunCheckSeen(db, due, seat, seenAt))
  {
  }

  lemma CapturedQueue(db: Db, a: AttemptId)
    requires Linked(db) && a in db.attempts
    ensures QueueStep(db, RecordCaptured(db, a)) && EndSchedules(db, RecordCaptured(db, a))
  {
    hide RecordCaptured, QueueStep, EndSchedules;
    CapturedRows(db, a);
    var db' := RecordCaptured(db, a);
    if db'.entries == db.entries {
      QueuesAlone(db, db');
    } else {
      EntryPatched(db, db', db.calls[CallFor(db.calls, a).value].entry);
    }
  }

  lemma NotCapturedQueue(db: Db, a: AttemptId, status: PaymentStatus)
    requires Linked(db) && a in db.attempts
    ensures QueueStep(db, RecordNotCaptured(db, a, status)) && EndSchedules(db, RecordNotCaptured(db, a, status))
  {
    hide QueueStep, EndSchedules;
    var db' := RecordNotCaptured(db, a, status);
    if db'.entries == db.entries {
      QueuesAlone(db, db');
    } else {
      var e := db.attempts[a].entry.value;
      assert db'.entries == db.entries[e := db.entries[e].(status := Left)];
      EntryPatched(db, db', e);
    }
  }

  lemma SelectQueue(db: Db, sh: ShowId, creator: UserId, e: EntryId)
    requires Select(db, sh, creator, e).Ok?
    ensures QueueStep(db, Select(db, sh, creator, e).value) && EndSchedules(db, Select(db, sh, creator, e).value)
  {
    var db' := Select(db, sh, creator, e).value;
    EntryPatched(db, db', e);
  }

  lemma JoinQueue(db: Db, sh: ShowId, viewer: UserId, tier: TierId, payment: Option<AttemptId>)
    requires Join(db, sh, viewer, tier, payment).Ok?
    ensures var db' := Join(db, sh, viewer, tier, payment).value; QueueStep(db, db') && EndSchedules(db, db')
  {
    hide QueueStep, EndSchedules, UsableHold;
    var db' := Join(db, sh, viewer, tier, payment).value;
    var existing := EntryFor(db.entries, sh, viewer);
    if existing.Some? && db.entries[existing.value].status != Left {
      QueuesAlone(db, db');
    } else {
      EntryPatched(db, db', if existing.Some? then existing.value else db.nextId);
    }
  }

  lemma LeaveQueue(db: Db, sh: ShowId, viewer: UserId)
    requires Leave(db, sh, viewer).Ok?
    ensures QueueStep(db, Leave(db, sh, viewer).value) && EndSchedules(db, Leave(db, sh, viewer).value)
  {
    hide QueueStep, EndSchedules, EntryFor, Releasable;
    var db' := Leave(db, sh, viewer).value;
    if db' == db {
      QueuesAlone(db, db');
    } else {
      var e := EntryFor(db.entries, sh, viewer).value;
      assert db'.entries == db.entries[e := db.entries[e].(status := Left)] && db.jobs <= db'.jobs;
      hide Leave;
      EntryPatched(db, db', e);
    }
  }

  lemma CreateShowQueue(db: Db, creator: UserId)
    requires db.nextId !in db.shows
    ensures QueueStep(db, CreateShow(db, creator)) && EndSchedules(db, CreateShow(db, creator))
  {
  }

  lemma StartShowQueue(db: Db, sh: ShowId, creator: UserId, ready: bool)
    requires StartShow(db, sh, creator, ready).Ok?
    ensures var db' := StartShow(db, sh, creator, ready).value; QueueStep(db, db') && EndSchedules(db, db')
  {
  }

  lemma RecordJobs(db: Db, r: RefundId, sid: nat, outcome: RefundStatus)
    requires L.Valid(db.ledger)
    requires r in db.refunds ==> db.refunds[r].attempt in db.attempts && db.attempts[db.refunds[r].attempt].amountCents > 0
    ensures db.jobs <= RecordRefund(db, r, sid, outcome).jobs
  {
    hide L.Valid, Reverse;
  }

  lemma RecordQueue(db: Db, r: RefundId, sid: nat, outcome: RefundStatus)
    requires Linked(db)
    ensures QueueStep(db, RecordRefund(db, r, sid, outcome)) && EndSchedules(db, RecordRefund(db, r, sid, outcome))
  {
    hide L.Valid, Reverse, QueueStep, EndSchedules;
    RecordJobs(db, r, sid, outcome);
    hide RecordRefund, Linked;
    QueuesAlone(db, RecordRefund(db, r, sid, outcome));
  }

  lemma RetryQueue(db: Db, r: RefundId)
    ensures QueueStep(db, RetryRefund(db, r)) && EndSchedules(db, RetryRefund(db, r))
  {
    hide RetryDelay, QueueStep, EndSchedules;
    var db' := RetryRefund(db, r);
    assert db.jobs <= db'.jobs;
    hide RetryRefund;
    QueuesAlone(db, db');
  }

  lemma SeatQueue(db: Db, seat: Seat)
    ensures Heartbeat(db, seat).Ok? ==> QueueStep(db, Heartbeat(db, seat).value) && EndSchedules(db, Heartbeat(db, seat).value)
    ensures LeaveCall(db, seat).Ok? ==> QueueStep(db, LeaveCall(db, seat).value) && EndSchedules(db, LeaveCall(db, seat).value)
  {
    hide QueueStep, EndSchedules;
    if Heartbeat(db, seat).Ok? { QueuesAlone(db, Heartbeat(db, seat).value); }
    if LeaveCall(db, seat).Ok? { QueuesAlone(db, LeaveCall(db, seat).value); }
  }

  lemma NoticeQueue(db: Db, n: Notice)
    requires Linked(db)
    ensures QueueStep(db, ApplyNotice(db, n)) && EndSchedules(db, ApplyNotice(db, n))
  {
    hide RecordCaptured, RecordNotCaptured, QueueStep, EndSchedules, RefundFor, AdoptRefund, SettleRefund;
    QueuesAlone(db, db);
    match n
    case IntentSucceeded(i) => if i in db.attempts { CapturedQueue(db, i); }
    case IntentCanceled(i) => if i in db.attempts { NotCapturedQueue(db, i, PayCanceled); }
    case IntentFailed(i) => if i in db.attempts { NotCapturedQueue(db, i, PayFailed); }
    case _ =>
      MoneyNoticeFrame(db, n);
      hide ApplyNotice;
      QueuesAlone(db, ApplyNotice(db, n));
  }

  lemma WebhookQueue(db: Db, event: nat, n: Notice)
    requires Linked(db)
    ensures QueueStep(db, Webhook(db, event, n)) && EndSchedules(db, Webhook(db, event, n))
  {
    hide ApplyNotice;
    if event !in db.events {
      NoticeQueue(db.(events := db.events + {event}), n);
    }
  }

  /** The steps below patch an entry or a show. */
  predicate TouchesQueue(op: Op) {
    || op.CreateShowOp? || op.StartShowOp? || op.EndShowOp? || op.JoinOp? || op.LeaveOp? || op.SelectOp? || op.CapturedOp?
    || op.NotCapturedOp? || op.TransitionOp? || op.ExpireOp? || op.CheckGraceOp? || op.WebhookOp?
  }

  lemma TouchingShowSteps(db: Db, op: Op)
    requires Inv(db) && Linked(db) && TouchesQueue(op) && ShowOrQueue(op)
    ensures QueueStep(db, Step(db, op)) && EndSchedules(db, Step(db, op))
  {
    hide LinksInv, CouplingInv, MoneyInv, PresenceInv, QueueStep, EndSchedules, Linked;
    hide CreateShow, StartShow, EndShow, Join, Leave, Select;
    QueuesAlone(db, db);
    IdsKnown(db);
    match op
    case CreateShowOp(creator) => CreateShowQueue(db, creator);
    case StartShowOp(sh, creator, ready) => if StartShow(db, sh, creator, ready).Ok? { StartShowQueue(db, sh, creator, ready); }
    case EndShowOp(sh, creator) => EndShowQueue(db, sh, creator);
    case JoinOp(sh, viewer, tier, payment) => if Join(db, sh, viewer, tier, payment).Ok? { JoinQueue(db, sh, viewer, tier, payment); }
    case LeaveOp(sh, viewer) => if Leave(db, sh, viewer).Ok? { LeaveQueue(db, sh, viewer); }
    case SelectOp(sh, creator, e) => if Select(db, sh, creator, e).Ok? { SelectQueue(db, sh, creator, e); }
  }

  lemma TouchingCallSteps(db: Db, op: Op)
    requires Inv(db) && Linked(db) && TouchesQueue(op) && !ShowOrQueue(op)
    ensures QueueStep(db, Step(db, op)) && EndSchedules(db, Step(db, op))
  {
    hide Inv, QueueStep, EndSchedules, RecordCaptured, RecordNotCaptured, ApplyTransition, Expire, RunCheckGrace, Webhook, Linked;
    QueuesAlone(db, db);
    match op
    case CapturedOp(a) => if a in db.attempts { CapturedQueue(db, a); }
    case NotCapturedOp(a, canceled) => if a in db.attempts { NotCapturedQueue(db, a, if canceled then PayCanceled else PayFailed); }
    case TransitionOp(c, role, target) => if c in db.calls { TransitionQueue(db, c, target); }
    case ExpireOp(due, c) => ExpireQueue(db, due, c);
    case CheckGraceOp(due, seat, at) => if CheckGrace(due, seat, at) in db.jobs { GraceQueue(db, due, seat, at); }
    case WebhookOp(event, n) => WebhookQueue(db, event, n);
  }

  lemma TouchingSteps(db: Db, op: Op)
    requires Inv(db) && Linked(db) && TouchesQueue(op)
    ensures QueueStep(db, Step(db, op)) && EndSchedules(db, Step(db, op))
  {
    hide Inv, Linked, Step, QueueStep, EndSchedules;
    if ShowOrQueue(op) {
      TouchingShowSteps(db, op);
    } else {
      TouchingCallSteps(db, op);
    }
  }

  lemma SeatSteps(db: Db, op: Op)
    requires Linked(db) && (op.HeartbeatOp? || op.LeaveCallOp? || op.CheckSeenOp?)
    ensures QueueStep(db, Step(db, op)) && EndSchedules(db, Step(db, op))
  {
    hide QueueStep, EndSchedules, Heartbeat, LeaveCall, RunCheckSeen, Linked;
    QueuesAlone(db, db);
    match op
    case HeartbeatOp(seat) => SeatQueue(db, seat);
    case LeaveCallOp(seat) => SeatQueue(db, seat);
    case CheckSeenOp(due, seat, seenAt) => CheckSeenQueue(db, due, seat, seenAt);
  }

  lemma RefundSteps(db: Db, op: Op)
    requires Linked(db) && (op.RecordRefundOp? || op.RetryRefundOp?)
    ensures QueueStep(db, Step(db, op)) && EndSchedules(db, Step(db, op))
  {
    hide QueueStep, EndSchedules, RecordRefund, RetryRefund, Linked;
    QueuesAlone(db, db);
    match op
    case RecordRefundOp(r, sid, outcome) => RecordQueue(db, r, sid, outcome);
    case RetryRefundOp(r) => RetryQueue(db, r);
  }

  /** Steps that touch neither queues nor jobs. */
  lemma JoblessSteps(db: Db, op: Op)
    requires Linked(db)
    requires op.Tick? || op.PrepareOp? || op.AttachIntentOp? || op.AuthorizeOp? || op.ClaimRefundOp? || op.ReserveOp?
    ensures Step(db, op).entries == db.entries && Step(db, op).shows == db.shows && Step(db, op).jobs == db.jobs
  {
    hide Advance, Prepare, AttachIntent, MarkAuthorized, ClaimRefund, L.Post, Linked;
  }

  lemma OtherSteps(db: Db, op: Op)
    requires Linked(db) && !TouchesQueue(op) && !op.CloseQueueOp?
    ensures QueueStep(db, Step(db, op)) && EndSchedules(db, Step(db, op))
  {
    hide QueueStep, EndSchedules, Step, Linked;
    if op.HeartbeatOp? || op.LeaveCallOp? || op.CheckSeenOp? {
      SeatSteps(db, op);
    } else if op.RecordRefundOp? || op.RetryRefundOp? {
      RefundSteps(db, op);
    } else {
      JoblessSteps(db, op);
      QueuesAlone(db, Step(db, op));
    }
  }

  // ------------------------------------------------------------ the queue of an ended show

  lemma OnlyBatchesTouch(db: Db, op: Op)
    requires Inv(db) && Linked(db) && !op.CloseQueueOp?
    ensures QueueStep(db, Step(db, op)) && EndSchedules(db, Step(db, op))
  {
    hide Inv, Linked, Step, QueueStep, EndSchedules;
    if TouchesQueue(op) {
      TouchingSteps(db, op);
    } else {
      OtherSteps(db, op);
    }
  }

  /** An executed batch of show `sh`. */
  ghost predicate ClosesBatch(db: Db, op: Op, sh: ShowId) {
    op.CloseQueueOp? && op.show == sh && CloseQueue(op.due, sh) in db.jobs && IsCloseBatch(db.entries, sh, op.batch)
  }

  lemma BatchTakesItself(entries: map<EntryId, Entry>, batch: set<EntryId>, s: ShowId)
    ensures ActiveEntries(CloseEntries(entries, batch), s) == ActiveEntries(entries, s) - batch
  {
  }

  lemma OthersOnlyShrink(db: Db, db': Db, sh: ShowId)
    requires QueueStep(db, db') && Ended(db.shows, sh)
    ensures Ended(db'.shows, sh) && ActiveEntries(db'.entries, sh) <= ActiveEntries(db.entries, sh)
  {
  }

  /** No step adds to an ended show's active entries, and a batch takes exactly itself out of them. */
  lemma ActiveOnlyShrink(db: Db, op: Op, sh: ShowId)
    requires Inv(db) && Ended(db.shows, sh)
    ensures Ended(Next(db, op).shows, sh)
    ensures ActiveEntries(Next(db, op).entries, sh) <= ActiveEntries(db.entries, sh)
    ensures ClosesBatch(db, op, sh) ==>
      ActiveEntries(Next(db, op).entries, sh) == ActiveEntries(db.entries, sh) - op.batch
  {
    hide Inv, Linked, IsCloseBatch, ActiveEntries, QueueStep, EndSchedules, Step, CloseQueueBatch;
    NextKeeps(db, op);
    hide Next;
    if op.CloseQueueOp? {
      BatchStepIs(db, op);
      if CloseQueue(op.due, op.show) in db.jobs {
        BatchEntries(db, op.due, op.show, op.batch);
      }
      BatchTakesItself(db.entries, op.batch, sh);
    } else {
      OnlyBatchesTouch(db, op);
      OthersOnlyShrink(db, Step(db, op), sh);
    }
  }

  lemma BatchStepIs(db: Db, op: Op)
    requires Linked(db) && op.CloseQueueOp?
    ensures Step(db, op) == if CloseQueue(op.due, op.show) in db.jobs && IsCloseBatch(db.entries, op.show, op.batch)
                            then CloseQueueBatch(db, op.due, op.show, op.batch) else db
  {
    hide Linked, IsCloseBatch, CloseQueueBatch;
  }

  lemma BatchEntries(db: Db, due: Millis, sh: ShowId, batch: set<EntryId>)
    requires CloseQueue(due, sh) in db.jobs
    ensures CloseQueueBatch(db, due, sh, batch).entries == CloseEntries(db.entries, batch)
    ensures CloseQueueBatch(db, due, sh, batch).shows == db.shows
  {
    hide ReleasesFor, CloseEntries;
  }

  /** Every ended show that still has active entries has a batch scheduled. */
  ghost predicate ClosingScheduled(db: Db) {
    forall sh :: Ended(db.shows, sh) && ActiveEntries(db.entries, sh) != {} ==> exists due :: CloseQueue(due, sh) in db.jobs
  }

  lemma BatchKeepsScheduled(db: Db, due: Millis, sh: ShowId, batch: set<EntryId>)
    requires ClosingScheduled(db) && CloseQueue(due, sh) in db.jobs && IsCloseBatch(db.entries, sh, batch)
    ensures ClosingScheduled(CloseQueueBatch(db, due, sh, batch))
  {
    hide CloseQueueBatch, IsCloseBatch, ActiveEntries, CloseEntries;
    var db' := CloseQueueBatch(db, due, sh, batch);
    BatchEntries(db, due, sh, batch);
    BatchJobs(db, due, sh, batch);
    FullOrAll(db, sh, batch);
    forall s ensures ActiveEntries(db'.entries, s) == ActiveEntries(db.entries, s) - batch {
      BatchTakesItself(db.entries, batch, s);
    }
    forall s | Ended(db'.shows, s) && ActiveEntries(db'.entries, s) != {} ensures exists at :: CloseQueue(at, s) in db'.jobs {
      if s != sh {
        var at :| CloseQueue(at, s) in db.jobs;
        assert CloseQueue(at, s) in db'.jobs;
      }
    }
  }

  lemma BatchJobs(db: Db, due: Millis, sh: ShowId, batch: set<EntryId>)
    requires CloseQueue(due, sh) in db.jobs
    ensures var jobs' := CloseQueueBatch(db, due, sh, batch).jobs;
      && (forall at, s :: s != sh && CloseQueue(at, s) in db.jobs ==> CloseQueue(at, s) in jobs')
      && (|batch| == CLOSE_BATCH ==> CloseQueue(db.now, sh) in jobs')
  {
    hide ReleasesFor, CloseEntries;
  }

  lemma FullOrAll(db: Db, sh: ShowId, batch: set<EntryId>)
    requires IsCloseBatch(db.entries, sh, batch)
    ensures batch == ActiveEntries(db.entries, sh) || |batch| == CLOSE_BATCH
  {
    hide ActiveEntries, ClosesBefore;
  }

  lemma OtherKeepsScheduled(db: Db, db': Db)
    requires ClosingScheduled(db) && QueueStep(db, db') && EndSchedules(db, db')
    ensures ClosingScheduled(db')
  {
    forall s | Ended(db'.shows, s) && ActiveEntries(db'.entries, s) != {} ensures exists at :: CloseQueue(at, s) in db'.jobs {
      if Ended(db.shows, s) {
        var e :| e in ActiveEntries(db'.entries, s);
        assert e in ActiveEntries(db.entries, s);
        var at :| CloseQueue(at, s) in db.jobs;
        assert CloseQueue(at, s) in db'.jobs;
      } else {
        assert CloseQueue(db.now, s) in db'.jobs;
      }
    }
  }

  lemma NextKeepsScheduled(db: Db, op: Op)
    requires Inv(db) && ClosingScheduled(db)
    ensures ClosingScheduled(Next(db, op))
  {
    hide LinksInv, CouplingInv, MoneyInv, PresenceInv, ClosingScheduled, IsCloseBatch;
    NextKeeps(db, op);
    hide Next, Linked, Inv;
    if op.CloseQueueOp? {
      hide CloseQueueBatch, Step;
      BatchStepIs(db, op);
      if CloseQueue(op.due, op.show) in db.jobs && IsCloseBatch(db.entries, op.show, op.batch) {
        BatchKeepsScheduled(db, op.due, op.show, op.batch);
      }
    } else {
      hide Step, QueueStep, EndSchedules;
      OnlyBatchesTouch(db, op);
      OtherKeepsScheduled(db, Step(db, op));
    }
  }

  lemma {:induction false} RunKeepsScheduled(db: Db, ops: seq<Op>)
    requires Inv(db) && ClosingScheduled(db)
    ensures ClosingScheduled(Run(db, ops))
    decreases |ops|
  {
    hide LinksInv, CouplingInv, MoneyInv, PresenceInv, ClosingScheduled, Next;
    if ops != [] {
      NextKeeps(db, ops[0]);
      NextKeepsScheduled(db, ops[0]);
      RunKeepsScheduled(Next(db, ops[0]), ops[1..]);
    }
  }

  /** In every reachable state an ended show with active entries has its next batch scheduled. */
  lemma ClosingNeverStalls(start: Db, ops: seq<Op>)
    requires Initial(start)
    ensures ClosingScheduled(Run(start, ops))
  {
    InitialInv(start);
    assert ClosingScheduled(start);
    hide Inv, Initial, Run, ClosingScheduled;
    RunKeepsScheduled(start, ops);
  }

  /**
   A batch of show `sh` lowers its active entries by exactly the batch, which is
   CLOSE_BATCH of them or all that are left; a batch that does not schedule
   another leaves none, and a batch is empty only when none was left.
   */
  lemma BatchProgress(db: Db, op: Op, sh: ShowId)
    requires Inv(db) && Ended(db.shows, sh) && ClosesBatch(db, op, sh)
    ensures var before, after := |ActiveEntries(db.entries, sh)|, |ActiveEntries(Next(db, op).entries, sh)|;
      && after == (if before > CLOSE_BATCH then before - CLOSE_BATCH else 0)
      && (before > 0 ==> after < before)
    ensures |op.batch| < CLOSE_BATCH ==> ActiveEntries(Next(db, op).entries, sh) == {}
  {
    hide Inv, Next, Ended, ActiveEntries;
    ActiveOnlyShrink(db, op, sh);
    assert ActiveEntries(db.entries, sh) == op.batch + (ActiveEntries(db.entries, sh) - op.batch);
    assert |ActiveEntries(db.entries, sh)| == |op.batch| + |ActiveEntries(db.entries, sh) - op.batch|;
  }

  /** Every waiting caller whose entry a batch closes gets the hold released, if Stripe can still be asked to. */
  lemma BatchReleasesHolds(db: Db, op: Op, sh: ShowId, e: EntryId)
    requires Inv(db) && ClosesBatch(db, op, sh) && e in op.batch
    requires db.entries[e].status == Waiting && db.entries[e].attempt.Some? && Releasable(db.attempts, db.entries[e].attempt.value)
    ensures ReleaseHold(db.now, db.entries[e].attempt.value) in Next(db, op).jobs
    ensures Next(db, op).entries[e].status == EntryEnded
  {
    hide LinksInv, CouplingInv, MoneyInv, PresenceInv;
    NextKeeps(db, op);
    hide Next, Linked, Inv;
    assert e in ActiveEntries(db.entries, sh);
    assert ReleaseHold(db.now, db.entries[e].attempt.value) in ReleasesFor(db, op.batch);
    hide ReleasesFor, IsCloseBatch;
  }

  lemma FewerElements(a: set<EntryId>, b: set<EntryId>)
    requires a <= b
    ensures |a| <= |b|
  {
    assert b == a + (b - a);
  }

  /** How many batches of `sh` a run executes. */
  ghost function Batches(db: Db, ops: seq<Op>, sh: ShowId): nat
    decreases |ops|
  {
    if ops == [] then 0
    else (if ClosesBatch(db, ops[0], sh) then 1 else 0) + Batches(Next(db, ops[0]), ops[1..], sh)
  }

  /**
   However its batches interleave with other steps, an ended show loses at least
   a full batch of active entries with each of them, until none is left; so as
   many batches as the queue holds full ones, and one more, always close it.
   */
  lemma {:induction false} ClosingFinishes(db: Db, ops: seq<Op>, sh: ShowId)
    requires Inv(db) && Ended(db.shows, sh)
    ensures var before, after := ActiveEntries(db.entries, sh), ActiveEntries(Run(db, ops).entries, sh);
      after <= before && (after == {} || |after| <= |before| - CLOSE_BATCH * Batches(db, ops, sh))
    decreases |ops|
  {
    hide Inv, Next, Ended, ActiveEntries, ClosesBatch;
    if ops != [] {
      NextKeeps(db, ops[0]);
      ActiveOnlyShrink(db, ops[0], sh);
      if ClosesBatch(db, ops[0], sh) {
        BatchProgress(db, ops[0], sh);
      }
      ClosingFinishes(Next(db, ops[0]), ops[1..], sh);
      FewerElements(ActiveEntries(Next(db, ops[0]).entries, sh), ActiveEntries(db.entries, sh));
    }
  }
}
