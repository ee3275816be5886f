/**
 The documents of frontend/convex/schema.ts that a paid call touches, and the
 database that holds them. Fields that only feed displays (names, topics,
 receipt details, leave and selection times) are not kept.
 */
module Tables {
  import opened Common
  import L = Ledger

  datatype ShowStatus = ShowCreated | ShowLive | ShowEnded

  datatype EntryStatus = Waiting | Left | Selected | EntryConnecting | EntryLive | EntryEnded

  datatype CallStatus = PaymentPending | CallCreated | CallConnecting | CallLive | CallEnded | CallFailed

  datatype PaymentStatus = PayCreated | PayAuthorized | PayCapturing | PayCaptured | PayCanceled | PayFailed

  datatype RefundStatus = Requested | Processing | Retry | Pending | Succeeded | RefundFailed

  datatype Role = Creator | Viewer

  datatype Show = Show(creator: UserId, status: ShowStatus)

  datatype Tier = Tier(show: ShowId, rank: nat, priceCents: nat, durationSeconds: nat, enabled: bool)

  datatype Entry = Entry(
    show: ShowId,
    viewer: UserId,
    status: EntryStatus,
    rank: nat,
    joinedAt: Millis,
    priceCents: nat,
    durationSeconds: nat,
    attempt: Option<AttemptId>)

  /** One Stripe payment intent per attempt: Stripe's create call is keyed by the attempt id. */
  datatype Attempt = Attempt(
    show: ShowId,
    creator: UserId,
    tier: TierId,
    payer: UserId,
    amountCents: nat,
    platformFeeCents: int,
    status: PaymentStatus,
    hasIntent: bool,
    entry: Option<EntryId>)

  datatype Call = Call(
    show: ShowId,
    entry: EntryId,
    status: CallStatus,
    durationSeconds: nat,
    startedAt: Option<Millis>,
    endedAt: Option<Millis>,
    expiresAt: Option<Millis>,
    attempt: Option<AttemptId>)

  /** `own` marks the refunds Bling requested itself, as opposed to OUTSIDE_BLING ones. */
  datatype Refund = Refund(
    attempt: AttemptId,
    call: CallId,
    amountCents: nat,
    own: bool,
    status: RefundStatus,
    attempts: nat,
    nextAttemptAt: Millis,
    stripeId: Option<nat>)

  datatype Seat = Seat(call: CallId, role: Role)

  datatype Presence = Presence(lastSeenAt: Millis, disconnectedAt: Option<Millis>)

  datatype Dispute = Dispute(attempt: Option<AttemptId>, status: L.DisputeStatus)

  /** Scheduled functions, with the time they are due. */
  datatype Job =
    | CheckSeen(due: Millis, seat: Seat, seenAt: Millis)
    | CheckGrace(due: Millis, seat: Seat, disconnectedAt: Millis)
    | CloseQueue(due: Millis, show: ShowId)
    | ExpireCall(due: Millis, call: CallId)
    | CapturePayment(due: Millis, call: CallId)
    | ReleaseHold(due: Millis, attempt: AttemptId)
    | RunRefund(due: Millis, refund: RefundId)

  datatype Db = Db(
    now: Millis,
    nextId: nat,
    holdMs: nat,
    tiers: map<TierId, Tier>,
    feeRates: map<UserId, nat>,
    shows: map<ShowId, Show>,
    entries: map<EntryId, Entry>,
    attempts: map<AttemptId, Attempt>,
    calls: map<CallId, Call>,
    refunds: map<RefundId, Refund>,
    ledger: L.Ledger,
    presence: map<Seat, Presence>,
    disputes: map<DisputeId, Dispute>,
    events: set<nat>,
    jobs: multiset<Job>)

  datatype Error =
    | ShowNotFound
    | ShowNotLive
    | InvalidShowState
    | ActiveShowExists
    | ActiveCallExists
    | CallerNotWaiting
    | PaymentCaptureFailed
    | PaymentRequired
    | PaymentNotAuthorized
    | TierNotFound
    | TierNotPayable
    | InvalidTierConfiguration
    | PayoutSetupRequired
    | NotInQueue
    | InvalidQueueState
    | QueueEmpty
    | CallNotFound
    | InvalidCallState

  // ------------------------------------------------------------ lookups

  /** The least element: ids grow with creation time, so this is a query's `.first()`. */
  ghost function Least(s: set<nat>): (m: nat)
    requires s != {}
    ensures m in s
    ensures forall x :: x in s ==> m <= x
  {
    var x :| x in s;
    if s == {x} then x
    else
      assert forall y :: y in s ==> y == x || y in s - {x};
      Min(x, Least(s - {x}))
  }

  ghost function FirstId(s: set<nat>): Option<nat> {
    if s == {} then None else Some(Least(s))
  }

  ghost function CallFor(calls: map<CallId, Call>, a: AttemptId): (r: Option<CallId>)
    ensures r.Some? ==> r.value in calls && calls[r.value].attempt == Some(a)
    ensures r.None? ==> forall c :: c in calls ==> calls[c].attempt != Some(a)
  {
    var s := set c | c in calls && calls[c].attempt == Some(a);
    assert forall c :: c in calls && calls[c].attempt == Some(a) ==> c in s;
    FirstId(s)
  }

  ghost function CallWithStatus(calls: map<CallId, Call>, sh: ShowId, st: CallStatus): (r: Option<CallId>)
    ensures r.Some? ==> r.value in calls && calls[r.value].show == sh && calls[r.value].status == st
    ensures r.None? ==> forall c :: c in calls ==> !(calls[c].show == sh && calls[c].status == st)
  {
    var s := set c | c in calls && calls[c].show == sh && calls[c].status == st;
    assert forall c :: c in calls && calls[c].show == sh && calls[c].status == st ==> c in s;
    FirstId(s)
  }

  predicate Active(st: CallStatus) {
    st == PaymentPending || st == CallCreated || st == CallConnecting || st == CallLive
  }

  predicate Connectable(st: CallStatus) {
    st == CallCreated || st == CallConnecting || st == CallLive
  }

  predicate Finished(st: CallStatus) {
    st == CallEnded || st == CallFailed
  }

  /** The show's call that blocks a new selection: statuses are tried in the source's order. */
  ghost function ActiveCall(calls: map<CallId, Call>, sh: ShowId): (r: Option<CallId>)
    ensures r.Some? ==> r.value in calls && calls[r.value].show == sh && Active(calls[r.value].status)
    ensures r.None? ==> forall c :: c in calls ==> !(calls[c].show == sh && Active(calls[c].status))
  {
    var p := CallWithStatus(calls, sh, PaymentPending);
    if p.Some? then p
    else
      var q := CallWithStatus(calls, sh, CallCreated);
      if q.Some? then q
      else
        var t := CallWithStatus(calls, sh, CallConnecting);
        if t.Some? then t else CallWithStatus(calls, sh, CallLive)
  }

  ghost function EntryFor(entries: map<EntryId, Entry>, sh: ShowId, viewer: UserId): (r: Option<EntryId>)
    ensures r.Some? ==> r.value in entries && entries[r.value].show == sh && entries[r.value].viewer == viewer
    ensures r.None? ==> forall e :: e in entries ==> !(entries[e].show == sh && entries[e].viewer == viewer)
  {
    var s := set e | e in entries && entries[e].show == sh && entries[e].viewer == viewer;
    assert forall e :: e in entries && entries[e].show == sh && entries[e].viewer == viewer ==> e in s;
    FirstId(s)
  }

  predicate IsLive(shows: map<ShowId, Show>, sh: ShowId) {
    sh in shows && shows[sh].status == ShowLive
  }

  function RefundedAttempts(refunds: map<RefundId, Refund>): set<AttemptId> {
    set r | r in refunds :: refunds[r].attempt
  }

  function ChargeOf(attempt: Attempt): L.Charge {
    L.Charge(L.Account(attempt.creator, "usd"), attempt.amountCents, attempt.platformFeeCents)
  }

  predicate ActiveEntry(st: EntryStatus) {
    st == Waiting || st == Selected || st == EntryConnecting || st == EntryLive
  }

  function ActiveEntries(entries: map<EntryId, Entry>, sh: ShowId): set<EntryId> {
    set e | e in entries && entries[e].show == sh && ActiveEntry(entries[e].status)
  }
}
