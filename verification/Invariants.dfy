/**
 The inductive invariant of the calls-and-payments machine. Each predicate
 takes only the tables it speaks about, so a step that leaves those tables
 alone keeps it at once.
 */
module Invariants {
  import opened Common
  import opened Tables
  import opened Steps
  import L = Ledger
  import Fees

  // ------------------------------------------------------------ rows refer to rows

  /** Ids are handed out in increasing order. */
  ghost predicate IdsBelow(n: nat, shows: map<ShowId, Show>, entries: map<EntryId, Entry>,
                           attempts: map<AttemptId, Attempt>, calls: map<CallId, Call>, refunds: map<RefundId, Refund>)
  {
    && (forall i :: i in shows ==> i < n)
    && (forall i :: i in entries ==> i < n)
    && (forall i :: i in attempts ==> i < n)
    && (forall i :: i in calls ==> i < n)
    && (forall i :: i in refunds ==> i < n)
  }

  ghost predicate TiersOk(tiers: map<TierId, Tier>, rates: map<UserId, nat>) {
    && (forall t :: t in tiers ==> tiers[t].priceCents == 0 || tiers[t].priceCents >= Fees.MINIMUM_PRICE_CENTS)
    && (forall u :: u in rates ==> rates[u] <= Fees.STANDARD_PLATFORM_FEE_BPS)
  }

  /** Every attempt leaves its creator something, and only an attempt with an intent gets past CREATED. */
  ghost predicate AttemptsOk(attempts: map<AttemptId, Attempt>, entries: map<EntryId, Entry>) {
    && (forall a :: a in attempts ==> attempts[a].amountCents > 0
                                      && 0 <= attempts[a].platformFeeCents < attempts[a].amountCents)
    && (forall a :: a in attempts && attempts[a].status != PayCreated ==> attempts[a].hasIntent)
    && (forall a :: a in attempts && attempts[a].entry.Some? ==> attempts[a].entry.value in entries)
  }

  /** An entry's hold is its own, and exactly the paid entries have one; a caller has one entry per show. */
  ghost predicate EntriesOk(entries: map<EntryId, Entry>, attempts: map<AttemptId, Attempt>, shows: map<ShowId, Show>) {
    && (forall e :: e in entries ==> entries[e].show in shows && (entries[e].attempt.Some? <==> entries[e].priceCents > 0))
    && (forall e :: e in entries && entries[e].attempt.Some? ==>
          entries[e].attempt.value in attempts && attempts[entries[e].attempt.value].entry == Some(e))
    && (forall e, x | e in entries && x in entries && entries[e].show == entries[x].show
                      && entries[e].viewer == entries[x].viewer :: e == x)
  }

  /** A call belongs to an entry of its show, and a paid one to that entry's hold. */
  ghost predicate CallsLinked(calls: map<CallId, Call>, entries: map<EntryId, Entry>, attempts: map<AttemptId, Attempt>,
                              shows: map<ShowId, Show>)
  {
    && (forall c :: c in calls ==> calls[c].show in shows && calls[c].entry in entries
                                   && entries[calls[c].entry].show == calls[c].show)
    && (forall c :: c in calls && calls[c].attempt.Some? ==>
          calls[c].attempt.value in attempts && attempts[calls[c].attempt.value].entry == Some(calls[c].entry))
  }

  // ------------------------------------------------------------ coupling

  /** At most one active call per show. */
  ghost predicate OneActiveCall(calls: map<CallId, Call>) {
    forall c, d | c in calls && d in calls && calls[c].show == calls[d].show
                  && Active(calls[c].status) && Active(calls[d].status) :: c == d
  }

  /** At most one call per payment attempt. */
  ghost predicate OneCallPerAttempt(calls: map<CallId, Call>) {
    forall c, d :: c in calls && d in calls && calls[c].attempt.Some? && calls[c].attempt == calls[d].attempt ==> c == d
  }

  /** How far a paid call can be for each state of its payment. */
  predicate PaymentAllows(call: Call, status: PaymentStatus) {
    && (call.status == PaymentPending <==> status == PayCapturing)
    && (Connectable(call.status) || call.startedAt.Some? ==> status == PayCaptured)
    && (Finished(call.status) ==> status == PayCaptured || status == PayCanceled || status == PayFailed)
  }

  ghost predicate PaidCallsOk(calls: map<CallId, Call>, attempts: map<AttemptId, Attempt>) {
    forall c :: c in calls && calls[c].attempt.Some? ==>
      calls[c].attempt.value in attempts && PaymentAllows(calls[c], attempts[calls[c].attempt.value].status)
  }

  /** A call starts its clock exactly when it goes live; only paid calls wait for payment. */
  predicate Clocked(call: Call) {
    && (call.status == CallLive ==> call.startedAt.Some?)
    && (call.status == PaymentPending || call.status == CallCreated || call.status == CallConnecting ==> call.startedAt.None?)
    && (call.status == PaymentPending ==> call.attempt.Some?)
  }

  ghost predicate CallsClocked(calls: map<CallId, Call>) {
    forall c :: c in calls ==> Clocked(calls[c])
  }

  /** A show that is not live has no connectable call, and one that never started has no call at all. */
  ghost predicate OpenCallsInLiveShows(calls: map<CallId, Call>, shows: map<ShowId, Show>) {
    && (forall c :: c in calls && Connectable(calls[c].status) ==> IsLive(shows, calls[c].show))
    && (forall c :: c in calls && calls[c].show in shows ==> shows[calls[c].show].status != ShowCreated)
  }

  /** Nobody queues before a show starts. */
  ghost predicate QueuedAfterStart(entries: map<EntryId, Entry>, shows: map<ShowId, Show>) {
    forall e :: e in entries && entries[e].show in shows ==> shows[entries[e].show].status != ShowCreated
  }

  function EntryStatusFor(st: CallStatus): EntryStatus {
    match st
    case CallConnecting => EntryConnecting
    case CallLive => EntryLive
    case _ => Selected
  }

  predicate InCall(st: EntryStatus) {
    st == Selected || st == EntryConnecting || st == EntryLive
  }

  ghost predicate HasActiveCall(calls: map<CallId, Call>, e: EntryId) {
    exists c :: c in calls && calls[c].entry == e && Active(calls[c].status)
  }

  /** While a show is live its entries mirror its active call. */
  ghost predicate EntriesMirrorCalls(calls: map<CallId, Call>, entries: map<EntryId, Entry>, shows: map<ShowId, Show>) {
    && (forall c :: c in calls && Active(calls[c].status) && IsLive(shows, calls[c].show) && calls[c].entry in entries ==>
          entries[calls[c].entry].status == EntryStatusFor(calls[c].status))
    && (forall e :: e in entries && InCall(entries[e].status) && IsLive(shows, entries[e].show) ==> HasActiveCall(calls, e))
  }

  // ------------------------------------------------------------ settlement

  /** The creator is credited for a paid call exactly when it went live. */
  ghost predicate EarningsFollowCalls(calls: map<CallId, Call>, attempts: map<AttemptId, Attempt>, keys: set<L.Key>) {
    && (forall c :: c in calls && calls[c].attempt.Some? ==>
          (calls[c].startedAt.Some? <==> L.EarningKey(calls[c].attempt.value) in keys))
    && (forall a :: L.EarningKey(a) in keys ==> a in attempts && attempts[a].status == PayCaptured)
  }

  /** A refund belongs to the call its payment was for; one Bling requested, to a call that finished without going live. */
  ghost predicate RefundsOk(refunds: map<RefundId, Refund>, calls: map<CallId, Call>, attempts: map<AttemptId, Attempt>) {
    && (forall r :: r in refunds ==> refunds[r].attempt in attempts && refunds[r].call in calls
                                     && calls[refunds[r].call].attempt == Some(refunds[r].attempt))
    && (forall r :: r in refunds && refunds[r].own ==>
          Finished(calls[refunds[r].call].status) && calls[refunds[r].call].startedAt.None?)
    && (forall r, q | r in refunds && q in refunds && refunds[r].own && refunds[q].own
                      && refunds[r].attempt == refunds[q].attempt :: r == q)
  }

  /** A captured payment of a call that finished without going live is refunded. */
  predicate CallSettled(call: Call, attempts: map<AttemptId, Attempt>, refunded: set<AttemptId>) {
    Finished(call.status) && call.startedAt.None? && call.attempt.Some?
    && call.attempt.value in attempts && attempts[call.attempt.value].status == PayCaptured ==>
      call.attempt.value in refunded
  }

  ghost predicate CallsSettled(calls: map<CallId, Call>, attempts: map<AttemptId, Attempt>, refunded: set<AttemptId>) {
    forall c :: c in calls ==> CallSettled(calls[c], attempts, refunded)
  }

  // ------------------------------------------------------------ presence

  /** The job that will look at a participant next. */
  function Watch(seat: Seat, p: Presence): Job {
    if p.disconnectedAt.Some? then CheckGrace(p.disconnectedAt.value + DISCONNECT_GRACE_MS, seat, p.disconnectedAt.value)
    else CheckSeen(p.lastSeenAt + PRESENCE_TTL_MS, seat, p.lastSeenAt)
  }

  ghost predicate PresenceOk(presence: map<Seat, Presence>, calls: map<CallId, Call>, jobs: multiset<Job>, now: Millis) {
    && (forall s :: s in presence ==> s.call in calls && Connectable(calls[s.call].status))
    && (forall s :: s in presence ==> Watch(s, presence[s]) in jobs)
    && (forall s :: s in presence ==> presence[s].lastSeenAt <= now)
    && (forall s :: s in presence && presence[s].disconnectedAt.Some? ==>
          presence[s].lastSeenAt <= presence[s].disconnectedAt.value <= now)
  }

  // ------------------------------------------------------------ refund worker

  ghost predicate WorkerOk(refunds: map<RefundId, Refund>, now: Millis) {
    forall r :: r in refunds ==>
      refunds[r].attempts <= MAX_REFUND_ATTEMPTS && refunds[r].nextAttemptAt <= now + REFUND_LEASE_MS
  }

  // ------------------------------------------------------------ queue closing and disputes

  ghost predicate ClosesEndedShows(jobs: multiset<Job>, shows: map<ShowId, Show>) {
    forall j :: j in jobs && j.CloseQueue? ==> j.show in shows && shows[j.show].status == ShowEnded
  }

  ghost predicate OneLiveShow(shows: map<ShowId, Show>) {
    forall s, t | s in shows && t in shows && shows[s].creator == shows[t].creator
                  && shows[s].status == ShowLive && shows[t].status == ShowLive :: s == t
  }

  // ------------------------------------------------------------ all of it

  ghost predicate LinksInv(db: Db) {
    && IdsBelow(db.nextId, db.shows, db.entries, db.attempts, db.calls, db.refunds)
    && TiersOk(db.tiers, db.feeRates)
    && AttemptsOk(db.attempts, db.entries)
    && EntriesOk(db.entries, db.attempts, db.shows)
    && CallsLinked(db.calls, db.entries, db.attempts, db.shows)
  }

  ghost predicate CouplingInv(db: Db) {
    && OneActiveCall(db.calls)
    && OneCallPerAttempt(db.calls)
    && PaidCallsOk(db.calls, db.attempts)
    && CallsClocked(db.calls)
    && OpenCallsInLiveShows(db.calls, db.shows)
    && EntriesMirrorCalls(db.calls, db.entries, db.shows)
    && QueuedAfterStart(db.entries, db.shows)
    && OneLiveShow(db.shows)
    && ClosesEndedShows(db.jobs, db.shows)
  }

  ghost predicate MoneyInv(db: Db) {
    && L.Valid(db.ledger)
    && EarningsFollowCalls(db.calls, db.attempts, L.Keys(db.ledger))
    && RefundsOk(db.refunds, db.calls, db.attempts)
    && WorkerOk(db.refunds, db.now)
  }

  ghost predicate PresenceInv(db: Db) {
    PresenceOk(db.presence, db.calls, db.jobs, db.now)
  }

  ghost predicate Inv(db: Db) {
    && LinksInv(db)
    && CouplingInv(db)
    && MoneyInv(db)
    && PresenceInv(db)
  }

  lemma InvLinked(db: Db)
    requires Inv(db)
    ensures Linked(db)
  {
  }
}
