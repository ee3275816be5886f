/**
 What each Convex mutation does to the database. A mutation is atomic, so one
 mutation is one step; `fail(...)` is an `Err` and leaves the database alone.
 Stripe's answers arrive as steps of their own, at any time and in any order,
 whether an action or the webhook carries them.
 */
module Steps {
  import opened Common
  import opened Tables
  import L = Ledger
  import Fees

  const PRESENCE_TTL_MS := 30_000
  const DISCONNECT_GRACE_MS := 20_000
  const CLOSE_BATCH := 200
  const MAX_REFUND_ATTEMPTS := 10
  const REFUND_LEASE_MS := 300_000
  const PENDING_RECHECK_MS := 300_000

  // ------------------------------------------------------------ lib/payments.ts

  /** A hold Stripe can still be asked to release. */
  predicate Releasable(attempts: map<AttemptId, Attempt>, a: AttemptId) {
    a in attempts && attempts[a].hasIntent && (attempts[a].status == PayCreated || attempts[a].status == PayAuthorized)
  }

  function ScheduleCancel(db: Db, a: AttemptId): Db {
    if Releasable(db.attempts, a) then db.(jobs := db.jobs + multiset{ReleaseHold(db.now, a)}) else db
  }

  /** Records one refund per captured attempt and starts processing it. */
  function RequestRefund(db: Db, a: AttemptId, c: CallId): (r: Db)
    requires a in db.attempts
    ensures r == db.(refunds := r.refunds, nextId := r.nextId, jobs := r.jobs)
  {
    var attempt := db.attempts[a];
    if attempt.status != PayCaptured || !attempt.hasIntent || a in RefundedAttempts(db.refunds) then db
    else db.(
      refunds := db.refunds[db.nextId := Refund(a, c, attempt.amountCents, true, Requested, 0, db.now, None)],
      nextId := db.nextId + 1,
      jobs := db.jobs + multiset{RunRefund(db.now, db.nextId)})
  }

  /** A call still waiting for its payment fails, and its entry closes. */
  function FailUnpaid(db: Db, c: CallId): (r: Db)
    requires c in db.calls && db.calls[c].entry in db.entries
    ensures r == db.(calls := r.calls, entries := r.entries)
  {
    var call := db.calls[c];
    if call.status != PaymentPending then db
    else db.(
      calls := db.calls[c := call.(status := CallFailed, endedAt := Some(db.now))],
      entries := db.entries[call.entry := db.entries[call.entry].(status := EntryEnded)])
  }

  /** What a capture means for the call it paid for: open it, or refund it if its show is over. */
  function SettleCaptured(db: Db, a: AttemptId, c: CallId): (r: Db)
    requires a in db.attempts && c in db.calls && db.calls[c].entry in db.entries
    ensures r == db.(calls := r.calls, entries := r.entries, refunds := r.refunds, nextId := r.nextId, jobs := r.jobs)
  {
    var live := IsLive(db.shows, db.calls[c].show);
    if db.calls[c].status == PaymentPending && live then
      db.(calls := db.calls[c := db.calls[c].(status := CallCreated)])
    else if db.calls[c].startedAt.None? && !live then RequestRefund(FailUnpaid(db, c), a, c)
    else db
  }

  /** Stripe captured the payment, as the capture action or the webhook reports. */
  ghost function RecordCaptured(db: Db, a: AttemptId): (r: Db)
    requires a in db.attempts
    requires forall c :: c in db.calls ==> db.calls[c].entry in db.entries
    ensures r.attempts == db.attempts[a := db.attempts[a].(status := PayCaptured)]
    ensures r == db.(attempts := r.attempts, calls := r.calls, entries := r.entries, refunds := r.refunds,
                       nextId := r.nextId, jobs := r.jobs)
  {
    var paid := db.(attempts := db.attempts[a := db.attempts[a].(status := PayCaptured)]);
    var found := CallFor(db.calls, a);
    if found.None? then paid else SettleCaptured(paid, a, found.value)
  }

  /** The payment will not be captured: fail the waiting call and release its caller. */
  ghost function RecordNotCaptured(db: Db, a: AttemptId, status: PaymentStatus): (r: Db)
    requires a in db.attempts
    requires db.attempts[a].entry.Some? ==> db.attempts[a].entry.value in db.entries
    ensures r.attempts == if db.attempts[a].status == PayCaptured then db.attempts
                          else db.attempts[a := db.attempts[a].(status := status)]
    ensures r == db.(attempts := r.attempts, calls := r.calls, entries := r.entries)
  {
    var attempt := db.attempts[a];
    if attempt.status == PayCaptured then db
    else
      var found := CallFor(db.calls, a);
      var pending := found.Some? && db.calls[found.value].status == PaymentPending;
      var calls :=
        if pending then db.calls[found.value := db.calls[found.value].(status := CallFailed, endedAt := Some(db.now))]
        else db.calls;
      var release :=
        attempt.entry.Some?
        && var st := db.entries[attempt.entry.value].status;
           st == Waiting || (st == Selected && pending);
      var entries :=
        if release then db.entries[attempt.entry.value := db.entries[attempt.entry.value].(status := Left)]
        else db.entries;
      db.(attempts := db.attempts[a := attempt.(status := status)], calls := calls, entries := entries)
  }

  // ------------------------------------------------------------ payments.ts

  /** Starts a hold for a paid tier of a live show, with the fees fixed now. */
  function Prepare(db: Db, sh: ShowId, tier: TierId, payer: UserId): (r: Result<Db, Error>)
    ensures r.Ok? ==> r.value == db.(attempts := r.value.attempts, nextId := r.value.nextId)
  {
    if sh !in db.shows || tier !in db.tiers || db.tiers[tier].show != sh || !db.tiers[tier].enabled then Err(TierNotPayable)
    else if db.shows[sh].status != ShowLive then Err(ShowNotLive)
    else if db.tiers[tier].priceCents == 0 then Err(TierNotPayable)
    else
      var creator := db.shows[sh].creator;
      var rate := Fees.CreatorFeeBps(if creator in db.feeRates then Some(db.feeRates[creator]) else None);
      var price := db.tiers[tier].priceCents;
      var attempt := Attempt(sh, creator, tier, payer, price, Fees.FeesFor(price, rate).platformFeeCents,
                             PayCreated, false, None);
      Ok(db.(attempts := db.attempts[db.nextId := attempt], nextId := db.nextId + 1))
  }

  function AttachIntent(db: Db, a: AttemptId): (r: Result<Db, Error>)
    ensures r.Ok? ==> r.value == db.(attempts := r.value.attempts)
  {
    if a !in db.attempts then Err(PaymentNotAuthorized)
    else Ok(db.(attempts := db.attempts[a := db.attempts[a].(hasIntent := true)]))
  }

  /** Runs once Stripe confirmed the hold of an attempt that has an intent. */
  function MarkAuthorized(db: Db, a: AttemptId): (d: Db)
    ensures d == db.(attempts := d.attempts)
  {
    if a in db.attempts && db.attempts[a].hasIntent && db.attempts[a].status == PayCreated then
      db.(attempts := db.attempts[a := db.attempts[a].(status := PayAuthorized)])
    else db
  }

  // ------------------------------------------------------------ lib/calls.ts

  predicate CanTransition(from: CallStatus, to: CallStatus) {
    match from
    case CallCreated => to == CallConnecting || to == CallEnded || to == CallFailed
    case CallConnecting => to == CallLive || to == CallEnded || to == CallFailed
    case CallLive => to == CallEnded || to == CallFailed
    case _ => false
  }

  function EntryStatusAfter(target: CallStatus): EntryStatus {
    match target
    case CallConnecting => EntryConnecting
    case CallLive => EntryLive
    case _ => EntryEnded
  }

  function PresenceWithout(presence: map<Seat, Presence>, c: CallId): map<Seat, Presence> {
    map s | s in presence && s.call != c :: presence[s]
  }

  function CreditEarning(db: Db, a: AttemptId): L.Ledger
    requires a in db.attempts
  {
    if db.attempts[a].status != PayCaptured then db.ledger
    else L.Post(db.ledger, L.EarningEntry(a, ChargeOf(db.attempts[a]), db.now + db.holdMs))
  }

  /** The call going live for the first time starts its clock and earns the creator their share. */
  function GoLive(db: Db, c: CallId): Db
    requires c in db.calls && db.calls[c].entry in db.entries
    requires db.calls[c].attempt.Some? ==> db.calls[c].attempt.value in db.attempts
  {
    var call := db.calls[c];
    var expiresAt := db.now + call.durationSeconds * 1000;
    db.(
      calls := db.calls[c := call.(status := CallLive, startedAt := Some(db.now), expiresAt := Some(expiresAt))],
      entries := db.entries[call.entry := db.entries[call.entry].(status := EntryLive)],
      ledger := if call.attempt.Some? then CreditEarning(db, call.attempt.value) else db.ledger,
      jobs := db.jobs + multiset{ExpireCall(expiresAt, c)})
  }

  /** The call is over: its entry closes, its seats empty, and a paid call that never went live is refunded. */
  function Finish(db: Db, c: CallId, target: CallStatus): (r: Db)
    requires c in db.calls && db.calls[c].entry in db.entries
    requires db.calls[c].attempt.Some? ==> db.calls[c].attempt.value in db.attempts
    ensures r == db.(calls := r.calls, entries := r.entries, presence := r.presence, refunds := r.refunds,
                       nextId := r.nextId, jobs := r.jobs)
  {
    var call := db.calls[c];
    var over := db.(
      calls := db.calls[c := call.(status := target, endedAt := Some(db.now))],
      entries := db.entries[call.entry := db.entries[call.entry].(status := EntryEnded)],
      presence := PresenceWithout(db.presence, c));
    if call.startedAt.None? && call.attempt.Some? then RequestRefund(over, call.attempt.value, c) else over
  }

  /** Moves a call to a new state and keeps its queue entry in step. */
  function ApplyTransition(db: Db, c: CallId, target: CallStatus): (r: Result<Db, Error>)
    requires c in db.calls && db.calls[c].entry in db.entries
    requires db.calls[c].attempt.Some? ==> db.calls[c].attempt.value in db.attempts
    ensures r.Ok? ==> r.value == db.(calls := r.value.calls, entries := r.value.entries, presence := r.value.presence,
                                     refunds := r.value.refunds, ledger := r.value.ledger, nextId := r.value.nextId,
                                     jobs := r.value.jobs)
  {
    var call := db.calls[c];
    if call.status == target then Ok(db)
    else if !CanTransition(call.status, target) then Err(InvalidCallState)
    else if Finished(target) then Ok(Finish(db, c, target))
    else if target == CallLive && call.startedAt.None? then Ok(GoLive(db, c))
    else Ok(db.(
      calls := db.calls[c := call.(status := target)],
      entries := db.entries[call.entry := db.entries[call.entry].(status := EntryStatusAfter(target))]))
  }

  // ------------------------------------------------------------ calls.ts

  /** The creator connects to a waiting caller, chosen by hand or at random. */
  ghost function Select(db: Db, sh: ShowId, creator: UserId, e: EntryId): (r: Result<Db, Error>)
    ensures r.Ok? ==> r.value == db.(calls := r.value.calls, entries := r.value.entries, attempts := r.value.attempts,
                                       nextId := r.value.nextId, jobs := r.value.jobs)
  {
    if sh !in db.shows || db.shows[sh].creator != creator then Err(ShowNotFound)
    else if db.shows[sh].status != ShowLive then Err(ShowNotLive)
    else if ActiveCall(db.calls, sh).Some? then Err(ActiveCallExists)
    else if e !in db.entries || db.entries[e].show != sh || db.entries[e].status != Waiting then Err(CallerNotWaiting)
    else CreateCall(db, sh, e)
  }

  function CreateCall(db: Db, sh: ShowId, e: EntryId): Result<Db, Error>
    requires e in db.entries
  {
    var entry := db.entries[e];
    var paid := entry.priceCents > 0;
    var attempt := if paid && entry.attempt.Some? && entry.attempt.value in db.attempts then entry.attempt else None;
    if paid && (attempt.None? || db.attempts[attempt.value].status != PayAuthorized) then Err(PaymentCaptureFailed)
    else
      var c := db.nextId;
      var call := Call(sh, e, if paid then PaymentPending else CallCreated, entry.durationSeconds, None, None, None, attempt);
      var selected := db.(
        entries := db.entries[e := entry.(status := Selected)],
        calls := db.calls[c := call],
        nextId := c + 1);
      if attempt.None? then Ok(selected)
      else Ok(selected.(
        attempts := db.attempts[attempt.value := db.attempts[attempt.value].(status := PayCapturing)],
        jobs := db.jobs + multiset{CapturePayment(db.now, c)}))
  }

  function Transition(db: Db, c: CallId, role: Role, target: CallStatus): (d: Result<Db, Error>)
    requires c in db.calls ==> db.calls[c].entry in db.entries
    requires c in db.calls && db.calls[c].attempt.Some? ==> db.calls[c].attempt.value in db.attempts
    ensures d.Ok? ==> d.value == db.(calls := d.value.calls, entries := d.value.entries, presence := d.value.presence,
                                     refunds := d.value.refunds, ledger := d.value.ledger, nextId := d.value.nextId,
                                     jobs := d.value.jobs)
  {
    if c !in db.calls then Err(CallNotFound)
    else if !(target == CallLive || Finished(target) || (role == Creator && target == CallConnecting)) then Err(InvalidCallState)
    else ApplyTransition(db, c, target)
  }

  /** Running a job takes it off the schedule. */
  function Taken(db: Db, job: Job): Db {
    db.(jobs := db.jobs - multiset{job})
  }

  /** Scheduled for a call's expiry when it goes live. */
  function Expire(db: Db, due: Millis, c: CallId): (d: Db)
    requires c in db.calls ==> db.calls[c].entry in db.entries
    requires c in db.calls && db.calls[c].attempt.Some? ==> db.calls[c].attempt.value in db.attempts
  {
    var taken := Taken(db, ExpireCall(due, c));
    if c !in db.calls || db.calls[c].status != CallLive then taken
    else if db.calls[c].expiresAt.Some? && db.calls[c].expiresAt.value > db.now then taken
    else Finish(taken, c, CallEnded)
  }

  // ------------------------------------------------------------ shows.ts

  function CreateShow(db: Db, creator: UserId): (d: Db)
    ensures d == db.(shows := d.shows, nextId := d.nextId)
  {
    db.(shows := db.shows[db.nextId := Show(creator, ShowCreated)], nextId := db.nextId + 1)
  }

  /** `ready` is what the payouts page last read about the creator's Stripe account. */
  function StartShow(db: Db, sh: ShowId, creator: UserId, ready: bool): (r: Result<Db, Error>)
    ensures r.Ok? ==> r.value == db.(shows := r.value.shows)
  {
    if sh !in db.shows || db.shows[sh].creator != creator then Err(ShowNotFound)
    else if db.shows[sh].status == ShowLive then Ok(db)
    else if db.shows[sh].status != ShowCreated then Err(InvalidShowState)
    else
      if !(exists t :: t in db.tiers && db.tiers[t].show == sh && db.tiers[t].enabled) then Err(InvalidTierConfiguration)
      else if (exists t :: t in db.tiers && db.tiers[t].show == sh && db.tiers[t].enabled && db.tiers[t].priceCents > 0) && !ready
      then Err(PayoutSetupRequired)
      else if exists o :: o in db.shows && db.shows[o].creator == creator && db.shows[o].status == ShowLive then Err(ActiveShowExists)
      else Ok(db.(shows := db.shows[sh := Show(creator, ShowLive)]))
  }

  /** An open call ends with its show; the queue is closed in batches afterwards. */
  ghost function EndShow(db: Db, sh: ShowId, creator: UserId): (r: Result<Db, Error>)
    requires forall c :: c in db.calls ==> db.calls[c].entry in db.entries
    requires forall c :: c in db.calls && db.calls[c].attempt.Some? ==> db.calls[c].attempt.value in db.attempts
    ensures r.Ok? ==> r.value == db.(shows := r.value.shows, calls := r.value.calls, entries := r.value.entries,
                                     presence := r.value.presence, refunds := r.value.refunds, nextId := r.value.nextId,
                                     jobs := r.value.jobs)
  {
    if sh !in db.shows || db.shows[sh].creator != creator then Err(ShowNotFound)
    else if db.shows[sh].status == ShowEnded then Ok(db)
    else if db.shows[sh].status != ShowLive then Err(InvalidShowState)
    else
      var current := ActiveCall(db.calls, sh);
      var hungUp :=
        if current.Some? && Connectable(db.calls[current.value].status) then Finish(db, current.value, CallEnded) else db;
      Ok(hungUp.(
        shows := hungUp.shows[sh := Show(creator, ShowEnded)],
        jobs := hungUp.jobs + multiset{CloseQueue(db.now, sh)}))
  }

  /** Within one status, lower ranks and then earlier callers come first, as in the queue's index. */
  predicate Precedes(a: Entry, aId: EntryId, b: Entry, bId: EntryId) {
    || a.rank < b.rank
    || (a.rank == b.rank && a.joinedAt < b.joinedAt)
    || (a.rank == b.rank && a.joinedAt == b.joinedAt && aId < bId)
  }

  predicate ClosesBefore(entries: map<EntryId, Entry>, x: EntryId, e: EntryId)
    requires x in entries && e in entries
  {
    || CloseOrder(entries[x].status) < CloseOrder(entries[e].status)
    || (CloseOrder(entries[x].status) == CloseOrder(entries[e].status) && Precedes(entries[x], x, entries[e], e))
  }

  /** The first CLOSE_BATCH active entries, statuses in the source's order and each in the order of its index. */
  ghost predicate IsCloseBatch(entries: map<EntryId, Entry>, sh: ShowId, batch: set<EntryId>) {
    && batch <= ActiveEntries(entries, sh)
    && (|batch| == CLOSE_BATCH || batch == ActiveEntries(entries, sh))
    && |batch| <= CLOSE_BATCH
    && (forall e, x :: e in batch && x in ActiveEntries(entries, sh) && ClosesBefore(entries, x, e) ==> x in batch)
  }

  function CloseOrder(st: EntryStatus): nat {
    match st
    case Waiting => 0
    case Selected => 1
    case EntryConnecting => 2
    case _ => 3
  }

  function CloseEntries(entries: map<EntryId, Entry>, batch: set<EntryId>): map<EntryId, Entry> {
    map e | e in entries :: if e in batch then entries[e].(status := EntryEnded) else entries[e]
  }

  /** The hold releases a batch schedules: one for each waiting caller whose hold can still be released. */
  function ReleasesFor(db: Db, batch: set<EntryId>): set<Job> {
    set e | e in batch && e in db.entries && db.entries[e].status == Waiting && db.entries[e].attempt.Some?
            && Releasable(db.attempts, db.entries[e].attempt.value) :: ReleaseHold(db.now, db.entries[e].attempt.value)
  }

  /** One run of the scheduled closeQueue job. */
  function CloseQueueBatch(db: Db, due: Millis, sh: ShowId, batch: set<EntryId>): (r: Db)
    requires CloseQueue(due, sh) in db.jobs
    ensures r == db.(entries := r.entries, jobs := r.jobs)
  {
    db.(
      entries := CloseEntries(db.entries, batch),
      jobs := db.jobs - multiset{CloseQueue(due, sh)} + multiset(ReleasesFor(db, batch))
              + (if |batch| == CLOSE_BATCH then multiset{CloseQueue(db.now, sh)} else multiset{}))
  }

  // ------------------------------------------------------------ queue.ts

  /** A caller's own authorized hold for exactly this tier's price, not used by another entry. */
  predicate UsableHold(db: Db, a: AttemptId, sh: ShowId, tier: TierId, viewer: UserId, existing: Option<EntryId>) {
    && a in db.attempts
    && tier in db.tiers
    && db.attempts[a].payer == viewer
    && db.attempts[a].show == sh
    && db.attempts[a].tier == tier
    && db.attempts[a].amountCents == db.tiers[tier].priceCents
    && db.attempts[a].status == PayAuthorized
    && (db.attempts[a].entry.None? || db.attempts[a].entry == existing)
  }

  predicate Offers(tiers: map<TierId, Tier>, sh: ShowId, tier: TierId) {
    tier in tiers && tiers[tier].show == sh && tiers[tier].enabled
  }

  ghost function Join(db: Db, sh: ShowId, viewer: UserId, tier: TierId, payment: Option<AttemptId>): (r: Result<Db, Error>)
    ensures r.Ok? ==> r.value == db.(entries := r.value.entries, attempts := r.value.attempts, nextId := r.value.nextId)
  {
    if !IsLive(db.shows, sh) then Err(ShowNotLive)
    else if !Offers(db.tiers, sh, tier) then Err(TierNotFound)
    else
      var existing := EntryFor(db.entries, sh, viewer);
      if existing.Some? && db.entries[existing.value].status != Left then Ok(db)
      else
        var price := db.tiers[tier].priceCents;
        if price > 0 && !(payment.Some? && UsableHold(db, payment.value, sh, tier, viewer, existing)) then Err(PaymentRequired)
        else
          var attempt := if price > 0 then payment else None;
          var e := if existing.Some? then existing.value else db.nextId;
          var entry := Entry(sh, viewer, Waiting, db.tiers[tier].rank, db.now, price, db.tiers[tier].durationSeconds, attempt);
          var joined := db.(
            entries := db.entries[e := entry],
            nextId := if existing.Some? then db.nextId else db.nextId + 1);
          if attempt.None? then Ok(joined)
          else Ok(joined.(attempts := db.attempts[attempt.value := db.attempts[attempt.value].(entry := Some(e))]))
  }

  /** The order of a show's tiers by rank, the newer one first among equals. */
  predicate Outranks(tiers: map<TierId, Tier>, a: TierId, b: TierId)
    requires a in tiers && b in tiers
  {
    tiers[a].rank > tiers[b].rank || (tiers[a].rank == tiers[b].rank && a > b)
  }

  /** The tier a caller gets who names none: the first of that order that is enabled. */
  ghost predicate IsDefaultTier(tiers: map<TierId, Tier>, sh: ShowId, tier: TierId) {
    Offers(tiers, sh, tier) && forall x :: Offers(tiers, sh, x) && x != tier ==> Outranks(tiers, tier, x)
  }

  /** Joining with the tier asked for, or with the default one; a show without any tier to offer has none to find. */
  ghost function JoinAsking(db: Db, sh: ShowId, viewer: UserId, asked: Option<TierId>, payment: Option<AttemptId>): (r: Result<Db, Error>)
  {
    if asked.Some? then Join(db, sh, viewer, asked.value, payment)
    else if !IsLive(db.shows, sh) then Err(ShowNotLive)
    else if exists tier :: IsDefaultTier(db.tiers, sh, tier) then
      var tier :| IsDefaultTier(db.tiers, sh, tier);
      Join(db, sh, viewer, tier, payment)
    else Err(TierNotFound)
  }

  ghost function Leave(db: Db, sh: ShowId, viewer: UserId): (r: Result<Db, Error>)
    ensures r.Ok? ==> r.value == db.(entries := r.value.entries, jobs := r.value.jobs)
  {
    var found := EntryFor(db.entries, sh, viewer);
    if found.None? then Err(NotInQueue)
    else
      var e := found.value;
      var entry := db.entries[e];
      if entry.status == Left then Ok(db)
      else if entry.status != Waiting then Err(InvalidQueueState)
      else
        var gone := db.(entries := db.entries[e := entry.(status := Left)]);
        Ok(if entry.attempt.Some? then ScheduleCancel(gone, entry.attempt.value) else gone)
  }

  // ------------------------------------------------------------ presence.ts

  function Heartbeat(db: Db, seat: Seat): (r: Result<Db, Error>)
    ensures r.Ok? ==> r.value == db.(presence := r.value.presence, jobs := r.value.jobs)
  {
    if seat.call !in db.calls || !Connectable(db.calls[seat.call].status) then Err(CallNotFound)
    else Ok(db.(
      presence := db.presence[seat := Presence(db.now, None)],
      jobs := db.jobs + multiset{CheckSeen(db.now + PRESENCE_TTL_MS, seat, db.now)}))
  }

  function MarkDisconnected(db: Db, seat: Seat): (r: Db)
    requires seat in db.presence
    ensures r == db.(presence := r.presence, jobs := r.jobs)
  {
    db.(
      presence := db.presence[seat := db.presence[seat].(disconnectedAt := Some(db.now))],
      jobs := db.jobs + multiset{CheckGrace(db.now + DISCONNECT_GRACE_MS, seat, db.now)})
  }

  function LeaveCall(db: Db, seat: Seat): (r: Result<Db, Error>)
    ensures r.Ok? ==> r.value == db.(presence := r.value.presence, jobs := r.value.jobs)
  {
    if seat.call !in db.calls then Err(CallNotFound)
    else if !Connectable(db.calls[seat.call].status) then Ok(db)
    else if seat in db.presence && db.presence[seat].disconnectedAt.None? then Ok(MarkDisconnected(db, seat))
    else Ok(db)
  }

  function RunCheckSeen(db: Db, due: Millis, seat: Seat, seenAt: Millis): (r: Db)
    ensures r == db.(presence := r.presence, jobs := r.jobs)
  {
    var taken := Taken(db, CheckSeen(due, seat, seenAt));
    if seat !in db.presence || db.presence[seat].lastSeenAt != seenAt || db.presence[seat].disconnectedAt.Some? then taken
    else MarkDisconnected(taken, seat)
  }

  function RunCheckGrace(db: Db, due: Millis, seat: Seat, at: Millis): (d: Db)
    requires seat.call in db.calls ==> db.calls[seat.call].entry in db.entries
    requires seat.call in db.calls && db.calls[seat.call].attempt.Some? ==> db.calls[seat.call].attempt.value in db.attempts
  {
    var taken := Taken(db, CheckGrace(due, seat, at));
    if seat !in db.presence || db.presence[seat].disconnectedAt != Some(at) then taken
    else if seat.call in db.calls && Connectable(db.calls[seat.call].status) then Finish(taken, seat.call, CallFailed)
    else taken
  }

  // ------------------------------------------------------------ refunds.ts

  predicate FinalRefund(st: RefundStatus) {
    st == Succeeded || st == RefundFailed
  }

  predicate RefundDue(refund: Refund, now: Millis) {
    refund.status == Requested
    || ((refund.status == Retry || refund.status == Pending || refund.status == Processing) && refund.nextAttemptAt <= now)
  }

  /** Whether a worker may take the refund now. */
  predicate Claimable(refund: Refund, now: Millis) {
    refund.attempts < MAX_REFUND_ATTEMPTS && RefundDue(refund, now)
  }

  function ClaimRefund(db: Db, r: RefundId): (d: Db)
    ensures d == db.(refunds := d.refunds)
  {
    if r !in db.refunds || !Claimable(db.refunds[r], db.now) then db
    else
      var refund := db.refunds[r];
      db.(refunds := db.refunds[r := refund.(status := Processing, attempts := refund.attempts + 1,
                                             nextAttemptAt := db.now + REFUND_LEASE_MS)])
  }

  /** The ledger after refund `r` succeeded. */
  function Reverse(db: Db, r: RefundId): L.Ledger
    requires L.Valid(db.ledger)
    requires r in db.refunds && db.refunds[r].attempt in db.attempts && db.attempts[db.refunds[r].attempt].amountCents > 0
  {
    var refund := db.refunds[r];
    L.ReverseForRefund(db.ledger, r, L.Refunding(refund.attempt, refund.amountCents),
                       db.attempts[refund.attempt].amountCents, db.now)
  }

  /** What the worker learned from Stripe; a final outcome already recorded stays. */
  function RecordRefund(db: Db, r: RefundId, stripeId: nat, outcome: RefundStatus): (d: Db)
    requires L.Valid(db.ledger)
    requires r in db.refunds ==> db.refunds[r].attempt in db.attempts && db.attempts[db.refunds[r].attempt].amountCents > 0
    ensures d == db.(refunds := d.refunds, ledger := d.ledger, jobs := d.jobs)
  {
    if r !in db.refunds || FinalRefund(db.refunds[r].status) then db
    else
      var recorded := db.(
        refunds := db.refunds[r := db.refunds[r].(status := outcome, stripeId := Some(stripeId),
                                                  nextAttemptAt := db.now + PENDING_RECHECK_MS)]);
      if outcome == Succeeded then recorded.(ledger := Reverse(db, r))
      else if outcome == Pending then recorded.(jobs := db.jobs + multiset{RunRefund(db.now + PENDING_RECHECK_MS, r)})
      else recorded
  }

  function Pow2(n: nat): nat {
    if n == 0 then 1 else 2 * Pow2(n - 1)
  }

  function RetryDelay(attempts: nat): nat {
    1000 * Pow2(if attempts < 8 then attempts else 8)
  }

  /** The row of a refund whose attempt failed: backed off, or given up after the last attempt. */
  function RetriedRow(refund: Refund, now: Millis): Refund {
    if refund.attempts >= MAX_REFUND_ATTEMPTS then refund.(status := RefundFailed)
    else refund.(status := Retry, nextAttemptAt := now + RetryDelay(refund.attempts))
  }

  function RetryRefund(db: Db, r: RefundId): (d: Db)
    ensures d == db.(refunds := d.refunds, jobs := d.jobs)
  {
    if r !in db.refunds || db.refunds[r].status != Processing then db
    else
      var refund := db.refunds[r];
      db.(refunds := db.refunds[r := RetriedRow(refund, db.now)],
          jobs := if refund.attempts >= MAX_REFUND_ATTEMPTS then db.jobs
                  else db.jobs + multiset{RunRefund(db.now + RetryDelay(refund.attempts), r)})
  }

  // ------------------------------------------------------------ webhooks.ts

  datatype Notice =
    | IntentSucceeded(intent: AttemptId)
    | IntentCanceled(intent: AttemptId)
    | IntentFailed(intent: AttemptId)
    | RefundNotice(stripeId: nat, refunded: Option<AttemptId>, outcome: RefundStatus, amount: Option<nat>)
    | DisputeNotice(dispute: DisputeId, disputed: Option<AttemptId>, status: L.DisputeStatus)

  function AttemptForIntent(attempts: map<AttemptId, Attempt>, intent: Option<AttemptId>): Option<AttemptId> {
    if intent.Some? && intent.value in attempts && attempts[intent.value].hasIntent then intent else None
  }

  function RefundsNamed(refunds: map<RefundId, Refund>, stripeId: nat): set<RefundId> {
    set r | r in refunds && refunds[r].stripeId == Some(stripeId)
  }

  /** The refunds of a payment whose Stripe id is not recorded yet. */
  function UnnamedRefunds(refunds: map<RefundId, Refund>, a: AttemptId): set<RefundId> {
    set r | r in refunds && refunds[r].attempt == a && refunds[r].stripeId.None?
  }

  /** The refund a Stripe refund belongs to: by its Stripe id, else one of the intent with no Stripe id yet. */
  ghost function RefundFor(refunds: map<RefundId, Refund>, stripeId: nat, intent: Option<AttemptId>): (r: Option<RefundId>)
    ensures r.Some? ==> r.value in refunds
  {
    var byStripe := FirstId(RefundsNamed(refunds, stripeId));
    if byStripe.Some? then byStripe
    else if intent.None? then None
    else FirstId(UnnamedRefunds(refunds, intent.value))
  }

  /** A refund made outside Bling is recorded, so that the creator's share is reversed too. */
  ghost function AdoptRefund(db: Db, stripeId: nat, intent: Option<AttemptId>, amount: Option<nat>): (d: Option<Db>)
    ensures d.Some? ==> db.nextId in d.value.refunds && d.value.refunds[db.nextId].attempt in db.attempts
    ensures d.Some? ==> d.value == db.(refunds := d.value.refunds, nextId := d.value.nextId)
  {
    var a := AttemptForIntent(db.attempts, intent);
    if a.None? || amount.None? then None
    else
      var c := CallFor(db.calls, a.value);
      if c.None? then None
      else Some(db.(
        refunds := db.refunds[db.nextId := Refund(a.value, c.value, amount.value, false, Pending, 0, db.now, Some(stripeId))],
        nextId := db.nextId + 1))
  }

  /** A final outcome is never reopened by an older event. */
  function SettleRefund(db: Db, r: RefundId, stripeId: nat, outcome: RefundStatus): (d: Db)
    requires L.Valid(db.ledger)
    requires r in db.refunds && db.refunds[r].attempt in db.attempts && db.attempts[db.refunds[r].attempt].amountCents > 0
    ensures d == db.(refunds := d.refunds, ledger := d.ledger)
  {
    var refund := db.refunds[r];
    if FinalRefund(refund.status) && outcome == Pending then db
    else
      var settled := db.(refunds := db.refunds[r := refund.(
        status := outcome, stripeId := if refund.stripeId.Some? then refund.stripeId else Some(stripeId))]);
      if outcome == Succeeded then settled.(ledger := Reverse(db, r)) else settled
  }

  /** The attempt a dispute notice is about: the one known, else the intent's. */
  function DisputedAttempt(db: Db, d: DisputeId, intent: Option<AttemptId>): Option<AttemptId> {
    if d in db.disputes && db.disputes[d].attempt.Some? then db.disputes[d].attempt else AttemptForIntent(db.attempts, intent)
  }

  function ChangeDispute(db: Db, d: DisputeId, a: Option<AttemptId>, status: L.DisputeStatus): (r: Db)
    ensures r == db.(disputes := r.disputes, ledger := r.ledger)
  {
    db.(disputes := db.disputes[d := Dispute(a, status)],
        ledger := L.AdjustForDispute(db.ledger, d, a, status, db.now))
  }

  /** What a webhook step needs of the database: rows refer to rows that exist. */
  ghost predicate Linked(db: Db) {
    && L.Valid(db.ledger)
    && (forall a :: a in db.attempts ==> db.attempts[a].amountCents > 0)
    && (forall a :: a in db.attempts && db.attempts[a].entry.Some? ==> db.attempts[a].entry.value in db.entries)
    && (forall c :: c in db.calls ==> db.calls[c].entry in db.entries)
    && (forall c :: c in db.calls && db.calls[c].attempt.Some? ==> db.calls[c].attempt.value in db.attempts)
    && (forall r :: r in db.refunds ==> db.refunds[r].attempt in db.attempts)
  }

  ghost function ApplyNotice(db: Db, n: Notice): (d: Db)
    requires Linked(db)
    ensures d.now == db.now && d.shows == db.shows && d.presence == db.presence
  {
    match n
    case IntentSucceeded(i) =>
      var a := AttemptForIntent(db.attempts, Some(i));
      if a.None? then db else RecordCaptured(db, a.value)
    case IntentCanceled(i) =>
      var a := AttemptForIntent(db.attempts, Some(i));
      if a.None? then db else RecordNotCaptured(db, a.value, PayCanceled)
    case IntentFailed(i) =>
      var a := AttemptForIntent(db.attempts, Some(i));
      if a.None? then db else RecordNotCaptured(db, a.value, PayFailed)
    case RefundNotice(sid, intent, outcome, amount) =>
      var found := RefundFor(db.refunds, sid, intent);
      if found.Some? then SettleRefund(db, found.value, sid, outcome)
      else
        var adopted := AdoptRefund(db, sid, intent, amount);
        if adopted.None? then db else SettleRefund(adopted.value, db.nextId, sid, outcome)
    case DisputeNotice(d, intent, status) => ChangeDispute(db, d, DisputedAttempt(db, d, intent), status)
  }

  /** A redelivered event finds its id and does nothing. */
  ghost function Webhook(db: Db, event: nat, n: Notice): (d: Db)
    requires Linked(db)
    ensures d.now == db.now && d.shows == db.shows && d.presence == db.presence
  {
    if event in db.events then db else ApplyNotice(db.(events := db.events + {event}), n)
  }
}
