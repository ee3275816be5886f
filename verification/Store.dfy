/**
 The tables themselves, updated in place as the mutations of frontend/convex do:
 reads first, then patches, inserts and scheduled jobs in the source's order.
 Each method is proved to turn the tables into exactly the database that the
 step function of the same mutation computes, so everything proved of runs of
 steps holds of these methods. A failing mutation returns its error and leaves
 the tables alone.
 */
module Stores {
  import opened Common
  import opened Tables
  import opened Steps
  import opened LedgerBooks
  import L = Ledger

  /** An index lookup's `.first()`: the smallest id of the matching rows. */
  method FirstOf(rows: set<nat>) returns (r: Option<nat>)
    ensures r == FirstId(rows)
  {
    if rows == {} {
      return None;
    }
    var least := PickRow(rows);
    var rest := rows - {least};
    while rest != {}
      invariant rest <= rows && least in rows
      invariant forall x :: x in rows && x !in rest ==> least <= x
      decreases |rest|
    {
      var x := PickRow(rest);
      if x < least {
        least := x;
      }
      rest := rest - {x};
    }
    return Some(least);
  }

  method PickRow(rows: set<nat>) returns (x: nat)
    requires rows != {}
    ensures x in rows
  {
    x :| x in rows;
  }

  class Store {
    var now: Millis
    var nextId: nat
    var holdMs: nat
    var tiers: map<TierId, Tier>
    var feeRates: map<UserId, nat>
    var shows: map<ShowId, Show>
    var entries: map<EntryId, Entry>
    var attempts: map<AttemptId, Attempt>
    var calls: map<CallId, Call>
    var refunds: map<RefundId, Refund>
    const book: LedgerBook
    var presence: map<Seat, Presence>
    var disputes: map<DisputeId, Dispute>
    var events: set<nat>
    var jobs: multiset<Job>

    function Snapshot(): Db
      reads this, book
    {
      Db(now, nextId, holdMs, tiers, feeRates, shows, entries, attempts, calls, refunds, book.Value(),
         presence, disputes, events, jobs)
    }

    constructor (now: Millis, holdMs: nat, tiers: map<TierId, Tier>, feeRates: map<UserId, nat>)
      ensures fresh(book)
      ensures Snapshot() == Db(now, 0, holdMs, tiers, feeRates, map[], map[], map[], map[], map[], L.EMPTY,
                               map[], map[], {}, multiset{})
    {
      this.now, this.holdMs, this.tiers, this.feeRates := now, holdMs, tiers, feeRates;
      nextId, shows, entries, attempts, calls, refunds := 0, map[], map[], map[], map[], map[];
      presence, disputes, events, jobs := map[], map[], {}, multiset{};
      book := new LedgerBook();
    }

    // ---------------------------------------------------------- ctx.db.patch and ctx.scheduler

    method PatchEntry(e: EntryId, entry: Entry)
      modifies this`entries
      ensures Snapshot() == old(Snapshot()).(entries := old(entries)[e := entry])
    {
      entries := entries[e := entry];
    }

    method PatchAttempt(a: AttemptId, attempt: Attempt)
      modifies this`attempts
      ensures Snapshot() == old(Snapshot()).(attempts := old(attempts)[a := attempt])
    {
      attempts := attempts[a := attempt];
    }

    method PatchCall(c: CallId, call: Call)
      modifies this`calls
      ensures Snapshot() == old(Snapshot()).(calls := old(calls)[c := call])
    {
      calls := calls[c := call];
    }

    method PatchRefund(r: RefundId, refund: Refund)
      modifies this`refunds
      ensures Snapshot() == old(Snapshot()).(refunds := old(refunds)[r := refund])
    {
      refunds := refunds[r := refund];
    }

    method Schedule(job: Job)
      modifies this`jobs
      ensures Snapshot() == old(Snapshot()).(jobs := old(jobs) + multiset{job})
    {
      jobs := jobs + multiset{job};
    }

    /** A job leaves the schedule when it runs. */
    method TakeJob(job: Job)
      modifies this`jobs
      ensures Snapshot() == Taken(old(Snapshot()), job)
    {
      jobs := jobs - multiset{job};
    }

    // ---------------------------------------------------------- lookups

    method FindCall(a: AttemptId) returns (c: Option<CallId>)
      ensures c == CallFor(calls, a)
    {
      c := FirstOf(set x | x in calls && calls[x].attempt == Some(a));
    }

    method FindCallWithStatus(sh: ShowId, status: CallStatus) returns (c: Option<CallId>)
      ensures c == CallWithStatus(calls, sh, status)
    {
      c := FirstOf(set x | x in calls && calls[x].show == sh && calls[x].status == status);
    }

    /** The statuses in turn, until one has a call. */
    method FindActiveCall(sh: ShowId) returns (c: Option<CallId>)
      ensures c == ActiveCall(calls, sh)
    {
      hide CallWithStatus;
      var statuses := [PaymentPending, CallCreated, CallConnecting, CallLive];
      var i := 0;
      while i < |statuses|
        invariant 0 <= i <= |statuses|
        invariant forall k :: 0 <= k < i ==> CallWithStatus(calls, sh, statuses[k]).None?
      {
        c := FindCallWithStatus(sh, statuses[i]);
        if c.Some? {
          assert i > 0 ==> CallWithStatus(calls, sh, statuses[0]).None?;
          assert i > 1 ==> CallWithStatus(calls, sh, statuses[1]).None?;
          assert i > 2 ==> CallWithStatus(calls, sh, statuses[2]).None?;
          return;
        }
        i := i + 1;
      }
      assert CallWithStatus(calls, sh, statuses[0]).None? && CallWithStatus(calls, sh, statuses[1]).None?;
      assert CallWithStatus(calls, sh, statuses[2]).None? && CallWithStatus(calls, sh, statuses[3]).None?;
      c := None;
    }

    method FindEntry(sh: ShowId, viewer: UserId) returns (e: Option<EntryId>)
      ensures e == EntryFor(entries, sh, viewer)
    {
      e := FirstOf(set x | x in entries && entries[x].show == sh && entries[x].viewer == viewer);
    }

    method FindRefund(a: AttemptId) returns (r: Option<RefundId>)
      ensures r.Some? <==> a in RefundedAttempts(refunds)
    {
      var rows := set x | x in refunds && refunds[x].attempt == a;
      r := FirstOf(rows);
      if a in RefundedAttempts(refunds) {
        ghost var x :| x in refunds && refunds[x].attempt == a;
        assert x in rows;
      }
    }

    // ---------------------------------------------------------- lib/payments.ts

    method CancelHold(a: AttemptId)
      modifies this`jobs
      ensures Snapshot() == ScheduleCancel(old(Snapshot()), a)
    {
      if a in attempts && attempts[a].hasIntent && (attempts[a].status == PayCreated || attempts[a].status == PayAuthorized) {
        jobs := jobs + multiset{ReleaseHold(now, a)};
      }
    }

    method RefundAttempt(a: AttemptId, c: CallId)
      requires a in attempts
      modifies this`refunds, this`nextId, this`jobs
      ensures Snapshot() == RequestRefund(old(Snapshot()), a, c)
    {
      var attempt := attempts[a];
      if attempt.status != PayCaptured || !attempt.hasIntent {
        return;
      }
      var existing := FindRefund(a);
      if existing.Some? {
        return;
      }
      hide RefundedAttempts;
      var r := nextId;
      nextId := nextId + 1;
      refunds := refunds[r := Refund(a, c, attempt.amountCents, true, Requested, 0, now, None)];
      jobs := jobs + multiset{RunRefund(now, r)};
    }

    method PatchCaptured(a: AttemptId)
      requires a in attempts
      modifies this`attempts
      ensures Snapshot() == old(Snapshot()).(attempts := old(attempts)[a := old(attempts)[a].(status := PayCaptured)])
    {
      if attempts[a].status != PayCaptured {
        attempts := attempts[a := attempts[a].(status := PayCaptured)];
      }
    }

    method Captured(a: AttemptId)
      requires a in attempts && (forall c :: c in calls ==> calls[c].entry in entries)
      modifies this
      ensures Snapshot() == RecordCaptured(old(Snapshot()), a)
    {
      hide RequestRefund, CallFor;
      PatchCaptured(a);
      var found := FindCall(a);
      if found.None? {
        return;
      }
      var c := found.value;
      var showLive := calls[c].show in shows && shows[calls[c].show].status == ShowLive;
      if calls[c].status == PaymentPending && showLive {
        PatchCall(c, calls[c].(status := CallCreated));
        return;
      }
      if calls[c].startedAt.None? && !showLive {
        FailPending(c);
        RefundAttempt(a, c);
      }
    }

    method FailPending(c: CallId)
      requires c in calls && calls[c].entry in entries
      modifies this`calls, this`entries
      ensures Snapshot() == FailUnpaid(old(Snapshot()), c)
    {
      var call := calls[c];
      if call.status == PaymentPending {
        PatchCall(c, call.(status := CallFailed, endedAt := Some(now)));
        PatchEntry(call.entry, entries[call.entry].(status := EntryEnded));
      }
    }

    method NotCaptured(a: AttemptId, status: PaymentStatus)
      requires a in attempts && (attempts[a].entry.Some? ==> attempts[a].entry.value in entries)
      modifies this
      ensures Snapshot() == RecordNotCaptured(old(Snapshot()), a, status)
    {
      hide CallFor;
      var attempt := attempts[a];
      if attempt.status == PayCaptured {
        return;
      }
      PatchAttempt(a, attempt.(status := status));
      var found := FindCall(a);
      var pending := found.Some? && calls[found.value].status == PaymentPending;
      if pending {
        PatchCall(found.value, calls[found.value].(status := CallFailed, endedAt := Some(now)));
      }
      if attempt.entry.Some? {
        var e := attempt.entry.value;
        if entries[e].status == Waiting || (entries[e].status == Selected && pending) {
          PatchEntry(e, entries[e].(status := Left));
        }
      }
    }

    // ---------------------------------------------------------- lib/calls.ts

    /** Deletes the call's presence rows one by one. */
    method ClearSeats(c: CallId)
      modifies this`presence
      ensures Snapshot() == old(Snapshot()).(presence := PresenceWithout(old(presence), c))
    {
      var rows := set s | s in presence && s.call == c;
      while rows != {}
        invariant forall s :: s in rows ==> s.call == c
        invariant presence == map s | s in old(presence) && (s.call != c || s in rows) :: old(presence)[s]
        decreases |rows|
      {
        var seat :| seat in rows;
        ghost var left := map s | s in old(presence) && (s.call != c || s in rows - {seat}) :: old(presence)[s];
        assert presence - {seat} == left;
        presence := presence - {seat};
        rows := rows - {seat};
      }
    }

    /** Moves a call, and with it its entry, the creator's earning, the refund and the seats. */
    method MoveCall(c: CallId, target: CallStatus) returns (r: Result<(), Error>)
      requires Linked(Snapshot()) && AttemptsPayCreators(attempts)
      requires c in calls
      modifies this, book
      ensures var want := ApplyTransition(old(Snapshot()), c, target);
        if want.Err? then r == Err(want.error) && Snapshot() == old(Snapshot())
        else r == Ok(()) && Snapshot() == want.value
    {
      hide RequestRefund, PresenceWithout, RefundedAttempts;
      var call := calls[c];
      if call.status == target {
        return Ok(());
      }
      if !CanTransition(call.status, target) {
        return Err(InvalidCallState);
      }
      if Finished(target) {
        FinishCall(c, target);
      } else if target == CallLive && call.startedAt.None? {
        StartCall(c);
      } else {
        PatchCall(c, call.(status := target));
        PatchEntry(call.entry, entries[call.entry].(status := EntryStatusAfter(target)));
      }
      return Ok(());
    }

    method FinishCall(c: CallId, target: CallStatus)
      requires c in calls && calls[c].entry in entries
      requires calls[c].attempt.Some? ==> calls[c].attempt.value in attempts
      modifies this
      ensures Snapshot() == Finish(old(Snapshot()), c, target)
    {
      hide RequestRefund, PresenceWithout;
      var call := calls[c];
      PatchCall(c, call.(status := target, endedAt := Some(now)));
      PatchEntry(call.entry, entries[call.entry].(status := EntryEnded));
      ClearSeats(c);
      if call.startedAt.None? && call.attempt.Some? {
        RefundAttempt(call.attempt.value, c);
      }
    }

    method StartCall(c: CallId)
      requires Linked(Snapshot()) && AttemptsPayCreators(attempts)
      requires c in calls
      modifies this, book
      ensures Snapshot() == GoLive(old(Snapshot()), c)
    {
      hide L.Valid, L.Post;
      var call := calls[c];
      var expiresAt := now + call.durationSeconds * 1000;
      Schedule(ExpireCall(expiresAt, c));
      if call.attempt.Some? {
        var a := call.attempt.value;
        book.CreditEarning(a, attempts[a].status == PayCaptured, ChargeOf(attempts[a]), now + holdMs);
      }
      PatchCall(c, call.(status := CallLive, startedAt := Some(now), expiresAt := Some(expiresAt)));
      PatchEntry(call.entry, entries[call.entry].(status := EntryLive));
    }

    // ---------------------------------------------------------- calls.ts

    method SelectCaller(sh: ShowId, creator: UserId, e: EntryId) returns (r: Result<CallId, Error>)
      modifies this
      ensures var want := Select(old(Snapshot()), sh, creator, e);
        if want.Err? then r == Err(want.error) && Snapshot() == old(Snapshot())
        else r == Ok(old(nextId)) && Snapshot() == want.value
    {
      hide ActiveCall;
      if sh !in shows || shows[sh].creator != creator {
        return Err(ShowNotFound);
      }
      if shows[sh].status != ShowLive {
        return Err(ShowNotLive);
      }
      var blocking := FindActiveCall(sh);
      if blocking.Some? {
        return Err(ActiveCallExists);
      }
      if e !in entries || entries[e].show != sh || entries[e].status != Waiting {
        return Err(CallerNotWaiting);
      }
      r := OpenCall(sh, e);
    }

    method OpenCall(sh: ShowId, e: EntryId) returns (r: Result<CallId, Error>)
      requires e in entries
      modifies this
      ensures var want := CreateCall(old(Snapshot()), sh, e);
        if want.Err? then r == Err(want.error) && Snapshot() == old(Snapshot())
        else r == Ok(old(nextId)) && Snapshot() == want.value
    {
      var entry := entries[e];
      var paid := entry.priceCents > 0;
      var attempt := if paid && entry.attempt.Some? && entry.attempt.value in attempts then entry.attempt else None;
      if paid && (attempt.None? || attempts[attempt.value].status != PayAuthorized) {
        return Err(PaymentCaptureFailed);
      }
      var call := Call(sh, e, if paid then PaymentPending else CallCreated, entry.durationSeconds, None, None, None, attempt);
      var c := InsertCall(call);
      if attempt.Some? {
        StartCapture(attempt.value, c);
      }
      return Ok(c);
    }

    /** Selects the caller and opens their call. */
    method InsertCall(call: Call) returns (c: CallId)
      requires call.entry in entries
      modifies this`entries, this`calls, this`nextId
      ensures c == old(nextId)
      ensures Snapshot() == old(Snapshot()).(
        entries := old(entries)[call.entry := old(entries)[call.entry].(status := Selected)],
        calls := old(calls)[c := call], nextId := c + 1)
    {
      entries := entries[call.entry := entries[call.entry].(status := Selected)];
      c := nextId;
      nextId := nextId + 1;
      calls := calls[c := call];
    }

    method StartCapture(a: AttemptId, c: CallId)
      requires a in attempts
      modifies this`attempts, this`jobs
      ensures Snapshot() == old(Snapshot()).(
        attempts := old(attempts)[a := old(attempts)[a].(status := PayCapturing)],
        jobs := old(jobs) + multiset{CapturePayment(now, c)})
    {
      attempts := attempts[a := attempts[a].(status := PayCapturing)];
      jobs := jobs + multiset{CapturePayment(now, c)};
    }

    method ExpireDue(due: Millis, c: CallId)
      requires Linked(Snapshot())
      modifies this
      ensures Snapshot() == Expire(old(Snapshot()), due, c)
    {
      hide Finish;
      TakeJob(ExpireCall(due, c));
      if c !in calls || calls[c].status != CallLive {
        return;
      }
      if calls[c].expiresAt.Some? && calls[c].expiresAt.value > now {
        return;
      }
      FinishCall(c, CallEnded);
    }

    // ---------------------------------------------------------- shows.ts

    /** The show is patched first; the open call then ends in an ended show. */
    method EndLiveShow(sh: ShowId, creator: UserId) returns (r: Result<(), Error>)
      requires Linked(Snapshot())
      modifies this
      ensures var want := EndShow(old(Snapshot()), sh, creator);
        if want.Err? then r == Err(want.error) && Snapshot() == old(Snapshot())
        else r == Ok(()) && Snapshot() == want.value
    {
      hide ActiveCall, PresenceWithout, RefundedAttempts;
      if sh !in shows || shows[sh].creator != creator {
        return Err(ShowNotFound);
      }
      if shows[sh].status == ShowEnded {
        return Ok(());
      }
      if shows[sh].status != ShowLive {
        return Err(InvalidShowState);
      }
      ghost var before := Snapshot();
      shows := shows[sh := Show(creator, ShowEnded)];
      var current := FindActiveCall(sh);
      if current.Some? && Connectable(calls[current.value].status) {
        FinishInEndedShow(before, shows, current.value, CallEnded);
        hide Finish;
        FinishCall(current.value, CallEnded);
      }
      jobs := jobs + multiset{CloseQueue(now, sh)};
      return Ok(());
    }

    /** Closes one entry; a caller still waiting gets the hold released. */
    method CloseEntry(e: EntryId)
      requires e in entries
      modifies this`entries, this`jobs
      ensures entries == old(entries)[e := old(entries)[e].(status := EntryEnded)]
      ensures jobs == old(jobs) + multiset(ReleaseOf(old(entries)[e], attempts, now))
    {
      var entry := entries[e];
      entries := entries[e := entry.(status := EntryEnded)];
      if entry.status == Waiting && entry.attempt.Some? {
        CancelHold(entry.attempt.value);
      }
    }

    /** Closes entries of one status, the first ones first, until there is no more room; `db` is the state the batch began in. */
    method CloseRows(rows: set<EntryId>, room: nat, ghost db: Db, ghost done: set<EntryId>)
      returns (closed: nat, ghost taken: set<EntryId>)
      requires OneHoldEach(db.entries) && now == db.now && attempts == db.attempts
      requires rows <= db.entries.Keys && rows !! done && Progress(db, done, entries, jobs)
      modifies this`entries, this`jobs
      ensures taken <= rows && |taken| == closed <= room && (closed == room || taken == rows)
      ensures TakenInOrder(db.entries, rows, taken)
      ensures Progress(db, done + taken, entries, jobs)
    {
      hide Progress, OneHoldEach, ReleaseOf, TakenInOrder, Precedes;
      closed, taken := 0, {};
      assert done + taken == done;
      var rest := rows;
      NoneTaken(db.entries, rows);
      while rest != {} && closed < room
        invariant taken <= rows && rest == rows - taken && |taken| == closed <= room
        invariant TakenInOrder(db.entries, rows, taken)
        invariant Progress(db, done + taken, entries, jobs)
        decreases room - closed
      {
        SameRows(db, done + taken, rest, entries, jobs);
        var e := FirstInQueue(rest);
        CloseNext(db, done, rows, taken, e, entries, jobs);
        CloseEntry(e);
        taken := taken + {e};
        rest := rest - {e};
        closed := closed + 1;
      }
    }

    /** The first row in the order of the queue's index. */
    method FirstInQueue(rows: set<EntryId>) returns (e: EntryId)
      requires rows != {} && rows <= entries.Keys
      ensures e in rows && forall x :: x in rows && x != e ==> Precedes(entries[e], e, entries[x], x)
    {
      e := PickRow(rows);
      var rest := rows - {e};
      while rest != {}
        invariant rest <= rows && e in rows
        invariant forall x :: x in rows && x !in rest && x != e ==> Precedes(entries[e], e, entries[x], x)
        decreases |rest|
      {
        var x := PickRow(rest);
        if Precedes(entries[x], x, entries[e], e) {
          e := x;
        }
        rest := rest - {x};
      }
    }

    /** Closes at most CLOSE_BATCH entries, status by status. */
    method CloseSome(sh: ShowId) returns (closed: nat, ghost batch: set<EntryId>)
      requires OneHoldEach(entries)
      modifies this`entries, this`jobs
      ensures IsCloseBatch(old(entries), sh, batch) && closed == |batch|
      ensures Progress(old(Snapshot()), batch, entries, jobs)
    {
      hide Below, Progress, IsCloseBatch, OneHoldEach;
      ghost var db := Snapshot();
      closed, batch := 0, {};
      NothingClosed(db, sh);
      var statuses := [Waiting, Selected, EntryConnecting, EntryLive];
      var k := 0;
      while k < |statuses| && closed < CLOSE_BATCH
        invariant 0 <= k <= |statuses| && closed == |batch| <= CLOSE_BATCH
        invariant Layered(db.entries, sh, k, batch)
        invariant Progress(db, batch, entries, jobs)
        decreases |statuses| - k
      {
        hide Layered;
        var rows := set e | e in entries && entries[e].show == sh && entries[e].status == statuses[k];
        RowsOfStatus(db, sh, k, batch, entries, jobs);
        var more;
        ghost var taken;
        more, taken := CloseRows(rows, CLOSE_BATCH - closed, db, batch);
        NextLayer(db.entries, sh, k, batch, rows, taken);
        batch := batch + taken;
        closed := closed + more;
        k := k + 1;
      }
      BatchIsDone(db.entries, sh, k, batch);
    }

    /** One run of the scheduled job, which schedules the next one after a full batch. */
    method CloseQueueRun(due: Millis, sh: ShowId) returns (ghost batch: set<EntryId>)
      requires OneHoldEach(entries) && CloseQueue(due, sh) in jobs
      modifies this
      ensures IsCloseBatch(old(entries), sh, batch)
      ensures Snapshot() == CloseQueueBatch(old(Snapshot()), due, sh, batch)
    {
      hide IsCloseBatch, Progress, CloseQueueBatch, OneHoldEach;
      ghost var db := Snapshot();
      TakeJob(CloseQueue(due, sh));
      var closed: nat;
      closed, batch := CloseSome(sh);
      AfterBatch(db, due, sh, batch, entries, jobs);
      if closed == CLOSE_BATCH {
        Schedule(CloseQueue(now, sh));
      }
    }

    // ---------------------------------------------------------- queue.ts

    /** The first enabled tier of the show, highest rank first. */
    method DefaultTier(sh: ShowId) returns (top: Option<TierId>)
      ensures top.Some? ==> IsDefaultTier(tiers, sh, top.value)
      ensures top.None? ==> forall x :: !Offers(tiers, sh, x)
    {
      top := None;
      var rest := tiers.Keys;
      while rest != {}
        invariant rest <= tiers.Keys
        invariant top.Some? ==> Offers(tiers, sh, top.value)
        invariant forall x :: x in tiers && x !in rest && Offers(tiers, sh, x) ==>
          top.Some? && (x == top.value || Outranks(tiers, top.value, x))
        decreases |rest|
      {
        var x :| x in rest;
        if Offers(tiers, sh, x) && (top.None? || Outranks(tiers, x, top.value)) {
          top := Some(x);
        }
        rest := rest - {x};
      }
    }

    /** Without a tier asked for, the caller joins with the show's highest enabled one. */
    method JoinQueue(sh: ShowId, viewer: UserId, asked: Option<TierId>, payment: Option<AttemptId>) returns (r: Result<EntryId, Error>)
      modifies this
      ensures var want := JoinAsking(old(Snapshot()), sh, viewer, asked, payment);
        if want.Err? then r == Err(want.error) && Snapshot() == old(Snapshot())
        else r.Ok? && Snapshot() == want.value && r.value in entries && entries[r.value].show == sh && entries[r.value].viewer == viewer
    {
      if sh !in shows || shows[sh].status != ShowLive {
        r := Err(ShowNotLive);
      } else if asked.Some? {
        r := JoinTier(sh, viewer, asked.value, payment);
      } else {
        var top := DefaultTier(sh);
        if top.None? {
          return Err(TierNotFound);
        }
        assert forall tier :: IsDefaultTier(tiers, sh, tier) ==> tier == top.value;
        r := JoinTier(sh, viewer, top.value, payment);
      }
    }

    method JoinTier(sh: ShowId, viewer: UserId, tier: TierId, payment: Option<AttemptId>) returns (r: Result<EntryId, Error>)
      modifies this
      ensures var want := Join(old(Snapshot()), sh, viewer, tier, payment);
        if want.Err? then r == Err(want.error) && Snapshot() == old(Snapshot())
        else r.Ok? && Snapshot() == want.value && r.value in entries && entries[r.value].show == sh && entries[r.value].viewer == viewer
    {
      hide EntryFor;
      if sh !in shows || shows[sh].status != ShowLive {
        return Err(ShowNotLive);
      }
      if !Offers(tiers, sh, tier) {
        return Err(TierNotFound);
      }
      var existing := FindEntry(sh, viewer);
      if existing.Some? && entries[existing.value].status != Left {
        return Ok(existing.value);
      }
      var attempt: Option<AttemptId> := None;
      if tiers[tier].priceCents > 0 {
        attempt := payment;
        if payment.None? || !UsableHold(Snapshot(), payment.value, sh, tier, viewer, existing) {
          return Err(PaymentRequired);
        }
      }
      var entry := Entry(sh, viewer, Waiting, tiers[tier].rank, now, tiers[tier].priceCents, tiers[tier].durationSeconds, attempt);
      var e := SaveEntry(existing, entry);
      if attempt.Some? {
        PatchAttempt(attempt.value, attempts[attempt.value].(entry := Some(e)));
      }
      return Ok(e);
    }

    /** Patches the caller's old entry, or inserts a new one. */
    method SaveEntry(existing: Option<EntryId>, entry: Entry) returns (e: EntryId)
      modifies this`entries, this`nextId
      ensures e == if existing.Some? then existing.value else old(nextId)
      ensures Snapshot() == old(Snapshot()).(
        entries := old(entries)[e := entry],
        nextId := if existing.Some? then old(nextId) else old(nextId) + 1)
    {
      if existing.Some? {
        e := existing.value;
      } else {
        e := nextId;
        nextId := nextId + 1;
      }
      entries := entries[e := entry];
    }

    method LeaveQueue(sh: ShowId, viewer: UserId) returns (r: Result<(), Error>)
      modifies this
      ensures var want := Leave(old(Snapshot()), sh, viewer);
        if want.Err? then r == Err(want.error) && Snapshot() == old(Snapshot())
        else r == Ok(()) && Snapshot() == want.value
    {
      hide EntryFor;
      var found := FindEntry(sh, viewer);
      if found.None? {
        return Err(NotInQueue);
      }
      var entry := entries[found.value];
      if entry.status == Left {
        return Ok(());
      }
      if entry.status != Waiting {
        return Err(InvalidQueueState);
      }
      entries := entries[found.value := entry.(status := Left)];
      if entry.attempt.Some? {
        CancelHold(entry.attempt.value);
      }
      return Ok(());
    }

    // ---------------------------------------------------------- presence.ts

    method Beat(seat: Seat) returns (r: Result<(), Error>)
      modifies this
      ensures var want := Heartbeat(old(Snapshot()), seat);
        if want.Err? then r == Err(want.error) && Snapshot() == old(Snapshot())
        else r == Ok(()) && Snapshot() == want.value
    {
      if seat.call !in calls || !Connectable(calls[seat.call].status) {
        return Err(CallNotFound);
      }
      if seat in presence {
        presence := presence[seat := presence[seat].(lastSeenAt := now, disconnectedAt := None)];
      } else {
        presence := presence[seat := Presence(now, None)];
      }
      jobs := jobs + multiset{CheckSeen(now + PRESENCE_TTL_MS, seat, now)};
      return Ok(());
    }

    method Disconnect(seat: Seat)
      requires seat in presence
      modifies this`presence, this`jobs
      ensures Snapshot() == MarkDisconnected(old(Snapshot()), seat)
    {
      var disconnectedAt := now;
      presence := presence[seat := presence[seat].(disconnectedAt := Some(disconnectedAt))];
      jobs := jobs + multiset{CheckGrace(now + DISCONNECT_GRACE_MS, seat, disconnectedAt)};
    }

    method LeaveSeat(seat: Seat) returns (r: Result<(), Error>)
      modifies this
      ensures var want := LeaveCall(old(Snapshot()), seat);
        if want.Err? then r == Err(want.error) && Snapshot() == old(Snapshot())
        else r == Ok(()) && Snapshot() == want.value
    {
      if seat.call !in calls {
        return Err(CallNotFound);
      }
      if !Connectable(calls[seat.call].status) {
        return Ok(());
      }
      if seat in presence && presence[seat].disconnectedAt.None? {
        Disconnect(seat);
      }
      return Ok(());
    }

    method SeenCheck(due: Millis, seat: Seat, seenAt: Millis)
      modifies this
      ensures Snapshot() == RunCheckSeen(old(Snapshot()), due, seat, seenAt)
    {
      TakeJob(CheckSeen(due, seat, seenAt));
      if seat !in presence || presence[seat].lastSeenAt != seenAt || presence[seat].disconnectedAt.Some? {
        return;
      }
      Disconnect(seat);
    }

    method GraceCheck(due: Millis, seat: Seat, at: Millis)
      requires Linked(Snapshot())
      modifies this
      ensures Snapshot() == RunCheckGrace(old(Snapshot()), due, seat, at)
    {
      hide Finish;
      TakeJob(CheckGrace(due, seat, at));
      if seat !in presence || presence[seat].disconnectedAt != Some(at) {
        return;
      }
      if seat.call in calls && Connectable(calls[seat.call].status) {
        FinishCall(seat.call, CallFailed);
      }
    }

    // ---------------------------------------------------------- refunds.ts

    method Claim(r: RefundId) returns (claimed: Option<Refund>)
      modifies this`refunds
      ensures Snapshot() == ClaimRefund(old(Snapshot()), r)
      ensures claimed.Some? <==> r in old(refunds) && Claimable(old(refunds)[r], now)
      ensures claimed.Some? ==> r in refunds && claimed.value == refunds[r]
    {
      if r !in refunds || refunds[r].attempts >= MAX_REFUND_ATTEMPTS {
        return None;
      }
      var refund := refunds[r];
      var due := refund.status == Requested
                 || ((refund.status == Retry || refund.status == Pending || refund.status == Processing) && refund.nextAttemptAt <= now);
      if !due {
        return None;
      }
      refunds := refunds[r := refund.(status := Processing, attempts := refund.attempts + 1, nextAttemptAt := now + REFUND_LEASE_MS)];
      return Some(refunds[r]);
    }

    /** Takes back the creator's share of a refund that succeeded. */
    method ReverseShare(r: RefundId)
      requires L.Valid(book.Value())
      requires r in refunds && refunds[r].attempt in attempts && attempts[refunds[r].attempt].amountCents > 0
      modifies book
      ensures Snapshot() == old(Snapshot()).(ledger := Reverse(old(Snapshot()), r))
    {
      hide L.ReverseForRefund, L.Valid;
      var refund := refunds[r];
      book.ReverseRefund(r, L.Refunding(refund.attempt, refund.amountCents), attempts[refund.attempt].amountCents, now);
    }

    method RecordOutcome(r: RefundId, stripeId: nat, outcome: RefundStatus)
      requires L.Valid(book.Value())
      requires r in refunds ==> refunds[r].attempt in attempts && attempts[refunds[r].attempt].amountCents > 0
      modifies this, book
      ensures Snapshot() == RecordRefund(old(Snapshot()), r, stripeId, outcome)
    {
      hide L.Valid, L.ReverseForRefund;
      if r !in refunds || refunds[r].status == Succeeded || refunds[r].status == RefundFailed {
        return;
      }
      PatchRefund(r, refunds[r].(status := outcome, stripeId := Some(stripeId), nextAttemptAt := now + PENDING_RECHECK_MS));
      if outcome == Succeeded {
        ReverseShare(r);
      }
      if outcome == Pending {
        Schedule(RunRefund(now + PENDING_RECHECK_MS, r));
      }
    }

    method RetryLater(r: RefundId)
      modifies this
      ensures Snapshot() == RetryRefund(old(Snapshot()), r)
    {
      if r !in refunds || refunds[r].status != Processing {
        return;
      }
      var refund := refunds[r];
      if refund.attempts >= MAX_REFUND_ATTEMPTS {
        refunds := refunds[r := refund.(status := RefundFailed)];
        return;
      }
      var delay := RetryDelay(refund.attempts);
      refunds := refunds[r := refund.(status := Retry, nextAttemptAt := now + delay)];
      jobs := jobs + multiset{RunRefund(now + delay, r)};
    }

    // ---------------------------------------------------------- webhooks.ts

    method FindRefundFor(stripeId: nat, intent: Option<AttemptId>) returns (r: Option<RefundId>)
      ensures r == RefundFor(refunds, stripeId, intent)
    {
      r := FirstOf(RefundsNamed(refunds, stripeId));
      if r.Some? || intent.None? {
        return;
      }
      r := FirstOf(UnnamedRefunds(refunds, intent.value));
    }

    /** Records a refund made outside Bling, if it belongs to a call's payment. */
    method Adopt(stripeId: nat, intent: Option<AttemptId>, amount: Option<nat>) returns (r: Option<RefundId>)
      modifies this`refunds, this`nextId
      ensures var want := AdoptRefund(old(Snapshot()), stripeId, intent, amount);
        if want.None? then r == None && Snapshot() == old(Snapshot())
        else r == Some(old(nextId)) && Snapshot() == want.value
    {
      hide CallFor;
      if intent.None? || intent.value !in attempts || !attempts[intent.value].hasIntent || amount.None? {
        return None;
      }
      var c := FindCall(intent.value);
      if c.None? {
        return None;
      }
      var id := nextId;
      nextId := nextId + 1;
      refunds := refunds[id := Refund(intent.value, c.value, amount.value, false, Pending, 0, now, Some(stripeId))];
      return Some(id);
    }

    method Settle(r: RefundId, stripeId: nat, outcome: RefundStatus)
      requires L.Valid(book.Value())
      requires r in refunds && refunds[r].attempt in attempts && attempts[refunds[r].attempt].amountCents > 0
      modifies this`refunds, book
      ensures Snapshot() == SettleRefund(old(Snapshot()), r, stripeId, outcome)
    {
      hide L.Valid, L.ReverseForRefund;
      var refund := refunds[r];
      if (refund.status == Succeeded || refund.status == RefundFailed) && outcome == Pending {
        return;
      }
      refunds := refunds[r := refund.(
        status := outcome, stripeId := if refund.stripeId.Some? then refund.stripeId else Some(stripeId))];
      if outcome == Succeeded {
        ReverseShare(r);
      }
    }

    method RefundChanged(stripeId: nat, intent: Option<AttemptId>, outcome: RefundStatus, amount: Option<nat>)
      requires Linked(Snapshot())
      modifies this, book
      ensures Snapshot() == ApplyNotice(old(Snapshot()), RefundNotice(stripeId, intent, outcome, amount))
    {
      hide L.Valid, RefundFor, SettleRefund;
      var found := FindRefundFor(stripeId, intent);
      if found.None? {
        ghost var before := Snapshot();
        found := Adopt(stripeId, intent, amount);
        if found.None? {
          return;
        }
        AdoptedLinks(before, stripeId, intent, amount);
        hide AdoptRefund;
        Settle(found.value, stripeId, outcome);
      } else {
        Settle(found.value, stripeId, outcome);
      }
    }

    method DisputeChanged(d: DisputeId, intent: Option<AttemptId>, status: L.DisputeStatus)
      requires Linked(Snapshot())
      modifies this, book
      ensures Snapshot() == ApplyNotice(old(Snapshot()), DisputeNotice(d, intent, status))
    {
      hide L.Valid, ChangeDispute;
      var attempt := FindDisputed(d, intent);
      AdjustDispute(d, attempt, status);
    }

    method FindDisputed(d: DisputeId, intent: Option<AttemptId>) returns (a: Option<AttemptId>)
      ensures a == DisputedAttempt(Snapshot(), d, intent)
    {
      a := if d in disputes then disputes[d].attempt else None;
      if a.None? {
        a := AttemptForIntent(attempts, intent);
      }
    }

    method AdjustDispute(d: DisputeId, a: Option<AttemptId>, status: L.DisputeStatus)
      requires L.Valid(book.Value())
      modifies this`disputes, book
      ensures Snapshot() == ChangeDispute(old(Snapshot()), d, a, status)
    {
      hide L.Valid, L.AdjustForDispute;
      SaveDispute(d, Dispute(a, status));
      book.ChangeDispute(d, a, status, now);
    }

    method SaveDispute(d: DisputeId, dispute: Dispute)
      modifies this`disputes
      ensures Snapshot() == old(Snapshot()).(disputes := old(disputes)[d := dispute])
    {
      disputes := disputes[d := dispute];
    }

    /** A redelivered event finds its id and does nothing. */
    method Receive(event: nat, n: Notice)
      requires Linked(Snapshot())
      modifies this, book
      ensures Snapshot() == Webhook(old(Snapshot()), event, n)
    {
      hide RecordCaptured, RecordNotCaptured, L.Valid, L.AdjustForDispute, RefundFor, AdoptRefund, SettleRefund;
      if event in events {
        return;
      }
      events := events + {event};
      match n
      case IntentSucceeded(i) =>
        if i in attempts && attempts[i].hasIntent {
          Captured(i);
        }
      case IntentCanceled(i) =>
        if i in attempts && attempts[i].hasIntent {
          NotCaptured(i, PayCanceled);
        }
      case IntentFailed(i) =>
        if i in attempts && attempts[i].hasIntent {
          NotCaptured(i, PayFailed);
        }
      case RefundNotice(stripeId, intent, outcome, amount) =>
        RefundChanged(stripeId, intent, outcome, amount);
      case DisputeNotice(d, intent, status) =>
        DisputeChanged(d, intent, status);
    }
  }

  /** Every attempt leaves its creator something (see Fees). */
  ghost predicate AttemptsPayCreators(attempts: map<AttemptId, Attempt>) {
    forall a :: a in attempts ==> 0 <= attempts[a].platformFeeCents < attempts[a].amountCents
  }

  lemma AdoptedLinks(db: Db, stripeId: nat, intent: Option<AttemptId>, amount: Option<nat>)
    requires Linked(db) && AdoptRefund(db, stripeId, intent, amount).Some?
    ensures var db' := AdoptRefund(db, stripeId, intent, amount).value;
      && L.Valid(db'.ledger) && db.nextId in db'.refunds && db'.refunds[db.nextId].attempt in db'.attempts
      && db'.attempts[db'.refunds[db.nextId].attempt].amountCents > 0
  {
    hide L.Valid;
  }

  /** Finishing a call does not look at its show. */
  lemma FinishInEndedShow(db: Db, shows: map<ShowId, Show>, c: CallId, target: CallStatus)
    requires c in db.calls && db.calls[c].entry in db.entries
    requires db.calls[c].attempt.Some? ==> db.calls[c].attempt.value in db.attempts
    ensures Finish(db.(shows := shows), c, target) == Finish(db, c, target).(shows := shows)
  {
    hide PresenceWithout, RequestRefund;
    var call := db.calls[c];
    var over := db.(
      calls := db.calls[c := call.(status := target, endedAt := Some(db.now))],
      entries := db.entries[call.entry := db.entries[call.entry].(status := EntryEnded)],
      presence := PresenceWithout(db.presence, c));
    if call.attempt.Some? {
      RefundInEndedShow(over, shows, call.attempt.value, c);
    }
  }

  lemma RefundInEndedShow(db: Db, shows: map<ShowId, Show>, a: AttemptId, c: CallId)
    requires a in db.attempts
    ensures RequestRefund(db.(shows := shows), a, c) == RequestRefund(db, a, c).(shows := shows)
  {
    hide RefundedAttempts;
  }

  // ------------------------------------------------------------ closing a batch

  /** No two entries share a hold. */
  ghost predicate OneHoldEach(entries: map<EntryId, Entry>) {
    forall e, x | e in entries && x in entries && entries[e].attempt.Some? && entries[e].attempt == entries[x].attempt :: e == x
  }

  /** The active entries of the first `k` statuses. */
  ghost function Below(entries: map<EntryId, Entry>, sh: ShowId, k: nat): set<EntryId> {
    set e | e in ActiveEntries(entries, sh) && CloseOrder(entries[e].status) < k
  }

  /** The release that closing an entry schedules, if any. */
  function ReleaseOf(entry: Entry, attempts: map<AttemptId, Attempt>, now: Millis): set<Job> {
    if entry.status == Waiting && entry.attempt.Some? && Releasable(attempts, entry.attempt.value)
    then {ReleaseHold(now, entry.attempt.value)} else {}
  }

  /** The tables after `batch` was closed. */
  ghost predicate Progress(db: Db, batch: set<EntryId>, entries: map<EntryId, Entry>, jobs: multiset<Job>) {
    entries == CloseEntries(db.entries, batch) && jobs == db.jobs + multiset(ReleasesFor(db, batch))
  }

  /** What was taken are the first of the rows. */
  ghost predicate TakenInOrder(entries: map<EntryId, Entry>, rows: set<EntryId>, taken: set<EntryId>)
    requires rows <= entries.Keys
  {
    && taken <= rows
    && (forall e, x :: e in taken && x in rows && Precedes(entries[x], x, entries[e], e) ==> x in taken)
  }

  lemma NoneTaken(entries: map<EntryId, Entry>, rows: set<EntryId>)
    requires rows <= entries.Keys
    ensures TakenInOrder(entries, rows, {})
  {
  }

  lemma TakeFirst(entries: map<EntryId, Entry>, rows: set<EntryId>, taken: set<EntryId>, e: EntryId)
    requires rows <= entries.Keys && TakenInOrder(entries, rows, taken) && e in rows - taken
    requires forall x :: x in rows - taken && x != e ==> Precedes(entries[e], e, entries[x], x)
    ensures TakenInOrder(entries, rows, taken + {e})
  {
  }

  /** Rows not closed yet are as they were. */
  lemma SameRows(db: Db, batch: set<EntryId>, rest: set<EntryId>, entries: map<EntryId, Entry>, jobs: multiset<Job>)
    requires Progress(db, batch, entries, jobs) && rest <= db.entries.Keys && rest !! batch
    ensures rest <= entries.Keys && forall x :: x in rest ==> entries[x] == db.entries[x]
  {
    hide ReleasesFor;
  }

  /** A batch takes whole statuses, in order, until it is full. */
  ghost predicate Layered(entries: map<EntryId, Entry>, sh: ShowId, k: nat, batch: set<EntryId>) {
    && batch <= Below(entries, sh, k)
    && (forall e, x :: e in batch && x in ActiveEntries(entries, sh) && ClosesBefore(entries, x, e) ==> x in batch)
    && (k > 0 ==> Below(entries, sh, k - 1) <= batch)
    && (|batch| < CLOSE_BATCH ==> batch == Below(entries, sh, k))
  }

  lemma NothingClosed(db: Db, sh: ShowId)
    ensures Progress(db, {}, db.entries, db.jobs) && Layered(db.entries, sh, 0, {})
  {
    assert ReleasesFor(db, {}) == {};
    assert Below(db.entries, sh, 0) == {};
  }

  lemma SameReleases(db: Db, db': Db, batch: set<EntryId>)
    requires db' == db.(jobs := db'.jobs)
    ensures ReleasesFor(db', batch) == ReleasesFor(db, batch)
  {
  }

  lemma AfterBatch(db: Db, due: Millis, sh: ShowId, batch: set<EntryId>, entries: map<EntryId, Entry>, jobs: multiset<Job>)
    requires CloseQueue(due, sh) in db.jobs
    requires Progress(db.(jobs := db.jobs - multiset{CloseQueue(due, sh)}), batch, entries, jobs)
    ensures |batch| == CLOSE_BATCH ==>
      CloseQueueBatch(db, due, sh, batch) == db.(entries := entries, jobs := jobs + multiset{CloseQueue(db.now, sh)})
    ensures |batch| != CLOSE_BATCH ==> CloseQueueBatch(db, due, sh, batch) == db.(entries := entries, jobs := jobs)
  {
    SameReleases(db, db.(jobs := db.jobs - multiset{CloseQueue(due, sh)}), batch);
    hide ReleasesFor, CloseEntries;
  }

  /** The rows of a status that were not closed yet are the next ones due. */
  lemma RowsOfStatus(db: Db, sh: ShowId, k: nat, batch: set<EntryId>, entries: map<EntryId, Entry>, jobs: multiset<Job>)
    requires k < 4 && Layered(db.entries, sh, k, batch) && |batch| < CLOSE_BATCH && Progress(db, batch, entries, jobs)
    ensures var st := [Waiting, Selected, EntryConnecting, EntryLive][k];
      var rows := set e | e in entries && entries[e].show == sh && entries[e].status == st;
      rows == Below(db.entries, sh, k + 1) - batch && rows <= db.entries.Keys && rows !! batch
  {
  }

  lemma NextLayer(entries: map<EntryId, Entry>, sh: ShowId, k: nat, batch: set<EntryId>, rows: set<EntryId>, taken: set<EntryId>)
    requires Layered(entries, sh, k, batch) && |batch| < CLOSE_BATCH && rows == Below(entries, sh, k + 1) - batch
    requires rows <= entries.Keys && TakenInOrder(entries, rows, taken)
    requires |taken| <= CLOSE_BATCH - |batch| && (|taken| == CLOSE_BATCH - |batch| || taken == rows)
    ensures Layered(entries, sh, k + 1, batch + taken) && |batch + taken| == |batch| + |taken|
  {
    assert Below(entries, sh, k) <= Below(entries, sh, k + 1);
    forall e, x | e in batch + taken && x in ActiveEntries(entries, sh) && ClosesBefore(entries, x, e)
      ensures x in batch + taken
    {
      if e in taken && x !in batch {
        assert x in rows;
      }
    }
    hide Below, ClosesBefore, ActiveEntries, TakenInOrder;
    assert batch !! taken;
  }

  /** One more row taken and closed. */
  lemma CloseNext(db: Db, done: set<EntryId>, rows: set<EntryId>, taken: set<EntryId>, e: EntryId,
                  entries: map<EntryId, Entry>, jobs: multiset<Job>)
    requires OneHoldEach(db.entries) && rows <= db.entries.Keys && rows !! done
    requires TakenInOrder(db.entries, rows, taken) && Progress(db, done + taken, entries, jobs)
    requires e in rows - taken && rows - taken <= entries.Keys
    requires forall x :: x in rows - taken && x != e ==> Precedes(entries[e], e, entries[x], x)
    ensures TakenInOrder(db.entries, rows, taken + {e})
    ensures Progress(db, done + (taken + {e}), entries[e := entries[e].(status := EntryEnded)],
                     jobs + multiset(ReleaseOf(entries[e], db.attempts, db.now)))
  {
    hide Progress, OneHoldEach, ReleaseOf, TakenInOrder, Precedes;
    SameRows(db, done + taken, rows - taken, entries, jobs);
    ProgressMore(db, done + taken, e, entries, jobs);
    TakeFirst(db.entries, rows, taken, e);
    assert done + taken + {e} == done + (taken + {e});
  }

  lemma EntryKnown(db: Db, batch: set<EntryId>, e: EntryId, entries: map<EntryId, Entry>, jobs: multiset<Job>)
    requires e in db.entries && e !in batch && Progress(db, batch, entries, jobs)
    ensures e in entries && entries[e] == db.entries[e]
  {
  }

  lemma ProgressMore(db: Db, batch: set<EntryId>, e: EntryId, entries: map<EntryId, Entry>, jobs: multiset<Job>)
    requires OneHoldEach(db.entries) && e in db.entries && e !in batch
    requires Progress(db, batch, entries, jobs) && e in entries && entries[e] == db.entries[e]
    ensures Progress(db, batch + {e}, entries[e := entries[e].(status := EntryEnded)],
                     jobs + multiset(ReleaseOf(entries[e], db.attempts, db.now)))
  {
    ReleaseAdds(db, batch, e);
    assert entries[e := entries[e].(status := EntryEnded)] == CloseEntries(db.entries, batch + {e});
    hide CloseEntries, ReleasesFor, ReleaseOf;
    DisjointCounts(ReleasesFor(db, batch), ReleaseOf(entries[e], db.attempts, db.now));
  }

  lemma ReleaseAdds(db: Db, batch: set<EntryId>, e: EntryId)
    requires e in db.entries && e !in batch && OneHoldEach(db.entries)
    ensures ReleasesFor(db, batch + {e}) == ReleasesFor(db, batch) + ReleaseOf(db.entries[e], db.attempts, db.now)
    ensures ReleasesFor(db, batch) !! ReleaseOf(db.entries[e], db.attempts, db.now)
  {
  }

  lemma DisjointCounts(a: set<Job>, b: set<Job>)
    requires a !! b
    ensures multiset(a + b) == multiset(a) + multiset(b)
  {
    assert forall j :: multiset(a + b)[j] == multiset(a)[j] + multiset(b)[j];
  }

  lemma BatchIsDone(entries: map<EntryId, Entry>, sh: ShowId, k: nat, batch: set<EntryId>)
    requires k <= 4 && |batch| <= CLOSE_BATCH && Layered(entries, sh, k, batch)
    requires |batch| < CLOSE_BATCH ==> k == 4
    ensures IsCloseBatch(entries, sh, batch)
  {
    assert Below(entries, sh, 4) == ActiveEntries(entries, sh);
  }
}
