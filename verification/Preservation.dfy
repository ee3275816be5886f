/** Every step of a call, its payment and its seats keeps the invariant. */
module Preservation {
  import opened Common
  import opened Tables
  import opened Steps
  import opened Invariants
  import opened Frames
  import L = Ledger

  // ------------------------------------------------------------ refund requests

  /** A new refund row, requested by Bling or found at Stripe. */
  lemma NewRefund(refunds: map<RefundId, Refund>, calls: map<CallId, Call>, attempts: map<AttemptId, Attempt>,
                  r: RefundId, refund: Refund)
    requires RefundsOk(refunds, calls, attempts)
    requires r !in refunds && refund.attempt in attempts
    requires refund.call in calls && calls[refund.call].attempt == Some(refund.attempt)
    requires refund.own ==>
      && Finished(calls[refund.call].status) && calls[refund.call].startedAt.None?
      && refund.attempt !in RefundedAttempts(refunds)
    ensures RefundsOk(refunds[r := refund], calls, attempts)
  {
    assert forall q :: q in refunds ==> refunds[q].attempt in RefundedAttempts(refunds);
  }

  lemma NewRefundMoney(db: Db, db': Db, refund: Refund)
    requires MoneyInv(db) && IdsBelow(db.nextId, db.shows, db.entries, db.attempts, db.calls, db.refunds)
    requires db'.calls == db.calls && db'.attempts == db.attempts && db'.ledger == db.ledger && db'.now == db.now
    requires db'.refunds == db.refunds[db.nextId := refund]
    requires refund.attempt in db.attempts
    requires refund.call in db.calls && db.calls[refund.call].attempt == Some(refund.attempt)
    requires refund.own ==>
      && Finished(db.calls[refund.call].status) && db.calls[refund.call].startedAt.None?
      && refund.attempt !in RefundedAttempts(db.refunds)
    requires refund.attempts == 0 && refund.nextAttemptAt == db.now
    ensures MoneyInv(db')
  {
    NewRefund(db.refunds, db.calls, db.attempts, db.nextId, refund);
  }

  lemma IdsKnown(db: Db)
    requires LinksInv(db)
    ensures IdsBelow(db.nextId, db.shows, db.entries, db.attempts, db.calls, db.refunds)
  {
  }

  lemma ClosesKnown(db: Db)
    requires CouplingInv(db)
    ensures ClosesEndedShows(db.jobs, db.shows)
  {
  }

  /** A refund requested for a call that finished without going live. */
  lemma RequestRefundKeeps(db: Db, a: AttemptId, c: CallId)
    requires Inv(db)
    requires a in db.attempts && c in db.calls && db.calls[c].attempt == Some(a)
    requires Finished(db.calls[c].status) && db.calls[c].startedAt.None?
    ensures Inv(RequestRefund(db, a, c))
  {
    hide LinksInv, CouplingInv, MoneyInv, PresenceInv;
    hide IdsBelow, ClosesEndedShows;
    var db' := RequestRefund(db, a, c);
    if db' != db {
      IdsKnown(db);
      ClosesKnown(db);
      ClosesMore(db.jobs, RunRefund(db.now, db.nextId), db.shows);
      LinksSame(db, db');
      CouplingSame(db, db');
      NewRefundMoney(db, db', db'.refunds[db.nextId]);
      PresenceSame(db, db');
    }
  }

  // ------------------------------------------------------------ captures

  lemma PatchAttempt(attempts: map<AttemptId, Attempt>, a: AttemptId, status: PaymentStatus, entries: map<EntryId, Entry>)
    requires AttemptsOk(attempts, entries)
    requires a in attempts && (status != PayCreated ==> attempts[a].hasIntent)
    ensures SameAttempts(attempts, attempts[a := attempts[a].(status := status)])
  {
  }

  lemma AttemptStatusLinks(db: Db, a: AttemptId, status: PaymentStatus)
    requires LinksInv(db)
    requires a in db.attempts && (status != PayCreated ==> db.attempts[a].hasIntent)
    ensures LinksInv(db.(attempts := db.attempts[a := db.attempts[a].(status := status)]))
  {
    PatchAttempt(db.attempts, a, status, db.entries);
    LinksFrame(db, db.(attempts := db.attempts[a := db.attempts[a].(status := status)]));
  }

  lemma AttemptStatusCoupling(db: Db, a: AttemptId, attempt': Attempt)
    requires CouplingInv(db) && a in db.attempts
    requires forall c :: c in db.calls && db.calls[c].attempt == Some(a) ==> PaymentAllows(db.calls[c], attempt'.status)
    ensures CouplingInv(db.(attempts := db.attempts[a := attempt']))
  {
  }

  lemma AttemptStatusMoney(db: Db, a: AttemptId, attempt': Attempt)
    requires MoneyInv(db) && a in db.attempts
    requires L.EarningKey(a) in L.Keys(db.ledger) ==> attempt'.status == PayCaptured
    ensures MoneyInv(db.(attempts := db.attempts[a := attempt']))
  {
  }

  /** A payment's status changes and nothing else. */
  lemma AttemptStatusKeeps(db: Db, a: AttemptId, status: PaymentStatus)
    requires Inv(db)
    requires a in db.attempts && (status != PayCreated ==> db.attempts[a].hasIntent)
    requires forall c :: c in db.calls && db.calls[c].attempt == Some(a) ==> PaymentAllows(db.calls[c], status)
    requires L.EarningKey(a) in L.Keys(db.ledger) ==> status == PayCaptured
    ensures Inv(db.(attempts := db.attempts[a := db.attempts[a].(status := status)]))
  {
    hide LinksInv, CouplingInv, MoneyInv, PresenceInv;
    var db' := db.(attempts := db.attempts[a := db.attempts[a].(status := status)]);
    AttemptStatusLinks(db, a, status);
    AttemptStatusCoupling(db, a, db.attempts[a].(status := status));
    AttemptStatusMoney(db, a, db.attempts[a].(status := status));
    PresenceSame(db, db');
  }

  lemma EntryStatusCoupling(db: Db, e: EntryId, entry': Entry)
    requires CouplingInv(db)
    requires e in db.entries && !InCall(db.entries[e].status) && !InCall(entry'.status)
    requires entry'.show == db.entries[e].show
    ensures CouplingInv(db.(entries := db.entries[e := entry']))
  {
    var entries' := db.entries[e := entry'];
    forall x | x in entries' && InCall(entries'[x].status) && IsLive(db.shows, entries'[x].show)
      ensures HasActiveCall(db.calls, x)
    {
      assert x != e;
    }
    assert EntriesMirrorCalls(db.calls, entries', db.shows);
  }

  /** A caller who is in no call leaves or is closed. */
  lemma EntryStatusKeeps(db: Db, e: EntryId, status: EntryStatus)
    requires Inv(db)
    requires e in db.entries && !InCall(db.entries[e].status) && !InCall(status)
    ensures Inv(db.(entries := db.entries[e := db.entries[e].(status := status)]))
  {
    hide LinksInv, CouplingInv, MoneyInv, PresenceInv;
    var db' := db.(entries := db.entries[e := db.entries[e].(status := status)]);
    EntryStatusLinks(db, e, status);
    EntryStatusCoupling(db, e, db.entries[e].(status := status));
    MoneySame(db, db');
    PresenceSame(db, db');
  }

  lemma EntryStatusLinks(db: Db, e: EntryId, status: EntryStatus)
    requires LinksInv(db) && e in db.entries
    ensures LinksInv(db.(entries := db.entries[e := db.entries[e].(status := status)]))
  {
    LinksFrame(db, db.(entries := db.entries[e := db.entries[e].(status := status)]));
  }

  /** A call waiting for payment may open once paid while its show is live, or fail. */
  predicate PendingMove(live: bool, status: CallStatus, pay: PaymentStatus, entryStatus: EntryStatus) {
    && (status == CallFailed || (status == CallCreated && live && entryStatus == Selected))
    && (pay == PayCaptured || (status == CallFailed && (pay == PayCanceled || pay == PayFailed)))
    && (live && InCall(entryStatus) ==> status == CallCreated)
  }

  lemma PendingIsGoodMove(db: Db, c: CallId, status: CallStatus, endedAt: Option<Millis>, pay: PaymentStatus, entryStatus: EntryStatus)
    requires LinksInv(db) && CouplingInv(db) && MoneyInv(db)
    requires c in db.calls && db.calls[c].status == PaymentPending
    requires PendingMove(IsLive(db.shows, db.calls[c].show), status, pay, entryStatus)
    ensures db.calls[c].attempt.Some? && db.calls[c].attempt.value in db.attempts && db.calls[c].entry in db.entries
    ensures var call := db.calls[c];
      var a := call.attempt.value;
      GoodMove(db, c, call.(status := status, endedAt := endedAt), db.entries[call.entry].(status := entryStatus),
               db.attempts[a := db.attempts[a].(status := pay)], db.ledger, db.jobs)
  {
    hide L.Valid, EntriesMirrorCalls, RefundsOk, EntriesOk, OneActiveCall, OneLiveShow, IdsBelow, WorkerOk;
    PatchAttempt(db.attempts, db.calls[c].attempt.value, pay, db.entries);
  }

  lemma PatchSeats(db: Db, c: CallId, call': Call)
    requires PresenceInv(db)
    requires c in db.calls && (Connectable(db.calls[c].status) ==> Connectable(call'.status))
    ensures PresenceOk(db.presence, db.calls[c := call'], db.jobs, db.now)
  {
  }

  /** A call waiting for payment opens or fails with it. */
  lemma PendingMoveKeeps(db: Db, c: CallId, status: CallStatus, endedAt: Option<Millis>, pay: PaymentStatus, entryStatus: EntryStatus)
    requires Inv(db)
    requires c in db.calls && db.calls[c].status == PaymentPending
    requires PendingMove(IsLive(db.shows, db.calls[c].show), status, pay, entryStatus)
    ensures db.calls[c].attempt.Some? && db.calls[c].attempt.value in db.attempts && db.calls[c].entry in db.entries
    ensures var call := db.calls[c];
      var a := call.attempt.value;
      Inv(db.(calls := db.calls[c := call.(status := status, endedAt := endedAt)],
              entries := db.entries[call.entry := db.entries[call.entry].(status := entryStatus)],
              attempts := db.attempts[a := db.attempts[a].(status := pay)]))
  {
    hide LinksInv, CouplingInv, MoneyInv, PresenceInv;
    hide GoodMove;
    PendingIsGoodMove(db, c, status, endedAt, pay, entryStatus);
    var call := db.calls[c];
    var a := call.attempt.value;
    PatchSeats(db, c, call.(status := status, endedAt := endedAt));
    MoveKeeps(db, c, call.(status := status, endedAt := endedAt), db.entries[call.entry].(status := entryStatus),
              db.attempts[a := db.attempts[a].(status := pay)], db.ledger, db.presence, db.jobs);
  }

  /** What the invariant says about the call a payment is for. */
  lemma CallOfAttempt(db: Db, a: AttemptId, c: CallId)
    requires CouplingInv(db) && LinksInv(db)
    requires c in db.calls && db.calls[c].attempt == Some(a)
    ensures a in db.attempts && PaymentAllows(db.calls[c], db.attempts[a].status)
    ensures db.attempts[a].entry == Some(db.calls[c].entry) && db.calls[c].entry in db.entries
    ensures forall d :: d in db.calls && db.calls[d].attempt == Some(a) ==> d == c
    ensures db.calls[c].status == PaymentPending && IsLive(db.shows, db.calls[c].show) ==>
      db.entries[db.calls[c].entry].status == Selected
    ensures !IsLive(db.shows, db.calls[c].show) ==> !Connectable(db.calls[c].status)
    ensures Clocked(db.calls[c])
  {
  }

  lemma AttemptEntryKnown(db: Db, a: AttemptId)
    requires LinksInv(db) && a in db.attempts
    ensures db.attempts[a].entry.Some? ==> db.attempts[a].entry.value in db.entries
  {
  }

  lemma EarnedIsCaptured(db: Db, a: AttemptId)
    requires MoneyInv(db)
    ensures L.EarningKey(a) in L.Keys(db.ledger) ==> a in db.attempts && db.attempts[a].status == PayCaptured
  {
  }

  /** The rows a capture touches. */
  lemma SettledRows(db: Db, a: AttemptId, c: CallId)
    requires a in db.attempts && c in db.calls && db.calls[c].entry in db.entries
    ensures var d := SettleCaptured(db, a, c);
      && db.jobs <= d.jobs
      && (if db.calls[c].status == PaymentPending then
            && d.calls == db.calls[c := d.calls[c]] && d.calls[c].status != CallLive
            && (d.entries == db.entries
                || d.entries == db.entries[db.calls[c].entry := db.entries[db.calls[c].entry].(status := EntryEnded)])
          else d.calls == db.calls && d.entries == db.entries)
  {
    hide RequestRefund;
    RefundAddsJobs(FailUnpaid(db, c), a, c);
  }

  lemma CapturedRows(db: Db, a: AttemptId)
    requires Linked(db) && a in db.attempts
    ensures var d := RecordCaptured(db, a);
      var found := CallFor(db.calls, a);
      && db.jobs <= d.jobs
      && (if found.Some? && db.calls[found.value].status == PaymentPending then
            && d.calls == db.calls[found.value := d.calls[found.value]] && d.calls[found.value].status != CallLive
            && (d.entries == db.entries
                || d.entries == db.entries[db.calls[found.value].entry := db.entries[db.calls[found.value].entry].(status := EntryEnded)])
          else d.calls == db.calls && d.entries == db.entries)
  {
    hide CallFor, SettleCaptured;
    var found := CallFor(db.calls, a);
    if found.Some? {
      SettledRows(db.(attempts := db.attempts[a := db.attempts[a].(status := PayCaptured)]), a, found.value);
    }
  }

  lemma RefundAddsJobs(db: Db, a: AttemptId, c: CallId)
    requires a in db.attempts
    ensures db.jobs <= RequestRefund(db, a, c).jobs
  {
    hide RefundedAttempts;
  }

  lemma CapturedPendingKeeps(db: Db, a: AttemptId, c: CallId)
    requires Inv(db)
    requires a in db.attempts && CallFor(db.calls, a) == Some(c) && db.calls[c].status == PaymentPending
    ensures Inv(RecordCaptured(db, a))
  {
    hide LinksInv, CouplingInv, MoneyInv, PresenceInv;
    CallOfAttempt(db, a, c);
    var call := db.calls[c];
    if IsLive(db.shows, call.show) {
      assert db.entries[call.entry := db.entries[call.entry].(status := Selected)] == db.entries;
      PendingMoveKeeps(db, c, CallCreated, call.endedAt, PayCaptured, Selected);
    } else {
      PendingMoveKeeps(db, c, CallFailed, Some(db.now), PayCaptured, EntryEnded);
      var closed := db.(
        attempts := db.attempts[a := db.attempts[a].(status := PayCaptured)],
        calls := db.calls[c := call.(status := CallFailed, endedAt := Some(db.now))],
        entries := db.entries[call.entry := db.entries[call.entry].(status := EntryEnded)]);
      RequestRefundKeeps(closed, a, c);
    }
  }

  lemma RecordCapturedKeeps(db: Db, a: AttemptId)
    requires Inv(db)
    requires a in db.attempts && db.attempts[a].hasIntent
    ensures Inv(RecordCaptured(db, a))
  {
    hide LinksInv, CouplingInv, MoneyInv, PresenceInv;
    var found := CallFor(db.calls, a);
    if found.None? {
      AttemptStatusKeeps(db, a, PayCaptured);
    } else if db.calls[found.value].status == PaymentPending {
      CapturedPendingKeeps(db, a, found.value);
    } else {
      var c := found.value;
      CallOfAttempt(db, a, c);
      AttemptStatusKeeps(db, a, PayCaptured);
      if db.calls[c].startedAt.None? && !IsLive(db.shows, db.calls[c].show) {
        RequestRefundKeeps(db.(attempts := db.attempts[a := db.attempts[a].(status := PayCaptured)]), a, c);
      }
    }
  }

  lemma RecordNotCapturedKeeps(db: Db, a: AttemptId, status: PaymentStatus)
    requires Inv(db)
    requires a in db.attempts && db.attempts[a].hasIntent
    requires status == PayCanceled || status == PayFailed
    ensures Inv(RecordNotCaptured(db, a, status))
  {
    hide LinksInv, CouplingInv, MoneyInv, PresenceInv;
    var attempt := db.attempts[a];
    if attempt.status != PayCaptured {
      var found := CallFor(db.calls, a);
      if found.Some? {
        CallOfAttempt(db, a, found.value);
      }
      EarnedIsCaptured(db, a);
      if found.Some? && db.calls[found.value].status == PaymentPending {
        var e := db.calls[found.value].entry;
        var st := db.entries[e].status;
        assert db.entries[e := db.entries[e].(status := st)] == db.entries;
        PendingMoveKeeps(db, found.value, CallFailed, Some(db.now), status, if st == Waiting || st == Selected then Left else st);
      } else {
        AttemptStatusKeeps(db, a, status);
        AttemptEntryKnown(db, a);
        if attempt.entry.Some? && db.entries[attempt.entry.value].status == Waiting {
          EntryStatusKeeps(db.(attempts := db.attempts[a := attempt.(status := status)]), attempt.entry.value, Left);
        }
      }
    }
  }

  // ------------------------------------------------------------ transitions

  /** An open call's next step, with the ledger changed only if it goes live. */
  lemma OpenIsGoodMove(db: Db, c: CallId, call': Call, entryStatus: EntryStatus, ledger': L.Ledger, jobs': multiset<Job>)
    requires LinksInv(db) && CouplingInv(db)
    requires ClosesEndedShows(jobs', db.shows)
    requires c in db.calls && Connectable(db.calls[c].status)
    requires SameCallLinks(db.calls[c], call') && Clocked(call')
    requires (Connectable(call'.status) && entryStatus == EntryStatusFor(call'.status))
          || (Finished(call'.status) && entryStatus == EntryEnded)
    requires L.Valid(ledger')
    requires forall a: AttemptId :: call'.attempt != Some(a) ==> (L.EarningKey(a) in L.Keys(ledger') <==> L.EarningKey(a) in L.Keys(db.ledger))
    requires call'.attempt.Some? ==> (call'.startedAt.Some? <==> L.EarningKey(call'.attempt.value) in L.Keys(ledger'))
    ensures call'.entry in db.entries
    ensures GoodMove(db, c, call', db.entries[call'.entry].(status := entryStatus), db.attempts, ledger', jobs')
  {
    hide L.Valid, EntriesMirrorCalls, EntriesOk, OneActiveCall, OneLiveShow, IdsBelow;
  }

  lemma OpenCallKnown(db: Db, c: CallId)
    requires LinksInv(db) && CouplingInv(db) && MoneyInv(db) && c in db.calls
    ensures ClosesEndedShows(db.jobs, db.shows) && L.Valid(db.ledger)
    ensures Clocked(db.calls[c]) && db.calls[c].entry in db.entries
    ensures db.calls[c].attempt.Some? ==>
      && db.calls[c].attempt.value in db.attempts
      && (db.calls[c].startedAt.Some? <==> L.EarningKey(db.calls[c].attempt.value) in L.Keys(db.ledger))
      && (Connectable(db.calls[c].status) ==> db.attempts[db.calls[c].attempt.value].status == PayCaptured)
  {
    hide L.Valid;
  }

  lemma ConnectKeeps(db: Db, c: CallId)
    requires Inv(db)
    requires c in db.calls && db.calls[c].status == CallCreated
    ensures var call := db.calls[c];
      && call.entry in db.entries
      && Inv(db.(calls := db.calls[c := call.(status := CallConnecting)],
                 entries := db.entries[call.entry := db.entries[call.entry].(status := EntryConnecting)]))
  {
    hide LinksInv, CouplingInv, MoneyInv, PresenceInv;
    hide GoodMove, L.Valid, L.Keys, ClosesEndedShows;
    var call' := db.calls[c].(status := CallConnecting);
    OpenCallKnown(db, c);
    OpenIsGoodMove(db, c, call', EntryConnecting, db.ledger, db.jobs);
    PatchSeats(db, c, call');
    MoveKeeps(db, c, call', db.entries[call'.entry].(status := EntryConnecting), db.attempts, db.ledger, db.presence, db.jobs);
  }

  /** Crediting a captured payment posts its earning. */
  lemma CreditKeeps(db: Db, a: AttemptId)
    requires L.Valid(db.ledger) && LinksInv(db)
    requires a in db.attempts && db.attempts[a].status == PayCaptured
    ensures L.Valid(CreditEarning(db, a))
    ensures L.Keys(CreditEarning(db, a)) == L.Keys(db.ledger) + {L.EarningKey(a)}
  {
    hide L.Valid, L.Keys, EntriesOk, CallsLinked, IdsBelow;
    L.PostKeepsValid(db.ledger, L.EarningEntry(a, ChargeOf(db.attempts[a]), db.now + db.holdMs));
  }

  lemma GoLiveKeeps(db: Db, c: CallId)
    requires Inv(db)
    requires c in db.calls && db.calls[c].status == CallConnecting
    ensures db.calls[c].entry in db.entries
    ensures db.calls[c].attempt.Some? ==> db.calls[c].attempt.value in db.attempts
    ensures Inv(GoLive(db, c))
  {
    hide LinksInv, CouplingInv, MoneyInv, PresenceInv;
    hide GoodMove, L.Valid, L.Keys, ClosesEndedShows, CreditEarning;
    OpenCallKnown(db, c);
    var db' := GoLive(db, c);
    var call' := db'.calls[c];
    GoLiveIsGoodMove(db, c);
    PatchSeats(db, c, call');
    SeatsMoreJobs(db.presence, db.calls[c := call'], db.jobs, db'.jobs, db.now);
    MoveKeeps(db, c, call', db.entries[call'.entry].(status := EntryLive), db.attempts, db'.ledger, db.presence, db'.jobs);
  }

  /** Going live credits the payment exactly then, and moves the entry along. */
  lemma GoLiveIsGoodMove(db: Db, c: CallId)
    requires LinksInv(db) && CouplingInv(db) && MoneyInv(db)
    requires c in db.calls && db.calls[c].status == CallConnecting
    requires db.calls[c].entry in db.entries && (db.calls[c].attempt.Some? ==> db.calls[c].attempt.value in db.attempts)
    ensures var db' := GoLive(db, c);
      GoodMove(db, c, db'.calls[c], db.entries[db.calls[c].entry].(status := EntryLive), db.attempts, db'.ledger, db'.jobs)
  {
    hide LinksInv, CouplingInv, MoneyInv, GoodMove, L.Valid, L.Keys, ClosesEndedShows, CreditEarning;
    OpenCallKnown(db, c);
    var db' := GoLive(db, c);
    var call' := db'.calls[c];
    if call'.attempt.Some? {
      CreditKeeps(db, call'.attempt.value);
    }
    ClosesMore(db.jobs, ExpireCall(call'.expiresAt.value, c), db.shows);
    OpenIsGoodMove(db, c, call', EntryLive, db'.ledger, db'.jobs);
  }

  /** Notices about refunds and disputes leave shows, queues, calls, payments and jobs alone. */
  lemma MoneyNoticeFrame(db: Db, n: Notice)
    requires Linked(db) && (n.RefundNotice? || n.DisputeNotice?)
    ensures var d := ApplyNotice(db, n);
      && d.entries == db.entries && d.shows == db.shows && d.jobs == db.jobs
      && d.calls == db.calls && d.attempts == db.attempts && d.presence == db.presence
  {
    if n.RefundNotice? {
      RefundNoticeFrame(db, n);
    } else {
      hide ChangeDispute, DisputedAttempt, Linked;
    }
  }

  ghost predicate RefundFrame(db: Db, d: Db) {
    d == db.(refunds := d.refunds, nextId := d.nextId, ledger := d.ledger)
  }

  lemma KnownRefundFrame(db: Db, n: Notice)
    requires Linked(db) && n.RefundNotice? && RefundFor(db.refunds, n.stripeId, n.refunded).Some?
    ensures RefundFrame(db, ApplyNotice(db, n))
  {
    hide SettleRefund, AdoptRefund, RefundFor, L.Valid, RecordCaptured, RecordNotCaptured, ChangeDispute;
  }

  lemma NewRefundFrame(db: Db, n: Notice)
    requires Linked(db) && n.RefundNotice? && RefundFor(db.refunds, n.stripeId, n.refunded).None?
    ensures RefundFrame(db, ApplyNotice(db, n))
  {
    hide SettleRefund, AdoptRefund, RefundFor, L.Valid, RecordCaptured, RecordNotCaptured, ChangeDispute;
  }

  lemma RefundNoticeFrame(db: Db, n: Notice)
    requires Linked(db) && n.RefundNotice?
    ensures RefundFrame(db, ApplyNotice(db, n))
  {
    hide ApplyNotice, Linked, RefundFor, RefundFrame;
    if RefundFor(db.refunds, n.stripeId, n.refunded).Some? {
      KnownRefundFrame(db, n);
    } else {
      NewRefundFrame(db, n);
    }
  }

  /** What the jobs that may end a call leave alone. */
  ghost predicate EndingFrame(db: Db, d: Db) {
    d.now == db.now && d.shows == db.shows && d.attempts == db.attempts && d.ledger == db.ledger && d.disputes == db.disputes
  }

  lemma GraceFrame(db: Db, due: Millis, seat: Seat, at: Millis)
    requires seat.call in db.calls ==> db.calls[seat.call].entry in db.entries
    requires seat.call in db.calls && db.calls[seat.call].attempt.Some? ==> db.calls[seat.call].attempt.value in db.attempts
    ensures EndingFrame(db, RunCheckGrace(db, due, seat, at))
  {
    hide Finish;
  }

  lemma ExpireFrame(db: Db, due: Millis, c: CallId)
    requires c in db.calls ==> db.calls[c].entry in db.entries
    requires c in db.calls && db.calls[c].attempt.Some? ==> db.calls[c].attempt.value in db.attempts
    ensures EndingFrame(db, Expire(db, due, c))
  {
    hide Finish;
  }

  lemma SeatsMoreJobs(presence: map<Seat, Presence>, calls: map<CallId, Call>, jobs: multiset<Job>, jobs': multiset<Job>, now: Millis)
    requires PresenceOk(presence, calls, jobs, now) && jobs <= jobs'
    ensures PresenceOk(presence, calls, jobs', now)
  {
  }

  lemma SeatsEmptied(db: Db, c: CallId, call': Call)
    requires PresenceInv(db) && c in db.calls
    ensures PresenceOk(PresenceWithout(db.presence, c), db.calls[c := call'], db.jobs, db.now)
  {
  }

  lemma FinishKeeps(db: Db, c: CallId, target: CallStatus)
    requires Inv(db)
    requires c in db.calls && Connectable(db.calls[c].status)
    requires Finished(target)
    ensures db.calls[c].entry in db.entries
    ensures db.calls[c].attempt.Some? ==> db.calls[c].attempt.value in db.attempts
    ensures Inv(Finish(db, c, target))
  {
    hide LinksInv, CouplingInv, MoneyInv, PresenceInv;
    hide GoodMove, L.Valid, L.Keys, ClosesEndedShows;
    var call := db.calls[c];
    var call' := call.(status := target, endedAt := Some(db.now));
    OpenCallKnown(db, c);
    OpenIsGoodMove(db, c, call', EntryEnded, db.ledger, db.jobs);
    SeatsEmptied(db, c, call');
    var entry' := db.entries[call.entry].(status := EntryEnded);
    MoveKeeps(db, c, call', entry', db.attempts, db.ledger, PresenceWithout(db.presence, c), db.jobs);
    if call.startedAt.None? && call.attempt.Some? {
      RequestRefundKeeps(Moved(db, c, call', entry', db.attempts, db.ledger, PresenceWithout(db.presence, c), db.jobs),
                         call.attempt.value, c);
    }
  }

  lemma TransitionKeeps(db: Db, c: CallId, target: CallStatus)
    requires Inv(db) && Linked(db) && c in db.calls
    requires target == CallConnecting || target == CallLive || Finished(target)
    ensures ApplyTransition(db, c, target).Ok? ==> Inv(ApplyTransition(db, c, target).value)
  {
    hide LinksInv, CouplingInv, MoneyInv, PresenceInv;
    hide Linked;
    var call := db.calls[c];
    if call.status != target && CanTransition(call.status, target) {
      if Finished(target) {
        FinishKeeps(db, c, target);
      } else if target == CallLive {
        OpenCallKnown(db, c);
        GoLiveKeeps(db, c);
      } else {
        ConnectKeeps(db, c);
      }
    }
  }
}
