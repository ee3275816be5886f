/**
 What every run of the machine guarantees about money and calls: coupling,
 settlement, and that a repeated capture notice changes nothing.
 */
module Settlement {
  import opened Common
  import opened Tables
  import opened Steps
  import opened Invariants
  import opened Preservation
  import opened QueuePreservation
  import opened RefundPreservation
  import opened Runs
  import L = Ledger
  import Fees

  // ------------------------------------------------------------ coupling

  /** An entry has exactly one active call, and its status mirrors that call's. */
  ghost predicate MirrorsOneCall(db: Db, e: EntryId) {
    exists c :: c in db.calls && db.calls[c].entry == e && Active(db.calls[c].status)
             && e in db.entries && db.entries[e].status == EntryStatusFor(db.calls[c].status)
             && (forall d :: d in db.calls && db.calls[d].entry == e && Active(db.calls[d].status) ==> d == c)
  }

  /**
   At most one active call per show and one call per payment; a paid call is
   open only once its payment is captured; a show that is not live has no open
   call; and in a live show an entry is selected, connecting or live exactly
   when it has one active call in that very state.
   */
  ghost predicate Coupled(db: Db) {
    && (forall c, d | c in db.calls && d in db.calls && db.calls[c].show == db.calls[d].show
                      && Active(db.calls[c].status) && Active(db.calls[d].status) :: c == d)
    && (forall c, d | c in db.calls && d in db.calls && db.calls[c].attempt.Some?
                      && db.calls[c].attempt == db.calls[d].attempt :: c == d)
    && (forall c | c in db.calls && Connectable(db.calls[c].status) && db.calls[c].attempt.Some? ::
          db.calls[c].attempt.value in db.attempts && db.attempts[db.calls[c].attempt.value].status == PayCaptured)
    && (forall c | c in db.calls && Connectable(db.calls[c].status) :: IsLive(db.shows, db.calls[c].show))
    && (forall e | e in db.entries && IsLive(db.shows, db.entries[e].show) ::
          InCall(db.entries[e].status) <==> MirrorsOneCall(db, e))
  }

  /** Calls, queue entries and payments stay coupled in every reachable state. */
  lemma CouplingHolds(start: Db, ops: seq<Op>)
    requires Initial(start)
    ensures Coupled(Run(start, ops))
  {
    hide LinksInv, CouplingInv, MoneyInv, PresenceInv, Initial, Coupled, Run;
    Reachable(start, ops);
    CouplingOfInv(Run(start, ops));
  }

  lemma CouplingOfInv(db: Db)
    requires LinksInv(db) && CouplingInv(db)
    ensures Coupled(db)
  {
    forall e | e in db.entries && IsLive(db.shows, db.entries[e].show)
      ensures InCall(db.entries[e].status) <==> MirrorsOneCall(db, e)
    {
      MirrorOfInv(db, e);
    }
  }

  lemma MirrorOfInv(db: Db, e: EntryId)
    requires CallsLinked(db.calls, db.entries, db.attempts, db.shows) && OneActiveCall(db.calls)
    requires EntriesMirrorCalls(db.calls, db.entries, db.shows)
    requires e in db.entries && IsLive(db.shows, db.entries[e].show)
    ensures InCall(db.entries[e].status) <==> MirrorsOneCall(db, e)
  {
    if InCall(db.entries[e].status) {
      assert HasActiveCall(db.calls, e);
      var c :| c in db.calls && db.calls[c].entry == e && Active(db.calls[c].status);
      assert forall d :: d in db.calls && db.calls[d].entry == e ==> db.calls[d].show == db.entries[e].show;
    }
  }

  // ------------------------------------------------------------ exclusivity

  /** No payment has both credited its creator and been refunded by Bling. */
  ghost predicate NoDoubleSettlement(db: Db) {
    forall r :: r in db.refunds && db.refunds[r].own ==> L.EarningFor(db.ledger.entries, db.refunds[r].attempt).None?
  }

  /**
   Earning and refund exclude each other in every reachable state. This needs
   nothing of Stripe: its notices may come in any order and contradict each other.
   */
  lemma NeverEarnedAndRefunded(start: Db, ops: seq<Op>)
    requires Initial(start)
    ensures NoDoubleSettlement(Run(start, ops))
  {
    hide LinksInv, CouplingInv, MoneyInv, PresenceInv, Initial, Run;
    Reachable(start, ops);
    var db := Run(start, ops);
    forall r | r in db.refunds && db.refunds[r].own ensures L.EarningFor(db.ledger.entries, db.refunds[r].attempt).None? {
      ExclusiveOfInv(db, r);
    }
  }

  lemma ExclusiveOfInv(db: Db, r: RefundId)
    requires MoneyInv(db) && r in db.refunds && db.refunds[r].own
    ensures L.EarningFor(db.ledger.entries, db.refunds[r].attempt).None?
  {
    L.EarningByKey(db.ledger, db.refunds[r].attempt);
    hide L.Valid, L.EarningFor;
    assert db.calls[db.refunds[r].call].attempt == Some(db.refunds[r].attempt);
  }

  // ------------------------------------------------------------ completeness

  /** Every captured payment of a call that finished without going live has a refund record. */
  ghost predicate Settled(db: Db) {
    CallsSettled(db.calls, db.attempts, RefundedAttempts(db.refunds))
  }

  /**
   The one notice that leaves money unsettled: success reported for a payment
   already recorded as not captured, whose call has failed without a refund,
   while the show is still live.
   */
  ghost predicate LateSuccess(db: Db, a: AttemptId) {
    && a in db.attempts && db.attempts[a].status != PayCaptured
    && a !in RefundedAttempts(db.refunds)
    && exists c :: c in db.calls && db.calls[c].attempt == Some(a) && Finished(db.calls[c].status)
                && db.calls[c].startedAt.None? && IsLive(db.shows, db.calls[c].show)
  }

  lemma RefundRequested(db: Db, a: AttemptId, c: CallId)
    requires a in db.attempts && db.attempts[a].status == PayCaptured && db.attempts[a].hasIntent
    requires db.nextId !in db.refunds
    ensures RefundedAttempts(RequestRefund(db, a, c).refunds) == RefundedAttempts(db.refunds) + {a}
  {
    NewRefunded(db.refunds, db.nextId, Refund(a, c, db.attempts[a].amountCents, true, Requested, 0, db.now, None));
    hide RefundedAttempts;
    if a in RefundedAttempts(db.refunds) {
      assert RefundedAttempts(db.refunds) + {a} == RefundedAttempts(db.refunds);
    }
  }

  lemma NewRefunded(refunds: map<RefundId, Refund>, r: RefundId, refund: Refund)
    requires r !in refunds
    ensures RefundedAttempts(refunds[r := refund]) == RefundedAttempts(refunds) + {refund.attempt}
  {
    var refunds' := refunds[r := refund];
    assert refunds'[r].attempt == refund.attempt;
    assert forall x :: x in refunds ==> refunds'[x] == refunds[x];
  }

  /** Payments other than the one of call `c` stand still. */
  ghost predicate OthersStand(attempts: map<AttemptId, Attempt>, attempts': map<AttemptId, Attempt>, a: Option<AttemptId>) {
    && attempts'.Keys == attempts.Keys
    && (forall x :: x in attempts && a != Some(x) ==> attempts'[x].status == attempts[x].status)
  }

  /** One call and its payment move. */
  lemma PatchSettles(calls: map<CallId, Call>, attempts: map<AttemptId, Attempt>, attempts': map<AttemptId, Attempt>,
                     refunded: set<AttemptId>, refunded': set<AttemptId>, c: CallId, call': Call)
    requires CallsSettled(calls, attempts, refunded) && OneCallPerAttempt(calls)
    requires c in calls && call'.attempt == calls[c].attempt
    requires OthersStand(attempts, attempts', call'.attempt) && refunded <= refunded'
    ensures CallsSettled(calls[c := call'], attempts', refunded') <==> CallSettled(call', attempts', refunded')
  {
    var calls' := calls[c := call'];
    assert calls'[c] == call';
    forall d | d in calls' && d != c ensures CallSettled(calls'[d], attempts', refunded') {
      assert CallSettled(calls[d], attempts, refunded);
    }
  }

  /** Payments no call is waiting on, and refunds, may move freely. */
  lemma IdleSettles(calls: map<CallId, Call>, attempts: map<AttemptId, Attempt>, attempts': map<AttemptId, Attempt>,
                    refunded: set<AttemptId>, refunded': set<AttemptId>)
    requires CallsSettled(calls, attempts, refunded) && refunded <= refunded'
    requires forall c | c in calls && calls[c].attempt.Some? && calls[c].attempt.value in attempts' ::
      calls[c].attempt.value in attempts && attempts'[calls[c].attempt.value].status == attempts[calls[c].attempt.value].status
    ensures CallsSettled(calls, attempts', refunded')
  {
    forall c | c in calls ensures CallSettled(calls[c], attempts', refunded') {
      assert CallSettled(calls[c], attempts, refunded);
    }
  }

  /** What settlement needs to know of one call. */
  lemma SettlementFacts(db: Db, c: CallId)
    requires LinksInv(db) && CouplingInv(db) && c in db.calls
    ensures OneCallPerAttempt(db.calls) && Clocked(db.calls[c]) && db.calls[c].entry in db.entries
    ensures db.calls[c].attempt.Some? ==>
      && db.calls[c].attempt.value in db.attempts
      && PaymentAllows(db.calls[c], db.attempts[db.calls[c].attempt.value].status)
      && (db.attempts[db.calls[c].attempt.value].status != PayCreated ==> db.attempts[db.calls[c].attempt.value].hasIntent)
    ensures Connectable(db.calls[c].status) ==> IsLive(db.shows, db.calls[c].show)
    ensures db.nextId !in db.refunds && db.nextId !in db.calls
  {
  }

  lemma FinishSettles(db: Db, c: CallId, target: CallStatus)
    requires Inv(db) && Linked(db) && Settled(db)
    requires c in db.calls && Connectable(db.calls[c].status) && Finished(target)
    ensures Settled(Finish(db, c, target))
  {
    hide LinksInv, CouplingInv, MoneyInv, PresenceInv, CallsSettled, OneCallPerAttempt;
    SettlementFacts(db, c);
    hide Linked;
    var call := db.calls[c];
    var call' := call.(status := target, endedAt := Some(db.now));
    var over := db.(
      calls := db.calls[c := call'],
      entries := db.entries[call.entry := db.entries[call.entry].(status := EntryEnded)],
      presence := PresenceWithout(db.presence, c));
    if call.startedAt.None? && call.attempt.Some? {
      RefundRequested(over, call.attempt.value, c);
    }
    hide RefundedAttempts;
    PatchSettles(db.calls, db.attempts, db.attempts, RefundedAttempts(db.refunds),
                 RefundedAttempts(Finish(db, c, target).refunds), c, call');
  }

  /** The call of a late success, if there is one. */
  lemma LateCall(db: Db, a: AttemptId, c: CallId)
    requires OneCallPerAttempt(db.calls) && c in db.calls && db.calls[c].attempt == Some(a) && a in db.attempts
    ensures LateSuccess(db, a) <==>
      db.attempts[a].status != PayCaptured && a !in RefundedAttempts(db.refunds) && Finished(db.calls[c].status)
      && db.calls[c].startedAt.None? && IsLive(db.shows, db.calls[c].show)
  {
  }

  /** A success notice for a call waiting for it in a live show. */
  lemma CapturedOpens(db: Db, a: AttemptId, c: CallId)
    requires OneCallPerAttempt(db.calls) && Linked(db) && Settled(db)
    requires a in db.attempts && CallFor(db.calls, a) == Some(c)
    requires db.calls[c].status == PaymentPending && IsLive(db.shows, db.calls[c].show)
    ensures Settled(RecordCaptured(db, a))
  {
    hide OneCallPerAttempt, CallsSettled, RefundedAttempts;
    PatchSettles(db.calls, db.attempts, db.attempts[a := db.attempts[a].(status := PayCaptured)], RefundedAttempts(db.refunds),
                 RefundedAttempts(db.refunds), c, db.calls[c].(status := CallCreated));
  }

  /** A success notice for a call whose show is over. */
  lemma CapturedTooLate(db: Db, a: AttemptId, c: CallId)
    requires OneCallPerAttempt(db.calls) && Linked(db) && Settled(db) && db.nextId !in db.refunds
    requires a in db.attempts && db.attempts[a].hasIntent && CallFor(db.calls, a) == Some(c)
    requires db.calls[c].startedAt.None? && !IsLive(db.shows, db.calls[c].show)
    ensures Settled(RecordCaptured(db, a))
  {
    var attempts' := db.attempts[a := db.attempts[a].(status := PayCaptured)];
    var paid := db.(attempts := attempts');
    hide OneCallPerAttempt, CallsSettled, RefundedAttempts, RequestRefund, FailUnpaid, CallFor;
    FailedRow(paid, c);
    RefundRequested(FailUnpaid(paid, c), a, c);
    hide Linked;
    PatchSettles(db.calls, db.attempts, attempts', RefundedAttempts(db.refunds), RefundedAttempts(db.refunds) + {a}, c,
                 FailUnpaid(paid, c).calls[c]);
  }

  lemma FailedRow(db: Db, c: CallId)
    requires c in db.calls && db.calls[c].entry in db.entries
    ensures var d := FailUnpaid(db, c);
      && c in d.calls && d.calls == db.calls[c := d.calls[c]] && d.calls[c].attempt == db.calls[c].attempt
  {
  }

  /** A success notice that moves no call. */
  lemma CapturedQuietlySettlesIff(db: Db, a: AttemptId, c: CallId)
    requires Inv(db) && Linked(db) && Settled(db)
    requires a in db.attempts && CallFor(db.calls, a) == Some(c)
    requires !(db.calls[c].status == PaymentPending || (db.calls[c].startedAt.None? && !IsLive(db.shows, db.calls[c].show)))
    ensures Settled(RecordCaptured(db, a)) <==> !LateSuccess(db, a)
  {
    hide LinksInv, CouplingInv, MoneyInv, PresenceInv, OneCallPerAttempt;
    var attempts' := db.attempts[a := db.attempts[a].(status := PayCaptured)];
    var call := db.calls[c];
    assert CallSettled(call, db.attempts, RefundedAttempts(db.refunds));
    SettlementFacts(db, c);
    LateCall(db, a, c);
    assert db.calls[c := call] == db.calls;
    hide Linked, CallsSettled, LateSuccess, RefundedAttempts;
    PatchSettles(db.calls, db.attempts, attempts', RefundedAttempts(db.refunds), RefundedAttempts(db.refunds), c, call);
  }

  /** A success notice keeps everything settled exactly when it is not late. */
  lemma CaptureSettlesIff(db: Db, a: AttemptId)
    requires Inv(db) && Linked(db) && Settled(db)
    requires a in db.attempts && db.attempts[a].hasIntent
    ensures Settled(RecordCaptured(db, a)) <==> !LateSuccess(db, a)
  {
    hide LinksInv, CouplingInv, MoneyInv, PresenceInv;
    var found := CallFor(db.calls, a);
    if found.None? {
      var attempts' := db.attempts[a := db.attempts[a].(status := PayCaptured)];
      hide RefundedAttempts;
      IdleSettles(db.calls, db.attempts, attempts', RefundedAttempts(db.refunds), RefundedAttempts(db.refunds));
    } else {
      var c := found.value;
      hide RecordCaptured, Linked, CallsSettled;
      if db.calls[c].status == PaymentPending || (db.calls[c].startedAt.None? && !IsLive(db.shows, db.calls[c].show)) {
        SettlementFacts(db, c);
        LateCall(db, a, c);
        hide LateSuccess, OneCallPerAttempt, RefundedAttempts;
        if IsLive(db.shows, db.calls[c].show) {
          CapturedOpens(db, a, c);
        } else {
          CapturedTooLate(db, a, c);
        }
      } else {
        CapturedQuietlySettlesIff(db, a, c);
      }
    }
  }

  lemma NotCapturedSettles(db: Db, a: AttemptId, status: PaymentStatus)
    requires Inv(db) && Linked(db) && Settled(db)
    requires a in db.attempts && (status == PayCanceled || status == PayFailed)
    ensures Settled(RecordNotCaptured(db, a, status))
  {
    hide LinksInv, CouplingInv, MoneyInv, PresenceInv, OneCallPerAttempt, CallsSettled, RefundedAttempts, RecordNotCaptured, CallFor;
    NotCapturedRows(db, a, status);
    var db' := RecordNotCaptured(db, a, status);
    if db.attempts[a].status != PayCaptured {
      var refunded := RefundedAttempts(db.refunds);
      var found := CallFor(db.calls, a);
      if found.None? {
        IdleSettles(db.calls, db.attempts, db'.attempts, refunded, refunded);
      } else {
        SettlementFacts(db, found.value);
        hide Linked;
        PatchSettles(db.calls, db.attempts, db'.attempts, refunded, refunded, found.value, db'.calls[found.value]);
      }
    }
  }

  /** The rows a failure notice touches. */
  lemma NotCapturedRows(db: Db, a: AttemptId, status: PaymentStatus)
    requires Linked(db) && a in db.attempts
    ensures var d := RecordNotCaptured(db, a, status);
      var found := CallFor(db.calls, a);
      && (db.attempts[a].status == PayCaptured ==> d.calls == db.calls)
      && (found.None? ==> d.calls == db.calls && forall c :: c in db.calls ==> db.calls[c].attempt != Some(a))
      && (found.Some? ==> d.calls == db.calls[found.value := d.calls[found.value]]
                          && d.calls[found.value].attempt == db.calls[found.value].attempt
                          && (d.calls[found.value] == db.calls[found.value] || d.calls[found.value].startedAt == db.calls[found.value].startedAt))
  {
    hide CallFor, Linked;
    var found := CallFor(db.calls, a);
    if found.Some? {
      assert db.calls == db.calls[found.value := db.calls[found.value]];
    }
  }

  lemma TransitionSettles(db: Db, c: CallId, target: CallStatus)
    requires Inv(db) && Linked(db) && Settled(db) && c in db.calls
    ensures ApplyTransition(db, c, target).Ok? ==> Settled(ApplyTransition(db, c, target).value)
  {
    hide LinksInv, CouplingInv, MoneyInv, PresenceInv, CallsSettled, OneCallPerAttempt;
    if ApplyTransition(db, c, target).Ok? && db.calls[c].status != target {
      if Finished(target) {
        FinishSettles(db, c, target);
      } else {
        SettlementFacts(db, c);
        hide Linked, RefundedAttempts;
        var refunded := RefundedAttempts(db.refunds);
        PatchSettles(db.calls, db.attempts, db.attempts, refunded, refunded, c, ApplyTransition(db, c, target).value.calls[c]);
      }
    }
  }

  // ------------------------------------------------------------ the other steps

  /** A selection opens one call, and starts the capture of its authorized hold if it is paid. */
  ghost predicate OpensCall(db: Db, d: Db) {
    && db.nextId in d.calls && d.calls == db.calls[db.nextId := d.calls[db.nextId]]
    && !Finished(d.calls[db.nextId].status) && d.refunds == db.refunds
    && var paid := d.calls[db.nextId].attempt;
       if paid.None? then d.attempts == db.attempts
       else && paid.value in db.attempts && db.attempts[paid.value].status == PayAuthorized
            && d.attempts == db.attempts[paid.value := db.attempts[paid.value].(status := PayCapturing)]
  }

  lemma CreateCallRows(db: Db, sh: ShowId, e: EntryId)
    requires e in db.entries && CreateCall(db, sh, e).Ok?
    ensures OpensCall(db, CreateCall(db, sh, e).value)
  {
    var d := CreateCall(db, sh, e).value;
    var entry := db.entries[e];
    var call := d.calls[db.nextId];
    assert d.calls == db.calls[db.nextId := call] && d.refunds == db.refunds;
    if entry.priceCents > 0 {
      assert call.status == PaymentPending && call.attempt == entry.attempt;
    } else {
      assert call.status == CallCreated && call.attempt.None?;
    }
  }

  lemma SelectRows(db: Db, sh: ShowId, creator: UserId, e: EntryId)
    requires Select(db, sh, creator, e).Ok?
    ensures OpensCall(db, Select(db, sh, creator, e).value)
  {
    hide ActiveCall, CreateCall, OpensCall;
    CreateCallRows(db, sh, e);
  }

  /** The other steps open calls, move payments nobody has called with, or add refunds. */
  lemma SelectSettles(db: Db, sh: ShowId, creator: UserId, e: EntryId)
    requires Inv(db) && Settled(db)
    ensures Select(db, sh, creator, e).Ok? ==> Settled(Select(db, sh, creator, e).value)
  {
    hide LinksInv, CouplingInv, MoneyInv, PresenceInv;
    var r := Select(db, sh, creator, e);
    if r.Ok? {
      SelectRows(db, sh, creator, e);
      hide Select;
      var db' := r.value;
      var call := db'.calls[db.nextId];
      if call.attempt.Some? {
        UnpickedHasNoCall(db, call.attempt.value);
      }
      hide RefundedAttempts;
      assert CallsSettled(db.calls, db'.attempts, RefundedAttempts(db.refunds)) by {
        IdleSettles(db.calls, db.attempts, db'.attempts, RefundedAttempts(db.refunds), RefundedAttempts(db.refunds));
      }
    }
  }

  /** A payment that no call is for may change. */
  lemma UnusedAttemptSettles(db: Db, db': Db, a: AttemptId)
    requires Settled(db)
    requires db'.calls == db.calls && db'.refunds == db.refunds
    requires forall x :: x in db'.attempts && x != a ==> x in db.attempts && db'.attempts[x].status == db.attempts[x].status
    requires forall c :: c in db.calls ==> db.calls[c].attempt != Some(a)
    ensures Settled(db')
  {
    hide RefundedAttempts;
    IdleSettles(db.calls, db.attempts, db'.attempts, RefundedAttempts(db.refunds), RefundedAttempts(db.refunds));
  }

  /** No payment's status changes and no refund goes away. */
  lemma QuietSettles(db: Db, db': Db)
    requires Settled(db)
    requires db'.calls == db.calls && RefundedAttempts(db.refunds) <= RefundedAttempts(db'.refunds)
    requires forall x :: x in db'.attempts ==> x in db.attempts && db'.attempts[x].status == db.attempts[x].status
    ensures Settled(db')
  {
    hide RefundedAttempts;
    IdleSettles(db.calls, db.attempts, db'.attempts, RefundedAttempts(db.refunds), RefundedAttempts(db'.refunds));
  }

  lemma CallsBelow(db: Db)
    requires LinksInv(db)
    ensures forall c :: c in db.calls ==> db.calls[c].attempt != Some(db.nextId)
  {
  }

  lemma PrepareSettles(db: Db, sh: ShowId, tier: TierId, payer: UserId)
    requires Inv(db) && Settled(db)
    ensures Prepare(db, sh, tier, payer).Ok? ==> Settled(Prepare(db, sh, tier, payer).value)
  {
    hide LinksInv, CouplingInv, MoneyInv, PresenceInv, CallsSettled, RefundedAttempts;
    if Prepare(db, sh, tier, payer).Ok? {
      CallsBelow(db);
      UnusedAttemptSettles(db, Prepare(db, sh, tier, payer).value, db.nextId);
    }
  }

  lemma AuthorizeSettles(db: Db, a: AttemptId)
    requires Inv(db) && Settled(db)
    ensures Settled(MarkAuthorized(db, a))
  {
    hide LinksInv, CouplingInv, MoneyInv, PresenceInv, CallsSettled, RefundedAttempts;
    if MarkAuthorized(db, a) != db {
      UnpickedHasNoCall(db, a);
      UnusedAttemptSettles(db, MarkAuthorized(db, a), a);
    }
  }

  lemma JoinSettles(db: Db, sh: ShowId, viewer: UserId, tier: TierId, payment: Option<AttemptId>)
    requires Settled(db)
    ensures Join(db, sh, viewer, tier, payment).Ok? ==> Settled(Join(db, sh, viewer, tier, payment).value)
  {
    hide CallsSettled, RefundedAttempts;
    var r := Join(db, sh, viewer, tier, payment);
    if r.Ok? && r.value != db {
      QuietSettles(db, r.value);
    }
  }

  /** The refund worker and the webhook only add refunds. */
  lemma RefundRowSettles(db: Db, db': Db, r: RefundId)
    requires Settled(db)
    requires db'.calls == db.calls && db'.attempts == db.attempts
    requires r in db'.refunds && db'.refunds == db.refunds[r := db'.refunds[r]]
    requires r in db.refunds ==> db'.refunds[r].attempt == db.refunds[r].attempt
    ensures Settled(db')
  {
    assert RefundedAttempts(db.refunds) <= RefundedAttempts(db'.refunds) by {
      forall q | q in db.refunds ensures db.refunds[q].attempt in RefundedAttempts(db'.refunds) {
        assert q in db'.refunds && db'.refunds[q].attempt == db.refunds[q].attempt;
      }
    }
    QuietSettles(db, db');
  }

  lemma EndShowSettles(db: Db, sh: ShowId, creator: UserId)
    requires Inv(db) && Linked(db) && Settled(db)
    ensures EndShow(db, sh, creator).Ok? ==> Settled(EndShow(db, sh, creator).value)
  {
    hide LinksInv, CouplingInv, MoneyInv, PresenceInv, CallsSettled, RefundedAttempts;
    if EndShow(db, sh, creator).Ok? {
      var current := ActiveCall(db.calls, sh);
      if current.Some? && Connectable(db.calls[current.value].status) {
        FinishSettles(db, current.value, CallEnded);
      }
      hide Finish;
    }
  }

  lemma ExpireSettles(db: Db, due: Millis, c: CallId)
    requires Inv(db) && Linked(db) && Settled(db)
    ensures Settled(Expire(db, due, c))
  {
    hide LinksInv, CouplingInv, MoneyInv, PresenceInv, CallsSettled, RefundedAttempts, Finish;
    var taken := Taken(db, ExpireCall(due, c));
    TakenKeeps(db, ExpireCall(due, c));
    if c in db.calls && db.calls[c].status == CallLive {
      FinishSettles(taken, c, CallEnded);
    }
  }

  lemma GraceSettles(db: Db, due: Millis, seat: Seat, at: Millis)
    requires Inv(db) && Linked(db) && Settled(db) && CheckGrace(due, seat, at) in db.jobs
    ensures Settled(RunCheckGrace(db, due, seat, at))
  {
    hide LinksInv, CouplingInv, MoneyInv, PresenceInv, CallsSettled, RefundedAttempts;
    if seat in db.presence && db.presence[seat].disconnectedAt == Some(at) {
      SeatsWatched(db);
      FinishSettles(db, seat.call, CallFailed);
      TakenCommutes(db, seat.call, CheckGrace(due, seat, at));
      hide Finish;
    }
  }

  lemma SettleRefundSettles(db: Db, r: RefundId, sid: nat, outcome: RefundStatus)
    requires L.Valid(db.ledger) && Settled(db)
    requires r in db.refunds && db.refunds[r].attempt in db.attempts && db.attempts[db.refunds[r].attempt].amountCents > 0
    ensures Settled(SettleRefund(db, r, sid, outcome))
  {
    hide L.Valid, Reverse, CallsSettled, RefundedAttempts;
    var db' := SettleRefund(db, r, sid, outcome);
    if db' != db {
      RefundRowSettles(db, db', r);
    }
  }

  lemma RefundNoticeSettles(db: Db, n: Notice)
    requires Linked(db) && Settled(db) && n.RefundNotice? && db.nextId !in db.refunds
    ensures Settled(ApplyNotice(db, n))
  {
    hide CallsSettled, RefundedAttempts, SettleRefund;
    var found := RefundFor(db.refunds, n.stripeId, n.refunded);
    if found.Some? {
      SettleRefundSettles(db, found.value, n.stripeId, n.outcome);
    } else {
      var adopted := AdoptRefund(db, n.stripeId, n.refunded, n.amount);
      if adopted.Some? {
        RefundRowSettles(db, adopted.value, db.nextId);
        SettleRefundSettles(adopted.value, db.nextId, n.stripeId, n.outcome);
      }
    }
  }

  /** The notice a step carries that a payment succeeded, if it does. */
  function SuccessNoticeFor(db: Db, op: Op): Option<AttemptId> {
    match op
    case CapturedOp(a) => AttemptForIntent(db.attempts, Some(a))
    case WebhookOp(event, n) =>
      if n.IntentSucceeded? && event !in db.events then AttemptForIntent(db.attempts, Some(n.intent)) else None
    case _ => None
  }

  /** Whether a step is a late success. */
  ghost predicate LateStep(db: Db, op: Op) {
    SuccessNoticeFor(db, op).Some? && LateSuccess(db, SuccessNoticeFor(db, op).value)
  }

  lemma NoticeSettlesIff(db: Db, n: Notice)
    requires Inv(db) && Linked(db) && Settled(db)
    ensures Settled(ApplyNotice(db, n)) <==>
      !(n.IntentSucceeded? && AttemptForIntent(db.attempts, Some(n.intent)).Some? && LateSuccess(db, n.intent))
  {
    hide LinksInv, CouplingInv, MoneyInv, PresenceInv, CallsSettled, RefundedAttempts, LateSuccess, RecordCaptured, RecordNotCaptured;
    match n
    case IntentSucceeded(i) =>
      if AttemptForIntent(db.attempts, Some(i)).Some? {
        CaptureSettlesIff(db, i);
      }
    case IntentCanceled(i) =>
      if AttemptForIntent(db.attempts, Some(i)).Some? {
        NotCapturedSettles(db, i, PayCanceled);
      }
    case IntentFailed(i) =>
      if AttemptForIntent(db.attempts, Some(i)).Some? {
        NotCapturedSettles(db, i, PayFailed);
      }
    case RefundNotice(_, _, _, _) =>
      IdsKnown(db);
      RefundNoticeSettles(db, n);
    case DisputeNotice(_, _, _) =>
  }

  lemma WebhookSettlesIff(db: Db, event: nat, n: Notice)
    requires Inv(db) && Linked(db) && Settled(db)
    ensures Settled(Webhook(db, event, n)) <==> !LateStep(db, WebhookOp(event, n))
  {
    hide LinksInv, CouplingInv, MoneyInv, PresenceInv, CallsSettled, RefundedAttempts, ApplyNotice;
    if event !in db.events {
      var noted := db.(events := db.events + {event});
      EventsKeep(db, noted.events);
      hide Inv;
      NoticeSettlesIff(noted, n);
      assert n.IntentSucceeded? ==> (LateSuccess(noted, n.intent) <==> LateSuccess(db, n.intent));
    }
  }

  lemma ClaimSettles(db: Db, r: RefundId)
    requires Settled(db)
    ensures Settled(ClaimRefund(db, r))
  {
    hide CallsSettled, RefundedAttempts;
    if ClaimRefund(db, r) != db {
      RefundRowSettles(db, ClaimRefund(db, r), r);
    }
  }

  lemma RecordSettles(db: Db, r: RefundId, sid: nat, outcome: RefundStatus)
    requires Linked(db) && Settled(db)
    ensures Settled(RecordRefund(db, r, sid, outcome))
  {
    hide CallsSettled, RefundedAttempts, Reverse;
    if r in db.refunds && !FinalRefund(db.refunds[r].status) {
      RefundRowSettles(db, RecordRefund(db, r, sid, outcome), r);
    }
  }

  lemma RetrySettles(db: Db, r: RefundId)
    requires Settled(db)
    ensures Settled(RetryRefund(db, r))
  {
    hide CallsSettled, RefundedAttempts, RetryDelay;
    if r in db.refunds && db.refunds[r].status == Processing {
      RefundRowSettles(db, RetryRefund(db, r), r);
    }
  }

  lemma ShowStepSettles(db: Db, op: Op)
    requires Inv(db) && Linked(db) && Settled(db) && ShowOrQueue(op)
    ensures Settled(Step(db, op))
  {
    hide LinksInv, CouplingInv, MoneyInv, PresenceInv, CallsSettled, RefundedAttempts, Linked;
    hide EndShow, Prepare, AttachIntent, MarkAuthorized, Join, Select;
    match op
    case Tick(to) =>
      hide Step, Advance;
      TickStep(db, to);
    case EndShowOp(sh, creator) => EndShowSettles(db, sh, creator);
    case PrepareOp(sh, tier, payer) => PrepareSettles(db, sh, tier, payer);
    case AttachIntentOp(a) => AttachSettles(db, a);
    case AuthorizeOp(a) => AuthorizeSettles(db, a);
    case JoinOp(sh, viewer, tier, payment) => JoinSettles(db, sh, viewer, tier, payment);
    case SelectOp(sh, creator, e) => SelectSettles(db, sh, creator, e);
    case _ =>
      hide Step;
      if op.CreateShowOp? || op.StartShowOp? {
        ShowSteps(db, op);
      } else {
        QueueSteps(db, op);
      }
  }

  lemma AttachSettles(db: Db, a: AttemptId)
    requires Settled(db)
    ensures AttachIntent(db, a).Ok? ==> Settled(AttachIntent(db, a).value)
  {
    hide CallsSettled, RefundedAttempts;
    if a in db.attempts {
      QuietSettles(db, AttachIntent(db, a).value);
    }
  }

  lemma CallStepSettles(db: Db, op: Op)
    requires Inv(db) && Linked(db) && Settled(db) && PaymentOrCall(op) && !op.CapturedOp?
    ensures Settled(Step(db, op))
  {
    hide LinksInv, CouplingInv, MoneyInv, PresenceInv, CallsSettled, RefundedAttempts, Linked;
    hide RecordNotCaptured, ApplyTransition, Expire;
    match op
    case NotCapturedOp(a, canceled) =>
      if a in db.attempts { NotCapturedSettles(db, a, if canceled then PayCanceled else PayFailed); }
    case TransitionOp(c, role, target) => if c in db.calls { TransitionSettles(db, c, target); }
    case ExpireOp(due, c) => if ExpireCall(due, c) in db.jobs { ExpireSettles(db, due, c); }
  }

  lemma SeatStepSettles(db: Db, op: Op)
    requires Inv(db) && Linked(db) && Settled(db) && OfSeat(op)
    ensures Settled(Step(db, op))
  {
    hide LinksInv, CouplingInv, MoneyInv, PresenceInv, CallsSettled, RefundedAttempts, Linked;
    if op.CheckGraceOp? {
      hide RunCheckGrace;
      if CheckGrace(op.due, op.seat, op.disconnectedAt) in db.jobs { GraceSettles(db, op.due, op.seat, op.disconnectedAt); }
    } else {
      hide Step;
      if op.HeartbeatOp? {
        BeatSteps(db, op);
      } else if op.LeaveCallOp? {
        LeaveCallSteps(db, op);
      } else {
        CheckSeenSteps(db, op);
      }
    }
  }

  lemma WorkerStepSettles(db: Db, op: Op)
    requires Linked(db) && Settled(db) && (op.ClaimRefundOp? || op.RecordRefundOp? || op.RetryRefundOp? || op.ReserveOp?)
    ensures Settled(Step(db, op))
  {
    hide CallsSettled, RefundedAttempts, ClaimRefund, RecordRefund, RetryRefund, L.Post, Linked;
    match op
    case ClaimRefundOp(r) => ClaimSettles(db, r);
    case RecordRefundOp(r, sid, outcome) => RecordSettles(db, r, sid, outcome);
    case RetryRefundOp(r) => RetrySettles(db, r);
    case ReserveOp(_, _, _) =>
  }

  /** Steps that carry no notice of success keep everything settled. */
  lemma OtherStepsSettle(db: Db, op: Op)
    requires Inv(db) && Linked(db) && Settled(db)
    requires !op.CapturedOp? && !op.WebhookOp?
    ensures Settled(Step(db, op))
  {
    hide Inv, Linked, Settled, Step;
    if ShowOrQueue(op) {
      ShowStepSettles(db, op);
    } else if PaymentOrCall(op) {
      CallStepSettles(db, op);
    } else if OfSeat(op) {
      SeatStepSettles(db, op);
    } else {
      WorkerStepSettles(db, op);
    }
  }

  lemma ShowSteps(db: Db, op: Op)
    requires Linked(db) && (op.CreateShowOp? || op.StartShowOp?)
    ensures Step(db, op).calls == db.calls
    ensures Step(db, op).attempts == db.attempts
    ensures Step(db, op).refunds == db.refunds
  {
    hide StartShow, Linked;
  }

  lemma QueueSteps(db: Db, op: Op)
    requires Linked(db) && (op.CloseQueueOp? || op.LeaveOp?)
    ensures Step(db, op).calls == db.calls
    ensures Step(db, op).attempts == db.attempts
    ensures Step(db, op).refunds == db.refunds
  {
    hide CloseQueueBatch, Leave, IsCloseBatch, Linked;
  }

  lemma BeatSteps(db: Db, op: Op)
    requires Linked(db) && op.HeartbeatOp?
    ensures Step(db, op).calls == db.calls
    ensures Step(db, op).attempts == db.attempts
    ensures Step(db, op).refunds == db.refunds
  {
    hide Heartbeat, Linked;
  }

  lemma LeaveCallSteps(db: Db, op: Op)
    requires Linked(db) && op.LeaveCallOp?
    ensures Step(db, op).calls == db.calls
    ensures Step(db, op).attempts == db.attempts
    ensures Step(db, op).refunds == db.refunds
  {
    hide LeaveCall, Linked;
  }

  lemma CheckSeenSteps(db: Db, op: Op)
    requires Linked(db) && op.CheckSeenOp?
    ensures Step(db, op).calls == db.calls
    ensures Step(db, op).attempts == db.attempts
    ensures Step(db, op).refunds == db.refunds
  {
    hide RunCheckSeen, Linked;
  }

  lemma CapturedStepSettlesIff(db: Db, a: AttemptId)
    requires Inv(db) && Linked(db) && Settled(db)
    ensures Settled(Step(db, CapturedOp(a))) <==> !LateStep(db, CapturedOp(a))
  {
    hide LinksInv, CouplingInv, MoneyInv, PresenceInv, Settled, LateSuccess, Linked, RecordCaptured;
    if a in db.attempts && db.attempts[a].hasIntent {
      CaptureSettlesIff(db, a);
    }
  }

  /** A step keeps everything settled exactly when it is not a late success. */
  lemma StepSettlesIff(db: Db, op: Op)
    requires Inv(db) && Linked(db) && Settled(db)
    ensures Settled(Step(db, op)) <==> !LateStep(db, op)
  {
    hide Inv, Settled, LateSuccess, Linked, Webhook;
    match op
    case CapturedOp(a) =>
      hide Step;
      CapturedStepSettlesIff(db, a);
    case WebhookOp(event, n) =>
      WebhookSettlesIff(db, event, n);
    case _ =>
      hide Step;
      OtherStepsSettle(db, op);
  }

  // ------------------------------------------------------------ whole runs

  /** The payment a step reports as not captured, whoever reports it. */
  function FailureNoticeOf(op: Op): Option<AttemptId> {
    match op
    case NotCapturedOp(a, _) => Some(a)
    case WebhookOp(_, n) => if n.IntentCanceled? || n.IntentFailed? then Some(n.intent) else None
    case _ => None
  }

  function SuccessNoticeOf(op: Op): Option<AttemptId> {
    match op
    case CapturedOp(a) => Some(a)
    case WebhookOp(_, n) => if n.IntentSucceeded? then Some(n.intent) else None
    case _ => None
  }

  /** Stripe never reports success for a payment it already reported as not captured. */
  ghost predicate Consistent(ops: seq<Op>) {
    forall i, j | 0 <= i < j < |ops| && FailureNoticeOf(ops[i]).Some? :: SuccessNoticeOf(ops[j]) != FailureNoticeOf(ops[i])
  }

  predicate Uncaptured(st: PaymentStatus) {
    st == PayCanceled || st == PayFailed
  }

  /** Attempts keep what they charge, captured ones stay captured, and none becomes canceled or failed, except perhaps `a`. */
  ghost predicate AttemptsMove(attempts: map<AttemptId, Attempt>, attempts': map<AttemptId, Attempt>, a: Option<AttemptId>) {
    && (forall x :: x in attempts ==> x in attempts' && ChargeOf(attempts'[x]) == ChargeOf(attempts[x]))
    && (forall x :: x in attempts && attempts[x].status == PayCaptured ==> attempts'[x].status == PayCaptured)
    && (forall x :: x in attempts' && Uncaptured(attempts'[x].status) && Some(x) != a ==> x in attempts && Uncaptured(attempts[x].status))
  }

  lemma SameFails(attempts: map<AttemptId, Attempt>, a: Option<AttemptId>)
    ensures AttemptsMove(attempts, attempts, a)
  {
  }

  lemma OneFails(attempts: map<AttemptId, Attempt>, x: AttemptId, attempt: Attempt, a: Option<AttemptId>)
    requires x in attempts && ChargeOf(attempt) == ChargeOf(attempts[x])
    requires Uncaptured(attempt.status) ==> Uncaptured(attempts[x].status) || a == Some(x)
    requires attempts[x].status == PayCaptured ==> attempt.status == PayCaptured
    ensures AttemptsMove(attempts, attempts[x := attempt], a)
  {
    hide ChargeOf;
  }

  lemma PrepareFails(db: Db, sh: ShowId, tier: TierId, payer: UserId)
    requires db.nextId !in db.attempts
    ensures Prepare(db, sh, tier, payer).Ok? ==> AttemptsMove(db.attempts, Prepare(db, sh, tier, payer).value.attempts, None)
  {
    hide Fees.FeesFor, Fees.CreatorFeeBps;
  }

  lemma AttachFails(db: Db, a: AttemptId)
    ensures AttachIntent(db, a).Ok? ==> AttemptsMove(db.attempts, AttachIntent(db, a).value.attempts, None)
  {
    if a in db.attempts {
      hide AttemptsMove;
      OneFails(db.attempts, a, db.attempts[a].(hasIntent := true), None);
    }
  }

  lemma AuthorizeFails(db: Db, a: AttemptId)
    ensures AttemptsMove(db.attempts, MarkAuthorized(db, a).attempts, None)
  {
    hide AttemptsMove;
    SameFails(db.attempts, None);
    if a in db.attempts && db.attempts[a].status == PayCreated {
      OneFails(db.attempts, a, db.attempts[a].(status := PayAuthorized), None);
    }
  }

  lemma JoinFails(db: Db, sh: ShowId, viewer: UserId, tier: TierId, payment: Option<AttemptId>)
    ensures Join(db, sh, viewer, tier, payment).Ok? ==> AttemptsMove(db.attempts, Join(db, sh, viewer, tier, payment).value.attempts, None)
  {
    hide AttemptsMove, EntryFor, ChargeOf;
    SameFails(db.attempts, None);
    var r := Join(db, sh, viewer, tier, payment);
    if r.Ok? && r.value.attempts != db.attempts {
      HoldOnlyLinks(db.attempts[payment.value], r.value.attempts[payment.value].entry);
      OneFails(db.attempts, payment.value, r.value.attempts[payment.value], None);
    }
  }

  lemma HoldOnlyLinks(attempt: Attempt, entry: Option<EntryId>)
    ensures ChargeOf(attempt.(entry := entry)) == ChargeOf(attempt)
  {
  }

  lemma SelectFails(db: Db, sh: ShowId, creator: UserId, e: EntryId)
    ensures Select(db, sh, creator, e).Ok? ==> AttemptsMove(db.attempts, Select(db, sh, creator, e).value.attempts, None)
  {
    if Select(db, sh, creator, e).Ok? {
      SelectRows(db, sh, creator, e);
      hide Select;
    }
  }

  lemma CapturedFails(db: Db, a: AttemptId)
    requires Linked(db) && a in db.attempts
    ensures AttemptsMove(db.attempts, RecordCaptured(db, a).attempts, None)
  {
    hide RecordCaptured;
  }

  lemma NotCapturedFails(db: Db, a: AttemptId, status: PaymentStatus)
    requires Linked(db) && a in db.attempts
    ensures AttemptsMove(db.attempts, RecordNotCaptured(db, a, status).attempts, Some(a))
  {
    hide RecordNotCaptured;
  }

  lemma NoticeFails(db: Db, n: Notice)
    requires Linked(db)
    ensures AttemptsMove(db.attempts, ApplyNotice(db, n).attempts, FailureNoticeOf(WebhookOp(0, n)))
  {
    hide RecordCaptured, RecordNotCaptured, SettleRefund, AttemptsMove;
    assert AttemptsMove(db.attempts, db.attempts, FailureNoticeOf(WebhookOp(0, n))) by { SameFails(db.attempts, FailureNoticeOf(WebhookOp(0, n))); }
    match n
    case IntentSucceeded(i) => if i in db.attempts { CapturedFails(db, i); }
    case IntentCanceled(i) => if i in db.attempts { NotCapturedFails(db, i, PayCanceled); }
    case IntentFailed(i) => if i in db.attempts { NotCapturedFails(db, i, PayFailed); }
    case _ =>
  }

  lemma WebhookFails(db: Db, event: nat, n: Notice)
    requires Linked(db)
    ensures AttemptsMove(db.attempts, Webhook(db, event, n).attempts, FailureNoticeOf(WebhookOp(event, n)))
  {
    hide ApplyNotice, AttemptsMove;
    SameFails(db.attempts, FailureNoticeOf(WebhookOp(event, n)));
    if event !in db.events {
      NoticeFails(db.(events := db.events + {event}), n);
    }
  }

  /** Steps that may touch a payment attempt. */
  predicate TouchesAttempts(op: Op) {
    || op.PrepareOp? || op.AttachIntentOp? || op.AuthorizeOp? || op.JoinOp? || op.SelectOp? || op.CapturedOp?
    || op.NotCapturedOp? || op.WebhookOp?
  }

  lemma ShowsLeaveAttempts(db: Db, op: Op)
    requires Linked(db) && !TouchesAttempts(op) && ShowOrQueue(op)
    ensures Step(db, op).attempts == db.attempts
  {
    hide StartShow, EndShow, CloseQueueBatch, Leave, IsCloseBatch, Linked;
  }

  lemma CallsLeaveAttempts(db: Db, op: Op)
    requires Linked(db) && op.TransitionOp?
    ensures Step(db, op).attempts == db.attempts
  {
    hide Transition, Linked;
  }

  lemma JobsLeaveAttempts(db: Db, op: Op)
    requires Linked(db) && (op.ExpireOp? || op.CheckGraceOp?)
    ensures Step(db, op).attempts == db.attempts
  {
    if op.CheckGraceOp? {
      GraceFrame(db, op.due, op.seat, op.disconnectedAt);
    } else {
      ExpireFrame(db, op.due, op.call);
    }
    hide Linked, Expire, RunCheckGrace;
  }

  lemma SeatsLeaveAttempts(db: Db, op: Op)
    requires Linked(db) && (op.HeartbeatOp? || op.LeaveCallOp? || op.CheckSeenOp?)
    ensures Step(db, op).attempts == db.attempts
  {
    hide Heartbeat, LeaveCall, RunCheckSeen, Linked;
  }

  lemma WorkersLeaveAttempts(db: Db, op: Op)
    requires Linked(db) && (op.ClaimRefundOp? || op.RecordRefundOp? || op.RetryRefundOp? || op.ReserveOp?)
    ensures Step(db, op).attempts == db.attempts
  {
    hide ClaimRefund, RecordRefund, RetryRefund, L.Post, Linked;
  }

  lemma AttemptsAlone(db: Db, op: Op)
    requires Linked(db) && !TouchesAttempts(op)
    ensures Step(db, op).attempts == db.attempts
  {
    hide Step, Linked;
    if ShowOrQueue(op) {
      ShowsLeaveAttempts(db, op);
    } else if op.TransitionOp? {
      CallsLeaveAttempts(db, op);
    } else if op.ExpireOp? || op.CheckGraceOp? {
      JobsLeaveAttempts(db, op);
    } else if op.HeartbeatOp? || op.LeaveCallOp? || op.CheckSeenOp? {
      SeatsLeaveAttempts(db, op);
    } else {
      WorkersLeaveAttempts(db, op);
    }
  }

  lemma HoldStepFails(db: Db, op: Op)
    requires Linked(db) && db.nextId !in db.attempts && TouchesAttempts(op) && ShowOrQueue(op)
    ensures AttemptsMove(db.attempts, Step(db, op).attempts, FailureNoticeOf(op))
  {
    hide Prepare, AttachIntent, MarkAuthorized, Join, Select, Linked, AttemptsMove;
    SameFails(db.attempts, None);
    match op
    case PrepareOp(sh, tier, payer) => PrepareFails(db, sh, tier, payer);
    case AttachIntentOp(a) => AttachFails(db, a);
    case AuthorizeOp(a) => AuthorizeFails(db, a);
    case JoinOp(sh, viewer, tier, payment) => JoinFails(db, sh, viewer, tier, payment);
    case SelectOp(sh, creator, e) => SelectFails(db, sh, creator, e);
  }

  lemma NoticeStepFails(db: Db, op: Op)
    requires Linked(db) && (op.CapturedOp? || op.NotCapturedOp? || op.WebhookOp?)
    ensures AttemptsMove(db.attempts, Step(db, op).attempts, FailureNoticeOf(op))
  {
    hide RecordCaptured, RecordNotCaptured, Webhook, Linked, AttemptsMove;
    SameFails(db.attempts, FailureNoticeOf(op));
    match op
    case CapturedOp(a) => if a in db.attempts { CapturedFails(db, a); }
    case NotCapturedOp(a, canceled) => if a in db.attempts { NotCapturedFails(db, a, if canceled then PayCanceled else PayFailed); }
    case WebhookOp(event, n) => WebhookFails(db, event, n);
  }

  /** Only a notice makes a payment canceled or failed. */
  lemma FailuresAreReported(db: Db, op: Op)
    requires Linked(db) && db.nextId !in db.attempts
    ensures AttemptsMove(db.attempts, Step(db, op).attempts, FailureNoticeOf(op))
  {
    hide Step, Linked, AttemptsMove;
    if !TouchesAttempts(op) {
      AttemptsAlone(db, op);
      SameFails(db.attempts, FailureNoticeOf(op));
    } else if ShowOrQueue(op) {
      HoldStepFails(db, op);
    } else {
      NoticeStepFails(db, op);
    }
  }

  /** The payments reported as not captured so far. */
  ghost predicate FailuresWithin(db: Db, failed: set<AttemptId>) {
    forall a :: a in db.attempts && Uncaptured(db.attempts[a].status) ==> a in failed
  }

  /** A late success is a success for a payment already canceled or failed. */
  lemma LateIsContradiction(db: Db, op: Op)
    requires LinksInv(db) && CouplingInv(db) && LateStep(db, op)
    ensures var a := SuccessNoticeFor(db, op).value;
      a in db.attempts && Uncaptured(db.attempts[a].status) && SuccessNoticeOf(op) == Some(a)
  {
    var a := SuccessNoticeFor(db, op).value;
    var c :| c in db.calls && db.calls[c].attempt == Some(a) && Finished(db.calls[c].status);
    SettlementFacts(db, c);
    hide LinksInv, CouplingInv;
  }

  function FailedSoFar(failed: set<AttemptId>, op: Op): set<AttemptId> {
    if FailureNoticeOf(op).Some? then failed + {FailureNoticeOf(op).value} else failed
  }

  /** Success is only late after a failure. */
  lemma NeverLate(db: Db, op: Op, failed: set<AttemptId>)
    requires Inv(db) && FailuresWithin(db, failed)
    requires SuccessNoticeOf(op).Some? ==> SuccessNoticeOf(op).value !in failed
    ensures !LateStep(db, op)
  {
    hide LinksInv, CouplingInv, MoneyInv, PresenceInv, LateStep;
    if LateStep(db, op) {
      LateIsContradiction(db, op);
      assert false;
    }
  }

  lemma StepSettles(db: Db, op: Op, failed: set<AttemptId>)
    requires Inv(db) && Settled(db) && FailuresWithin(db, failed)
    requires SuccessNoticeOf(op).Some? ==> SuccessNoticeOf(op).value !in failed
    ensures Settled(Next(db, op)) && FailuresWithin(Next(db, op), FailedSoFar(failed, op))
  {
    hide LinksInv, CouplingInv, MoneyInv, PresenceInv, Settled, Step, LateStep;
    NextKeeps(db, op);
    hide Linked, Next;
    NeverLate(db, op, failed);
    StepSettlesIff(db, op);
    IdsKnown(db);
    FailuresAreReported(db, op);
  }

  lemma ConsistentTail(ops: seq<Op>, failed: set<AttemptId>)
    requires Consistent(ops) && ops != []
    requires forall op :: op in ops && SuccessNoticeOf(op).Some? ==> SuccessNoticeOf(op).value !in failed
    ensures Consistent(ops[1..])
    ensures forall op :: op in ops[1..] && SuccessNoticeOf(op).Some? ==> SuccessNoticeOf(op).value !in FailedSoFar(failed, ops[0])
  {
    forall op | op in ops[1..] && SuccessNoticeOf(op).Some? ensures SuccessNoticeOf(op).value !in FailedSoFar(failed, ops[0]) {
      var j :| 1 <= j < |ops| && ops[j] == op;
      assert FailureNoticeOf(ops[0]).Some? ==> SuccessNoticeOf(ops[j]) != FailureNoticeOf(ops[0]);
    }
  }

  lemma {:induction false} RunSettles(db: Db, ops: seq<Op>, failed: set<AttemptId>)
    requires Inv(db) && Settled(db) && FailuresWithin(db, failed)
    requires Consistent(ops)
    requires forall op :: op in ops && SuccessNoticeOf(op).Some? ==> SuccessNoticeOf(op).value !in failed
    ensures Settled(Run(db, ops))
    decreases |ops|
  {
    hide LinksInv, CouplingInv, MoneyInv, PresenceInv, Settled, Next, FailuresWithin, Consistent, FailedSoFar;
    if ops != [] {
      StepSettles(db, ops[0], failed);
      NextKeeps(db, ops[0]);
      ConsistentTail(ops, failed);
      RunSettles(Next(db, ops[0]), ops[1..], FailedSoFar(failed, ops[0]));
    }
  }

  /** A finished paid call whose payment was captured has exactly one of the two: an earning if it went live, else a refund. */
  ghost predicate FullySettled(db: Db) {
    forall c | c in db.calls && Finished(db.calls[c].status) && db.calls[c].attempt.Some?
               && db.calls[c].attempt.value in db.attempts && db.attempts[db.calls[c].attempt.value].status == PayCaptured ::
      var a := db.calls[c].attempt.value;
      if db.calls[c].startedAt.Some? then L.EarningFor(db.ledger.entries, a).Some?
      else L.EarningFor(db.ledger.entries, a).None? && a in RefundedAttempts(db.refunds)
  }

  lemma FullySettledOfInv(db: Db)
    requires MoneyInv(db) && Settled(db)
    ensures FullySettled(db)
  {
    forall a ensures L.EarningFor(db.ledger.entries, a).Some? <==> L.EarningKey(a) in L.Keys(db.ledger) {
      L.EarningByKey(db.ledger, a);
    }
    hide L.Valid, L.EarningFor, L.Keys, RefundedAttempts, RefundsOk, WorkerOk;
    forall c | c in db.calls ensures CallSettled(db.calls[c], db.attempts, RefundedAttempts(db.refunds)) {
    }
  }

  /** With consistent Stripe outcomes every reachable state is fully settled. */
  lemma SettlementComplete(start: Db, ops: seq<Op>)
    requires Initial(start) && Consistent(ops)
    ensures FullySettled(Run(start, ops))
  {
    InitialInv(start);
    assert Settled(start) && FailuresWithin(start, {});
    hide LinksInv, CouplingInv, MoneyInv, PresenceInv, Initial, Run, Settled, FullySettled;
    RunSettles(start, ops, {});
    Reachable(start, ops);
    FullySettledOfInv(Run(start, ops));
  }

  /** No step of the run is a late success. */
  ghost predicate NoLateSuccess(db: Db, ops: seq<Op>)
    decreases |ops|
  {
    ops == [] || (!LateStep(db, ops[0]) && NoLateSuccess(Next(db, ops[0]), ops[1..]))
  }

  /** Everything is settled all along the run. */
  ghost predicate AlwaysSettled(db: Db, ops: seq<Op>)
    decreases |ops|
  {
    Settled(db) && (ops == [] || AlwaysSettled(Next(db, ops[0]), ops[1..]))
  }

  /** The exact condition: a run is settled all along if and only if no step of it is a late success. */
  lemma {:induction false} AlwaysSettledIff(db: Db, ops: seq<Op>)
    requires Inv(db) && Settled(db)
    ensures AlwaysSettled(db, ops) <==> NoLateSuccess(db, ops)
    decreases |ops|
  {
    hide LinksInv, CouplingInv, MoneyInv, PresenceInv, Settled, Step, LateStep;
    if ops != [] {
      NextKeeps(db, ops[0]);
      hide Linked, Next;
      StepSettlesIff(db, ops[0]);
      if !LateStep(db, ops[0]) {
        AlwaysSettledIff(Next(db, ops[0]), ops[1..]);
      } else {
        NotSettledYet(Next(db, ops[0]), ops[1..]);
      }
    }
  }

  lemma NotSettledYet(db: Db, ops: seq<Op>)
    requires !Settled(db)
    ensures !AlwaysSettled(db, ops)
  {
    hide Settled, Next;
  }

  // ------------------------------------------------------------ repeated notices

  /** In a settled state, recording an already recorded capture changes nothing at all. */
  lemma CapturedTwice(db: Db, a: AttemptId)
    requires Inv(db) && Linked(db) && Settled(db)
    requires a in db.attempts && db.attempts[a].status == PayCaptured
    ensures RecordCaptured(db, a) == db
  {
    hide LinksInv, CouplingInv, MoneyInv, PresenceInv;
    assert db.attempts[a := db.attempts[a].(status := PayCaptured)] == db.attempts;
    var found := CallFor(db.calls, a);
    if found.Some? {
      var c := found.value;
      SettlementFacts(db, c);
      assert CallSettled(db.calls[c], db.attempts, RefundedAttempts(db.refunds));
      hide RefundedAttempts, CallsSettled, Linked;
    }
  }

  /**
   Once a capture has been recorded, recording it again from the capture action
   in any later state, whatever happened to the call and the show, is a no-op;
   a webhook carrying it only notes its own event.
   */
  lemma DuplicateCaptureIsNoOp(start: Db, ops: seq<Op>, a: AttemptId, event: nat)
    requires Initial(start) && Consistent(ops)
    requires var db := Run(start, ops); a in db.attempts && db.attempts[a].status == PayCaptured
    ensures var db := Run(start, ops);
      && Next(db, CapturedOp(a)) == db
      && Next(db, WebhookOp(event, IntentSucceeded(a))) == db.(events := db.events + {event})
  {
    InitialInv(start);
    assert Settled(start) && FailuresWithin(start, {});
    hide LinksInv, CouplingInv, MoneyInv, PresenceInv, Initial, Run;
    RunSettles(start, ops, {});
    Reachable(start, ops);
    var db := Run(start, ops);
    RepeatIsNoOp(db, a, event);
  }

  lemma RepeatIsNoOp(db: Db, a: AttemptId, event: nat)
    requires Inv(db) && Settled(db)
    requires a in db.attempts && db.attempts[a].status == PayCaptured
    ensures Next(db, CapturedOp(a)) == db
    ensures Next(db, WebhookOp(event, IntentSucceeded(a))) == db.(events := db.events + {event})
  {
    hide LinksInv, CouplingInv, MoneyInv, PresenceInv, RecordCaptured, Webhook, CallsSettled;
    InvLinked(db);
    CapturedTwice(db, a);
    RepeatedWebhook(db, a, event);
    hide Linked;
  }

  lemma RepeatedWebhook(db: Db, a: AttemptId, event: nat)
    requires Inv(db) && Linked(db) && Settled(db)
    requires a in db.attempts && db.attempts[a].status == PayCaptured
    ensures Webhook(db, event, IntentSucceeded(a)) == db.(events := db.events + {event})
  {
    hide LinksInv, CouplingInv, MoneyInv, PresenceInv, RecordCaptured, CallsSettled;
    if event in db.events {
      assert db.events + {event} == db.events;
    } else {
      var noted := db.(events := db.events + {event});
      EventsKeep(db, noted.events);
      InvLinked(noted);
      CapturedTwice(noted, a);
    }
    hide Linked;
  }
}
