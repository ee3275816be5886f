/** The refund worker, the webhook and outside ledger postings keep the invariant. */
module RefundPreservation {
  import opened Common
  import opened Tables
  import opened Steps
  import opened Invariants
  import opened Frames
  import opened Preservation
  import L = Ledger

  // ------------------------------------------------------------ one refund row

  /** A refund keeps what it refunds while the worker moves it. */
  predicate SameRefund(refund: Refund, refund': Refund) {
    refund'.attempt == refund.attempt && refund'.call == refund.call && refund'.own == refund.own
    && refund'.amountCents == refund.amountCents
  }

  ghost predicate SameEarnings(keys: set<L.Key>, keys': set<L.Key>) {
    forall a: AttemptId :: L.EarningKey(a) in keys' <==> L.EarningKey(a) in keys
  }

  lemma RefundRowMoney(db: Db, db': Db, r: RefundId, refund': Refund)
    requires MoneyInv(db)
    requires r in db.refunds && SameRefund(db.refunds[r], refund')
    requires refund'.attempts <= MAX_REFUND_ATTEMPTS && refund'.nextAttemptAt <= db.now + REFUND_LEASE_MS
    requires db'.refunds == db.refunds[r := refund'] && db'.calls == db.calls && db'.attempts == db.attempts && db'.now == db.now
    requires L.Valid(db'.ledger) && SameEarnings(L.Keys(db.ledger), L.Keys(db'.ledger))
    ensures MoneyInv(db')
  {
    hide L.Valid, L.Keys;
  }

  lemma RefundRowKeeps(db: Db, db': Db, r: RefundId, refund': Refund)
    requires Inv(db)
    requires r in db.refunds && SameRefund(db.refunds[r], refund')
    requires refund'.attempts <= MAX_REFUND_ATTEMPTS && refund'.nextAttemptAt <= db.now + REFUND_LEASE_MS
    requires db' == db.(refunds := db.refunds[r := refund'], ledger := db'.ledger, jobs := db'.jobs)
    requires L.Valid(db'.ledger) && SameEarnings(L.Keys(db.ledger), L.Keys(db'.ledger))
    requires db.jobs <= db'.jobs && ClosesEndedShows(db'.jobs, db.shows)
    ensures Inv(db')
  {
    hide LinksInv, CouplingInv, MoneyInv, PresenceInv, L.Valid, L.Keys, SameEarnings, ClosesEndedShows;
    assert db'.refunds.Keys == db.refunds.Keys;
    LinksSame(db, db');
    CouplingSame(db, db');
    RefundRowMoney(db, db', r, refund');
    PresenceSame(db, db');
  }

  lemma RowKnown(db: Db, r: RefundId)
    requires LinksInv(db) && CouplingInv(db) && MoneyInv(db) && r in db.refunds
    ensures db.refunds[r].attempts <= MAX_REFUND_ATTEMPTS && db.refunds[r].nextAttemptAt <= db.now + REFUND_LEASE_MS
    ensures db.refunds[r].attempt in db.attempts && db.attempts[db.refunds[r].attempt].amountCents > 0
    ensures L.Valid(db.ledger) && ClosesEndedShows(db.jobs, db.shows)
    ensures SameEarnings(L.Keys(db.ledger), L.Keys(db.ledger))
  {
    hide L.Valid;
  }

  lemma ClaimKeeps(db: Db, r: RefundId)
    requires Inv(db)
    ensures Inv(ClaimRefund(db, r))
  {
    hide LinksInv, CouplingInv, MoneyInv, PresenceInv;
    if ClaimRefund(db, r) != db {
      RowKnown(db, r);
      hide L.Valid, L.Keys, SameEarnings, ClosesEndedShows;
      RefundRowKeeps(db, ClaimRefund(db, r), r, ClaimRefund(db, r).refunds[r]);
    }
  }

  /** Reversing a refund posts under the refund's own key. */
  lemma ReverseKeeps(db: Db, r: RefundId)
    requires L.Valid(db.ledger)
    requires r in db.refunds && db.refunds[r].attempt in db.attempts && db.attempts[db.refunds[r].attempt].amountCents > 0
    ensures L.Valid(Reverse(db, r))
    ensures SameEarnings(L.Keys(db.ledger), L.Keys(Reverse(db, r)))
  {
    hide L.Valid, L.ReverseForRefund;
    var refund := db.refunds[r];
    L.ReversalIsOnePost(db.ledger, r, L.Refunding(refund.attempt, refund.amountCents), db.attempts[refund.attempt].amountCents, db.now);
    if Reverse(db, r) != db.ledger {
      var e :| L.WellKeyed(e) && e.key == L.RefundKey(r) && Reverse(db, r) == L.Post(db.ledger, e);
      hide L.Post, L.Keys;
      L.PostKeepsValid(db.ledger, e);
    }
  }

  lemma RecordKeeps(db: Db, r: RefundId, stripeId: nat, outcome: RefundStatus)
    requires Inv(db) && Linked(db)
    requires outcome == Succeeded || outcome == RefundFailed || outcome == Pending
    ensures Inv(RecordRefund(db, r, stripeId, outcome))
  {
    hide LinksInv, CouplingInv, MoneyInv, PresenceInv, L.Valid, L.Keys, SameEarnings, ClosesEndedShows, Reverse;
    var db' := RecordRefund(db, r, stripeId, outcome);
    if r in db.refunds && !FinalRefund(db.refunds[r].status) {
      RowKnown(db, r);
      ReverseKeeps(db, r);
      ClosesMore(db.jobs, RunRefund(db.now + PENDING_RECHECK_MS, r), db.shows);
      RefundRowKeeps(db, db', r, db'.refunds[r]);
    }
  }

  lemma Pow2Monotone(n: nat, m: nat)
    requires n <= m
    ensures Pow2(n) <= Pow2(m)
  {
    if n < m {
      Pow2Monotone(n, m - 1);
    }
  }

  /** The back-off never exceeds the lease. */
  lemma RetryDelayBound(attempts: nat)
    ensures RetryDelay(attempts) <= 256_000
  {
    Pow2Monotone(if attempts < 8 then attempts else 8, 8);
    assert Pow2(8) == 256;
  }

  lemma RetriedRowBounds(refund: Refund, now: Millis)
    requires refund.nextAttemptAt <= now + REFUND_LEASE_MS
    ensures SameRefund(refund, RetriedRow(refund, now)) && RetriedRow(refund, now).attempts == refund.attempts
    ensures RetriedRow(refund, now).nextAttemptAt <= now + REFUND_LEASE_MS
  {
    RetryDelayBound(refund.attempts);
    hide RetryDelay;
  }

  lemma RetryKeeps(db: Db, r: RefundId)
    requires Inv(db)
    ensures Inv(RetryRefund(db, r))
  {
    hide LinksInv, CouplingInv, MoneyInv, PresenceInv, L.Valid, L.Keys, SameEarnings, ClosesEndedShows, RetriedRow, RetryDelay;
    var db' := RetryRefund(db, r);
    if r in db.refunds && db.refunds[r].status == Processing {
      RowKnown(db, r);
      RetriedRowBounds(db.refunds[r], db.now);
      ClosesMore(db.jobs, RunRefund(db.now + RetryDelay(db.refunds[r].attempts), r), db.shows);
      RefundRowKeeps(db, db', r, db'.refunds[r]);
    }
  }

  // ------------------------------------------------------------ ledger

  lemma LedgerMoney(db: Db, ledger': L.Ledger)
    requires MoneyInv(db) && L.Valid(ledger') && SameEarnings(L.Keys(db.ledger), L.Keys(ledger'))
    ensures MoneyInv(db.(ledger := ledger'))
  {
    hide L.Valid, L.Keys;
  }

  /** Posting anything but an earning. */
  lemma LedgerKeeps(db: Db, db': Db)
    requires Inv(db)
    requires db' == db.(ledger := db'.ledger, disputes := db'.disputes)
    requires L.Valid(db'.ledger) && SameEarnings(L.Keys(db.ledger), L.Keys(db'.ledger))
    ensures Inv(db')
  {
    hide LinksInv, CouplingInv, MoneyInv, PresenceInv, L.Valid, L.Keys, SameEarnings;
    LinksSame(db, db');
    ClosesKnown(db);
    CouplingSame(db, db');
    LedgerMoney(db, db'.ledger);
    MoneySame(db.(ledger := db'.ledger), db');
    PresenceSame(db, db');
  }

  lemma PostOtherKeeps(l: L.Ledger, e: L.Entry)
    requires L.Valid(l) && (e.amountCents == 0 || L.WellKeyed(e)) && !e.key.EarningKey?
    ensures L.Valid(L.Post(l, e)) && SameEarnings(L.Keys(l), L.Keys(L.Post(l, e)))
  {
    hide L.Valid, L.Keys, L.Post;
    L.PostKeepsValid(l, e);
  }

  lemma DisputeKeeps(l: L.Ledger, d: DisputeId, a: Option<AttemptId>, s: L.DisputeStatus, now: int)
    requires L.Valid(l)
    ensures L.Valid(L.AdjustForDispute(l, d, a, s, now))
    ensures SameEarnings(L.Keys(l), L.Keys(L.AdjustForDispute(l, d, a, s, now)))
  {
    hide L.Valid, L.AdjustForDispute;
    L.DisputeIsOnePost(l, d, a, s, now);
    var l' := L.AdjustForDispute(l, d, a, s, now);
    if l' != l {
      var e :| L.WellKeyed(e) && (e.key == L.DebitKey(d) || e.key == L.ReleaseKey(d)) && l' == L.Post(l, e);
      PostOtherKeeps(l, e);
    }
  }

  // ------------------------------------------------------------ webhooks.ts

  lemma EventsKeep(db: Db, events: set<nat>)
    requires Inv(db)
    ensures Inv(db.(events := events))
  {
    hide LinksInv, CouplingInv, MoneyInv, PresenceInv;
    var db' := db.(events := events);
    LinksSame(db, db');
    ClosesKnown(db);
    CouplingSame(db, db');
    MoneySame(db, db');
    PresenceSame(db, db');
  }

  lemma SettleKeeps(db: Db, r: RefundId, stripeId: nat, outcome: RefundStatus)
    requires Inv(db) && L.Valid(db.ledger)
    requires r in db.refunds && db.refunds[r].attempt in db.attempts && db.attempts[db.refunds[r].attempt].amountCents > 0
    requires outcome == Succeeded || outcome == RefundFailed || outcome == Pending
    ensures Inv(SettleRefund(db, r, stripeId, outcome))
  {
    hide LinksInv, CouplingInv, MoneyInv, PresenceInv;
    var db' := SettleRefund(db, r, stripeId, outcome);
    if db' != db {
      RowKnown(db, r);
      ReverseKeeps(db, r);
      hide L.Valid, L.Keys, SameEarnings, ClosesEndedShows, Reverse;
      RefundRowKeeps(db, db', r, db'.refunds[r]);
    }
  }

  lemma AdoptKeeps(db: Db, stripeId: nat, intent: Option<AttemptId>, amount: Option<nat>)
    requires Inv(db)
    ensures var d := AdoptRefund(db, stripeId, intent, amount);
      d.Some? ==> Inv(d.value) && d.value.attempts == db.attempts && d.value.ledger == db.ledger
  {
    hide LinksInv, CouplingInv, MoneyInv, PresenceInv;
    var d := AdoptRefund(db, stripeId, intent, amount);
    if d.Some? {
      var db' := d.value;
      IdsKnown(db);
      ClosesKnown(db);
      hide IdsBelow, ClosesEndedShows;
      assert db'.refunds.Keys == db.refunds.Keys + {db.nextId};
      LinksSame(db, db');
      CouplingSame(db, db');
      NewRefundMoney(db, db', db'.refunds[db.nextId]);
      PresenceSame(db, db');
    }
  }

  /** The outcomes a Stripe refund status is read as. */
  predicate NoticeOk(n: Notice) {
    n.RefundNotice? ==> n.outcome == Succeeded || n.outcome == RefundFailed || n.outcome == Pending
  }

  lemma NoticeKeeps(db: Db, n: Notice)
    requires Inv(db) && Linked(db) && NoticeOk(n)
    ensures Inv(ApplyNotice(db, n))
  {
    hide LinksInv, CouplingInv, MoneyInv, PresenceInv, RecordCaptured, RecordNotCaptured, SettleRefund, AdoptRefund, L.AdjustForDispute;
    match n
    case IntentSucceeded(i) =>
      if AttemptForIntent(db.attempts, Some(i)).Some? {
        RecordCapturedKeeps(db, i);
      }
    case IntentCanceled(i) =>
      if AttemptForIntent(db.attempts, Some(i)).Some? {
        RecordNotCapturedKeeps(db, i, PayCanceled);
      }
    case IntentFailed(i) =>
      if AttemptForIntent(db.attempts, Some(i)).Some? {
        RecordNotCapturedKeeps(db, i, PayFailed);
      }
    case RefundNotice(sid, intent, outcome, amount) =>
      var found := RefundFor(db.refunds, sid, intent);
      if found.Some? {
        SettleKeeps(db, found.value, sid, outcome);
      } else {
        AdoptKeeps(db, sid, intent, amount);
        var adopted := AdoptRefund(db, sid, intent, amount);
        if adopted.Some? {
          SettleKeeps(adopted.value, db.nextId, sid, outcome);
        }
      }
    case DisputeNotice(d, intent, status) =>
      DisputeKeeps(db.ledger, d, DisputedAttempt(db, d, intent), status, db.now);
      hide L.Valid, L.Keys, SameEarnings;
      LedgerKeeps(db, ApplyNotice(db, n));
  }

  lemma WebhookKeeps(db: Db, event: nat, n: Notice)
    requires Inv(db) && Linked(db) && NoticeOk(n)
    ensures Inv(Webhook(db, event, n))
  {
    hide LinksInv, CouplingInv, MoneyInv, PresenceInv, ApplyNotice;
    if event !in db.events {
      EventsKeep(db, db.events + {event});
      NoticeKeeps(db.(events := db.events + {event}), n);
    }
  }
}
