/** How the invariant's parts survive a change to one row, table by table. */
module Frames {
  import opened Common
  import opened Tables
  import opened Steps
  import opened Invariants
  import L = Ledger

  // ------------------------------------------------------------ links

  /** The parts of an entry that links rest on. */
  ghost predicate SameEntries(entries: map<EntryId, Entry>, entries': map<EntryId, Entry>) {
    && entries'.Keys == entries.Keys
    && (forall e :: e in entries ==> entries'[e] == entries[e].(status := entries'[e].status))
  }

  ghost predicate SameCalls(calls: map<CallId, Call>, calls': map<CallId, Call>) {
    && calls'.Keys == calls.Keys
    && (forall c :: c in calls ==> calls'[c].show == calls[c].show && calls'[c].entry == calls[c].entry
                                   && calls'[c].attempt == calls[c].attempt)
  }

  /** Statuses move, and a move past CREATED needs an intent. */
  ghost predicate SameAttempts(attempts: map<AttemptId, Attempt>, attempts': map<AttemptId, Attempt>) {
    && attempts'.Keys == attempts.Keys
    && (forall a :: a in attempts ==> attempts'[a] == attempts[a].(status := attempts'[a].status))
    && (forall a :: a in attempts && attempts'[a].status != PayCreated ==> attempts[a].hasIntent)
  }

  lemma LinksFrame(db: Db, db': Db)
    requires LinksInv(db)
    requires SameEntries(db.entries, db'.entries) && SameCalls(db.calls, db'.calls) && SameAttempts(db.attempts, db'.attempts)
    requires db'.shows.Keys == db.shows.Keys && db'.tiers == db.tiers && db'.feeRates == db.feeRates
    requires db.nextId == db'.nextId && db'.refunds == db.refunds
    ensures LinksInv(db')
  {
    assert EntriesOk(db'.entries, db'.attempts, db'.shows) by {
      assert forall e :: e in db'.entries ==> db'.entries[e].show == db.entries[e].show;
    }
  }

  // ------------------------------------------------------------ untouched groups

  lemma LinksSame(db: Db, db': Db)
    requires LinksInv(db)
    requires db'.calls == db.calls && db'.entries == db.entries && db'.attempts == db.attempts && db'.shows == db.shows
    requires db'.tiers == db.tiers && db'.feeRates == db.feeRates
    requires (db'.nextId == db.nextId && db'.refunds.Keys == db.refunds.Keys)
          || (db'.nextId == db.nextId + 1 && db'.refunds.Keys == db.refunds.Keys + {db.nextId})
    ensures LinksInv(db')
  {
    assert IdsBelow(db'.nextId, db'.shows, db'.entries, db'.attempts, db'.calls, db'.refunds) by {
      assert forall r :: r in db'.refunds ==> r in db.refunds || r == db.nextId;
    }
  }

  lemma CouplingSame(db: Db, db': Db)
    requires CouplingInv(db)
    requires db'.calls == db.calls && db'.entries == db.entries && db'.attempts == db.attempts && db'.shows == db.shows
    requires ClosesEndedShows(db'.jobs, db.shows)
    ensures CouplingInv(db')
  {
  }

  lemma MoneySame(db: Db, db': Db)
    requires MoneyInv(db)
    requires db'.calls == db.calls && db'.attempts == db.attempts && db'.refunds == db.refunds && db'.ledger == db.ledger
    requires db.now <= db'.now
    ensures MoneyInv(db')
  {
  }

  lemma PresenceSame(db: Db, db': Db)
    requires PresenceInv(db)
    requires db'.presence == db.presence && db.now <= db'.now
    requires db.jobs <= db'.jobs
    requires forall c :: c in db.calls && Connectable(db.calls[c].status) ==> c in db'.calls && Connectable(db'.calls[c].status)
    ensures PresenceInv(db')
  {
  }

  lemma ClosesMore(jobs: multiset<Job>, job: Job, shows: map<ShowId, Show>)
    requires ClosesEndedShows(jobs, shows)
    requires job.CloseQueue? ==> job.show in shows && shows[job.show].status == ShowEnded
    ensures ClosesEndedShows(jobs + multiset{job}, shows)
  {
  }

  /** Scheduling more work never disturbs the invariant, unless it closes a queue too early. */
  lemma ScheduleKeeps(db: Db, job: Job)
    requires Inv(db)
    requires job.CloseQueue? ==> job.show in db.shows && db.shows[job.show].status == ShowEnded
    ensures Inv(db.(jobs := db.jobs + multiset{job}))
  {
    var db' := db.(jobs := db.jobs + multiset{job});
    ClosesMore(db.jobs, job, db.shows);
    LinksSame(db, db');
    CouplingSame(db, db');
    MoneySame(db, db');
    PresenceSame(db, db');
  }

  // ------------------------------------------------------------ one call moves

  predicate SameCallLinks(call: Call, call': Call) {
    call'.show == call.show && call'.entry == call.entry && call'.attempt == call.attempt
  }

  lemma PatchOneActive(calls: map<CallId, Call>, c: CallId, call': Call)
    requires OneActiveCall(calls) && c in calls && call'.show == calls[c].show
    requires Active(call'.status) ==> Active(calls[c].status)
    ensures OneActiveCall(calls[c := call'])
  {
  }

  lemma PatchPaid(calls: map<CallId, Call>, attempts: map<AttemptId, Attempt>, attempts': map<AttemptId, Attempt>, c: CallId, call': Call)
    requires PaidCallsOk(calls, attempts) && OneCallPerAttempt(calls)
    requires c in calls && SameCallLinks(calls[c], call')
    requires attempts'.Keys == attempts.Keys
    requires forall a :: a in attempts && call'.attempt != Some(a) ==> attempts'[a] == attempts[a]
    requires call'.attempt.Some? ==> call'.attempt.value in attempts && PaymentAllows(call', attempts'[call'.attempt.value].status)
    ensures PaidCallsOk(calls[c := call'], attempts')
    ensures OneCallPerAttempt(calls[c := call'])
  {
  }

  lemma PatchMirror(calls: map<CallId, Call>, entries: map<EntryId, Entry>, shows: map<ShowId, Show>,
                    attempts: map<AttemptId, Attempt>, c: CallId, call': Call, entry': Entry)
    requires EntriesMirrorCalls(calls, entries, shows) && OneActiveCall(calls) && CallsLinked(calls, entries, attempts, shows)
    requires c in calls && SameCallLinks(calls[c], call') && Active(calls[c].status)
    requires entry'.show == entries[call'.entry].show
    requires IsLive(shows, call'.show) && Active(call'.status) ==> entry'.status == EntryStatusFor(call'.status)
    requires IsLive(shows, call'.show) && InCall(entry'.status) ==> Active(call'.status)
    ensures EntriesMirrorCalls(calls[c := call'], entries[call'.entry := entry'], shows)
  {
    var e := call'.entry;
    var calls', entries' := calls[c := call'], entries[e := entry'];
    forall d | d in calls' && Active(calls'[d].status) && IsLive(shows, calls'[d].show) && calls'[d].entry in entries'
      ensures entries'[calls'[d].entry].status == EntryStatusFor(calls'[d].status)
    {
      if d != c {
        assert calls'[d] == calls[d];
        assert calls[d].entry != e;
      }
    }
    forall x | x in entries' && InCall(entries'[x].status) && IsLive(shows, entries'[x].show)
      ensures HasActiveCall(calls', x)
    {
      if x == e {
        assert calls'[c] == call';
      } else {
        assert HasActiveCall(calls, x);
        var d :| d in calls && calls[d].entry == x && Active(calls[d].status);
        assert calls'[d] == calls[d];
      }
    }
  }

  lemma PatchEarnings(calls: map<CallId, Call>, attempts: map<AttemptId, Attempt>, attempts': map<AttemptId, Attempt>,
                      keys: set<L.Key>, keys': set<L.Key>, c: CallId, call': Call)
    requires EarningsFollowCalls(calls, attempts, keys) && OneCallPerAttempt(calls)
    requires c in calls && SameCallLinks(calls[c], call')
    requires attempts'.Keys == attempts.Keys
    requires forall a :: a in attempts && call'.attempt != Some(a) ==> attempts'[a] == attempts[a]
    requires forall a: AttemptId :: call'.attempt != Some(a) ==> (L.EarningKey(a) in keys' <==> L.EarningKey(a) in keys)
    requires call'.attempt.Some? ==>
      && call'.attempt.value in attempts
      && (call'.startedAt.Some? <==> L.EarningKey(call'.attempt.value) in keys')
      && (L.EarningKey(call'.attempt.value) in keys' ==> attempts'[call'.attempt.value].status == PayCaptured)
    ensures EarningsFollowCalls(calls[c := call'], attempts', keys')
  {
  }

  lemma PatchRefunds(refunds: map<RefundId, Refund>, calls: map<CallId, Call>, attempts: map<AttemptId, Attempt>,
                     attempts': map<AttemptId, Attempt>, c: CallId, call': Call)
    requires RefundsOk(refunds, calls, attempts)
    requires c in calls && SameCallLinks(calls[c], call') && !Finished(calls[c].status)
    requires attempts'.Keys == attempts.Keys
    ensures RefundsOk(refunds, calls[c := call'], attempts')
  {
  }

  lemma PatchOpenCalls(calls: map<CallId, Call>, shows: map<ShowId, Show>, c: CallId, call': Call)
    requires OpenCallsInLiveShows(calls, shows) && CallsClocked(calls)
    requires c in calls && call'.show == calls[c].show && Clocked(call')
    requires Connectable(call'.status) ==> IsLive(shows, call'.show)
    ensures OpenCallsInLiveShows(calls[c := call'], shows)
    ensures CallsClocked(calls[c := call'])
  {
  }

  /** The new database when an active call moves together with its entry and its payment. */
  function Moved(db: Db, c: CallId, call': Call, entry': Entry, attempts': map<AttemptId, Attempt>, ledger': L.Ledger,
                 presence': map<Seat, Presence>, jobs': multiset<Job>): Db
  {
    db.(calls := db.calls[c := call'], entries := db.entries[call'.entry := entry'], attempts := attempts',
        ledger := ledger', presence := presence', jobs := jobs')
  }

  /** What a move must respect to keep the invariant. */
  ghost predicate GoodMove(db: Db, c: CallId, call': Call, entry': Entry, attempts': map<AttemptId, Attempt>, ledger': L.Ledger,
                           jobs': multiset<Job>)
  {
    && c in db.calls && Active(db.calls[c].status) && SameCallLinks(db.calls[c], call') && Clocked(call')
    && call'.entry in db.entries && entry' == db.entries[call'.entry].(status := entry'.status)
    && SameAttempts(db.attempts, attempts')
    && (forall a :: a in db.attempts && call'.attempt != Some(a) ==> attempts'[a] == db.attempts[a])
    && (call'.attempt.Some? ==> call'.attempt.value in db.attempts
                                && PaymentAllows(call', attempts'[call'.attempt.value].status))
    && (Connectable(call'.status) ==> IsLive(db.shows, call'.show))
    && (IsLive(db.shows, call'.show) && Active(call'.status) ==> entry'.status == EntryStatusFor(call'.status))
    && (IsLive(db.shows, call'.show) && InCall(entry'.status) ==> Active(call'.status))
    && L.Valid(ledger')
    && (forall a: AttemptId :: call'.attempt != Some(a) ==> (L.EarningKey(a) in L.Keys(ledger') <==> L.EarningKey(a) in L.Keys(db.ledger)))
    && (call'.attempt.Some? ==> (call'.startedAt.Some? <==> L.EarningKey(call'.attempt.value) in L.Keys(ledger')))
    && ClosesEndedShows(jobs', db.shows)
  }

  lemma MoveKeepsLinks(db: Db, c: CallId, call': Call, entry': Entry, attempts': map<AttemptId, Attempt>, ledger': L.Ledger,
                       presence': map<Seat, Presence>, jobs': multiset<Job>)
    requires LinksInv(db)
    requires GoodMove(db, c, call', entry', attempts', ledger', jobs')
    ensures LinksInv(Moved(db, c, call', entry', attempts', ledger', presence', jobs'))
  {
    hide L.Valid, L.Keys, LinksInv;
    LinksFrame(db, Moved(db, c, call', entry', attempts', ledger', presence', jobs'));
  }

  lemma MoveKeepsQueued(db: Db, c: CallId, call': Call, entry': Entry, attempts': map<AttemptId, Attempt>, ledger': L.Ledger,
                        jobs': multiset<Job>)
    requires QueuedAfterStart(db.entries, db.shows)
    requires GoodMove(db, c, call', entry', attempts', ledger', jobs')
    ensures QueuedAfterStart(db.entries[call'.entry := entry'], db.shows)
  {
    hide L.Valid, L.Keys;
  }

  lemma MoveKeepsCoupling(db: Db, c: CallId, call': Call, entry': Entry, attempts': map<AttemptId, Attempt>, ledger': L.Ledger,
                          presence': map<Seat, Presence>, jobs': multiset<Job>)
    requires LinksInv(db) && CouplingInv(db)
    requires GoodMove(db, c, call', entry', attempts', ledger', jobs')
    ensures CouplingInv(Moved(db, c, call', entry', attempts', ledger', presence', jobs'))
  {
    hide OneActiveCall, OneCallPerAttempt, PaidCallsOk, CallsClocked, OpenCallsInLiveShows, EntriesMirrorCalls, OneLiveShow;
    hide ClosesEndedShows, CallsLinked, EntriesOk, AttemptsOk, TiersOk, IdsBelow, L.Valid, L.Keys;
    MoveKeepsQueued(db, c, call', entry', attempts', ledger', jobs');
    hide QueuedAfterStart;
    PatchOneActive(db.calls, c, call');
    PatchPaid(db.calls, db.attempts, attempts', c, call');
    PatchMirror(db.calls, db.entries, db.shows, db.attempts, c, call', entry');
    PatchOpenCalls(db.calls, db.shows, c, call');
  }

  lemma MoveKeepsMoney(db: Db, c: CallId, call': Call, entry': Entry, attempts': map<AttemptId, Attempt>, ledger': L.Ledger,
                       presence': map<Seat, Presence>, jobs': multiset<Job>)
    requires CouplingInv(db) && MoneyInv(db)
    requires GoodMove(db, c, call', entry', attempts', ledger', jobs')
    ensures MoneyInv(Moved(db, c, call', entry', attempts', ledger', presence', jobs'))
  {
    PatchEarnings(db.calls, db.attempts, attempts', L.Keys(db.ledger), L.Keys(ledger'), c, call');
    PatchRefunds(db.refunds, db.calls, db.attempts, attempts', c, call');
  }

  lemma MoveKeeps(db: Db, c: CallId, call': Call, entry': Entry, attempts': map<AttemptId, Attempt>, ledger': L.Ledger,
                  presence': map<Seat, Presence>, jobs': multiset<Job>)
    requires LinksInv(db) && CouplingInv(db) && MoneyInv(db)
    requires GoodMove(db, c, call', entry', attempts', ledger', jobs')
    requires PresenceOk(presence', db.calls[c := call'], jobs', db.now)
    ensures Inv(Moved(db, c, call', entry', attempts', ledger', presence', jobs'))
  {
    MoveKeepsLinks(db, c, call', entry', attempts', ledger', presence', jobs');
    MoveKeepsCoupling(db, c, call', entry', attempts', ledger', presence', jobs');
    MoveKeepsMoney(db, c, call', entry', attempts', ledger', presence', jobs');
  }
}
