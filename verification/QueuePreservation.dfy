/** Joining, leaving, selecting, shows and presence keep the invariant. */
module QueuePreservation {
  import opened Common
  import opened Tables
  import opened Steps
  import opened Invariants
  import opened Frames
  import opened Preservation
  import L = Ledger
  import Fees

  // ------------------------------------------------------------ payments.ts

  lemma NewAttemptLinks(db: Db, db': Db, attempt: Attempt)
    requires LinksInv(db)
    requires db'.attempts == db.attempts[db.nextId := attempt] && db'.nextId == db.nextId + 1
    requires db'.entries == db.entries && db'.calls == db.calls && db'.shows == db.shows && db'.refunds == db.refunds
    requires db'.tiers == db.tiers && db'.feeRates == db.feeRates
    requires attempt.amountCents > 0 && 0 <= attempt.platformFeeCents < attempt.amountCents
    requires attempt.status == PayCreated && attempt.entry.None?
    ensures LinksInv(db')
  {
  }

  lemma NewAttemptCoupling(db: Db, db': Db, attempt: Attempt)
    requires LinksInv(db) && CouplingInv(db)
    requires db'.attempts == db.attempts[db.nextId := attempt]
    requires db'.entries == db.entries && db'.calls == db.calls && db'.shows == db.shows && db'.jobs == db.jobs
    ensures CouplingInv(db')
  {
    hide EntriesMirrorCalls, OneActiveCall, OneCallPerAttempt;
  }

  lemma NewAttemptMoney(db: Db, db': Db, attempt: Attempt)
    requires LinksInv(db) && MoneyInv(db)
    requires db'.attempts == db.attempts[db.nextId := attempt]
    requires db'.ledger == db.ledger && db'.calls == db.calls && db'.refunds == db.refunds && db'.now == db.now
    ensures MoneyInv(db')
  {
    hide L.Valid;
  }

  lemma PriceEarns(db: Db, sh: ShowId, tier: TierId)
    requires TiersOk(db.tiers, db.feeRates) && sh in db.shows && tier in db.tiers && db.tiers[tier].priceCents > 0
    ensures var creator := db.shows[sh].creator;
      var rate := Fees.CreatorFeeBps(if creator in db.feeRates then Some(db.feeRates[creator]) else None);
      0 <= Fees.FeesFor(db.tiers[tier].priceCents, rate).platformFeeCents < db.tiers[tier].priceCents
  {
    var creator := db.shows[sh].creator;
    var rate := Fees.CreatorFeeBps(if creator in db.feeRates then Some(db.feeRates[creator]) else None);
    Fees.EarningIsPositive(db.tiers[tier].priceCents, rate);
  }

  lemma TiersKnown(db: Db)
    requires LinksInv(db)
    ensures TiersOk(db.tiers, db.feeRates)
  {
  }

  lemma PrepareKeeps(db: Db, sh: ShowId, tier: TierId, payer: UserId)
    requires Inv(db)
    ensures Prepare(db, sh, tier, payer).Ok? ==> Inv(Prepare(db, sh, tier, payer).value)
  {
    hide LinksInv, CouplingInv, MoneyInv, PresenceInv;
    hide Fees.FeesFor;
    if Prepare(db, sh, tier, payer).Ok? {
      var db' := Prepare(db, sh, tier, payer).value;
      TiersKnown(db);
      PriceEarns(db, sh, tier);
      NewAttemptLinks(db, db', db'.attempts[db.nextId]);
      NewAttemptCoupling(db, db', db'.attempts[db.nextId]);
      NewAttemptMoney(db, db', db'.attempts[db.nextId]);
      PresenceSame(db, db');
    }
  }

  lemma AttachLinks(db: Db, a: AttemptId)
    requires LinksInv(db) && a in db.attempts
    ensures LinksInv(db.(attempts := db.attempts[a := db.attempts[a].(hasIntent := true)]))
  {
  }

  lemma AttachIntentKeeps(db: Db, a: AttemptId)
    requires Inv(db)
    ensures AttachIntent(db, a).Ok? ==> Inv(AttachIntent(db, a).value)
  {
    hide LinksInv, CouplingInv, MoneyInv, PresenceInv;
    if a in db.attempts {
      var attempt' := db.attempts[a].(hasIntent := true);
      AttachLinks(db, a);
      PaymentsAllowed(db, a);
      AttemptStatusCoupling(db, a, attempt');
      EarnedIsCaptured(db, a);
      AttemptStatusMoney(db, a, attempt');
      PresenceSame(db, db.(attempts := db.attempts[a := attempt']));
    }
  }

  lemma PaymentsAllowed(db: Db, a: AttemptId)
    requires CouplingInv(db) && a in db.attempts
    ensures forall c :: c in db.calls && db.calls[c].attempt == Some(a) ==> PaymentAllows(db.calls[c], db.attempts[a].status)
  {
  }

  /** An attempt not yet picked has no call. */
  lemma UnpickedHasNoCall(db: Db, a: AttemptId)
    requires CouplingInv(db) && MoneyInv(db) && a in db.attempts
    requires db.attempts[a].status == PayCreated || db.attempts[a].status == PayAuthorized
    ensures forall c :: c in db.calls ==> db.calls[c].attempt != Some(a)
    ensures L.EarningKey(a) !in L.Keys(db.ledger)
  {
    hide L.Valid;
    forall c | c in db.calls ensures db.calls[c].attempt != Some(a) {
      assert db.calls[c].attempt == Some(a) ==> PaymentAllows(db.calls[c], db.attempts[a].status);
    }
  }

  lemma MarkAuthorizedKeeps(db: Db, a: AttemptId)
    requires Inv(db)
    ensures Inv(MarkAuthorized(db, a))
  {
    hide LinksInv, CouplingInv, MoneyInv, PresenceInv;
    if MarkAuthorized(db, a) != db {
      UnpickedHasNoCall(db, a);
      AttemptStatusKeeps(db, a, PayAuthorized);
    }
  }

  // ------------------------------------------------------------ queue.ts

  /** The tables after a caller joined as entry `e`, with hold `attempt` if the tier is paid. */
  function Joined(db: Db, e: EntryId, entry: Entry, nextId: nat): Db {
    db.(entries := db.entries[e := entry], nextId := nextId,
        attempts := if entry.attempt.Some? && entry.attempt.value in db.attempts
                    then db.attempts[entry.attempt.value := db.attempts[entry.attempt.value].(entry := Some(e))]
                    else db.attempts)
  }

  /** Who may join: someone who left, or someone new; with a hold of their own where one is needed. */
  ghost predicate MayJoin(db: Db, e: EntryId, entry: Entry, nextId: nat) {
    && IsLive(db.shows, entry.show) && entry.status == Waiting
    && (entry.attempt.Some? <==> entry.priceCents > 0)
    && (entry.attempt.Some? ==>
          && entry.attempt.value in db.attempts
          && db.attempts[entry.attempt.value].status == PayAuthorized
          && (db.attempts[entry.attempt.value].entry.None? || db.attempts[entry.attempt.value].entry == Some(e)))
    && (if e in db.entries
        then nextId == db.nextId && db.entries[e].status == Left
             && entry.show == db.entries[e].show && entry.viewer == db.entries[e].viewer
        else e == db.nextId && nextId == e + 1
             && forall x :: x in db.entries ==> !(db.entries[x].show == entry.show && db.entries[x].viewer == entry.viewer))
  }

  lemma JoinedAttempts(db: Db, e: EntryId, entry: Entry, nextId: nat)
    requires LinksInv(db) && MayJoin(db, e, entry, nextId)
    ensures AttemptsOk(Joined(db, e, entry, nextId).attempts, Joined(db, e, entry, nextId).entries)
    ensures IdsBelow(nextId, db.shows, Joined(db, e, entry, nextId).entries, Joined(db, e, entry, nextId).attempts, db.calls, db.refunds)
  {
    hide EntriesOk, CallsLinked;
  }

  lemma JoinedEntries(db: Db, e: EntryId, entry: Entry, nextId: nat)
    requires LinksInv(db) && MayJoin(db, e, entry, nextId)
    ensures EntriesOk(Joined(db, e, entry, nextId).entries, Joined(db, e, entry, nextId).attempts, db.shows)
  {
    hide CallsLinked;
    var db' := Joined(db, e, entry, nextId);
    forall x | x in db'.entries && db'.entries[x].attempt.Some?
      ensures db'.entries[x].attempt.value in db'.attempts && db'.attempts[db'.entries[x].attempt.value].entry == Some(x)
    {
      if x != e {
        assert db.attempts[db.entries[x].attempt.value].entry == Some(x);
      }
    }
  }

  lemma JoinedCalls(db: Db, e: EntryId, entry: Entry, nextId: nat)
    requires LinksInv(db) && CouplingInv(db) && MoneyInv(db) && MayJoin(db, e, entry, nextId)
    ensures CallsLinked(db.calls, Joined(db, e, entry, nextId).entries, Joined(db, e, entry, nextId).attempts, db.shows)
    ensures PaidCallsOk(db.calls, Joined(db, e, entry, nextId).attempts)
  {
    hide EntriesOk, L.Valid, L.Keys, EntriesMirrorCalls, OneActiveCall, IdsBelow, OneCallPerAttempt, OneLiveShow, ClosesEndedShows;
    hide OpenCallsInLiveShows, CallsClocked, MoneyInv;
    if entry.attempt.Some? {
      UnpickedHasNoCall(db, entry.attempt.value);
    }
  }

  lemma JoinedMirror(db: Db, e: EntryId, entry: Entry, nextId: nat)
    requires LinksInv(db) && EntriesMirrorCalls(db.calls, db.entries, db.shows) && MayJoin(db, e, entry, nextId)
    ensures EntriesMirrorCalls(db.calls, Joined(db, e, entry, nextId).entries, db.shows)
  {
    hide EntriesOk, AttemptsOk;
    var entries' := Joined(db, e, entry, nextId).entries;
    forall c | c in db.calls && Active(db.calls[c].status) && IsLive(db.shows, db.calls[c].show) && db.calls[c].entry in entries'
      ensures entries'[db.calls[c].entry].status == EntryStatusFor(db.calls[c].status)
    {
      assert db.calls[c].entry in db.entries;
    }
    forall x | x in entries' && InCall(entries'[x].status) && IsLive(db.shows, entries'[x].show)
      ensures HasActiveCall(db.calls, x)
    {
      assert x != e && entries'[x] == db.entries[x];
    }
  }

  lemma JoinedCoupling(db: Db, e: EntryId, entry: Entry, nextId: nat)
    requires LinksInv(db) && CouplingInv(db) && MoneyInv(db) && MayJoin(db, e, entry, nextId)
    ensures CouplingInv(Joined(db, e, entry, nextId))
  {
    hide LinksInv, MoneyInv;
    hide OneActiveCall, OneCallPerAttempt, PaidCallsOk, CallsClocked, OpenCallsInLiveShows, EntriesMirrorCalls;
    JoinedCalls(db, e, entry, nextId);
    JoinedMirror(db, e, entry, nextId);
  }

  lemma JoinedLinks(db: Db, e: EntryId, entry: Entry, nextId: nat)
    requires LinksInv(db) && CouplingInv(db) && MoneyInv(db) && MayJoin(db, e, entry, nextId)
    ensures LinksInv(Joined(db, e, entry, nextId))
  {
    hide CouplingInv, MoneyInv, MayJoin;
    JoinedAttempts(db, e, entry, nextId);
    JoinedEntries(db, e, entry, nextId);
    JoinedCalls(db, e, entry, nextId);
  }

  lemma JoinedMoney(db: Db, e: EntryId, entry: Entry, nextId: nat)
    requires LinksInv(db) && CouplingInv(db) && MoneyInv(db) && MayJoin(db, e, entry, nextId)
    ensures MoneyInv(Joined(db, e, entry, nextId))
  {
    hide LinksInv, CouplingInv, MayJoin;
    JoinedCalls(db, e, entry, nextId);
  }

  lemma JoinedKeeps(db: Db, e: EntryId, entry: Entry, nextId: nat)
    requires Inv(db) && MayJoin(db, e, entry, nextId)
    ensures Inv(Joined(db, e, entry, nextId))
  {
    hide LinksInv, CouplingInv, MoneyInv, PresenceInv, MayJoin;
    JoinedLinks(db, e, entry, nextId);
    JoinedCoupling(db, e, entry, nextId);
    JoinedMoney(db, e, entry, nextId);
    PresenceSame(db, Joined(db, e, entry, nextId));
  }

  lemma JoinKeeps(db: Db, sh: ShowId, viewer: UserId, tier: TierId, payment: Option<AttemptId>)
    requires Inv(db)
    ensures Join(db, sh, viewer, tier, payment).Ok? ==> Inv(Join(db, sh, viewer, tier, payment).value)
  {
    hide LinksInv, CouplingInv, MoneyInv, PresenceInv;
    var r := Join(db, sh, viewer, tier, payment);
    if r.Ok? && r.value != db {
      var existing := EntryFor(db.entries, sh, viewer);
      var price := db.tiers[tier].priceCents;
      var e := if existing.Some? then existing.value else db.nextId;
      var entry := Entry(sh, viewer, Waiting, db.tiers[tier].rank, db.now, price, db.tiers[tier].durationSeconds, if price > 0 then payment else None);
      IdsKnown(db);
      JoinedKeeps(db, e, entry, if existing.Some? then db.nextId else db.nextId + 1);
    }
  }

  lemma LeaveKeeps(db: Db, sh: ShowId, viewer: UserId)
    requires Inv(db)
    ensures Leave(db, sh, viewer).Ok? ==> Inv(Leave(db, sh, viewer).value)
  {
    hide LinksInv, CouplingInv, MoneyInv, PresenceInv;
    var r := Leave(db, sh, viewer);
    if r.Ok? && r.value != db {
      var e := EntryFor(db.entries, sh, viewer).value;
      EntryStatusKeeps(db, e, Left);
      if db.entries[e].attempt.Some? {
        ScheduleKeeps(db.(entries := db.entries[e := db.entries[e].(status := Left)]),
                      ReleaseHold(db.now, db.entries[e].attempt.value));
      }
    }
  }

  // ------------------------------------------------------------ calls.ts

  /** The tables after entry `e` was selected. */
  ghost predicate Picked(db: Db, db': Db, e: EntryId, call: Call) {
    && db'.calls == db.calls[db.nextId := call]
    && e in db.entries && db'.entries == db.entries[e := db.entries[e].(status := Selected)]
    && db'.nextId == db.nextId + 1
    && db'.attempts == (if call.attempt.None? || call.attempt.value !in db.attempts then db.attempts
                        else db.attempts[call.attempt.value := db.attempts[call.attempt.value].(status := PayCapturing)])
    && db'.shows == db.shows && db'.refunds == db.refunds && db'.ledger == db.ledger
    && db'.tiers == db.tiers && db'.feeRates == db.feeRates && db'.now == db.now && db'.presence == db.presence
    && db.jobs <= db'.jobs
    && ClosesEndedShows(db'.jobs, db.shows)
  }

  /** Who may be selected: a waiting caller of a live show with no active call, whose hold is in place if they pay. */
  ghost predicate MayPick(db: Db, e: EntryId, call: Call) {
    && e in db.entries && db.entries[e].status == Waiting && db.entries[e].show == call.show && IsLive(db.shows, call.show)
    && call.entry == e && call.startedAt.None?
    && (forall c :: c in db.calls ==> !(db.calls[c].show == call.show && Active(db.calls[c].status)))
    && (if call.attempt.Some?
        then call.attempt == db.entries[e].attempt && call.attempt.value in db.attempts
             && db.attempts[call.attempt.value].status == PayAuthorized && call.status == PaymentPending
        else call.status == CallCreated)
  }

  lemma PickedRows(db: Db, db': Db, e: EntryId, call: Call)
    requires LinksInv(db) && MayPick(db, e, call) && Picked(db, db', e, call)
    ensures LinksInv(db.(entries := db'.entries, attempts := db'.attempts))
  {
    assert SameEntries(db.entries, db'.entries);
    assert SameAttempts(db.attempts, db'.attempts) by {
      assert forall a :: a in db.attempts && db'.attempts[a].status != PayCreated ==> db.attempts[a].hasIntent;
    }
    LinksFrame(db, db.(entries := db'.entries, attempts := db'.attempts));
  }

  lemma PickedCallRow(db: Db, db': Db, e: EntryId, call: Call)
    requires LinksInv(db.(entries := db'.entries, attempts := db'.attempts))
    requires MayPick(db, e, call) && Picked(db, db', e, call)
    requires call.attempt.Some? ==> db'.attempts[call.attempt.value].entry == Some(e)
    ensures LinksInv(db')
  {
    hide EntriesOk, AttemptsOk;
  }

  lemma PickedLinks(db: Db, db': Db, e: EntryId, call: Call)
    requires LinksInv(db) && MayPick(db, e, call) && Picked(db, db', e, call)
    ensures LinksInv(db')
  {
    PickedRows(db, db', e, call);
    hide AttemptsOk, CallsLinked, IdsBelow;
    PickedCallRow(db, db', e, call);
  }

  /** The new call is the only active one of its show and the only one of its attempt. */
  lemma PickedAlone(db: Db, db': Db, e: EntryId, call: Call)
    requires CouplingInv(db) && MayPick(db, e, call) && Picked(db, db', e, call)
    requires call.attempt.Some? ==> forall c :: c in db.calls ==> db.calls[c].attempt != call.attempt
    ensures OneActiveCall(db'.calls) && OneCallPerAttempt(db'.calls)
    ensures CallsClocked(db'.calls) && OpenCallsInLiveShows(db'.calls, db'.shows)
  {
    hide EntriesMirrorCalls, PaidCallsOk, OneLiveShow, ClosesEndedShows;
  }

  lemma PickedPaid(db: Db, db': Db, e: EntryId, call: Call)
    requires CouplingInv(db) && MayPick(db, e, call) && Picked(db, db', e, call)
    requires call.attempt.Some? ==> forall c :: c in db.calls ==> db.calls[c].attempt != call.attempt
    ensures PaidCallsOk(db'.calls, db'.attempts)
  {
    hide EntriesMirrorCalls, OneActiveCall, OneCallPerAttempt, OneLiveShow, ClosesEndedShows, CallsClocked, OpenCallsInLiveShows;
  }

  lemma PickedEarnings(db: Db, db': Db, e: EntryId, call: Call)
    requires MoneyInv(db) && MayPick(db, e, call) && Picked(db, db', e, call)
    requires call.attempt.Some? ==> L.EarningKey(call.attempt.value) !in L.Keys(db.ledger)
    ensures EarningsFollowCalls(db'.calls, db'.attempts, L.Keys(db'.ledger))
  {
    hide L.Valid, L.Keys, RefundsOk, WorkerOk, ClosesEndedShows;
  }

  lemma PickedRefunds(db: Db, db': Db, e: EntryId, call: Call)
    requires MoneyInv(db) && Picked(db, db', e, call) && db.nextId !in db.calls
    ensures RefundsOk(db'.refunds, db'.calls, db'.attempts)
  {
    hide L.Valid, WorkerOk, EarningsFollowCalls, ClosesEndedShows;
  }

  lemma PickedMirror(db: Db, db': Db, e: EntryId, call: Call)
    requires LinksInv(db) && EntriesMirrorCalls(db.calls, db.entries, db.shows) && MayPick(db, e, call) && Picked(db, db', e, call)
    ensures EntriesMirrorCalls(db'.calls, db'.entries, db'.shows)
  {
    hide EntriesOk, AttemptsOk;
    forall c | c in db'.calls && Active(db'.calls[c].status) && IsLive(db'.shows, db'.calls[c].show) && db'.calls[c].entry in db'.entries
      ensures db'.entries[db'.calls[c].entry].status == EntryStatusFor(db'.calls[c].status)
    {
      if c != db.nextId {
        assert db'.calls[c] == db.calls[c];
        assert db.entries[db.calls[c].entry].status == EntryStatusFor(db.calls[c].status);
      }
    }
    forall x | x in db'.entries && InCall(db'.entries[x].status) && IsLive(db'.shows, db'.entries[x].show)
      ensures HasActiveCall(db'.calls, x)
    {
      if x == e {
        assert db'.calls[db.nextId] == call;
      } else {
        assert HasActiveCall(db.calls, x);
        var d :| d in db.calls && db.calls[d].entry == x && Active(db.calls[d].status);
        assert d != db.nextId && db'.calls[d] == db.calls[d];
      }
    }
  }

  lemma PickedCoupling(db: Db, db': Db, e: EntryId, call: Call)
    requires LinksInv(db) && CouplingInv(db) && MoneyInv(db) && MayPick(db, e, call) && Picked(db, db', e, call)
    ensures CouplingInv(db')
  {
    hide LinksInv, MoneyInv, OneActiveCall, OneCallPerAttempt, PaidCallsOk, CallsClocked, OpenCallsInLiveShows, EntriesMirrorCalls;
    if call.attempt.Some? {
      UnpickedHasNoCall(db, call.attempt.value);
    }
    PickedAlone(db, db', e, call);
    PickedPaid(db, db', e, call);
    PickedMirror(db, db', e, call);
  }

  lemma PickedMoney(db: Db, db': Db, e: EntryId, call: Call)
    requires LinksInv(db) && CouplingInv(db) && MoneyInv(db) && MayPick(db, e, call) && Picked(db, db', e, call)
    ensures MoneyInv(db')
  {
    hide CouplingInv, EntriesOk, CallsLinked, AttemptsOk, L.Valid, L.Keys, EarningsFollowCalls, RefundsOk;
    if call.attempt.Some? {
      UnpickedHasNoCall(db, call.attempt.value);
    }
    PickedEarnings(db, db', e, call);
    PickedRefunds(db, db', e, call);
  }

  lemma PickedPresence(db: Db, db': Db, e: EntryId, call: Call)
    requires LinksInv(db) && PresenceInv(db) && Picked(db, db', e, call)
    ensures PresenceInv(db')
  {
    hide EntriesOk, CallsLinked, AttemptsOk;
    PresenceSame(db, db');
  }

  /** A call that is created picks its caller. */
  lemma CreatePicks(db: Db, sh: ShowId, e: EntryId)
    requires e in db.entries && CreateCall(db, sh, e).Ok?
    requires ClosesEndedShows(db.jobs, db.shows) && ClosesEndedShows(db.jobs + multiset{CapturePayment(db.now, db.nextId)}, db.shows)
    ensures var db' := CreateCall(db, sh, e).value;
      db.nextId in db'.calls && Picked(db, db', e, db'.calls[db.nextId])
  {
    hide ClosesEndedShows;
    var db' := CreateCall(db, sh, e).value;
    if db.entries[e].priceCents > 0 {
      assert db'.calls[db.nextId].attempt == db.entries[e].attempt;
      assert db'.jobs == db.jobs + multiset{CapturePayment(db.now, db.nextId)};
    } else {
      assert db'.attempts == db.attempts && db'.jobs == db.jobs;
    }
  }

  lemma CreateMayPick(db: Db, sh: ShowId, e: EntryId)
    requires e in db.entries && CreateCall(db, sh, e).Ok?
    requires db.entries[e].status == Waiting && db.entries[e].show == sh && IsLive(db.shows, sh)
    requires forall c :: c in db.calls ==> !(db.calls[c].show == sh && Active(db.calls[c].status))
    ensures var db' := CreateCall(db, sh, e).value;
      db.nextId in db'.calls && MayPick(db, e, db'.calls[db.nextId])
  {
  }

  /** A selection that succeeds picks a caller who may be picked. */
  lemma SelectPicks(db: Db, sh: ShowId, creator: UserId, e: EntryId)
    requires Select(db, sh, creator, e).Ok?
    requires ClosesEndedShows(db.jobs, db.shows) && ClosesEndedShows(db.jobs + multiset{CapturePayment(db.now, db.nextId)}, db.shows)
    ensures var db' := Select(db, sh, creator, e).value;
      db.nextId in db'.calls && MayPick(db, e, db'.calls[db.nextId]) && Picked(db, db', e, db'.calls[db.nextId])
  {
    hide ClosesEndedShows, CreateCall, MayPick, Picked;
    CreatePicks(db, sh, e);
    CreateMayPick(db, sh, e);
  }

  lemma SelectKeeps(db: Db, sh: ShowId, creator: UserId, e: EntryId)
    requires Inv(db)
    ensures Select(db, sh, creator, e).Ok? ==> Inv(Select(db, sh, creator, e).value)
  {
    hide LinksInv, CouplingInv, MoneyInv, PresenceInv, MayPick, Picked, CreateCall;
    var r := Select(db, sh, creator, e);
    if r.Ok? {
      ClosesKnown(db);
      ClosesMore(db.jobs, CapturePayment(db.now, db.nextId), db.shows);
      hide ClosesEndedShows;
      SelectPicks(db, sh, creator, e);
      var call := r.value.calls[db.nextId];
      PickedLinks(db, r.value, e, call);
      PickedCoupling(db, r.value, e, call);
      PickedMoney(db, r.value, e, call);
      PickedPresence(db, r.value, e, call);
    }
  }

  // ------------------------------------------------------------ shows.ts

  lemma CreateShowKeeps(db: Db, creator: UserId)
    requires Inv(db)
    ensures Inv(CreateShow(db, creator))
  {
    hide LinksInv, CouplingInv, MoneyInv, PresenceInv;
    CreateShowLinks(db, creator);
    CreateShowCoupling(db, creator);
    MoneySame(db, CreateShow(db, creator));
    PresenceSame(db, CreateShow(db, creator));
  }

  lemma CreateShowLinks(db: Db, creator: UserId)
    requires LinksInv(db)
    ensures LinksInv(CreateShow(db, creator))
  {
  }

  lemma NewShowMirror(calls: map<CallId, Call>, entries: map<EntryId, Entry>, shows: map<ShowId, Show>, sh: ShowId, show: Show)
    requires EntriesMirrorCalls(calls, entries, shows) && sh !in shows && show.status == ShowCreated
    ensures EntriesMirrorCalls(calls, entries, shows[sh := show])
  {
    forall e | e in entries && InCall(entries[e].status) && IsLive(shows[sh := show], entries[e].show)
      ensures HasActiveCall(calls, e)
    {
      assert IsLive(shows, entries[e].show);
    }
  }

  /** Nothing is in a show that has just been created, and it is neither live nor ended. */
  lemma NewShowRules(db: Db, show: Show)
    requires LinksInv(db) && CouplingInv(db) && show.status == ShowCreated
    ensures db.nextId !in db.shows
    ensures OpenCallsInLiveShows(db.calls, db.shows[db.nextId := show])
    ensures QueuedAfterStart(db.entries, db.shows[db.nextId := show])
    ensures OneLiveShow(db.shows[db.nextId := show])
    ensures ClosesEndedShows(db.jobs, db.shows[db.nextId := show])
  {
    hide OneActiveCall, OneCallPerAttempt, PaidCallsOk, CallsClocked, AttemptsOk, EntriesMirrorCalls, TiersOk;
    assert db.nextId !in db.shows;
    assert forall c :: c in db.calls ==> db.calls[c].show != db.nextId;
    assert forall e :: e in db.entries ==> db.entries[e].show != db.nextId;
  }

  lemma CreateShowCoupling(db: Db, creator: UserId)
    requires LinksInv(db) && CouplingInv(db)
    ensures CouplingInv(CreateShow(db, creator))
  {
    hide LinksInv, OneActiveCall, OneCallPerAttempt, PaidCallsOk, CallsClocked, EntriesMirrorCalls;
    hide OpenCallsInLiveShows, QueuedAfterStart, OneLiveShow, ClosesEndedShows;
    NewShowRules(db, Show(creator, ShowCreated));
    NewShowMirror(db.calls, db.entries, db.shows, db.nextId, Show(creator, ShowCreated));
  }

  /** A show goes live when its creator has no other live show, and ends once its open call is over. */
  ghost predicate MayMoveShow(db: Db, sh: ShowId, status: ShowStatus) {
    && sh in db.shows
    && ((db.shows[sh].status == ShowCreated && status == ShowLive
         && (forall o :: o in db.shows ==> !(db.shows[o].creator == db.shows[sh].creator && db.shows[o].status == ShowLive)))
        || (db.shows[sh].status == ShowLive && status == ShowEnded
            && (forall c :: c in db.calls && db.calls[c].show == sh ==> !Connectable(db.calls[c].status))))
  }

  lemma ShowMirror(db: Db, sh: ShowId, status: ShowStatus)
    requires CouplingInv(db) && MayMoveShow(db, sh, status)
    ensures EntriesMirrorCalls(db.calls, db.entries, db.shows[sh := Show(db.shows[sh].creator, status)])
  {
    hide OneActiveCall, OneCallPerAttempt, PaidCallsOk, CallsClocked, OneLiveShow, ClosesEndedShows;
    var shows' := db.shows[sh := Show(db.shows[sh].creator, status)];
    forall e | e in db.entries && InCall(db.entries[e].status) && IsLive(shows', db.entries[e].show)
      ensures HasActiveCall(db.calls, e)
    {
      assert IsLive(db.shows, db.entries[e].show);
    }
  }

  lemma ShowStatusCoupling(db: Db, db': Db, sh: ShowId, status: ShowStatus)
    requires CouplingInv(db) && MayMoveShow(db, sh, status)
    requires db'.shows == db.shows[sh := Show(db.shows[sh].creator, status)]
    requires db'.calls == db.calls && db'.entries == db.entries && db'.attempts == db.attempts
    requires ClosesEndedShows(db'.jobs, db'.shows)
    ensures CouplingInv(db')
  {
    hide OneActiveCall, OneCallPerAttempt, PaidCallsOk, CallsClocked, EntriesMirrorCalls;
    ShowMirror(db, sh, status);
  }

  lemma ShowStatusLinks(db: Db, db': Db, sh: ShowId)
    requires LinksInv(db)
    requires sh in db.shows && db'.shows.Keys == db.shows.Keys
    requires db'.calls == db.calls && db'.entries == db.entries && db'.attempts == db.attempts && db'.refunds == db.refunds
    requires db'.tiers == db.tiers && db'.feeRates == db.feeRates && db'.nextId == db.nextId
    ensures LinksInv(db')
  {
    LinksFrame(db, db');
  }

  lemma StartShowKeeps(db: Db, sh: ShowId, creator: UserId, ready: bool)
    requires Inv(db)
    ensures StartShow(db, sh, creator, ready).Ok? ==> Inv(StartShow(db, sh, creator, ready).value)
  {
    hide LinksInv, CouplingInv, MoneyInv, PresenceInv;
    var r := StartShow(db, sh, creator, ready);
    if r.Ok? && r.value != db {
      ShowStatusLinks(db, r.value, sh);
      ClosesKnown(db);
      ShowStatusCoupling(db, r.value, sh, ShowLive);
      MoneySame(db, r.value);
      PresenceSame(db, r.value);
    }
  }

  lemma ActiveCallKnown(db: Db, sh: ShowId)
    requires CouplingInv(db)
    ensures forall c :: c in db.calls && db.calls[c].show == sh && Active(db.calls[c].status) ==> ActiveCall(db.calls, sh) == Some(c)
  {
    hide PaidCallsOk, CallsClocked, EntriesMirrorCalls, OneLiveShow, ClosesEndedShows, OneCallPerAttempt;
  }

  /** Once its open call is over a show may end. */
  lemma FinishedMayEnd(db: Db, sh: ShowId, c: CallId)
    requires IsLive(db.shows, sh) && c in db.calls && db.calls[c].show == sh
    requires db.calls[c].entry in db.entries
    requires db.calls[c].attempt.Some? ==> db.calls[c].attempt.value in db.attempts
    requires forall d :: d in db.calls && db.calls[d].show == sh && Active(db.calls[d].status) ==> d == c
    ensures var hungUp := Finish(db, c, CallEnded);
      MayMoveShow(hungUp, sh, ShowEnded) && hungUp.shows == db.shows
  {
    var hungUp := Finish(db, c, CallEnded);
    assert hungUp.calls == db.calls[c := db.calls[c].(status := CallEnded, endedAt := Some(db.now))];
  }

  lemma EndShowKeeps(db: Db, sh: ShowId, creator: UserId)
    requires Inv(db) && Linked(db)
    ensures EndShow(db, sh, creator).Ok? ==> Inv(EndShow(db, sh, creator).value)
  {
    hide LinksInv, CouplingInv, MoneyInv, PresenceInv;
    var r := EndShow(db, sh, creator);
    if r.Ok? && r.value != db {
      hide MayMoveShow;
      var current := ActiveCall(db.calls, sh);
      ActiveCallKnown(db, sh);
      if current.Some? && Connectable(db.calls[current.value].status) {
        FinishKeeps(db, current.value, CallEnded);
        FinishedMayEnd(db, sh, current.value);
        hide Finish;
        EndsKeeps(Finish(db, current.value, CallEnded), sh, db.now);
      } else {
        assert MayMoveShow(db, sh, ShowEnded) by { IdleMayEnd(db, sh); }
        EndsKeeps(db, sh, db.now);
      }
    }
  }

  lemma IdleMayEnd(db: Db, sh: ShowId)
    requires IsLive(db.shows, sh)
    requires forall c :: c in db.calls && db.calls[c].show == sh && Active(db.calls[c].status) ==> !Connectable(db.calls[c].status)
    ensures MayMoveShow(db, sh, ShowEnded)
  {
  }

  lemma EndsKeeps(db: Db, sh: ShowId, due: Millis)
    requires Inv(db) && MayMoveShow(db, sh, ShowEnded)
    ensures Inv(db.(shows := db.shows[sh := Show(db.shows[sh].creator, ShowEnded)],
                    jobs := db.jobs + multiset{CloseQueue(due, sh)}))
  {
    hide LinksInv, CouplingInv, MoneyInv, PresenceInv;
    var db' := db.(shows := db.shows[sh := Show(db.shows[sh].creator, ShowEnded)],
                   jobs := db.jobs + multiset{CloseQueue(due, sh)});
    ShowStatusLinks(db, db', sh);
    ClosesKnown(db);
    ClosesMore(db.jobs, CloseQueue(due, sh), db'.shows);
    ShowStatusCoupling(db, db', sh, ShowEnded);
    MoneySame(db, db');
    PresenceSame(db, db');
  }

  // ------------------------------------------------------------ closing the queue

  lemma ClosedMirror(calls: map<CallId, Call>, entries: map<EntryId, Entry>, attempts: map<AttemptId, Attempt>,
                     shows: map<ShowId, Show>, sh: ShowId, batch: set<EntryId>)
    requires EntriesMirrorCalls(calls, entries, shows) && CallsLinked(calls, entries, attempts, shows) && QueuedAfterStart(entries, shows)
    requires !IsLive(shows, sh) && batch <= ActiveEntries(entries, sh)
    ensures EntriesMirrorCalls(calls, CloseEntries(entries, batch), shows)
    ensures QueuedAfterStart(CloseEntries(entries, batch), shows)
  {
    var entries' := CloseEntries(entries, batch);
    forall e | e in entries' && InCall(entries'[e].status) && IsLive(shows, entries'[e].show)
      ensures HasActiveCall(calls, e)
    {
      assert e !in batch && InCall(entries[e].status);
    }
  }

  lemma ClosesAfterBatch(db: Db, due: Millis, sh: ShowId, batch: set<EntryId>)
    requires ClosesEndedShows(db.jobs, db.shows) && CloseQueue(due, sh) in db.jobs
    ensures ClosesEndedShows(CloseQueueBatch(db, due, sh, batch).jobs, db.shows)
    ensures sh in db.shows && db.shows[sh].status == ShowEnded
  {
  }

  lemma CloseBatchCoupling(db: Db, due: Millis, sh: ShowId, batch: set<EntryId>)
    requires LinksInv(db) && CouplingInv(db)
    requires CloseQueue(due, sh) in db.jobs && batch <= ActiveEntries(db.entries, sh)
    ensures CouplingInv(CloseQueueBatch(db, due, sh, batch))
  {
    hide OneActiveCall, OneCallPerAttempt, PaidCallsOk, CallsClocked, OneLiveShow, OpenCallsInLiveShows, EntriesMirrorCalls;
    hide QueuedAfterStart, CallsLinked, EntriesOk, AttemptsOk, IdsBelow, ClosesEndedShows, CloseEntries, ActiveEntries;
    ClosesAfterBatch(db, due, sh, batch);
    ClosedMirror(db.calls, db.entries, db.attempts, db.shows, sh, batch);
  }

  lemma CloseBatchLinks(db: Db, due: Millis, sh: ShowId, batch: set<EntryId>)
    requires LinksInv(db) && CloseQueue(due, sh) in db.jobs
    ensures LinksInv(CloseQueueBatch(db, due, sh, batch))
  {
    LinksFrame(db, CloseQueueBatch(db, due, sh, batch));
  }

  lemma CloseBatchPresence(db: Db, due: Millis, sh: ShowId, batch: set<EntryId>)
    requires PresenceInv(db) && CloseQueue(due, sh) in db.jobs
    ensures PresenceInv(CloseQueueBatch(db, due, sh, batch))
  {
    forall s | s in db.presence ensures Watch(s, db.presence[s]) in CloseQueueBatch(db, due, sh, batch).jobs {
      assert Watch(s, db.presence[s]) != CloseQueue(due, sh);
    }
  }

  lemma CloseQueueKeeps(db: Db, due: Millis, sh: ShowId, batch: set<EntryId>)
    requires Inv(db)
    requires CloseQueue(due, sh) in db.jobs && batch <= ActiveEntries(db.entries, sh)
    ensures Inv(CloseQueueBatch(db, due, sh, batch))
  {
    hide LinksInv, CouplingInv, MoneyInv, PresenceInv;
    CloseBatchLinks(db, due, sh, batch);
    CloseBatchCoupling(db, due, sh, batch);
    MoneySame(db, CloseQueueBatch(db, due, sh, batch));
    CloseBatchPresence(db, due, sh, batch);
  }

  // ------------------------------------------------------------ presence.ts

  /** Steps that touch only seats and the schedule. */
  lemma SeatStepKeeps(db: Db, db': Db)
    requires Inv(db)
    requires db' == db.(presence := db'.presence, jobs := db'.jobs)
    requires ClosesEndedShows(db'.jobs, db.shows)
    requires PresenceInv(db')
    ensures Inv(db')
  {
    hide LinksInv, CouplingInv, MoneyInv, PresenceInv, ClosesEndedShows;
    LinksSame(db, db');
    CouplingSame(db, db');
    MoneySame(db, db');
  }

  lemma HeartbeatPresence(db: Db, seat: Seat)
    requires PresenceInv(db) && Heartbeat(db, seat).Ok?
    ensures PresenceInv(Heartbeat(db, seat).value)
  {
  }

  lemma HeartbeatKeeps(db: Db, seat: Seat)
    requires Inv(db)
    ensures Heartbeat(db, seat).Ok? ==> Inv(Heartbeat(db, seat).value)
  {
    hide LinksInv, CouplingInv, MoneyInv, PresenceInv;
    if Heartbeat(db, seat).Ok? {
      ClosesKnown(db);
      ClosesMore(db.jobs, CheckSeen(db.now + PRESENCE_TTL_MS, seat, db.now), db.shows);
      HeartbeatPresence(db, seat);
      SeatStepKeeps(db, Heartbeat(db, seat).value);
    }
  }

  /** Marking a seat disconnected replaces the job that watched it, which may just have run. */
  lemma MarkPresence(db: Db, jobs: multiset<Job>, seat: Seat)
    requires PresenceInv(db) && seat in db.presence
    requires forall s :: s in db.presence && s != seat ==> Watch(s, db.presence[s]) in jobs
    ensures PresenceInv(MarkDisconnected(db.(jobs := jobs), seat))
  {
  }

  lemma LeaveCallKeeps(db: Db, seat: Seat)
    requires Inv(db)
    ensures LeaveCall(db, seat).Ok? ==> Inv(LeaveCall(db, seat).value)
  {
    hide LinksInv, CouplingInv, MoneyInv, PresenceInv;
    if LeaveCall(db, seat).Ok? && LeaveCall(db, seat).value != db {
      ClosesKnown(db);
      ClosesMore(db.jobs, CheckGrace(db.now + DISCONNECT_GRACE_MS, seat, db.now), db.shows);
      SeatsWatched(db);
      MarkPresence(db, db.jobs, seat);
      SeatStepKeeps(db, MarkDisconnected(db, seat));
    }
  }

  lemma SeatsWatched(db: Db)
    requires PresenceInv(db)
    ensures forall s :: s in db.presence ==> Watch(s, db.presence[s]) in db.jobs
    ensures forall s :: s in db.presence ==> s.call in db.calls && Connectable(db.calls[s.call].status)
  {
  }

  lemma ClosesLess(jobs: multiset<Job>, job: Job, shows: map<ShowId, Show>)
    requires ClosesEndedShows(jobs, shows)
    ensures ClosesEndedShows(jobs - multiset{job}, shows)
  {
  }

  /** Taking a job that watches nobody any more. */
  lemma TakenPresence(db: Db, job: Job)
    requires PresenceInv(db)
    requires forall s :: s in db.presence ==> Watch(s, db.presence[s]) != job
    ensures PresenceInv(Taken(db, job))
  {
  }

  lemma TakenLinked(db: Db, job: Job)
    requires Linked(db)
    ensures Linked(Taken(db, job))
  {
    hide L.Valid;
  }

  lemma TakenKeeps(db: Db, job: Job)
    requires Inv(db)
    requires forall s :: s in db.presence ==> Watch(s, db.presence[s]) != job
    ensures Inv(Taken(db, job))
  {
    hide LinksInv, CouplingInv, MoneyInv, PresenceInv;
    ClosesKnown(db);
    ClosesLess(db.jobs, job, db.shows);
    TakenPresence(db, job);
    SeatStepKeeps(db, Taken(db, job));
  }

  lemma CheckSeenKeeps(db: Db, due: Millis, seat: Seat, seenAt: Millis)
    requires Inv(db)
    ensures Inv(RunCheckSeen(db, due, seat, seenAt))
  {
    hide LinksInv, CouplingInv, MoneyInv, PresenceInv;
    var job := CheckSeen(due, seat, seenAt);
    if seat !in db.presence || db.presence[seat].lastSeenAt != seenAt || db.presence[seat].disconnectedAt.Some? {
      TakenKeeps(db, job);
    } else {
      ClosesKnown(db);
      ClosesLess(db.jobs, job, db.shows);
      var grace := CheckGrace(db.now + DISCONNECT_GRACE_MS, seat, db.now);
      ClosesMore(db.jobs - multiset{job}, grace, db.shows);
      SeatsWatched(db);
      MarkPresence(db, db.jobs - multiset{job}, seat);
      SeatStepKeeps(db, RunCheckSeen(db, due, seat, seenAt));
    }
  }

  lemma CheckGraceKeeps(db: Db, due: Millis, seat: Seat, at: Millis)
    requires Inv(db) && Linked(db) && CheckGrace(due, seat, at) in db.jobs
    ensures Inv(RunCheckGrace(db, due, seat, at))
  {
    hide LinksInv, CouplingInv, MoneyInv, PresenceInv;
    var job := CheckGrace(due, seat, at);
    if seat !in db.presence || db.presence[seat].disconnectedAt != Some(at) {
      TakenKeeps(db, job);
    } else {
      var c := seat.call;
      SeatsWatched(db);
      FinishKeeps(db, c, CallFailed);
      var over := Finish(db, c, CallFailed);
      TakenKeeps(over, job);
      TakenCommutes(db, c, job);
    }
  }

  /** Taking a job before or after hanging up comes to the same. */
  lemma TakenCommutes(db: Db, c: CallId, job: Job)
    requires c in db.calls && job in db.jobs
    requires db.calls[c].entry in db.entries
    requires db.calls[c].attempt.Some? ==> db.calls[c].attempt.value in db.attempts
    ensures Finish(Taken(db, job), c, CallFailed) == Taken(Finish(db, c, CallFailed), job)
  {
    var call := db.calls[c];
    var over := db.(
      calls := db.calls[c := call.(status := CallFailed, endedAt := Some(db.now))],
      entries := db.entries[call.entry := db.entries[call.entry].(status := EntryEnded)],
      presence := PresenceWithout(db.presence, c));
    if call.startedAt.None? && call.attempt.Some? {
      TakenBeforeRefund(over, call.attempt.value, c, job);
    }
  }

  lemma TakenBeforeRefund(db: Db, a: AttemptId, c: CallId, job: Job)
    requires a in db.attempts && job in db.jobs
    ensures RequestRefund(Taken(db, job), a, c) == Taken(RequestRefund(db, a, c), job)
  {
    hide RefundedAttempts;
    JobsCommute(db.jobs, job, RunRefund(db.now, db.nextId));
  }

  lemma JobsCommute(jobs: multiset<Job>, taken: Job, added: Job)
    requires taken in jobs
    ensures jobs - multiset{taken} + multiset{added} == jobs + multiset{added} - multiset{taken}
  {
  }
}
