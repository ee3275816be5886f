/**
 Why settlement needs consistent Stripe outcomes: a run in which Stripe first
 reports a payment as canceled and then as succeeded, while the show is live.
 The money is captured, the call is over, and nobody is credited or refunded.
 */
module LateSuccess {
  import opened Common
  import opened Tables
  import opened Steps
  import opened Runs
  import opened Settlement
  import L = Ledger
  import Fees

  /** One show by user 7 with one tier of 50 cents; user 9 calls in. */
  function Opening(): Db {
    Db(0, 0, 0, map[0 := Tier(0, 100, 50, 60, true)], map[], map[], map[], map[], map[], map[], L.EMPTY, map[], map[], {}, multiset{})
  }

  function Hold(status: PaymentStatus, hasIntent: bool, entry: Option<EntryId>): Attempt {
    Attempt(0, 7, 0, 9, 50, Fees.FeesFor(50, Fees.CreatorFeeBps(None)).platformFeeCents, status, hasIntent, entry)
  }

  function Caller(status: EntryStatus): Entry {
    Entry(0, 9, status, 100, 0, 50, 60, Some(1))
  }

  function PaidCall(status: CallStatus, endedAt: Option<Millis>): Call {
    Call(0, 2, status, 60, None, endedAt, None, Some(1))
  }

  function OnAir(): Db {
    Opening().(shows := map[0 := Show(7, ShowLive)], nextId := 1)
  }

  function Held(): Db {
    OnAir().(attempts := map[1 := Hold(PayAuthorized, true, None)], nextId := 2)
  }

  function Queued(): Db {
    Held().(attempts := map[1 := Hold(PayAuthorized, true, Some(2))], entries := map[2 := Caller(Waiting)], nextId := 3)
  }

  function Picked(): Db {
    Queued().(attempts := map[1 := Hold(PayCapturing, true, Some(2))], entries := map[2 := Caller(Selected)],
              calls := map[3 := PaidCall(PaymentPending, None)], nextId := 4, jobs := multiset{CapturePayment(0, 3)})
  }

  function Refused(): Db {
    Picked().(attempts := map[1 := Hold(PayCanceled, true, Some(2))], entries := map[2 := Caller(Left)],
              calls := map[3 := PaidCall(CallFailed, Some(0))])
  }

  function Charged(): Db {
    Refused().(attempts := map[1 := Hold(PayCaptured, true, Some(2))])
  }

  lemma Patched<T>(k: nat, before: T, after: T)
    ensures map[k := before][k := after] == map[k := after]
    ensures map[][k := after] == map[k := after]
  {
  }

  /** The only call there is, found by its payment. */
  lemma OnlyCall(call: Call)
    requires call.attempt == Some(1)
    ensures CallFor(map[3 := call], 1) == Some(3)
  {
    assert 3 in map[3 := call];
  }

  /** From a linked state a step is its mutation. */
  lemma Takes(db: Db, op: Op, db': Db)
    requires Linked(db) && Step(db, op) == db'
    ensures Next(db, op) == db'
  {
    hide Step, Linked;
  }

  /** The states of this run post nothing, so they are linked as soon as their rows are. */
  lemma Tidy(db: Db)
    requires db.ledger == L.EMPTY && db.refunds == map[]
    requires forall a :: a in db.attempts ==> db.attempts[a].amountCents > 0
    requires forall a :: a in db.attempts && db.attempts[a].entry.Some? ==> db.attempts[a].entry.value in db.entries
    requires forall c :: c in db.calls ==> db.calls[c].entry in db.entries
    requires forall c :: c in db.calls && db.calls[c].attempt.Some? ==> db.calls[c].attempt.value in db.attempts
    ensures Linked(db)
  {
  }

  function Planned(): Db {
    Opening().(shows := map[0 := Show(7, ShowCreated)], nextId := 1)
  }

  function Prepared(): Db {
    OnAir().(attempts := map[1 := Hold(PayCreated, false, None)], nextId := 2)
  }

  function Attached(): Db {
    OnAir().(attempts := map[1 := Hold(PayCreated, true, None)], nextId := 2)
  }

  lemma ShowIsPlanned()
    ensures Next(Opening(), CreateShowOp(7)) == Planned()
  {
    hide L.EMPTY;
    Patched(0, Show(7, ShowCreated), Show(7, ShowCreated));
    Tidy(Opening());
    Takes(Opening(), CreateShowOp(7), Planned());
  }

  lemma GoesOnAir()
    ensures Next(Planned(), StartShowOp(0, 7, true)) == OnAir()
  {
    hide L.EMPTY;
    Patched(0, Show(7, ShowCreated), Show(7, ShowLive));
    Tidy(Planned());
    var db := Planned();
    assert 0 in db.tiers && db.tiers[0].show == 0 && db.tiers[0].enabled;
    assert forall o :: o in db.shows ==> db.shows[o].status == ShowCreated;
    assert db.(shows := db.shows[0 := Show(7, ShowLive)]) == OnAir();
    assert StartShow(Planned(), 0, 7, true) == Ok(OnAir());
    Takes(Planned(), StartShowOp(0, 7, true), OnAir());
  }

  lemma HoldIsPrepared()
    ensures Next(OnAir(), PrepareOp(0, 0, 9)) == Prepared()
  {
    hide L.EMPTY, Fees.FeesFor;
    var hold := Hold(PayCreated, false, None);
    Patched(1, hold, hold);
    Tidy(OnAir());
    assert Prepare(OnAir(), 0, 0, 9) == Ok(Prepared());
    Takes(OnAir(), PrepareOp(0, 0, 9), Prepared());
  }

  lemma HoldIsAttached()
    ensures Next(Prepared(), AttachIntentOp(1)) == Attached()
  {
    hide L.EMPTY, Fees.FeesFor;
    Patched(1, Hold(PayCreated, false, None), Hold(PayCreated, true, None));
    Tidy(Prepared());
    Takes(Prepared(), AttachIntentOp(1), Attached());
  }

  lemma HoldIsPlaced()
    ensures Next(Attached(), AuthorizeOp(1)) == Held()
  {
    hide L.EMPTY, Fees.FeesFor;
    Patched(1, Hold(PayCreated, true, None), Hold(PayAuthorized, true, None));
    Tidy(Attached());
    Takes(Attached(), AuthorizeOp(1), Held());
  }

  lemma CallerJoins()
    ensures Next(Held(), JoinOp(0, 9, 0, Some(1))) == Queued()
  {
    hide Join, Linked, Held, Queued;
    JoinedRows();
    Takes(Held(), JoinOp(0, 9, 0, Some(1)), Queued());
  }

  lemma JoinedRows()
    ensures Linked(Held()) && Join(Held(), 0, 9, 0, Some(1)) == Ok(Queued())
  {
    hide L.EMPTY, Fees.FeesFor;
    Patched(1, Hold(PayAuthorized, true, None), Hold(PayAuthorized, true, Some(2)));
    Patched(2, Caller(Waiting), Caller(Waiting));
    Tidy(Held());
  }

  lemma CallerIsPicked()
    ensures Next(Queued(), SelectOp(0, 7, 2)) == Picked()
  {
    hide Select, Picked, Queued, Linked;
    SelectionRows();
    Takes(Queued(), SelectOp(0, 7, 2), Picked());
  }

  lemma SelectionRows()
    ensures Linked(Queued()) && Select(Queued(), 0, 7, 2) == Ok(Picked())
  {
    hide L.EMPTY, Fees.FeesFor;
    Tidy(Queued());
    CallIsCreated();
    assert Queued().calls == map[];
    assert ActiveCall(Queued().calls, 0).None?;
    hide CreateCall, ActiveCall, Linked;
  }

  lemma CallIsCreated()
    ensures CreateCall(Queued(), 0, 2) == Ok(Picked())
  {
    hide L.EMPTY, Fees.FeesFor;
    Patched(1, Hold(PayAuthorized, true, Some(2)), Hold(PayCapturing, true, Some(2)));
    Patched(2, Caller(Waiting), Caller(Selected));
    Patched(3, PaidCall(PaymentPending, None), PaidCall(PaymentPending, None));
    assert multiset{} + multiset{CapturePayment(0, 3)} == multiset{CapturePayment(0, 3)};
  }

  lemma RefusalRows()
    ensures 1 in Picked().attempts && Linked(Picked()) && RecordNotCaptured(Picked(), 1, PayCanceled) == Refused()
  {
    hide L.EMPTY, Fees.FeesFor, CallFor, Linked;
    Patched(1, Hold(PayCapturing, true, Some(2)), Hold(PayCanceled, true, Some(2)));
    Patched(2, Caller(Selected), Caller(Left));
    Patched(3, PaidCall(PaymentPending, None), PaidCall(CallFailed, Some(0)));
    Tidy(Picked());
    OnlyCall(PaidCall(PaymentPending, None));
  }

  lemma PaymentIsRefused()
    ensures Next(Picked(), NotCapturedOp(1, true)) == Refused()
  {
    assert Picked().attempts[1].hasIntent;
    hide RecordNotCaptured, Linked, Refused, Picked;
    RefusalRows();
    Takes(Picked(), NotCapturedOp(1, true), Refused());
  }

  lemma SuccessRows()
    ensures 1 in Refused().attempts && Linked(Refused()) && RecordCaptured(Refused(), 1) == Charged()
  {
    hide L.EMPTY, Fees.FeesFor, SettleCaptured, CallFor, Linked;
    Patched(1, Hold(PayCanceled, true, Some(2)), Hold(PayCaptured, true, Some(2)));
    Tidy(Refused());
    OnlyCall(PaidCall(CallFailed, Some(0)));
    OverInLiveShow(Charged(), 1, 3);
  }

  /** The gap: a call that is over in a live show is neither opened nor refunded. */
  lemma OverInLiveShow(db: Db, a: AttemptId, c: CallId)
    requires a in db.attempts && c in db.calls && db.calls[c].entry in db.entries
    requires Finished(db.calls[c].status) && IsLive(db.shows, db.calls[c].show)
    ensures SettleCaptured(db, a, c) == db
  {
    hide RequestRefund, FailUnpaid;
  }

  lemma PaymentSucceedsAfterAll()
    ensures Next(Refused(), CapturedOp(1)) == Charged()
  {
    assert Refused().attempts[1].hasIntent;
    hide RecordCaptured, Linked, Refused, Charged;
    SuccessRows();
    Takes(Refused(), CapturedOp(1), Charged());
  }

  /** The notices and mutations of the run, in order. */
  function Mishap(): seq<Op> {
    [CreateShowOp(7), StartShowOp(0, 7, true), PrepareOp(0, 0, 9), AttachIntentOp(1), AuthorizeOp(1),
     JoinOp(0, 9, 0, Some(1)), SelectOp(0, 7, 2), NotCapturedOp(1, true), CapturedOp(1)]
  }

  lemma RunOne(db: Db, ops: seq<Op>, k: nat)
    requires k < |ops|
    ensures Run(db, ops[k..]) == Run(Next(db, ops[k]), ops[k + 1..])
  {
    assert ops[k..][1..] == ops[k + 1..];
  }

  lemma EndOfRun(db: Db, ops: seq<Op>)
    requires ops == []
    ensures Run(db, ops) == db
  {
  }

  lemma FirstSteps(ops: seq<Op>)
    requires |ops| >= 7 && ops[..7] == Mishap()[..7]
    ensures ops[0] == CreateShowOp(7) && ops[1] == StartShowOp(0, 7, true) && ops[2] == PrepareOp(0, 0, 9)
    ensures ops[3] == AttachIntentOp(1) && ops[4] == AuthorizeOp(1) && ops[5] == JoinOp(0, 9, 0, Some(1))
    ensures ops[6] == SelectOp(0, 7, 2) && ops == ops[0..]
  {
    assert forall k :: 0 <= k < 7 ==> ops[k] == ops[..7][k] && Mishap()[..7][k] == Mishap()[k];
  }

  /** Any run that begins like the mishap passes through the state in which the caller is picked. */
  lemma CallerIsPickedAfter(ops: seq<Op>)
    requires |ops| >= 7 && ops[..7] == Mishap()[..7]
    ensures Run(Opening(), ops) == Run(Picked(), ops[7..])
  {
    hide Next, Run, OnAir, Held, Queued, Picked, Opening, Planned, Prepared, Attached;
    FirstSteps(ops);
    hide Mishap;
    ShowIsPlanned();
    GoesOnAir();
    HoldIsPrepared();
    HoldIsAttached();
    HoldIsPlaced();
    CallerJoins();
    CallerIsPicked();
    RunOne(Opening(), ops, 0);
    RunOne(Planned(), ops, 1);
    RunOne(OnAir(), ops, 2);
    RunOne(Prepared(), ops, 3);
    RunOne(Attached(), ops, 4);
    RunOne(Held(), ops, 5);
    RunOne(Queued(), ops, 6);
  }

  lemma MishapEnds()
    ensures Run(Opening(), Mishap()) == Charged()
  {
    hide Next, Run;
    PaymentIsRefused();
    PaymentSucceedsAfterAll();
    hide Picked, Refused, Charged, Opening;
    var m := Mishap();
    CallerIsPickedAfter(m);
    RunOne(Picked(), m, 7);
    RunOne(Refused(), m, 8);
    EndOfRun(Charged(), m[9..]);
  }

  /** Without consistency, settlement is not complete: the captured payment is neither earned nor refunded. */
  lemma SettlementNeedsConsistency()
    ensures Initial(Opening()) && !Consistent(Mishap()) && !FullySettled(Run(Opening(), Mishap()))
  {
    hide Run;
    assert FailureNoticeOf(Mishap()[7]) == SuccessNoticeOf(Mishap()[8]) == Some(1);
    assert Charged().calls[3] == PaidCall(CallFailed, Some(0));
    assert Charged().attempts[1].status == PayCaptured;
    assert 1 !in RefundedAttempts(Charged().refunds);
    assert !FullySettled(Charged());
    hide FullySettled, Charged;
    MishapEnds();
  }
}
