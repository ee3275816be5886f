/**
 Whether the refund Bling requested is the one that was made. A refund notice
 whose Stripe id is unknown goes to the payment's first refund row without an
 id, whoever made the refund and of whatever amount. A notice of a dashboard
 refund can so take the place of Bling's own; this module says exactly when.
 */
module ForeignNotices {
  import opened Common
  import opened Tables
  import opened Steps
  import opened Invariants
  import opened Preservation
  import opened QueuePreservation
  import opened RefundPreservation
  import opened Runs
  import opened Settlement
  import opened Timers
  import opened RefundWorker
  import opened OwnRefunds
  import L = Ledger

  // ------------------------------------------------------------ whose refund it is

  /** Stripe's own knowledge: the refunds Bling's requests made, each with the row it was made for. */
  type Made = map<nat, RefundId>

  predicate MadeFor(made: Made, stripeId: nat, r: RefundId) {
    stripeId in made && made[stripeId] == r
  }

  /** The Stripe id on a row of Bling's own, if there is one, is of the refund made for that row. */
  ghost predicate TrueRow(db: Db, r: RefundId, made: Made) {
    r in db.refunds && db.refunds[r].own && db.refunds[r].stripeId.Some? ==> MadeFor(made, db.refunds[r].stripeId.value, r)
  }

  /** A worker records the refund Stripe made for its row, or read back under the id the row has. */
  ghost predicate Honest(db: Db, op: Op, made: Made) {
    op.RecordRefundOp? && op.refund in db.refunds && db.refunds[op.refund].own ==>
      MadeFor(made, op.stripeId, op.refund) || db.refunds[op.refund].stripeId == Some(op.stripeId)
  }

  /** A notice of another refund marks a row of Bling's own. */
  ghost predicate ForeignNotice(db: Db, op: Op, r: RefundId, made: Made) {
    MarksRow(db, op, r) && db.refunds[r].own && !MadeFor(made, op.notice.stripeId, r)
  }

  /**
   When a notice goes to a row that has no Stripe id: its own id is not on
   record, and the row is the payment's first without one. The amount and the
   one who made the refund play no part.
   */
  lemma MarksIff(refunds: map<RefundId, Refund>, stripeId: nat, intent: Option<AttemptId>, r: RefundId)
    requires r in refunds
    ensures RefundFor(refunds, stripeId, intent) == Some(r) && refunds[r].stripeId.None?
       <==> && (forall q :: q in refunds ==> refunds[q].stripeId != Some(stripeId))
            && intent == Some(refunds[r].attempt) && refunds[r].stripeId.None?
            && (forall q :: q in refunds && refunds[q].attempt == refunds[r].attempt && refunds[q].stripeId.None? ==> r <= q)
  {
    var named := RefundsNamed(refunds, stripeId);
    FirstIs(named, r);
    assert named == {} <==> forall q :: q in refunds ==> refunds[q].stripeId != Some(stripeId) by {
      assert forall q :: q in refunds && refunds[q].stripeId == Some(stripeId) ==> q in named;
    }
    if named == {} && intent.Some? {
      var unnamed := UnnamedRefunds(refunds, intent.value);
      FirstIs(unnamed, r);
      assert forall q :: q in unnamed <==> q in refunds && refunds[q].attempt == intent.value && refunds[q].stripeId.None?;
      assert RefundFor(refunds, stripeId, intent) == FirstId(unnamed);
    }
    if named != {} && refunds[r].stripeId.None? {
      assert r !in named;
      assert RefundFor(refunds, stripeId, intent) == FirstId(named);
    }
  }

  lemma FirstIs(s: set<nat>, r: nat)
    ensures FirstId(s) == Some(r) <==> r in s && forall q :: q in s ==> r <= q
    ensures FirstId(s) == None <==> s == {}
  {
  }

  // ------------------------------------------------------------ one step

  /** The marked row takes the notice's id and outcome for its own. */
  lemma MarkWrites(db: Db, op: Op, r: RefundId)
    requires Inv(db) && MarksRow(db, op, r)
    ensures Next(db, op).refunds
         == db.refunds[r := db.refunds[r].(status := op.notice.outcome, stripeId := Some(op.notice.stripeId))]
  {
    hide LinksInv, CouplingInv, MoneyInv, PresenceInv, SettleRefund, RefundFor;
    NextKeeps(db, op);
    var noted := db.(events := db.events + {op.event});
    LinkedNoted(db, noted);
    SettledRow(noted, r, op.notice.stripeId, op.notice.outcome);
    hide L.Valid;
  }

  lemma LinkedNoted(db: Db, noted: Db)
    requires Linked(db) && noted == db.(events := noted.events)
    ensures Linked(noted)
  {
    hide L.Valid;
  }

  lemma NextRow(db: Db, op: Op)
    requires Inv(db)
    ensures RowStep(db, op, Next(db, op))
  {
    hide LinksInv, CouplingInv, MoneyInv, PresenceInv, Step, RowStep;
    NextKeeps(db, op);
    IdsKnown(db);
    hide Linked, Next;
    StepWritesOneRow(db, op);
  }

  /** Unless a foreign notice marks it, a true row stays true. */
  lemma UnmarkedStaysTrue(db: Db, op: Op, db': Db, r: RefundId, made: Made)
    requires RowStep(db, op, db') && Honest(db, op, made) && TrueRow(db, r, made) && !ForeignNotice(db, op, r, made)
    ensures TrueRow(db', r, made)
  {
    hide RefundedAttempts, RefundFor, ClaimedBy;
  }

  /** The exact condition for one step: a row's Stripe id is its own refund's unless a foreign notice marks the row. */
  lemma StepTrueIff(db: Db, op: Op, r: RefundId, made: Made)
    requires Inv(db) && Honest(db, op, made) && TrueRow(db, r, made)
    ensures TrueRow(Next(db, op), r, made) <==> !ForeignNotice(db, op, r, made)
  {
    NextRow(db, op);
    hide Inv, Next, RowStep, MarksRow, Honest;
    if ForeignNotice(db, op, r, made) {
      MarkWrites(db, op, r);
      MarkedIsKnown(db, op, r);
    } else {
      UnmarkedStaysTrue(db, op, Next(db, op), r, made);
    }
  }

  /** The outcome is written by a worker of the row, or by a notice of the row's own refund. */
  ghost predicate OwnOutcome(op: Op, r: RefundId, status: RefundStatus, made: Made) {
    || ((op.ClaimRefundOp? || op.RecordRefundOp? || op.RetryRefundOp?) && op.refund == r)
    || (op.WebhookOp? && op.notice.RefundNotice? && MadeFor(made, op.notice.stripeId, r) && status == op.notice.outcome)
  }

  lemma OldOutcomeIsOwn(db: Db, op: Op, r: RefundId, refund: Refund, made: Made)
    requires r in db.refunds && db.refunds[r].own && TrueRow(db, r, made) && !ForeignNotice(db, op, r, made)
    requires OldRow(db, op, r, refund)
    ensures refund.status == db.refunds[r].status || OwnOutcome(op, r, refund.status, made)
  {
    hide RefundFor, ClaimedBy, IdMoves, SameRefund;
  }

  lemma RowOutcomeIsOwn(db: Db, op: Op, db': Db, r: RefundId, made: Made)
    requires RowStep(db, op, db')
    requires r in db.refunds && db.refunds[r].own && TrueRow(db, r, made) && !ForeignNotice(db, op, r, made)
    ensures r in db'.refunds
    ensures db'.refunds[r].status == db.refunds[r].status || OwnOutcome(op, r, db'.refunds[r].status, made)
  {
    hide *;
    if db'.refunds != db.refunds {
      var q := WrittenRow(db, op, db');
      if NewRow(db, db', q) {
        NewRowIsNew(db, db', q);
      } else if q == r {
        OldOutcomeIsOwn(db, op, r, db'.refunds[r], made);
      }
    }
  }

  /** A true row that no foreign notice marks changes its outcome only by its own worker, or by notices of its own refund. */
  lemma OutcomeIsOwn(db: Db, op: Op, r: RefundId, made: Made)
    requires Inv(db) && r in db.refunds && db.refunds[r].own && TrueRow(db, r, made) && !ForeignNotice(db, op, r, made)
    ensures r in Next(db, op).refunds
    ensures var status := Next(db, op).refunds[r].status; status == db.refunds[r].status || OwnOutcome(op, r, status, made)
  {
    hide *;
    NextRow(db, op);
    RowOutcomeIsOwn(db, op, Next(db, op), r, made);
  }

  lemma MarkedIsKnown(db: Db, op: Op, r: RefundId)
    requires MarksRow(db, op, r)
    ensures r in db.refunds && op.WebhookOp? && op.notice.RefundNotice?
  {
  }

  // ------------------------------------------------------------ whole runs

  ghost predicate HonestRun(db: Db, ops: seq<Op>, made: Made)
    decreases |ops|
  {
    ops == [] || (Honest(db, ops[0], made) && HonestRun(Next(db, ops[0]), ops[1..], made))
  }

  /** The row's Stripe id, and with it every outcome after the worker's own, is of its own refund all along. */
  ghost predicate AlwaysTrue(db: Db, ops: seq<Op>, r: RefundId, made: Made)
    decreases |ops|
  {
    TrueRow(db, r, made) && (ops == [] || AlwaysTrue(Next(db, ops[0]), ops[1..], r, made))
  }

  /** No notice of another refund arrives while the row has no Stripe id. */
  ghost predicate NoForeign(db: Db, ops: seq<Op>, r: RefundId, made: Made)
    decreases |ops|
  {
    ops == [] || (!ForeignNotice(db, ops[0], r, made) && NoForeign(Next(db, ops[0]), ops[1..], r, made))
  }

  /** Over whole runs: true all along if and only if no foreign notice arrived in time. */
  lemma {:induction false} AlwaysTrueIff(db: Db, ops: seq<Op>, r: RefundId, made: Made)
    requires Inv(db) && HonestRun(db, ops, made) && TrueRow(db, r, made)
    ensures AlwaysTrue(db, ops, r, made) <==> NoForeign(db, ops, r, made)
    decreases |ops|
  {
    hide Inv, Next, TrueRow, Honest, ForeignNotice;
    if ops != [] {
      NextKeeps(db, ops[0]);
      StepTrueIff(db, ops[0], r, made);
      if !ForeignNotice(db, ops[0], r, made) {
        AlwaysTrueIff(Next(db, ops[0]), ops[1..], r, made);
      } else {
        UntrueNow(Next(db, ops[0]), ops[1..], r, made);
      }
    }
  }

  lemma UntrueNow(db: Db, ops: seq<Op>, r: RefundId, made: Made)
    requires !TrueRow(db, r, made)
    ensures !AlwaysTrue(db, ops, r, made)
  {
    hide TrueRow, Next;
  }

  /** A final row keeps the Stripe id it has. */
  lemma FinalKeepsId(db: Db, op: Op, db': Db, r: RefundId)
    requires RowStep(db, op, db') && r in db.refunds && FinalRefund(db.refunds[r].status) && db.refunds[r].stripeId.Some?
    ensures r in db'.refunds && FinalRefund(db'.refunds[r].status) && db'.refunds[r].stripeId == db.refunds[r].stripeId
  {
    hide RefundedAttempts, RefundFor, ClaimedBy, IdMoves;
  }

  lemma {:induction false} IdSticks(db: Db, ops: seq<Op>, r: RefundId)
    requires Inv(db) && r in db.refunds && FinalRefund(db.refunds[r].status) && db.refunds[r].stripeId.Some?
    ensures var later := Run(db, ops); r in later.refunds && later.refunds[r].stripeId == db.refunds[r].stripeId
    decreases |ops|
  {
    hide Inv, Next, RowStep;
    if ops != [] {
      NextKeeps(db, ops[0]);
      NextRow(db, ops[0]);
      FinalKeepsId(db, ops[0], Next(db, ops[0]), r);
      IdSticks(Next(db, ops[0]), ops[1..], r);
    }
  }

  /**
   A foreign notice of a success or failure is final: from then on Bling's own
   row bears the other refund's id and no worker ever takes it up again.
   */
  lemma ForeignOutcomeSticks(db: Db, op: Op, ops: seq<Op>, r: RefundId, made: Made)
    requires Inv(db) && ForeignNotice(db, op, r, made) && FinalRefund(op.notice.outcome)
    ensures var db1 := Next(db, op);
      var later := Run(db1, ops);
      && r in later.refunds && FinalRefund(later.refunds[r].status)
      && later.refunds[r].stripeId == Some(op.notice.stripeId) && !TrueRow(later, r, made)
      && Claims(db1, ops, r) == 0
  {
    hide Inv, Next, Run, Claims, RefundFor;
    var db1 := Next(db, op);
    NextKeeps(db, op);
    MarkWrites(db, op, r);
    FinalIsFinal(db1, ops, r);
    IdSticks(db1, ops, r);
    RowStaysOwn(db1, ops, r);
  }

  lemma {:induction false} RowStaysOwn(db: Db, ops: seq<Op>, r: RefundId)
    requires Inv(db) && r in db.refunds
    ensures var later := Run(db, ops); r in later.refunds && SameRefund(db.refunds[r], later.refunds[r])
    decreases |ops|
  {
    hide Inv, Next;
    if ops != [] {
      NextKeeps(db, ops[0]);
      NextMoves(db, ops[0]);
      RowStaysOwn(Next(db, ops[0]), ops[1..], r);
    }
  }

  // ------------------------------------------------------------ repaid

  /**
   Bling requested a refund of the whole payment, and the refund Stripe made for
   that request succeeded. The request names no amount, so it returns all that
   is left of the payment.
   */
  ghost predicate ReturnedInFull(db: Db, a: AttemptId, made: Made) {
    a in db.attempts && exists r | r in db.refunds && OwnFull(db.refunds[r], a, db.attempts[a].amountCents) ::
      db.refunds[r].status == Succeeded && db.refunds[r].stripeId.Some? && MadeFor(made, db.refunds[r].stripeId.value, r)
  }

  ghost predicate SuccessesHaveIds(db: Db) {
    forall r :: r in db.refunds && db.refunds[r].status == Succeeded ==> db.refunds[r].stripeId.Some?
  }

  lemma StepKeepsSuccessIds(db: Db, op: Op, db': Db)
    requires SuccessesHaveIds(db) && RowStep(db, op, db')
    ensures SuccessesHaveIds(db')
  {
    hide RefundedAttempts, RefundFor, ClaimedBy, IdMoves;
  }

  lemma {:induction false} RunKeepsSuccessIds(db: Db, ops: seq<Op>)
    requires Inv(db) && SuccessesHaveIds(db)
    ensures SuccessesHaveIds(Run(db, ops))
    decreases |ops|
  {
    hide Inv, Next, RowStep, SuccessesHaveIds;
    if ops != [] {
      NextKeeps(db, ops[0]);
      NextRow(db, ops[0]);
      StepKeepsSuccessIds(db, ops[0], Next(db, ops[0]));
      RunKeepsSuccessIds(Next(db, ops[0]), ops[1..]);
    }
  }

  lemma {:induction false} RunKeepsOwnFull(db: Db, ops: seq<Op>)
    requires Inv(db) && OwnRowsFull(db)
    ensures OwnRowsFull(Run(db, ops))
    decreases |ops|
  {
    hide Inv, Next, OwnRowsFull, Kept;
    if ops != [] {
      NextKeeps(db, ops[0]);
      NextKept(db, ops[0]);
      RowsStayFull(db, Next(db, ops[0]));
      RunKeepsOwnFull(Next(db, ops[0]), ops[1..]);
    }
  }

  /** Bling's own row is the only one of its payment. */
  lemma OneOwnRow(db: Db, q: RefundId, r: RefundId)
    requires MoneyInv(db) && q in db.refunds && r in db.refunds && db.refunds[q].own && db.refunds[r].own
    requires db.refunds[q].attempt == db.refunds[r].attempt
    ensures q == r
  {
    hide L.Valid, EarningsFollowCalls, WorkerOk;
  }

  lemma ReturnedIffTrue(db: Db, r: RefundId, made: Made)
    requires MoneyInv(db) && OwnRowsFull(db) && SuccessesHaveIds(db)
    requires r in db.refunds && db.refunds[r].own && db.refunds[r].status == Succeeded
    ensures ReturnedInFull(db, db.refunds[r].attempt, made) <==> TrueRow(db, r, made)
  {
    var a := db.refunds[r].attempt;
    if ReturnedInFull(db, a, made) {
      var q :| q in db.refunds && OwnFull(db.refunds[q], a, db.attempts[a].amountCents)
               && db.refunds[q].status == Succeeded
               && db.refunds[q].stripeId.Some? && MadeFor(made, db.refunds[q].stripeId.value, q);
      OneOwnRow(db, q, r);
    }
    hide MoneyInv;
    if TrueRow(db, r, made) {
      assert OwnFull(db.refunds[r], a, db.attempts[a].amountCents);
    }
  }

  /**
   In every reachable state a refund Bling requested and shows as succeeded was
   really made for that request if and only if the row's Stripe id is of its own
   refund; and where no foreign notice came while the row had no id, it is.
   */
  lemma SuccessIsReturned(start: Db, ops: seq<Op>, r: RefundId, made: Made)
    requires Initial(start) && HonestRun(start, ops, made)
    requires var db := Run(start, ops); r in db.refunds && db.refunds[r].own && db.refunds[r].status == Succeeded
    ensures var db := Run(start, ops); ReturnedInFull(db, db.refunds[r].attempt, made) <==> TrueRow(db, r, made)
    ensures NoForeign(start, ops, r, made) ==> ReturnedInFull(Run(start, ops), Run(start, ops).refunds[r].attempt, made)
  {
    hide LinksInv, CouplingInv, MoneyInv, PresenceInv, Initial, Run, OwnRowsFull, SuccessesHaveIds, ReturnedInFull, NoForeign, AlwaysTrue, TrueRow, HonestRun;
    InitialInv(start);
    StartsTrue(start, r, made);
    RunKeeps(start, ops);
    RunKeepsOwnFull(start, ops);
    RunKeepsSuccessIds(start, ops);
    ReturnedIffTrue(Run(start, ops), r, made);
    AlwaysTrueIff(start, ops, r, made);
    if NoForeign(start, ops, r, made) {
      TrueInTheEnd(start, ops, r, made);
    }
  }

  lemma StartsTrue(start: Db, r: RefundId, made: Made)
    requires Initial(start)
    ensures OwnRowsFull(start) && SuccessesHaveIds(start) && TrueRow(start, r, made)
  {
  }

  lemma {:induction false} TrueInTheEnd(db: Db, ops: seq<Op>, r: RefundId, made: Made)
    requires AlwaysTrue(db, ops, r, made)
    ensures TrueRow(Run(db, ops), r, made)
    decreases |ops|
  {
    hide TrueRow, Next;
    if ops != [] {
      TrueInTheEnd(Next(db, ops[0]), ops[1..], r, made);
    }
  }

  // ------------------------------------------------------------ settlement, all the way

  /** No notice of another refund marks Bling's own row of payment `a`. */
  ghost predicate NoForeignOf(db: Db, ops: seq<Op>, a: AttemptId, made: Made)
    decreases |ops|
  {
    ops == []
    || ((forall r :: ForeignNotice(db, ops[0], r, made) ==> r in db.refunds && db.refunds[r].attempt != a)
        && NoForeignOf(Next(db, ops[0]), ops[1..], a, made))
  }

  /** For the one row of Bling's own that a payment has in the end, the two mean the same. */
  lemma {:induction false} ForeignOfRow(db: Db, ops: seq<Op>, r: RefundId, a: AttemptId, made: Made)
    requires Inv(db)
    requires var end := Run(db, ops); r in end.refunds && end.refunds[r].own && end.refunds[r].attempt == a
    ensures NoForeignOf(db, ops, a, made) <==> NoForeign(db, ops, r, made)
    decreases |ops|
  {
    hide LinksInv, CouplingInv, MoneyInv, PresenceInv, Next, MarksRow;
    if ops != [] {
      RunKeeps(db, ops);
      forall q | ForeignNotice(db, ops[0], q, made)
        ensures q in db.refunds && (db.refunds[q].attempt == a <==> q == r)
      {
        MarkedIsKnown(db, ops[0], q);
        RowStaysOwn(db, ops, q);
        if db.refunds[q].attempt == a {
          OneOwnRow(Run(db, ops), q, r);
        }
      }
      NextKeeps(db, ops[0]);
      hide ForeignNotice;
      ForeignOfRow(Next(db, ops[0]), ops[1..], r, a, made);
    }
  }

  /** Bling's own row of the whole payment, true to its own Stripe refund all along. */
  ghost predicate OwnAllAlong(start: Db, ops: seq<Op>, a: AttemptId, made: Made) {
    var db := Run(start, ops);
    a in db.attempts && exists r | r in db.refunds && OwnFull(db.refunds[r], a, db.attempts[a].amountCents) ::
      AlwaysTrue(start, ops, r, made)
  }

  /**
   With consistent Stripe outcomes and honest workers: a payment that is owed
   back has Bling's own refund of the whole amount, with an id and outcomes of
   that refund and no other all along, if and only if no refund made outside
   Bling was on record while nothing was owed, and no notice of another refund
   arrived while Bling's own had no Stripe id. Such a refund, once it succeeded,
   returned all that was left of the payment.
   */
  lemma OwnRefundMadeIff(start: Db, ops: seq<Op>, a: AttemptId, made: Made)
    requires Initial(start) && Consistent(ops) && HonestRun(start, ops, made) && Owed(Run(start, ops), a)
    ensures OwnAllAlong(start, ops, a, made) <==> !OutsideFirst(start, ops, a) && NoForeignOf(start, ops, a, made)
    ensures OwnAllAlong(start, ops, a, made) ==>
      ReturnedInFull(Run(start, ops), a, made)
      || (forall r :: r in Run(start, ops).refunds && Run(start, ops).refunds[r].own && Run(start, ops).refunds[r].attempt == a
                      ==> Run(start, ops).refunds[r].status != Succeeded)
  {
    InitialInv(start);
    OwnSettlementComplete(start, ops, a);
    var db := Run(start, ops);
    if FullRefundRequested(db, a) {
      var r :| r in db.refunds && OwnFull(db.refunds[r], a, db.attempts[a].amountCents);
      RowAllAlong(start, ops, r, a, made);
    }
    hide Initial, Run, Consistent, OutsideFirst, NoForeignOf, AlwaysTrue, ReturnedInFull, Inv;
  }

  lemma RowAllAlong(start: Db, ops: seq<Op>, r: RefundId, a: AttemptId, made: Made)
    requires Initial(start) && HonestRun(start, ops, made)
    requires var db := Run(start, ops);
      a in db.attempts && r in db.refunds && OwnFull(db.refunds[r], a, db.attempts[a].amountCents)
    ensures OwnAllAlong(start, ops, a, made) <==> NoForeignOf(start, ops, a, made)
    ensures NoForeignOf(start, ops, a, made) && Run(start, ops).refunds[r].status == Succeeded ==>
      ReturnedInFull(Run(start, ops), a, made)
    ensures forall q :: q in Run(start, ops).refunds && Run(start, ops).refunds[q].own && Run(start, ops).refunds[q].attempt == a ==> q == r
  {
    hide LinksInv, CouplingInv, MoneyInv, PresenceInv, Initial, Run, NoForeignOf, NoForeign, AlwaysTrue, TrueRow, ReturnedInFull, HonestRun;
    InitialInv(start);
    StartsTrue(start, r, made);
    var db := Run(start, ops);
    RunKeeps(start, ops);
    ForeignOfRow(start, ops, r, a, made);
    AlwaysTrueIff(start, ops, r, made);
    forall q | q in db.refunds && db.refunds[q].own && db.refunds[q].attempt == a ensures q == r {
      OneOwnRow(db, q, r);
    }
    if db.refunds[r].status == Succeeded {
      SuccessIsReturned(start, ops, r, made);
    }
  }
}
