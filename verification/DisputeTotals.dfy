/**
 What a creator keeps of one payment. A refund is capped by what other refunds
 left of the earning, but a dispute debits the whole earning whatever was taken
 back before, and every dispute does so once. So more can be taken for a payment
 than it earned; this says exactly when.
 */
module DisputeTotals {
  import opened Common
  import opened Ledger
  import opened LedgerRuns

  /** All the entries about a payment together. */
  function Kept(l: Ledger, a: AttemptId): int {
    Sum(l.entries, About(a))
  }

  /** The disputes of a payment that are debited and not released. */
  ghost function OpenDisputes(t: Tables, l: Ledger, a: AttemptId): set<DisputeId> {
    set d | d in t.disputes && t.disputes[d] == a && DebitKey(d) in Keys(l) && ReleaseKey(d) !in Keys(l)
  }

  function EarnedFor(l: Ledger, a: AttemptId): int {
    var e := EarningFor(l.entries, a);
    if e.Some? then e.value.amountCents else 0
  }

  /** The earning, less what refunds took back, less the earning again for every open dispute. */
  ghost predicate Accounted(t: Tables, l: Ledger, a: AttemptId) {
    Kept(l, a) == EarnedFor(l, a) - Reversed(l, a) - |OpenDisputes(t, l, a)| * EarnedFor(l, a)
  }

  // ------------------------------------------------------------ one posting

  /** The one entry an event posts, with what is known of a dispute's. */
  ghost predicate Fits(t: Tables, l: Ledger, p: Entry) {
    && WellKeyed(p)
    && p.key !in Keys(l)
    && (p.key.DebitKey? || p.key.ReleaseKey? ==>
          && p.key.dispute in t.disputes && p.attempt == Some(t.disputes[p.key.dispute])
          && EarningFor(l.entries, t.disputes[p.key.dispute]).Some?
          && p.amountCents == (if p.key.DebitKey? then -1 else 1) * EarnedFor(l, t.disputes[p.key.dispute])
          && (p.key.ReleaseKey? ==> DebitKey(p.key.dispute) in Keys(l)))
  }

  lemma EventFits(t: Tables, l: Ledger, ev: Event) returns (p: Entry)
    requires ValidTables(t) && Valid(l) && DisputesTraced(t, l)
    requires Step(t, l, ev) != l
    ensures Fits(t, l, p) && Step(t, l, ev) == Post(l, p)
    ensures p.key.RefundKey? <==> ev.Refunded?
    ensures ev.Refunded? ==>
      ev.refund in t.refunds && p.key == RefundKey(ev.refund) && p.attempt == Some(t.refunds[ev.refund].attempt)
    ensures p.key.DebitKey? || p.key.ReleaseKey? ==> ev.Disputed? && p.key.dispute == ev.dispute
  {
    hide Valid, Step, ValidTables, DisputesTraced, EarningFor, Keys;
    p := PostedBy(t, l, ev);
    if p.key.DebitKey? || p.key.ReleaseKey? {
      DisputePost(t, l, ev, p);
    }
  }

  /** An earning is posted before any dispute of its payment is open. */
  lemma NoneOpenYet(t: Tables, l: Ledger, a: AttemptId)
    requires DisputesTraced(t, l) && EarningFor(l.entries, a).None?
    ensures OpenDisputes(t, l, a) == {}
  {
    forall x | x in l.entries && x.key.DebitKey? ensures t.disputes[x.key.dispute] != a {
    }
  }

  /** A debit opens its dispute, a release closes it, and nothing else does either. */
  lemma OpenMoves(t: Tables, l: Ledger, p: Entry, a: AttemptId)
    requires DisputesTraced(t, l) && Fits(t, l, p) && p.amountCents != 0
    ensures OpenDisputes(t, Post(l, p), a)
         == (if p.attempt != Some(a) then OpenDisputes(t, l, a)
             else if p.key.DebitKey? then OpenDisputes(t, l, a) + {p.key.dispute}
             else if p.key.ReleaseKey? then OpenDisputes(t, l, a) - {p.key.dispute}
             else OpenDisputes(t, l, a))
    ensures p.attempt == Some(a) && p.key.DebitKey? ==> p.key.dispute !in OpenDisputes(t, l, a)
    ensures p.attempt == Some(a) && p.key.ReleaseKey? ==> p.key.dispute in OpenDisputes(t, l, a)
  {
    PostAppends(l, p);
    hide EarningFor, Sum, EarnedFor;
  }

  lemma EarnedMoves(l: Ledger, p: Entry, a: AttemptId)
    requires Valid(l) && WellKeyed(p) && p.key !in Keys(l)
    ensures EarnedFor(Post(l, p), a)
         == if p.key == EarningKey(a) then p.amountCents else EarnedFor(l, a)
    ensures p.key == EarningKey(a) ==> EarningFor(l.entries, a).None?
  {
    EarningByKey(l, a);
    if EarningFor(l.entries, a).Some? || p.kind != Earning || p.attempt != Some(a) {
      EarningForSnoc(l.entries, p, a);
    } else {
      FirstEarning(l.entries, p, a);
    }
  }

  lemma {:induction false} FirstEarning(es: seq<Entry>, p: Entry, a: AttemptId)
    requires EarningFor(es, a).None? && p.kind == Earning && p.attempt == Some(a)
    ensures EarningFor(es + [p], a) == Some(p)
  {
    if es != [] {
      assert (es + [p])[1..] == es[1..] + [p];
      FirstEarning(es[1..], p, a);
    }
  }

  /** A credit comes before any dispute of its payment. */
  lemma CreditAccounted(t: Tables, l: Ledger, p: Entry, a: AttemptId)
    requires Valid(l) && DisputesTraced(t, l) && Fits(t, l, p) && Accounted(t, l, a)
    requires p.key == EarningKey(a)
    ensures Accounted(t, Post(l, p), a)
  {
    hide Valid, Sum, EarningFor, DisputesTraced, OpenDisputes, Keys;
    OpenMoves(t, l, p, a);
    EarnedMoves(l, p, a);
    NoneOpenYet(t, l, a);
    SumSnoc(l.entries, p, About(a));
    SumSnoc(l.entries, p, ReversalsOf(a));
  }

  /** A debit takes the earning once more, and its release gives it back. */
  lemma DisputeAccounted(t: Tables, l: Ledger, p: Entry, a: AttemptId)
    requires Valid(l) && DisputesTraced(t, l) && Fits(t, l, p) && Accounted(t, l, a)
    requires p.attempt == Some(a) && (p.key.DebitKey? || p.key.ReleaseKey?)
    ensures Accounted(t, Post(l, p), a)
  {
    hide Valid, Sum, EarningFor, DisputesTraced, OpenDisputes, Keys, EarnedFor;
    OpenMoves(t, l, p, a);
    EarnedMoves(l, p, a);
    SumSnoc(l.entries, p, About(a));
    SumSnoc(l.entries, p, ReversalsOf(a));
    var n, earned := |OpenDisputes(t, l, a)|, EarnedFor(l, a);
    var n' := if p.key.DebitKey? then n + 1 else n - 1;
    assert |OpenDisputes(t, Post(l, p), a)| == n';
    assert n' * earned == n * earned + (n' - n) * earned;
  }

  /** Anything else moves what is kept and what was reversed alike, or neither. */
  lemma OtherAccounted(t: Tables, l: Ledger, p: Entry, a: AttemptId)
    requires Valid(l) && DisputesTraced(t, l) && Fits(t, l, p) && Accounted(t, l, a)
    requires p.key != EarningKey(a)
    requires p.attempt != Some(a) || p.key.RefundKey?
    ensures Accounted(t, Post(l, p), a)
  {
    hide Valid, Sum, EarningFor, DisputesTraced, OpenDisputes, Keys, EarnedFor;
    OpenMoves(t, l, p, a);
    EarnedMoves(l, p, a);
    SumSnoc(l.entries, p, About(a));
    SumSnoc(l.entries, p, ReversalsOf(a));
  }

  lemma PostAccounted(t: Tables, l: Ledger, p: Entry, a: AttemptId)
    requires Valid(l) && DisputesTraced(t, l) && Fits(t, l, p) && Accounted(t, l, a)
    ensures Accounted(t, Post(l, p), a)
  {
    hide Valid, Accounted, DisputesTraced, Keys, EarningFor, Post;
    if p.key == EarningKey(a) {
      CreditAccounted(t, l, p, a);
    } else if p.attempt == Some(a) && !p.key.RefundKey? {
      DisputeAccounted(t, l, p, a);
    } else {
      OtherAccounted(t, l, p, a);
    }
  }

  // ------------------------------------------------------------ every run

  lemma StepAccounted(t: Tables, l: Ledger, ev: Event, a: AttemptId)
    requires ValidTables(t) && Valid(l) && DisputesTraced(t, l) && Accounted(t, l, a)
    ensures Accounted(t, Step(t, l, ev), a)
  {
    hide Valid, Step, ValidTables, DisputesTraced, Accounted, Fits;
    if Step(t, l, ev) != l {
      var p := EventFits(t, l, ev);
      PostAccounted(t, l, p, a);
    }
  }

  lemma {:induction false} RunAccounted(t: Tables, l: Ledger, evs: seq<Event>, a: AttemptId)
    requires ValidTables(t) && Valid(l) && DisputesTraced(t, l) && Accounted(t, l, a)
    ensures Accounted(t, Run(t, l, evs), a)
    decreases |evs|
  {
    hide Valid, Step, ValidTables, DisputesTraced, Accounted;
    if evs != [] {
      StepAccounted(t, l, evs[0], a);
      StepKeepsDisputes(t, l, evs[0]);
      RunAccounted(t, Step(t, l, evs[0]), evs[1..], a);
    }
  }

  // ------------------------------------------------------------ taking too much

  /** Reversals are negative entries. */
  lemma {:induction false} ReversalsTakeAway(es: seq<Entry>, a: AttemptId)
    requires forall e :: e in es ==> WellKeyed(e)
    ensures Sum(es, ReversalsOf(a)) <= 0
  {
    if es != [] {
      ReversalsTakeAway(es[..|es| - 1], a);
      assert WellKeyed(es[|es| - 1]);
    }
  }

  /**
   Whether what was taken for a payment stays within its earning, said by the
   disputes open on it and the refunds taken back.
   */
  lemma KeptIff(t: Tables, l: Ledger, a: AttemptId)
    requires Valid(l) && DisputesTraced(t, l) && Accounted(t, l, a)
    requires EarningFor(l.entries, a).Some? && Reversed(l, a) <= EarnedFor(l, a)
    ensures Kept(l, a) >= 0 <==>
      || OpenDisputes(t, l, a) == {}
      || (|OpenDisputes(t, l, a)| == 1 && Reversed(l, a) == 0)
  {
    ReversalsTakeAway(l.entries, a);
    assert WellKeyed(EarningFor(l.entries, a).value);
    hide Valid, DisputesTraced, Sum, EarningFor, OpenDisputes, WellKeyed;
    Multiples(|OpenDisputes(t, l, a)|, EarnedFor(l, a));
  }

  lemma Multiples(n: nat, earned: int)
    requires earned > 0
    ensures n == 0 ==> n * earned == 0
    ensures n == 1 ==> n * earned == earned
    ensures n >= 1 ==> n * earned >= earned
    ensures n >= 2 ==> n * earned >= 2 * earned
  {
  }

  /** A dispute that opens on a payment already taken back in part or disputed. */
  ghost predicate DisputesAgain(t: Tables, l: Ledger, ev: Event, a: AttemptId) {
    && ev.Disputed? && ev.dispute in t.disputes && t.disputes[ev.dispute] == a
    && DisputeOpen(ev.status) && DebitKey(ev.dispute) !in Keys(l)
    && (Reversed(l, a) > 0 || OpenDisputes(t, l, a) != {})
  }

  /** A refund of something that succeeds on a payment under dispute. */
  ghost predicate RefundsDisputed(t: Tables, l: Ledger, ev: Event, a: AttemptId)
    requires ValidTables(t) && a in t.charges
  {
    && RefundsAttempt(t, ev, a) && RefundKey(ev.refund) !in Keys(l)
    && EarnedFor(l, a) > 0
    && Share(EarnedFor(l, a), t.refunds[ev.refund].amountCents, t.charges[a].amountCents) > 0
    && OpenDisputes(t, l, a) != {}
  }

  /** What makes an event take more for a payment than its creator still has of it. */
  ghost predicate Overdraws(t: Tables, l: Ledger, ev: Event, a: AttemptId)
    requires ValidTables(t) && a in t.charges
  {
    && EarningFor(l.entries, a).Some?
    && (DisputesAgain(t, l, ev, a) || RefundsDisputed(t, l, ev, a))
  }

  /** An open dispute not seen before takes the whole earning. */
  lemma DebitTakes(t: Tables, l: Ledger, ev: Event, a: AttemptId)
    requires ValidTables(t) && Valid(l) && EarningFor(l.entries, a).Some?
    requires ev.Disputed? && ev.dispute in t.disputes && t.disputes[ev.dispute] == a && DisputeOpen(ev.status)
    ensures Kept(Step(t, l, ev), a) == Kept(l, a) - if DebitKey(ev.dispute) in Keys(l) then 0 else EarnedFor(l, a)
  {
    hide Valid, ValidTables, Sum, EarningFor, Keys;
    SumSnoc(l.entries, DebitEntry(EarningFor(l.entries, a).value, ev.dispute, a, ev.at), About(a));
  }

  /** Any other dispute notice takes nothing. */
  lemma ReleaseTakesNothing(t: Tables, l: Ledger, ev: Event, a: AttemptId)
    requires ValidTables(t) && Valid(l) && DisputesTraced(t, l)
    requires ev.Disputed? && !DisputeOpen(ev.status)
    ensures Kept(Step(t, l, ev), a) >= Kept(l, a)
  {
    hide Valid, ValidTables, DisputesTraced, Sum, EarningFor, Keys;
    if Step(t, l, ev) != l {
      var p := EventFits(t, l, ev);
      var l' := Step(t, l, ev);
      assert l'.entries[|l.entries|] == p;
      assert p.key == ReleaseKey(ev.dispute) && p.amountCents > 0;
      SumSnoc(l.entries, p, About(a));
    }
  }

  lemma EarnedSomething(l: Ledger, a: AttemptId)
    requires Valid(l) && EarningFor(l.entries, a).Some?
    ensures EarnedFor(l, a) > 0 && Reversed(l, a) >= 0
  {
    ReversalsTakeAway(l.entries, a);
    assert WellKeyed(EarningFor(l.entries, a).value);
  }

  /** A dispute notice on the payment at hand. */
  lemma DisputeTakes(t: Tables, l: Ledger, ev: Event, a: AttemptId)
    requires ValidTables(t) && Valid(l) && DisputesTraced(t, l) && Accounted(t, l, a) && a in t.charges
    requires EarningFor(l.entries, a).Some? && Kept(l, a) >= 0
    requires ev.Disputed? && ev.dispute in t.disputes && t.disputes[ev.dispute] == a
    ensures Kept(Step(t, l, ev), a) >= 0 <==> !Overdraws(t, l, ev, a)
  {
    hide Valid, ValidTables, DisputesTraced, OpenDisputes, Sum, EarningFor, Keys, Step, Kept, EarnedFor, Reversed;
    EarnedSomething(l, a);
    Multiples(|OpenDisputes(t, l, a)|, EarnedFor(l, a));
    if DisputeOpen(ev.status) {
      DebitTakes(t, l, ev, a);
    } else {
      ReleaseTakesNothing(t, l, ev, a);
    }
  }

  /** What a refund takes, said through the total already reversed. */
  lemma ReversalTakes(t: Tables, l: Ledger, ev: Event, a: AttemptId)
    requires ValidTables(t) && Valid(l) && a in t.charges
    requires EarningFor(l.entries, a).Some? && EarnedFor(l, a) > 0 && RefundsAttempt(t, ev, a)
    ensures var left := EarnedFor(l, a) - Reversed(l, a);
      var amount := Min(Share(EarnedFor(l, a), t.refunds[ev.refund].amountCents, t.charges[a].amountCents), left);
      Kept(Step(t, l, ev), a) == Kept(l, a) - if RefundKey(ev.refund) in Keys(l) || amount <= 0 then 0 else amount
  {
    hide Valid, Sum, EarningFor, Keys, TakeBack, Share;
    var e := EarningFor(l.entries, a).value;
    var share := Share(e.amountCents, t.refunds[ev.refund].amountCents, t.charges[a].amountCents);
    TakeBackCases(l, ev.refund, a, e, share, ev.at);
    var amount := Min(share, e.amountCents - Reversed(l, a));
    SumSnoc(l.entries, ReversalEntry(e, ev.refund, a, amount, ev.at), About(a));
  }

  /** A refund of the payment at hand. */
  lemma RefundTakes(t: Tables, l: Ledger, ev: Event, a: AttemptId)
    requires ValidTables(t) && Valid(l) && DisputesTraced(t, l) && Accounted(t, l, a) && a in t.charges
    requires EarningFor(l.entries, a).Some? && Kept(l, a) >= 0
    requires RefundsAttempt(t, ev, a)
    ensures Kept(Step(t, l, ev), a) >= 0 <==> !Overdraws(t, l, ev, a)
  {
    hide Valid, DisputesTraced, OpenDisputes, Sum, EarningFor, Keys, Step, Kept, EarnedFor, Reversed, Share;
    EarnedSomething(l, a);
    Multiples(|OpenDisputes(t, l, a)|, EarnedFor(l, a));
    ReversalTakes(t, l, ev, a);
  }

  /** Any other event leaves the payment what it had, or credits it. */
  lemma OthersTakeNothing(t: Tables, l: Ledger, ev: Event, a: AttemptId)
    requires ValidTables(t) && Valid(l) && DisputesTraced(t, l) && a in t.charges
    requires ev.Refunded? ==> EarningFor(l.entries, a).None? || !RefundsAttempt(t, ev, a)
    requires ev.Disputed? ==>
      EarningFor(l.entries, a).None? || ev.dispute !in t.disputes || t.disputes[ev.dispute] != a
    ensures Kept(Step(t, l, ev), a) >= Kept(l, a)
  {
    if Step(t, l, ev) != l {
      var p := EventFits(t, l, ev);
      assert p.attempt == Some(a) ==> p.amountCents > 0;
      SumSnoc(l.entries, p, About(a));
    }
  }

  /** The step condition: exactly these events take more than is left. */
  lemma StepStaysWithinIff(t: Tables, l: Ledger, ev: Event, a: AttemptId)
    requires ValidTables(t) && Valid(l) && DisputesTraced(t, l) && Accounted(t, l, a) && a in t.charges
    requires Kept(l, a) >= 0
    ensures Kept(Step(t, l, ev), a) >= 0 <==> !Overdraws(t, l, ev, a)
  {
    hide Valid, ValidTables, DisputesTraced, Accounted, Step, EarningFor, Kept;
    if EarningFor(l.entries, a).Some? && RefundsAttempt(t, ev, a) {
      RefundTakes(t, l, ev, a);
    } else if EarningFor(l.entries, a).Some? && ev.Disputed? && ev.dispute in t.disputes && t.disputes[ev.dispute] == a {
      DisputeTakes(t, l, ev, a);
    } else {
      OthersTakeNothing(t, l, ev, a);
    }
  }

  /** At no moment of the run more was taken for the payment than it earned. */
  ghost predicate WithinAllAlong(t: Tables, l: Ledger, evs: seq<Event>, a: AttemptId)
    requires ValidTables(t) && Valid(l)
    decreases |evs|
  {
    Kept(l, a) >= 0 && (evs != [] ==> WithinAllAlong(t, Step(t, l, evs[0]), evs[1..], a))
  }

  ghost predicate SomeOverdraws(t: Tables, l: Ledger, evs: seq<Event>, a: AttemptId)
    requires ValidTables(t) && Valid(l) && a in t.charges
    decreases |evs|
  {
    evs != [] && (Overdraws(t, l, evs[0], a) || SomeOverdraws(t, Step(t, l, evs[0]), evs[1..], a))
  }

  /** The run form: all along within the earning exactly when no event was one of those. */
  lemma {:induction false} AlwaysWithinIff(t: Tables, l: Ledger, evs: seq<Event>, a: AttemptId)
    requires ValidTables(t) && Valid(l) && DisputesTraced(t, l) && Accounted(t, l, a) && a in t.charges
    requires Kept(l, a) >= 0
    ensures WithinAllAlong(t, l, evs, a) <==> !SomeOverdraws(t, l, evs, a)
    decreases |evs|
  {
    hide Valid, ValidTables, DisputesTraced, Accounted, Step, Kept, Overdraws;
    if evs != [] {
      var l' := Step(t, l, evs[0]);
      StepStaysWithinIff(t, l, evs[0], a);
      StepAccounted(t, l, evs[0], a);
      StepKeepsDisputes(t, l, evs[0]);
      if Kept(l', a) >= 0 {
        AlwaysWithinIff(t, l', evs[1..], a);
      }
    }
  }

  /** The books start in order. */
  lemma StartsAccounted(t: Tables, a: AttemptId)
    ensures Valid(EMPTY) && DisputesTraced(t, EMPTY) && Accounted(t, EMPTY, a) && Kept(EMPTY, a) == 0
  {
    assert OpenDisputes(t, EMPTY, a) == {};
  }

  /** Refunds alone stay between nothing and the earning, after any events. */
  lemma ReversalsWithin(t: Tables, evs: seq<Event>, a: AttemptId)
    requires ValidTables(t) && a in t.charges
    requires EarningFor(Run(t, EMPTY, evs).entries, a).Some?
    ensures Valid(EMPTY) && 0 <= Reversed(Run(t, EMPTY, evs), a) <= EarnedFor(Run(t, EMPTY, evs), a)
  {
    RefundTotalSinceCredit(t, EMPTY, evs, a);
    var l := Run(t, EMPTY, evs);
    hide Run, ValidTables, Sum, EarningFor, RefundsIn;
    ReversalsTakeAway(l.entries, a);
  }

  /**
   After any events, what a creator keeps of a payment is the earning, less what
   refunds took back, less the earning again for every open dispute; and more
   was taken than earned unless no dispute is open, or just one and no refund
   has taken anything back.
   */
  lemma TakenForAPayment(t: Tables, evs: seq<Event>, a: AttemptId)
    requires ValidTables(t) && a in t.charges
    ensures Valid(EMPTY)
    ensures var l := Run(t, EMPTY, evs);
      && Accounted(t, l, a)
      && (EarningFor(l.entries, a).Some? ==>
            (Kept(l, a) >= 0 <==>
              || OpenDisputes(t, l, a) == {}
              || (|OpenDisputes(t, l, a)| == 1 && Reversed(l, a) == 0)))
  {
    StartsAccounted(t, a);
    RunAccounted(t, EMPTY, evs, a);
    RunKeepsDisputes(t, EMPTY, evs);
    var l := Run(t, EMPTY, evs);
    hide Run, ValidTables, Sum, EarningFor, Accounted, DisputesTraced, OpenDisputes, Valid;
    if EarningFor(l.entries, a).Some? {
      ReversalsWithin(t, evs, a);
      KeptIff(t, l, a);
    }
  }

  // ------------------------------------------------------------ a concrete run

  const CREATOR := Account(1, "usd")

  /** A payment of 100 cents that earns 80, one refund of half of it, one dispute about it. */
  const SAMPLE := Tables(map[1 := Charge(CREATOR, 100, 20)], map[1 := Refunding(1, 50)], map[1 := 1])

  const CREDITED := Post(EMPTY, EarningEntry(1, Charge(CREATOR, 100, 20), 0))
  const HALVED := Post(CREDITED, Entry(CREATOR, RefundReversal, -40, 1, RefundKey(1), Some(1)))
  const DISPUTED := Post(HALVED, Entry(CREATOR, DisputeDebit, -80, 2, DebitKey(1), Some(1)))

  lemma CreditStep()
    ensures ValidTables(SAMPLE) && Valid(EMPTY) && Valid(CREDITED)
    ensures Step(SAMPLE, EMPTY, Credited(1, 0)) == CREDITED
    ensures CREDITED.entries == [EarningEntry(1, Charge(CREATOR, 100, 20), 0)]
    ensures EarningFor(CREDITED.entries, 1) == Some(EarningEntry(1, Charge(CREATOR, 100, 20), 0))
  {
    PostKeepsValid(EMPTY, EarningEntry(1, Charge(CREATOR, 100, 20), 0));
  }

  lemma NothingReversedYet()
    ensures Sum(CREDITED.entries, ReversalsOf(1)) == 0 && RefundKey(1) !in Keys(CREDITED)
    ensures Share(80, 50, 100) == 40
  {
    CreditStep();
    hide Valid, EarningFor, ValidTables, CREDITED;
    var e := EarningEntry(1, Charge(CREATOR, 100, 20), 0);
    assert CREDITED.entries == [] + [e];
    SumSnoc([], e, ReversalsOf(1));
  }

  lemma HalfStep()
    ensures ValidTables(SAMPLE) && Valid(CREDITED) && Valid(HALVED)
    ensures Step(SAMPLE, CREDITED, Refunded(1, 1)) == HALVED
    ensures HALVED.entries == CREDITED.entries + [Entry(CREATOR, RefundReversal, -40, 1, RefundKey(1), Some(1))]
    ensures EarningFor(HALVED.entries, 1) == Some(EarningEntry(1, Charge(CREATOR, 100, 20), 0))
  {
    CreditStep();
    NothingReversedYet();
    hide Valid, EarningFor, ValidTables, CREDITED, TakeBack, Sum, Keys, Share;
    var e := EarningEntry(1, Charge(CREATOR, 100, 20), 0);
    var p := Entry(CREATOR, RefundReversal, -40, 1, RefundKey(1), Some(1));
    TakeBackCases(CREDITED, 1, 1, e, 40, 1);
    PostKeepsValid(CREDITED, p);
    EarningStays(CREDITED, p, 1);
  }

  lemma DisputeStep()
    ensures ValidTables(SAMPLE) && Valid(HALVED)
    ensures Step(SAMPLE, HALVED, Disputed(1, NeedsResponse, 2)) == DISPUTED
    ensures DISPUTED.entries == HALVED.entries + [Entry(CREATOR, DisputeDebit, -80, 2, DebitKey(1), Some(1))]
    ensures EarningFor(DISPUTED.entries, 1) == Some(EarningEntry(1, Charge(CREATOR, 100, 20), 0))
  {
    CreditStep();
    HalfStep();
    hide Valid, EarningFor, HALVED, CREDITED;
    assert DebitKey(1) !in Keys(HALVED);
    EarningStays(HALVED, Entry(CREATOR, DisputeDebit, -80, 2, DebitKey(1), Some(1)), 1);
  }

  lemma SampleRun()
    ensures ValidTables(SAMPLE) && Valid(EMPTY)
    ensures Run(SAMPLE, EMPTY, [Credited(1, 0), Refunded(1, 1), Disputed(1, NeedsResponse, 2)]) == DISPUTED
  {
    CreditStep();
    HalfStep();
    DisputeStep();
    hide Valid, ValidTables, Step, EMPTY, CREDITED, HALVED, DISPUTED, SAMPLE, EarningFor;
    var evs := [Credited(1, 0), Refunded(1, 1), Disputed(1, NeedsResponse, 2)];
    assert evs[1..] == [Refunded(1, 1), Disputed(1, NeedsResponse, 2)];
    assert evs[1..][1..] == [Disputed(1, NeedsResponse, 2)];
    assert evs[1..][1..][1..] == [];
    var none: seq<Event> := [];
    assert Run(SAMPLE, DISPUTED, none) == DISPUTED;
    assert Run(SAMPLE, HALVED, evs[1..][1..]) == DISPUTED;
    assert Run(SAMPLE, CREDITED, evs[1..]) == DISPUTED;
  }

  lemma SampleSum(f: Filter)
    ensures Sum(DISPUTED.entries, f)
         == Contribution(f, EarningEntry(1, Charge(CREATOR, 100, 20), 0))
          + Contribution(f, Entry(CREATOR, RefundReversal, -40, 1, RefundKey(1), Some(1)))
          + Contribution(f, Entry(CREATOR, DisputeDebit, -80, 2, DebitKey(1), Some(1)))
  {
    CreditStep();
    HalfStep();
    DisputeStep();
    hide Valid, ValidTables, Step, CREDITED, HALVED, DISPUTED, EarningFor, Contribution;
    var earning := EarningEntry(1, Charge(CREATOR, 100, 20), 0);
    assert CREDITED.entries == [] + [earning];
    SumSnoc([], earning, f);
    SumSnoc(CREDITED.entries, Entry(CREATOR, RefundReversal, -40, 1, RefundKey(1), Some(1)), f);
    SumSnoc(HALVED.entries, Entry(CREATOR, DisputeDebit, -80, 2, DebitKey(1), Some(1)), f);
  }

  lemma SampleFigures()
    ensures EarnedFor(DISPUTED, 1) == 80 && Reversed(DISPUTED, 1) == 40 && Kept(DISPUTED, 1) == -40
  {
    DisputeStep();
    SampleSum(About(1));
    SampleSum(ReversalsOf(1));
    hide Valid, ValidTables, Step, CREDITED, HALVED, DISPUTED, EarningFor, Sum;
  }

  /** Half of the payment is refunded, then it is disputed: 120 cents are taken of the 80 it earned. */
  lemma RefundThenDispute()
    ensures ValidTables(SAMPLE) && Valid(EMPTY)
    ensures var l := Run(SAMPLE, EMPTY, [Credited(1, 0), Refunded(1, 1), Disputed(1, NeedsResponse, 2)]);
      && EarnedFor(l, 1) == 80
      && Reversed(l, 1) == 40
      && Kept(l, 1) == -40
  {
    hide *;
    SampleRun();
    SampleFigures();
  }
}
