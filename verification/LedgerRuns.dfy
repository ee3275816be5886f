/**
 Every sequence of ledger postings. The tables of attempts, refunds and
 disputes are fixed (their amounts never change once written); what varies is
 which business events happen, in what order and how often.
 */
module LedgerRuns {
  import opened Common
  import opened Ledger

  datatype Tables = Tables(
    charges: map<AttemptId, Charge>,
    refunds: map<RefundId, Refunding>,
    disputes: map<DisputeId, AttemptId>)

  /** Prices are positive and every attempt leaves its creator something. */
  ghost predicate ValidTables(t: Tables) {
    && (forall a :: a in t.charges ==> t.charges[a].amountCents > 0
                                       && 0 <= t.charges[a].platformFeeCents < t.charges[a].amountCents)
    && (forall r :: r in t.refunds ==> t.refunds[r].attempt in t.charges)
  }

  datatype Event =
    | Credited(attempt: AttemptId, effectiveAt: int)
    | Refunded(refund: RefundId, at: int)
    | Disputed(dispute: DisputeId, status: DisputeStatus, at: int)
    | Reserved(item: ItemId, account: Account, amount: nat, at: int)

  ghost function Step(t: Tables, l: Ledger, ev: Event): (l': Ledger)
    requires ValidTables(t) && Valid(l)
    ensures Valid(l')
  {
    match ev
    case Credited(a, at) =>
      if a in t.charges then
        assert Valid(Post(l, EarningEntry(a, t.charges[a], at))) by {
          PostKeepsValid(l, EarningEntry(a, t.charges[a], at));
        }
        Post(l, EarningEntry(a, t.charges[a], at))
      else l
    case Refunded(r, at) =>
      if r in t.refunds then
        ReversalIsOnePost(l, r, t.refunds[r], t.charges[t.refunds[r].attempt].amountCents, at);
        ReverseForRefund(l, r, t.refunds[r], t.charges[t.refunds[r].attempt].amountCents, at)
      else l
    case Disputed(d, s, at) =>
      var a := if d in t.disputes then Some(t.disputes[d]) else None;
      DisputeIsOnePost(l, d, a, s, at);
      AdjustForDispute(l, d, a, s, at)
    case Reserved(item, acct, amount, at) =>
      var e := Entry(acct, PayoutReservation, -(amount as int), at, ReservationKey(item), None);
      PostKeepsValid(l, e);
      Post(l, e)
  }

  ghost function Run(t: Tables, l: Ledger, evs: seq<Event>): (l': Ledger)
    requires ValidTables(t) && Valid(l)
    ensures Valid(l')
    decreases |evs|
  {
    if evs == [] then l else Run(t, Step(t, l, evs[0]), evs[1..])
  }

  lemma EmptyIsValid()
    ensures Valid(EMPTY)
  {
  }

  /**
   After any sequence of credits, reversals, dispute changes and reservations
   the stored total is the sum of the account's entries, every idempotency key
   appears once, and the available balance is the direct sum of what has matured.
   */
  lemma RunKeepsBooks(t: Tables, evs: seq<Event>, acct: Account, now: int)
    requires ValidTables(t)
    ensures Valid(EMPTY)
    ensures var l := Run(t, EMPTY, evs);
      && Total(l, acct) == Sum(l.entries, Of(acct))
      && BalanceAt(l, acct, now).availableCents == Sum(l.entries, Matured(acct, now))
      && (forall i, j :: 0 <= i < |l.entries| && 0 <= j < |l.entries| && l.entries[i].key == l.entries[j].key ==> i == j)
  {
    EmptyIsValid();
    BalanceIsDirectSum(Run(t, EMPTY, evs), acct, now);
  }

  // ------------------------------------------------------------ refunds

  /** The refunds of attempt `a` that succeeded somewhere in `evs`. */
  function RefundsIn(t: Tables, evs: seq<Event>, a: AttemptId): set<RefundId> {
    set ev | ev in evs && ev.Refunded? && ev.refund in t.refunds && t.refunds[ev.refund].attempt == a :: ev.refund
  }

  /** Each refund of attempt `a` with the rounded share of the earning it takes back. */
  ghost function SharesOf(t: Tables, a: AttemptId, earning: int): (shares: map<RefundId, int>)
    requires ValidTables(t) && earning >= 0 && a in t.charges
    ensures forall r :: r in shares <==> r in t.refunds && t.refunds[r].attempt == a
    ensures forall r :: r in shares ==> shares[r] >= 0
  {
    map r | r in t.refunds && t.refunds[r].attempt == a ::
      Share(earning, t.refunds[r].amountCents, t.charges[a].amountCents)
  }

  /** Sum of the amounts of a set of refunds. */
  ghost function SumOver(amounts: map<RefundId, int>, rs: set<RefundId>): int
    requires rs <= amounts.Keys
  {
    if rs == {} then 0 else var r :| r in rs; amounts[r] + SumOver(amounts, rs - {r})
  }

  /** The sum does not depend on the order in which the set is taken apart. */
  lemma {:induction false} SumOverAdd(amounts: map<RefundId, int>, rs: set<RefundId>, r: RefundId)
    requires rs <= amounts.Keys && r in rs
    ensures SumOver(amounts, rs) == amounts[r] + SumOver(amounts, rs - {r})
    decreases |rs|
  {
    var x :| x in rs && SumOver(amounts, rs) == amounts[x] + SumOver(amounts, rs - {x});
    if x != r {
      SumOverAdd(amounts, rs - {x}, r);
      SumOverAdd(amounts, rs - {r}, x);
      assert rs - {x} - {r} == rs - {r} - {x};
    }
  }

  lemma {:induction false} SumOverNonNegative(amounts: map<RefundId, int>, rs: set<RefundId>)
    requires rs <= amounts.Keys
    requires forall r :: r in rs ==> amounts[r] >= 0
    ensures SumOver(amounts, rs) >= 0
    decreases |rs|
  {
    if rs != {} {
      var r :| r in rs;
      SumOverAdd(amounts, rs, r);
      SumOverNonNegative(amounts, rs - {r});
    }
  }

  function Reversed(l: Ledger, a: AttemptId): int {
    -Sum(l.entries, ReversalsOf(a))
  }

  /** Reversal entries are keyed by refunds of the attempt they are posted against. */
  ghost predicate ReversalsTraced(t: Tables, l: Ledger) {
    forall e :: e in l.entries && e.key.RefundKey? ==>
      e.key.refund in t.refunds && e.attempt == Some(t.refunds[e.key.refund].attempt)
  }

  /**
   Inductive invariant of the refund theorem: `rs` are the refunds seen so far,
   the total taken back is their capped sum, and a seen refund without an entry
   either had nothing to take or came after the cap was reached.
   */
  ghost predicate Capped(l: Ledger, a: AttemptId, earning: int, shares: map<RefundId, int>, rs: set<RefundId>) {
    && rs <= shares.Keys
    && (forall r :: r in shares && RefundKey(r) in Keys(l) ==> r in rs)
    && Reversed(l, a) == Min(earning, SumOver(shares, rs))
    && (forall r :: r in rs && RefundKey(r) !in Keys(l) ==> shares[r] == 0 || Reversed(l, a) == earning)
  }

  lemma StepKeepsTraced(t: Tables, l: Ledger, ev: Event)
    requires ValidTables(t) && Valid(l) && ReversalsTraced(t, l)
    ensures ReversalsTraced(t, Step(t, l, ev))
  {
    if ev.Disputed? {
      DisputeIsOnePost(l, ev.dispute, if ev.dispute in t.disputes then Some(t.disputes[ev.dispute]) else None, ev.status, ev.at);
    }
  }

  /** Entries not keyed by a refund of `a` leave the reversals of `a` alone. */
  lemma OtherPostKeepsCapped(l: Ledger, p: Entry, a: AttemptId, earning: int, shares: map<RefundId, int>, rs: set<RefundId>)
    requires Valid(l) && WellKeyed(p)
    requires Capped(l, a, earning, shares, rs)
    requires p.key.RefundKey? ==> p.key.refund !in shares && p.attempt != Some(a)
    ensures Capped(Post(l, p), a, earning, shares, rs)
  {
    hide Valid, Keys, Sum, SumOver;
    PostKeepsValid(l, p);
    SumSnoc(l.entries, p, ReversalsOf(a));
  }

  /** Posting a refund's capped share adds it to the total. */
  lemma ReversalPostKeepsCapped(l: Ledger, p: Entry, r: RefundId, a: AttemptId, earning: int, shares: map<RefundId, int>, rs: set<RefundId>)
    requires Valid(l) && WellKeyed(p)
    requires Capped(l, a, earning, shares, rs) && SumOver(shares, rs) >= 0
    requires p.key == RefundKey(r) && p.attempt == Some(a) && r in shares && shares[r] >= 0
    requires RefundKey(r) !in Keys(l)
    requires -p.amountCents == Min(shares[r], earning - Reversed(l, a))
    ensures Capped(Post(l, p), a, earning, shares, rs + {r})
  {
    hide Valid, Keys, Sum, SumOver;
    PostKeepsValid(l, p);
    SumSnoc(l.entries, p, ReversalsOf(a));
    SeenShare(l, r, a, earning, shares, rs);
  }

  /** Adding a refund to the ones seen adds its share, and a repeat that posted nothing had nothing to add. */
  lemma SeenShare(l: Ledger, r: RefundId, a: AttemptId, earning: int, shares: map<RefundId, int>, rs: set<RefundId>)
    requires Capped(l, a, earning, shares, rs) && SumOver(shares, rs) >= 0
    requires r in shares && shares[r] >= 0
    ensures SumOver(shares, rs + {r}) == if r in rs then SumOver(shares, rs) else SumOver(shares, rs) + shares[r]
  {
    if r in rs {
      assert rs + {r} == rs;
    } else {
      SumOverAdd(shares, rs + {r}, r);
      assert rs + {r} - {r} == rs;
    }
  }

  /** A refund that posts nothing still counts as seen. */
  lemma NothingToReverse(l: Ledger, r: RefundId, a: AttemptId, earning: int, shares: map<RefundId, int>, rs: set<RefundId>)
    requires Capped(l, a, earning, shares, rs) && SumOver(shares, rs) >= 0
    requires r in shares && shares[r] >= 0
    requires RefundKey(r) in Keys(l) || Min(shares[r], earning - Reversed(l, a)) <= 0
    ensures Capped(l, a, earning, shares, rs + {r})
  {
    SeenShare(l, r, a, earning, shares, rs);
  }

  /** The single entry a step posts when it changes the ledger. */
  lemma PostedBy(t: Tables, l: Ledger, ev: Event) returns (p: Entry)
    requires ValidTables(t) && Valid(l)
    requires Step(t, l, ev) != l
    ensures WellKeyed(p) && Step(t, l, ev) == Post(l, p)
    ensures p.key.RefundKey? <==> ev.Refunded?
    ensures ev.Refunded? ==> ev.refund in t.refunds && p.key == RefundKey(ev.refund) && p.attempt == Some(t.refunds[ev.refund].attempt)
    ensures p.key.DebitKey? || p.key.ReleaseKey? ==> ev.Disputed? && p.key.dispute == ev.dispute
  {
    match ev
    case Credited(a, at) =>
      p := EarningEntry(a, t.charges[a], at);
    case Refunded(r, at) =>
      ReversalIsOnePost(l, r, t.refunds[r], t.charges[t.refunds[r].attempt].amountCents, at);
      p := Step(t, l, ev).entries[|l.entries|];
    case Disputed(d, s, at) =>
      var a := if d in t.disputes then Some(t.disputes[d]) else None;
      DisputeIsOnePost(l, d, a, s, at);
      p := Step(t, l, ev).entries[|l.entries|];
    case Reserved(item, acct, amount, at) =>
      p := Entry(acct, PayoutReservation, -(amount as int), at, ReservationKey(item), None);
  }

  /** Taking back a share adds it once, up to the cap; a repeat changes nothing. */
  lemma TakeBackKeepsCapped(l: Ledger, r: RefundId, a: AttemptId, e: Entry, at: int, shares: map<RefundId, int>, rs: set<RefundId>)
    requires Valid(l)
    requires EarningFor(l.entries, a) == Some(e)
    requires Capped(l, a, e.amountCents, shares, rs) && SumOver(shares, rs) >= 0
    requires r in shares && shares[r] >= 0
    ensures EarningFor(TakeBack(l, r, a, e, shares[r], at).entries, a) == Some(e)
    ensures Capped(TakeBack(l, r, a, e, shares[r], at), a, e.amountCents, shares, rs + {r})
  {
    hide Valid, TakeBack, Capped, Keys, Sum, SumOver, EarningFor, Post;
    TakeBackCases(l, r, a, e, shares[r], at);
    var amount := Min(shares[r], e.amountCents - Reversed(l, a));
    if RefundKey(r) in Keys(l) || amount <= 0 {
      NothingToReverse(l, r, a, e.amountCents, shares, rs);
    } else {
      var p := ReversalEntry(e, r, a, amount, at);
      EarningStays(l, p, a);
      ReversalPostKeepsCapped(l, p, r, a, e.amountCents, shares, rs);
    }
  }

  predicate RefundsAttempt(t: Tables, ev: Event, a: AttemptId) {
    ev.Refunded? && ev.refund in t.refunds && t.refunds[ev.refund].attempt == a
  }

  lemma OneEventRefunds(t: Tables, ev: Event, a: AttemptId)
    ensures RefundsIn(t, [ev], a) == if RefundsAttempt(t, ev, a) then {ev.refund} else {}
  {
    assert ev in [ev];
  }

  lemma RefundKeepsCapped(t: Tables, l: Ledger, ev: Event, a: AttemptId, e: Entry, rs: set<RefundId>)
    requires ValidTables(t) && Valid(l) && a in t.charges && RefundsAttempt(t, ev, a)
    requires EarningFor(l.entries, a) == Some(e) && e.amountCents > 0
    requires Capped(l, a, e.amountCents, SharesOf(t, a, e.amountCents), rs)
    ensures EarningFor(Step(t, l, ev).entries, a) == Some(e)
    ensures Capped(Step(t, l, ev), a, e.amountCents, SharesOf(t, a, e.amountCents), rs + {ev.refund})
  {
    var shares := SharesOf(t, a, e.amountCents);
    SumOverNonNegative(shares, rs);
    hide Valid, Capped, TakeBack, SumOver, EarningFor, Share;
    TakeBackKeepsCapped(l, ev.refund, a, e, ev.at, shares, rs);
  }

  lemma OtherKeepsCapped(t: Tables, l: Ledger, ev: Event, a: AttemptId, e: Entry, rs: set<RefundId>)
    requires ValidTables(t) && Valid(l) && a in t.charges && !RefundsAttempt(t, ev, a)
    requires EarningFor(l.entries, a) == Some(e) && e.amountCents > 0
    requires Capped(l, a, e.amountCents, SharesOf(t, a, e.amountCents), rs)
    ensures EarningFor(Step(t, l, ev).entries, a) == Some(e)
    ensures Capped(Step(t, l, ev), a, e.amountCents, SharesOf(t, a, e.amountCents), rs)
  {
    hide Valid, Capped, Step, EarningFor, Post;
    if Step(t, l, ev) != l {
      var p := PostedBy(t, l, ev);
      EarningStays(l, p, a);
      OtherPostKeepsCapped(l, p, a, e.amountCents, SharesOf(t, a, e.amountCents), rs);
    }
  }

  /** One event, whichever it is. */
  lemma StepKeepsCapped(t: Tables, l: Ledger, ev: Event, a: AttemptId, e: Entry, rs: set<RefundId>)
    requires ValidTables(t) && Valid(l) && a in t.charges
    requires EarningFor(l.entries, a) == Some(e) && e.amountCents > 0
    requires Capped(l, a, e.amountCents, SharesOf(t, a, e.amountCents), rs)
    ensures EarningFor(Step(t, l, ev).entries, a) == Some(e)
    ensures Capped(Step(t, l, ev), a, e.amountCents, SharesOf(t, a, e.amountCents), rs + RefundsIn(t, [ev], a))
  {
    hide Valid, Capped, Step, EarningFor, RefundsIn;
    OneEventRefunds(t, ev, a);
    if RefundsAttempt(t, ev, a) {
      RefundKeepsCapped(t, l, ev, a, e, rs);
    } else {
      OtherKeepsCapped(t, l, ev, a, e, rs);
      assert rs + {} == rs;
    }
  }

  lemma {:induction false} RunKeepsCapped(t: Tables, l: Ledger, evs: seq<Event>, a: AttemptId, e: Entry, rs: set<RefundId>)
    requires ValidTables(t) && Valid(l) && a in t.charges
    requires EarningFor(l.entries, a) == Some(e) && e.amountCents > 0
    requires Capped(l, a, e.amountCents, SharesOf(t, a, e.amountCents), rs)
    ensures Capped(Run(t, l, evs), a, e.amountCents, SharesOf(t, a, e.amountCents), rs + RefundsIn(t, evs, a))
    decreases |evs|
  {
    if evs == [] {
      assert rs + RefundsIn(t, evs, a) == rs;
    } else {
      StepKeepsCapped(t, l, evs[0], a, e, rs);
      RunKeepsCapped(t, Step(t, l, evs[0]), evs[1..], a, e, rs + RefundsIn(t, [evs[0]], a));
      assert evs == [evs[0]] + evs[1..];
      assert rs + RefundsIn(t, [evs[0]], a) + RefundsIn(t, evs[1..], a) == rs + RefundsIn(t, evs, a);
    }
  }

  /**
   For any events after an attempt was credited, with its refunds partial or
   full, in any order and with any repeats, the total taken back is the smaller
   of the earning and the sum of the distinct refunds' rounded shares.
   */
  lemma RefundTotal(t: Tables, l: Ledger, evs: seq<Event>, a: AttemptId, e: Entry)
    requires ValidTables(t) && Valid(l) && ReversalsTraced(t, l) && a in t.charges
    requires EarningFor(l.entries, a) == Some(e)
    requires forall x :: x in l.entries ==> !Matches(ReversalsOf(a), x)
    ensures e.amountCents > 0
    ensures Reversed(Run(t, l, evs), a)
         == Min(e.amountCents, SumOver(SharesOf(t, a, e.amountCents), RefundsIn(t, evs, a)))
  {
    assert WellKeyed(e);
    SumNone(l.entries, ReversalsOf(a));
    var shares := SharesOf(t, a, e.amountCents);
    forall r | r in shares ensures RefundKey(r) !in Keys(l) {
      forall x | x in l.entries ensures x.key != RefundKey(r) {
        assert WellKeyed(x);
      }
    }
    assert Capped(l, a, e.amountCents, shares, {});
    RunKeepsCapped(t, l, evs, a, e, {});
    assert {} + RefundsIn(t, evs, a) == RefundsIn(t, evs, a);
  }

  /** The events from the moment attempt `a` was credited on. */
  ghost function AfterCredit(t: Tables, l: Ledger, evs: seq<Event>, a: AttemptId): seq<Event>
    requires ValidTables(t) && Valid(l)
    decreases |evs|
  {
    if EarningFor(l.entries, a).Some? || evs == [] then evs else AfterCredit(t, Step(t, l, evs[0]), evs[1..], a)
  }

  ghost predicate Unreversed(l: Ledger, a: AttemptId) {
    forall x :: x in l.entries ==> !Matches(ReversalsOf(a), x)
  }

  /** Nothing is taken back before it was credited. */
  lemma StepKeepsUnreversed(t: Tables, l: Ledger, ev: Event, a: AttemptId)
    requires ValidTables(t) && Valid(l) && Unreversed(l, a) && EarningFor(l.entries, a).None?
    ensures Unreversed(Step(t, l, ev), a)
  {
    hide Valid, EarningFor;
    if Step(t, l, ev) != l {
      var p := PostedBy(t, l, ev);
      hide Step;
      assert WellKeyed(p);
      assert forall x :: x in Post(l, p).entries ==> x in l.entries || x == p;
    }
  }

  lemma StepKeepsEarning(t: Tables, l: Ledger, ev: Event, a: AttemptId)
    requires ValidTables(t) && Valid(l) && EarningFor(l.entries, a).Some?
    ensures EarningFor(Step(t, l, ev).entries, a) == EarningFor(l.entries, a)
  {
    hide Valid, EarningFor, Step, Post;
    if Step(t, l, ev) != l {
      var p := PostedBy(t, l, ev);
      EarningStays(l, p, a);
    }
  }

  lemma {:induction false} RunKeepsEarning(t: Tables, l: Ledger, evs: seq<Event>, a: AttemptId)
    requires ValidTables(t) && Valid(l) && EarningFor(l.entries, a).Some?
    ensures EarningFor(Run(t, l, evs).entries, a) == EarningFor(l.entries, a)
    decreases |evs|
  {
    hide Valid, EarningFor, Step;
    if evs != [] {
      StepKeepsEarning(t, l, evs[0], a);
      RunKeepsEarning(t, Step(t, l, evs[0]), evs[1..], a);
    }
  }

  /** What a refund total has to be, given the events since the credit. */
  ghost predicate TakenBack(t: Tables, l: Ledger, evs: seq<Event>, a: AttemptId)
    requires ValidTables(t) && a in t.charges
  {
    var e := EarningFor(l.entries, a);
    e.Some? ==>
      && e.value.amountCents > 0
      && Reversed(l, a) == Min(e.value.amountCents, SumOver(SharesOf(t, a, e.value.amountCents), RefundsIn(t, evs, a)))
  }

  /** From before the credit: only the refunds that succeeded after it count. */
  lemma {:induction false} RefundTotalSinceCredit(t: Tables, l: Ledger, evs: seq<Event>, a: AttemptId)
    requires ValidTables(t) && Valid(l) && ReversalsTraced(t, l) && a in t.charges
    requires EarningFor(l.entries, a).None? && Unreversed(l, a)
    ensures TakenBack(t, Run(t, l, evs), AfterCredit(t, l, evs, a), a)
    decreases |evs|
  {
    hide Valid, EarningFor, Step, ReversalsTraced, Unreversed;
    if evs != [] {
      var l' := Step(t, l, evs[0]);
      StepKeepsTraced(t, l, evs[0]);
      StepKeepsUnreversed(t, l, evs[0], a);
      if EarningFor(l'.entries, a).None? {
        RefundTotalSinceCredit(t, l', evs[1..], a);
      } else {
        assert AfterCredit(t, l', evs[1..], a) == evs[1..];
        CreditedTotal(t, l', evs[1..], a);
      }
    }
  }

  lemma CreditedTotal(t: Tables, l: Ledger, evs: seq<Event>, a: AttemptId)
    requires ValidTables(t) && Valid(l) && ReversalsTraced(t, l) && a in t.charges
    requires EarningFor(l.entries, a).Some? && Unreversed(l, a)
    ensures TakenBack(t, Run(t, l, evs), evs, a)
  {
    hide Valid, EarningFor, Run, ReversalsTraced;
    RefundTotal(t, l, evs, a, EarningFor(l.entries, a).value);
    RunKeepsEarning(t, l, evs, a);
  }

  /** The order and the repeats of the events do not matter, only which refunds succeeded. */
  lemma RefundOrderIrrelevant(t: Tables, l: Ledger, evs: seq<Event>, evs': seq<Event>, a: AttemptId)
    requires ValidTables(t) && Valid(l) && ReversalsTraced(t, l) && a in t.charges
    requires EarningFor(l.entries, a).Some?
    requires forall x :: x in l.entries ==> !Matches(ReversalsOf(a), x)
    requires RefundsIn(t, evs, a) == RefundsIn(t, evs', a)
    ensures Reversed(Run(t, l, evs), a) == Reversed(Run(t, l, evs'), a)
  {
    RefundTotal(t, l, evs, a, EarningFor(l.entries, a).value);
    RefundTotal(t, l, evs', a, EarningFor(l.entries, a).value);
  }

  /** Never more than the earning, and exactly the earning once a full refund succeeded. */
  lemma RefundNeverAboveEarning(t: Tables, l: Ledger, evs: seq<Event>, a: AttemptId)
    requires ValidTables(t) && Valid(l) && ReversalsTraced(t, l) && a in t.charges
    requires EarningFor(l.entries, a).Some?
    requires forall x :: x in l.entries ==> !Matches(ReversalsOf(a), x)
    ensures 0 <= Reversed(Run(t, l, evs), a) <= EarningFor(l.entries, a).value.amountCents
    ensures (exists r :: r in RefundsIn(t, evs, a) && t.refunds[r].amountCents >= t.charges[a].amountCents)
      ==> Reversed(Run(t, l, evs), a) == EarningFor(l.entries, a).value.amountCents
  {
    var e := EarningFor(l.entries, a).value;
    RefundTotal(t, l, evs, a, e);
    var shares, rs := SharesOf(t, a, e.amountCents), RefundsIn(t, evs, a);
    SumOverNonNegative(shares, rs);
    if r :| r in rs && t.refunds[r].amountCents >= t.charges[a].amountCents {
      SumOverAdd(shares, rs, r);
      SumOverNonNegative(shares, rs - {r});
    }
  }

  /** The amounts the refunds themselves returned to the caller. */
  ghost function AmountsOf(t: Tables): map<RefundId, int> {
    map r | r in t.refunds :: t.refunds[r].amountCents as int
  }

  /** One more term in the proportion: pure arithmetic. */
  lemma ProportionStep(earning: int, charged: int, refunded: int, share: int, restRefunded: int, restShares: int, n: nat)
    requires -charged <= 2 * (earning * refunded - share * charged) <= charged
    requires -(n * charged) <= 2 * (earning * restRefunded - restShares * charged) <= n * charged
    ensures -((n + 1) * charged) <= 2 * (earning * (refunded + restRefunded) - (share + restShares) * charged) <= (n + 1) * charged
  {
    assert (share + restShares) * charged == share * charged + restShares * charged;
    assert earning * (refunded + restRefunded) == earning * refunded + earning * restRefunded;
    assert (n + 1) * charged == n * charged + charged;
  }

  /** Half a cent of rounding per partial refund, and no more. */
  lemma {:induction false} SharesAreProportional(t: Tables, a: AttemptId, earning: int, rs: set<RefundId>)
    requires ValidTables(t) && earning >= 0 && a in t.charges
    requires forall r :: r in rs ==> r in t.refunds && t.refunds[r].attempt == a
                                     && t.refunds[r].amountCents < t.charges[a].amountCents
    ensures var charged := t.charges[a].amountCents;
      -(|rs| * charged) <= 2 * (earning * SumOver(AmountsOf(t), rs) - SumOver(SharesOf(t, a, earning), rs) * charged)
        <= |rs| * charged
    decreases |rs|
  {
    if rs != {} {
      var r :| r in rs;
      var shares := SharesOf(t, a, earning);
      SumOverAdd(shares, rs, r);
      SumOverAdd(AmountsOf(t), rs, r);
      SharesAreProportional(t, a, earning, rs - {r});
      assert |rs| == |rs - {r}| + 1;
      RoundedShareBounds(earning, t.refunds[r].amountCents, t.charges[a].amountCents);
      ProportionStep(earning, t.charges[a].amountCents, t.refunds[r].amountCents, shares[r],
                     SumOver(AmountsOf(t), rs - {r}), SumOver(shares, rs - {r}), |rs - {r}|);
    } else {
      assert SumOver(SharesOf(t, a, earning), rs) == 0;
    }
  }

  /** With only partial refunds and the cap not reached, the creator gives back the same proportion as the caller got. */
  lemma PartialRefundsProportional(t: Tables, l: Ledger, evs: seq<Event>, a: AttemptId)
    requires ValidTables(t) && Valid(l) && ReversalsTraced(t, l) && a in t.charges
    requires EarningFor(l.entries, a).Some?
    requires forall x :: x in l.entries ==> !Matches(ReversalsOf(a), x)
    requires forall r :: r in RefundsIn(t, evs, a) ==> t.refunds[r].amountCents < t.charges[a].amountCents
    requires Reversed(Run(t, l, evs), a) < EarningFor(l.entries, a).value.amountCents
    ensures var rs := RefundsIn(t, evs, a);
      var charged := t.charges[a].amountCents;
      var earning := EarningFor(l.entries, a).value.amountCents;
      -(|rs| * charged) <= 2 * (earning * SumOver(AmountsOf(t), rs) - Reversed(Run(t, l, evs), a) * charged) <= |rs| * charged
  {
    var e := EarningFor(l.entries, a).value;
    RefundTotal(t, l, evs, a, e);
    SharesAreProportional(t, a, e.amountCents, RefundsIn(t, evs, a));
  }

  // ------------------------------------------------------------ disputes

  /** A dispute's entries belong to its attempt, and a release undoes a debit exactly. */
  ghost predicate DisputesTraced(t: Tables, l: Ledger) {
    && (forall e :: e in l.entries && (e.key.DebitKey? || e.key.ReleaseKey?) ==>
         && e.key.dispute in t.disputes
         && EarningFor(l.entries, t.disputes[e.key.dispute]).Some?
         && e.amountCents == (if e.key.DebitKey? then -1 else 1) * EarningFor(l.entries, t.disputes[e.key.dispute]).value.amountCents)
    && (forall d :: ReleaseKey(d) in Keys(l) ==> DebitKey(d) in Keys(l))
    && (forall d :: DisputeNet(l, d) == DisputeExpected(t, l, d))
  }

  function DisputeNet(l: Ledger, d: DisputeId): int {
    Sum(l.entries, DisputeOf(d))
  }

  /** Zero before the debit and after the release, minus the earning in between. */
  function DisputeExpected(t: Tables, l: Ledger, d: DisputeId): int {
    if DebitKey(d) in Keys(l) && ReleaseKey(d) !in Keys(l) && d in t.disputes
       && EarningFor(l.entries, t.disputes[d]).Some?
    then -EarningFor(l.entries, t.disputes[d]).value.amountCents
    else 0
  }

  /** What a dispute may look like just before an entry is posted. */
  lemma DisputePost(t: Tables, l: Ledger, ev: Event, p: Entry)
    requires ValidTables(t) && Valid(l) && DisputesTraced(t, l)
    requires Step(t, l, ev) == Post(l, p) && Post(l, p) != l && WellKeyed(p)
    requires ev.Disputed? && (p.key == DebitKey(ev.dispute) || p.key == ReleaseKey(ev.dispute))
    ensures ev.dispute in t.disputes && EarningFor(l.entries, t.disputes[ev.dispute]).Some?
    ensures p.attempt == Some(t.disputes[ev.dispute])
    ensures p.key.DebitKey? ==> p.amountCents == -EarningFor(l.entries, t.disputes[ev.dispute]).value.amountCents
    ensures p.key.ReleaseKey? ==> p.amountCents == EarningFor(l.entries, t.disputes[ev.dispute]).value.amountCents
                                  && DebitKey(ev.dispute) in Keys(l)
  {
    var l' := Step(t, l, ev);
    assert l'.entries[|l.entries|] == p;
    var a := t.disputes[ev.dispute];
    var earning := EarningFor(l.entries, a).value;
    if DisputeOpen(ev.status) {
      assert l' == Post(l, DebitEntry(earning, ev.dispute, a, ev.at));
      assert p == DebitEntry(earning, ev.dispute, a, ev.at);
    } else {
      var debit := FindKey(l.entries, DebitKey(ev.dispute)).value;
      assert l' == Post(l, ReleaseEntry(earning, debit, ev.dispute, a, ev.at));
      assert p == ReleaseEntry(earning, debit, ev.dispute, a, ev.at);
    }
  }

  lemma StepKeepsDisputes(t: Tables, l: Ledger, ev: Event)
    requires ValidTables(t) && Valid(l) && DisputesTraced(t, l)
    ensures DisputesTraced(t, Step(t, l, ev))
  {
    hide Valid, Step, ValidTables;
    var l' := Step(t, l, ev);
    if l' != l {
      var p := PostedBy(t, l, ev);
      if p.key.DebitKey? || p.key.ReleaseKey? {
        DisputePost(t, l, ev, p);
      }
      hide DisputesTraced;
      PostKeepsDisputes(t, l, p);
    }
  }

  /** An entry that is no dispute's, or is the next one of its dispute, keeps disputes in order. */
  lemma PostKeepsDisputes(t: Tables, l: Ledger, p: Entry)
    requires DisputesTraced(t, l) && Post(l, p) != l
    requires p.key.DebitKey? || p.key.ReleaseKey? ==>
      && p.key.dispute in t.disputes && EarningFor(l.entries, t.disputes[p.key.dispute]).Some?
      && p.amountCents == (if p.key.DebitKey? then -1 else 1) * EarningFor(l.entries, t.disputes[p.key.dispute]).value.amountCents
      && (p.key.ReleaseKey? ==> DebitKey(p.key.dispute) in Keys(l))
    ensures DisputesTraced(t, Post(l, p))
  {
    var l' := Post(l, p);
    PostAppends(l, p);
    assert forall x :: x in l'.entries <==> x in l.entries || x == p;
    forall a | EarningFor(l.entries, a).Some? ensures EarningFor(l'.entries, a) == EarningFor(l.entries, a) {
      EarningStays(l, p, a);
    }
    forall d ensures DisputeNet(l', d) == DisputeExpected(t, l', d) {
      if DebitKey(d) in Keys(l) {
        var x :| x in l.entries && x.key == DebitKey(d);
      }
      DisputeNetStep(t, l, p, d);
    }
    hide Sum, EarningFor, DisputeNet, DisputeExpected;
  }

  /** How one posting moves one dispute's net effect. */
  lemma DisputeNetStep(t: Tables, l: Ledger, p: Entry, d: DisputeId)
    requires p.key !in Keys(l) && p.amountCents != 0
    requires DisputeNet(l, d) == DisputeExpected(t, l, d)
    requires ReleaseKey(d) in Keys(l) ==> DebitKey(d) in Keys(l)
    requires DebitKey(d) in Keys(l) ==> d in t.disputes && EarningFor(l.entries, t.disputes[d]).Some?
    requires p.key == DebitKey(d) || p.key == ReleaseKey(d) ==>
      && d in t.disputes && EarningFor(l.entries, t.disputes[d]).Some?
      && p.amountCents == (if p.key.DebitKey? then -1 else 1) * EarningFor(l.entries, t.disputes[d]).value.amountCents
      && (p.key.ReleaseKey? ==> DebitKey(d) in Keys(l))
    ensures DisputeNet(Post(l, p), d) == DisputeExpected(t, Post(l, p), d)
  {
    PostAppends(l, p);
    SumSnoc(l.entries, p, DisputeOf(d));
    if d in t.disputes && EarningFor(l.entries, t.disputes[d]).Some? {
      EarningStays(l, p, t.disputes[d]);
    }
  }

  lemma {:induction false} RunKeepsDisputes(t: Tables, l: Ledger, evs: seq<Event>)
    requires ValidTables(t) && Valid(l) && DisputesTraced(t, l)
    ensures DisputesTraced(t, Run(t, l, evs))
    decreases |evs|
  {
    if evs != [] {
      StepKeepsDisputes(t, l, evs[0]);
      RunKeepsDisputes(t, Step(t, l, evs[0]), evs[1..]);
    }
  }

  /**
   Over any order of events each dispute's net effect is nothing or exactly
   minus the earning it disputes, and a release only ever follows its debit.
   */
  lemma DisputeNetEffect(t: Tables, evs: seq<Event>, d: DisputeId)
    requires ValidTables(t)
    ensures Valid(EMPTY)
    ensures var l := Run(t, EMPTY, evs);
      && (ReleaseKey(d) in Keys(l) ==> DebitKey(d) in Keys(l) && DisputeNet(l, d) == 0)
      && (DebitKey(d) !in Keys(l) ==> DisputeNet(l, d) == 0)
      && (DebitKey(d) in Keys(l) && ReleaseKey(d) !in Keys(l) ==>
           d in t.disputes && EarningFor(l.entries, t.disputes[d]).Some?
           && DisputeNet(l, d) == -EarningFor(l.entries, t.disputes[d]).value.amountCents)
  {
    EmptyIsValid();
    RunKeepsDisputes(t, EMPTY, evs);
    var l := Run(t, EMPTY, evs);
    if DebitKey(d) in Keys(l) {
      var x :| x in l.entries && x.key == DebitKey(d);
    }
  }
}
