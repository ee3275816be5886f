/**
 The creator ledger of frontend/convex/lib/ledger.ts: an append-only list of
 signed amounts with idempotency keys, plus a running total per account.
 Functions on the value `Ledger` say what each posting does; the class
 `LedgerBook` performs the postings in place and is proved against them.
 */
module Ledger {
  import opened Common

  datatype Kind =
    | Earning
    | RefundReversal
    | DisputeDebit
    | DisputeRelease
    | PayoutReservation
    | PayoutRelease
    | Adjustment

  /** A creator's balance is kept per currency. */
  datatype Account = Account(creator: UserId, currency: string)

  /** The source's key strings: `earning:<attempt>`, `refund:<refund>`, and so on. */
  datatype Key =
    | EarningKey(attempt: AttemptId)
    | RefundKey(refund: RefundId)
    | DebitKey(dispute: DisputeId)
    | ReleaseKey(dispute: DisputeId)
    | ReservationKey(item: ItemId)

  datatype Entry = Entry(
    account: Account,
    kind: Kind,
    amountCents: int,
    effectiveAt: int,
    key: Key,
    attempt: Option<AttemptId>)

  datatype Ledger = Ledger(entries: seq<Entry>, totals: map<Account, int>)

  const EMPTY := Ledger([], map[])

  // ------------------------------------------------------------ sums

  /** The row sets the source reads through its indexes. */
  datatype Filter =
    | Of(account: Account)
    | Matured(account: Account, now: int)
    | Held(account: Account, now: int)
    | ReversalsOf(attempt: AttemptId)
    | OtherReversalsOf(attempt: AttemptId, except: Key)
    | DisputeOf(dispute: DisputeId)
    | About(attempt: AttemptId)
    | Reservations(account: Account)
    | MaturedNonPayout(account: Account, now: int)

  predicate Matches(f: Filter, e: Entry) {
    match f
    case Of(acct) => e.account == acct
    case Matured(acct, now) => e.account == acct && e.effectiveAt <= now
    case Held(acct, now) => e.account == acct && e.effectiveAt > now
    case ReversalsOf(a) => e.attempt == Some(a) && e.kind == RefundReversal
    case OtherReversalsOf(a, key) => e.attempt == Some(a) && e.kind == RefundReversal && e.key != key
    case About(a) => e.attempt == Some(a)
    case DisputeOf(d) => e.key == DebitKey(d) || e.key == ReleaseKey(d)
    case Reservations(acct) => e.account == acct && e.kind == PayoutReservation
    case MaturedNonPayout(acct, now) => e.account == acct && e.effectiveAt <= now && e.kind != PayoutReservation
  }

  function Contribution(f: Filter, e: Entry): int {
    if Matches(f, e) then e.amountCents else 0
  }

  /** Sum of the amounts of the entries a filter selects. */
  function Sum(es: seq<Entry>, f: Filter): int {
    if es == [] then 0 else Sum(es[..|es| - 1], f) + Contribution(f, es[|es| - 1])
  }

  lemma SumSnoc(es: seq<Entry>, e: Entry, f: Filter)
    ensures Sum(es + [e], f) == Sum(es, f) + Contribution(f, e)
  {
    assert (es + [e])[..|es|] == es;
  }

  /** A filter that selects no entry sums to zero. */
  lemma {:induction false} SumNone(es: seq<Entry>, f: Filter)
    requires forall e :: e in es ==> !Matches(f, e)
    ensures Sum(es, f) == 0
  {
    if es != [] {
      SumNone(es[..|es| - 1], f);
    }
  }

  /** Leaving out one key changes nothing when no entry carries it. */
  lemma {:induction false} SumOthers(es: seq<Entry>, a: AttemptId, key: Key)
    requires forall e :: e in es ==> e.key != key
    ensures Sum(es, OtherReversalsOf(a, key)) == Sum(es, ReversalsOf(a))
  {
    if es != [] {
      SumOthers(es[..|es| - 1], a, key);
    }
  }

  /** Every entry of an account is either matured or held. */
  lemma {:induction false} SumSplits(es: seq<Entry>, acct: Account, now: int)
    ensures Sum(es, Of(acct)) == Sum(es, Matured(acct, now)) + Sum(es, Held(acct, now))
  {
    if es != [] {
      SumSplits(es[..|es| - 1], acct, now);
    }
  }

  // ------------------------------------------------------------ posting

  function Keys(l: Ledger): set<Key> {
    set e | e in l.entries :: e.key
  }

  function Total(l: Ledger, acct: Account): int {
    if acct in l.totals then l.totals[acct] else 0
  }

  /** Posts an entry unless it is zero or its key is already there. */
  function Post(l: Ledger, e: Entry): Ledger {
    if e.amountCents == 0 || e.key in Keys(l) then l
    else Ledger(l.entries + [e], l.totals[e.account := Total(l, e.account) + e.amountCents])
  }

  /** A posting that takes effect appends one entry under a new key. */
  lemma PostAppends(l: Ledger, e: Entry)
    requires e.amountCents != 0 && e.key !in Keys(l)
    ensures Post(l, e).entries == l.entries + [e]
    ensures Keys(Post(l, e)) == Keys(l) + {e.key}
  {
    assert forall x :: x in l.entries + [e] <==> x in l.entries || x == e;
  }

  /** A key fixes the kind of its entry, and the attempt where there is one. */
  predicate WellKeyed(e: Entry) {
    match e.key
    case EarningKey(a) => e.kind == Earning && e.attempt == Some(a) && e.amountCents > 0
    case RefundKey(_) => e.kind == RefundReversal && e.attempt.Some? && e.amountCents < 0
    case DebitKey(_) => e.kind == DisputeDebit && e.attempt.Some? && e.amountCents < 0
    case ReleaseKey(_) => e.kind == DisputeRelease && e.attempt.Some? && e.amountCents > 0
    case ReservationKey(_) => e.kind == PayoutReservation && e.attempt == None && e.amountCents < 0
  }

  ghost predicate Valid(l: Ledger) {
    && (forall acct :: Total(l, acct) == Sum(l.entries, Of(acct)))
    && (forall i, j :: 0 <= i < j < |l.entries| ==> l.entries[i].key != l.entries[j].key)
    && (forall e :: e in l.entries ==> WellKeyed(e))
  }

  /** Posting keeps the running totals, the uniqueness of keys and the key discipline. */
  lemma PostKeepsValid(l: Ledger, e: Entry)
    requires Valid(l)
    requires e.amountCents == 0 || WellKeyed(e)
    ensures Valid(Post(l, e))
    ensures Keys(Post(l, e)) == Keys(l) + (if e.amountCents == 0 then {} else {e.key})
  {
    var p := Post(l, e);
    if p != l {
      forall acct ensures Total(p, acct) == Sum(p.entries, Of(acct)) {
        SumSnoc(l.entries, e, Of(acct));
      }
      assert p.entries[|l.entries|] == e;
      assert forall i :: 0 <= i < |l.entries| ==> p.entries[i] == l.entries[i];
      assert forall i :: 0 <= i < |l.entries| ==> l.entries[i].key in Keys(l);
      assert forall x :: x in p.entries <==> x in l.entries || x == e;
    }
  }

  // ------------------------------------------------------------ balances

  datatype Balance = Balance(totalCents: int, pendingCents: int, availableCents: int)

  /** The fast form: the stored total minus only the entries still held. */
  function BalanceAt(l: Ledger, acct: Account, now: int): Balance {
    var held := Sum(l.entries, Held(acct, now));
    Balance(Total(l, acct), held, Total(l, acct) - held)
  }

  /**
   The fast form refines the direct one: the available amount is the sum over
   the whole history of the entries effective at or before `now`, and the total
   is the sum of everything, which is what the SQL of the Go service computes.
   */
  lemma BalanceIsDirectSum(l: Ledger, acct: Account, now: int)
    requires Valid(l)
    ensures BalanceAt(l, acct, now).availableCents == Sum(l.entries, Matured(acct, now))
    ensures BalanceAt(l, acct, now).totalCents == Sum(l.entries, Of(acct))
    ensures BalanceAt(l, acct, now).pendingCents
         == BalanceAt(l, acct, now).totalCents - Sum(l.entries, Matured(acct, now))
  {
    SumSplits(l.entries, acct, now);
  }

  // ------------------------------------------------------------ earnings

  /** What the ledger reads of a payment attempt. */
  datatype Charge = Charge(account: Account, amountCents: int, platformFeeCents: int)

  function EarningEntry(a: AttemptId, c: Charge, effectiveAt: int): Entry {
    Entry(c.account, Earning, c.amountCents - c.platformFeeCents, effectiveAt, EarningKey(a), Some(a))
  }

  /** The first EARNING entry of an attempt. */
  function EarningFor(es: seq<Entry>, a: AttemptId): (r: Option<Entry>)
    ensures r.Some? ==> r.value in es && r.value.attempt == Some(a) && r.value.kind == Earning
    ensures r.None? ==> forall e :: e in es ==> !(e.attempt == Some(a) && e.kind == Earning)
  {
    if es == [] then None
    else if es[0].attempt == Some(a) && es[0].kind == Earning then Some(es[0])
    else EarningFor(es[1..], a)
  }

  /** In a valid ledger the earning of an attempt is the entry under its key. */
  lemma EarningByKey(l: Ledger, a: AttemptId)
    requires Valid(l)
    ensures EarningFor(l.entries, a).Some? <==> EarningKey(a) in Keys(l)
    ensures EarningFor(l.entries, a).Some? ==> EarningFor(l.entries, a).value.key == EarningKey(a)
  {
    if EarningKey(a) in Keys(l) {
      var e :| e in l.entries && e.key == EarningKey(a);
      assert WellKeyed(e);
    }
  }

  lemma {:induction false} EarningForSnoc(es: seq<Entry>, e: Entry, a: AttemptId)
    requires EarningFor(es, a).Some? || e.kind != Earning || e.attempt != Some(a)
    ensures EarningFor(es + [e], a) == EarningFor(es, a)
  {
    if es != [] {
      assert (es + [e])[1..] == es[1..] + [e];
      if !(es[0].attempt == Some(a) && es[0].kind == Earning) {
        EarningForSnoc(es[1..], e, a);
      }
    } else {
      assert es + [e] == [e];
      assert [e][1..] == [];
    }
  }

  /** Once credited, an attempt's earning never changes, whatever is posted. */
  lemma EarningStays(l: Ledger, e: Entry, a: AttemptId)
    requires EarningFor(l.entries, a).Some?
    ensures EarningFor(Post(l, e).entries, a) == EarningFor(l.entries, a)
  {
    if Post(l, e) != l {
      EarningForSnoc(l.entries, e, a);
    }
  }

  // ------------------------------------------------------------ refunds

  /** What the ledger reads of a refund. */
  datatype Refunding = Refunding(attempt: AttemptId, amountCents: nat)

  /** `Math.round(earning * refunded / charged)` for a positive charge. */
  function RoundedShare(earning: int, refunded: nat, charged: int): (share: int)
    requires earning >= 0 && charged > 0
    ensures 0 <= share
  {
    assert earning * refunded >= 0;
    (2 * (earning * refunded) + charged) / (2 * charged)
  }

  /** Rounding moves a share by at most half a cent, and a half rounds up. */
  lemma RoundedShareBounds(earning: int, refunded: nat, charged: int)
    requires earning >= 0 && charged > 0
    ensures -charged <= 2 * (earning * refunded - RoundedShare(earning, refunded, charged) * charged) < charged
  {
    assert earning * refunded >= 0;
    var n, d := 2 * (earning * refunded) + charged, 2 * charged;
    assert n == d * (n / d) + n % d;
    assert d * (n / d) == 2 * ((n / d) * charged);
  }

  /** The part of the earning a refund takes back before capping. */
  function Share(earning: int, refunded: nat, charged: int): (share: int)
    requires earning >= 0 && charged > 0
    ensures 0 <= share
  {
    if refunded < charged then RoundedShare(earning, refunded, charged) else earning
  }

  function ReversalEntry(earning: Entry, r: RefundId, a: AttemptId, amount: int, now: int): Entry {
    Entry(earning.account, RefundReversal, -amount, now, RefundKey(r), Some(a))
  }

  /** Takes `share` back from earning `e`, never more in all than was earned. */
  function TakeBack(l: Ledger, r: RefundId, a: AttemptId, e: Entry, share: int, now: int): Ledger {
    var reversed := -Sum(l.entries, OtherReversalsOf(a, RefundKey(r)));
    var amount := Min(share, e.amountCents - reversed);
    if amount <= 0 then l else Post(l, ReversalEntry(e, r, a, amount, now))
  }

  /** A refund succeeded: take back the creator's share, if one was credited. */
  function ReverseForRefund(l: Ledger, r: RefundId, refund: Refunding, charged: int, now: int): Ledger
    requires charged > 0
    requires Valid(l)
  {
    var earning := EarningFor(l.entries, refund.attempt);
    if earning.None? then l
    else
      var e := earning.value;
      assert WellKeyed(e) && e.amountCents > 0 by { EarningByKey(l, refund.attempt); }
      TakeBack(l, r, refund.attempt, e, Share(e.amountCents, refund.amountCents, charged), now)
  }

  /** What taking back does, said through the total already reversed. */
  lemma TakeBackCases(l: Ledger, r: RefundId, a: AttemptId, e: Entry, share: int, now: int)
    ensures var amount := Min(share, e.amountCents + Sum(l.entries, ReversalsOf(a)));
      TakeBack(l, r, a, e, share, now)
      == if RefundKey(r) in Keys(l) || amount <= 0 then l
         else Post(l, ReversalEntry(e, r, a, amount, now))
  {
    if RefundKey(r) !in Keys(l) {
      forall x | x in l.entries ensures x.key != RefundKey(r) {
        assert x.key in Keys(l);
      }
      SumOthers(l.entries, a, RefundKey(r));
    }
  }

  // ------------------------------------------------------------ disputes

  datatype DisputeStatus =
    | NeedsResponse
    | UnderReview
    | Lost
    | WarningNeedsResponse
    | WarningUnderReview
    | Won
    | WarningClosed
    | Prevented
    | OtherStatus

  predicate DisputeOpen(s: DisputeStatus) {
    s in {NeedsResponse, UnderReview, Lost, WarningNeedsResponse, WarningUnderReview}
  }

  predicate DisputeResolved(s: DisputeStatus) {
    s in {Won, WarningClosed, Prevented}
  }

  function FindKey(es: seq<Entry>, key: Key): (r: Option<Entry>)
    ensures r.Some? ==> r.value in es && r.value.key == key
    ensures r.None? ==> forall e :: e in es ==> e.key != key
  {
    if es == [] then None
    else if es[0].key == key then Some(es[0])
    else FindKey(es[1..], key)
  }

  function DebitEntry(earning: Entry, d: DisputeId, a: AttemptId, now: int): Entry {
    Entry(earning.account, DisputeDebit, -earning.amountCents, now, DebitKey(d), Some(a))
  }

  function ReleaseEntry(earning: Entry, debit: Entry, d: DisputeId, a: AttemptId, now: int): Entry {
    Entry(earning.account, DisputeRelease, -debit.amountCents, now, ReleaseKey(d), Some(a))
  }

  /** An open or lost dispute holds the creator's share back; a won one releases it. */
  function AdjustForDispute(l: Ledger, d: DisputeId, attempt: Option<AttemptId>, s: DisputeStatus, now: int): Ledger {
    if attempt.None? then l
    else
      var a := attempt.value;
      var earning := EarningFor(l.entries, a);
      if earning.None? then l
      else if DisputeOpen(s) then Post(l, DebitEntry(earning.value, d, a, now))
      else if DisputeResolved(s) then
        var debit := FindKey(l.entries, DebitKey(d));
        if debit.None? then l else Post(l, ReleaseEntry(earning.value, debit.value, d, a, now))
      else l
  }

  /** Reversals and dispute changes post at most one entry, always a well-keyed one. */
  lemma ReversalIsOnePost(l: Ledger, r: RefundId, refund: Refunding, charged: int, now: int)
    requires Valid(l) && charged > 0
    ensures var l' := ReverseForRefund(l, r, refund, charged, now);
      l' == l || exists e :: WellKeyed(e) && e.key == RefundKey(r) && e.attempt == Some(refund.attempt) && l' == Post(l, e)
    ensures Valid(ReverseForRefund(l, r, refund, charged, now))
  {
    if EarningFor(l.entries, refund.attempt).Some? {
      var e := EarningFor(l.entries, refund.attempt).value;
      assert WellKeyed(e);
      TakeBackIsOnePost(l, r, refund.attempt, e, Share(e.amountCents, refund.amountCents, charged), now);
    }
  }

  lemma TakeBackIsOnePost(l: Ledger, r: RefundId, a: AttemptId, e: Entry, share: int, now: int)
    requires Valid(l)
    ensures var l' := TakeBack(l, r, a, e, share, now);
      l' == l || exists p :: WellKeyed(p) && p.key == RefundKey(r) && p.attempt == Some(a) && l' == Post(l, p)
    ensures Valid(TakeBack(l, r, a, e, share, now))
  {
    hide Valid, TakeBack, Sum, Post, Keys;
    TakeBackCases(l, r, a, e, share, now);
    var amount := Min(share, e.amountCents + Sum(l.entries, ReversalsOf(a)));
    if RefundKey(r) !in Keys(l) && amount > 0 {
      var p := ReversalEntry(e, r, a, amount, now);
      assert WellKeyed(p);
      PostKeepsValid(l, p);
    }
  }

  lemma DisputeIsOnePost(l: Ledger, d: DisputeId, attempt: Option<AttemptId>, s: DisputeStatus, now: int)
    requires Valid(l)
    ensures var l' := AdjustForDispute(l, d, attempt, s, now);
      l' == l || exists e :: WellKeyed(e) && (e.key == DebitKey(d) || e.key == ReleaseKey(d)) && l' == Post(l, e)
    ensures Valid(AdjustForDispute(l, d, attempt, s, now))
  {
    var l' := AdjustForDispute(l, d, attempt, s, now);
    if l' != l {
      var a := attempt.value;
      EarningByKey(l, a);
      var earning := EarningFor(l.entries, a).value;
      assert WellKeyed(earning);
      var p := if DisputeOpen(s) then DebitEntry(earning, d, a, now)
               else ReleaseEntry(earning, FindKey(l.entries, DebitKey(d)).value, d, a, now);
      assert WellKeyed(p) && l' == Post(l, p);
      PostKeepsValid(l, p);
    }
  }
}
