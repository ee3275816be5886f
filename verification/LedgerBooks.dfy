/**
 The ledger tables, updated in place: ledgerEntries and creatorBalances as
 frontend/convex/lib/ledger.ts writes them. Each method is proved to do to its
 fields what the function of the same name in module Ledger does to a value.
 */
module LedgerBooks {
  import opened Common
  import opened Ledger

  class LedgerBook {
    var entries: seq<Entry>
    var totals: map<Account, int>

    function Value(): Ledger
      reads this
    {
      Ledger(entries, totals)
    }

    constructor ()
      ensures Value() == EMPTY
    {
      entries, totals := [], map[];
    }

    /** The row under an idempotency key: `by_key`, `.first()`. */
    method Find(key: Key) returns (found: Option<Entry>)
      ensures found == FindKey(entries, key)
      ensures found.Some? <==> key in Keys(Value())
    {
      var i := 0;
      while i < |entries|
        invariant 0 <= i <= |entries|
        invariant FindKey(entries, key) == FindKey(entries[i..], key)
      {
        if entries[i].key == key {
          assert entries[i] in entries;
          return Some(entries[i]);
        }
        assert entries[i..][1..] == entries[i + 1..];
        i := i + 1;
      }
      return None;
    }

    /** Posts an entry unless it is zero or its key is there, and keeps the running total in step. */
    method PostEntry(e: Entry) returns (posted: bool)
      modifies this
      ensures Value() == Post(old(Value()), e)
      ensures posted <==> e.amountCents != 0 && e.key !in Keys(old(Value()))
      ensures posted ==> entries == old(entries) + [e]
      ensures !posted ==> Value() == old(Value())
    {
      if e.amountCents == 0 {
        return false;
      }
      var existing := Find(e.key);
      if existing.Some? {
        return false;
      }
      entries := entries + [e];
      if e.account in totals {
        totals := totals[e.account := totals[e.account] + e.amountCents];
      } else {
        totals := totals[e.account := e.amountCents];
      }
      return true;
    }

    /** Adds up the entries a query selects. */
    method AddUp(f: Filter) returns (sum: int)
      ensures sum == Sum(entries, f)
    {
      sum := 0;
      var i := 0;
      while i < |entries|
        invariant 0 <= i <= |entries|
        invariant sum == Sum(entries[..i], f)
      {
        assert entries[..i + 1] == entries[..i] + [entries[i]];
        SumSnoc(entries[..i], entries[i], f);
        sum := sum + Contribution(f, entries[i]);
        i := i + 1;
      }
      assert entries[..i] == entries;
    }

    /** Reads the total and only the entries still held; the available amount is the direct sum of what matured. */
    method BalanceOf(acct: Account, now: int) returns (b: Balance)
      requires Valid(Value())
      ensures b == BalanceAt(Value(), acct, now)
      ensures b.availableCents == Sum(entries, Matured(acct, now))
    {
      var held := AddUp(Held(acct, now));
      var total := if acct in totals then totals[acct] else 0;
      BalanceIsDirectSum(Value(), acct, now);
      return Balance(total, held, total - held);
    }

    method FindEarning(a: AttemptId) returns (found: Option<Entry>)
      ensures found == EarningFor(entries, a)
    {
      var i := 0;
      while i < |entries|
        invariant 0 <= i <= |entries|
        invariant EarningFor(entries, a) == EarningFor(entries[i..], a)
      {
        if entries[i].attempt == Some(a) && entries[i].kind == Earning {
          return Some(entries[i]);
        }
        assert entries[i..][1..] == entries[i + 1..];
        i := i + 1;
      }
      return None;
    }

    /** Credits a captured attempt once, whatever the repeats. */
    method CreditEarning(a: AttemptId, captured: bool, c: Charge, effectiveAt: int)
      requires Valid(Value()) && 0 <= c.platformFeeCents < c.amountCents
      modifies this
      ensures Valid(Value())
      ensures Value() == if captured then Post(old(Value()), EarningEntry(a, c, effectiveAt)) else old(Value())
      ensures captured ==> EarningKey(a) in Keys(Value())
    {
      if !captured {
        return;
      }
      PostKeepsValid(Value(), EarningEntry(a, c, effectiveAt));
      var _ := PostEntry(EarningEntry(a, c, effectiveAt));
    }

    method ReverseRefund(r: RefundId, refund: Refunding, charged: int, now: int)
      requires Valid(Value()) && charged > 0
      modifies this
      ensures Valid(Value())
      ensures Value() == ReverseForRefund(old(Value()), r, refund, charged, now)
    {
      ReversalIsOnePost(Value(), r, refund, charged, now);
      hide Valid, Keys, Sum;
      var earning := FindEarning(refund.attempt);
      if earning.None? {
        return;
      }
      var e := earning.value;
      EarningIsPositive(Value(), refund.attempt);
      var share := Share(e.amountCents, refund.amountCents, charged);
      var others := AddUp(OtherReversalsOf(refund.attempt, RefundKey(r)));
      var reversed := -others;
      var amount := Min(share, e.amountCents - reversed);
      if amount <= 0 {
        return;
      }
      var _ := PostEntry(ReversalEntry(e, r, refund.attempt, amount, now));
    }

    method ChangeDispute(d: DisputeId, attempt: Option<AttemptId>, s: DisputeStatus, now: int)
      requires Valid(Value())
      modifies this
      ensures Valid(Value())
      ensures Value() == AdjustForDispute(old(Value()), d, attempt, s, now)
    {
      DisputeIsOnePost(Value(), d, attempt, s, now);
      hide Valid, Keys;
      if attempt.None? {
        return;
      }
      var earning := FindEarning(attempt.value);
      if earning.None? {
        return;
      }
      if DisputeOpen(s) {
        var _ := PostEntry(DebitEntry(earning.value, d, attempt.value, now));
      } else if DisputeResolved(s) {
        var debit := Find(DebitKey(d));
        if debit.None? {
          return;
        }
        var _ := PostEntry(ReleaseEntry(earning.value, debit.value, d, attempt.value, now));
      }
    }
  }

  lemma EarningIsPositive(l: Ledger, a: AttemptId)
    requires Valid(l) && EarningFor(l.entries, a).Some?
    ensures EarningFor(l.entries, a).value.amountCents > 0
  {
    EarningByKey(l, a);
    assert WellKeyed(EarningFor(l.entries, a).value);
  }
}
