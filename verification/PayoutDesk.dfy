/**
 payoutItems and payoutRuns, updated in place by the mutations of
 frontend/convex/payouts.ts. Each method is proved to do to the tables what its
 function in module Payouts does to a state, so the safety of whole runs proved
 there is the safety of these methods.
 */
module PayoutDesks {
  import opened Common
  import opened Payouts
  import opened LedgerBooks
  import PS = PayoutSafety
  import L = Ledger

  class PayoutDesk {
    const currency: string
    const book: LedgerBook
    var now: Millis
    var items: seq<Item>
    var runs: seq<PayoutRun>
    /** Stripe's side; no mutation writes it. */
    var transfers: seq<Transfer>

    function Snapshot(): State
      reads this, book
    {
      State(now, currency, book.Value(), items, runs, transfers)
    }

    constructor (currency: string, now: Millis)
      ensures Initial(Snapshot()) && fresh(book)
      ensures this.now == now && this.currency == currency
    {
      this.currency := currency;
      this.now := now;
      items, runs, transfers := [], [], [];
      book := new LedgerBook();
    }

    /** Opens the month's run unless it is there, and returns it. */
    method RunDue(month: int) returns (r: nat)
      modifies this
      ensures Snapshot() == OpenRun(old(Snapshot()), month)
      ensures r < |runs| && runs[r].month == month
      ensures forall q :: 0 <= q < r ==> runs[q].month != month
    {
      r := 0;
      while r < |runs|
        invariant 0 <= r <= |runs|
        invariant forall q :: 0 <= q < r ==> runs[q].month != month
      {
        if runs[r].month == month {
          return;
        }
        r := r + 1;
      }
      runs := runs + [PayoutRun(month, Processing)];
    }

    method FindItem(r: nat, c: UserId) returns (found: bool)
      ensures found == HasItem(items, r, c)
    {
      for i := 0 to |items|
        invariant forall j :: 0 <= j < i ==> !(items[j].run == r && items[j].creator == c)
      {
        if items[i].run == r && items[i].creator == c {
          return true;
        }
      }
      return false;
    }

    method FindUnsettled(c: UserId) returns (found: bool)
      ensures found == HasUnsettled(items, c)
    {
      for i := 0 to |items|
        invariant forall j :: 0 <= j < i ==> !(items[j].creator == c && Unsettled(items[j].status))
      {
        if items[i].creator == c && Unsettled(items[i].status) {
          return true;
        }
      }
      return false;
    }

    /** Takes `amount` out of the available balance at once, so nothing can be paid twice. */
    method ReserveAmount(r: nat, c: UserId, amount: int)
      requires r < |runs| && amount == Available(Snapshot(), c)
      modifies this, book
      ensures Snapshot() == Reserve(old(Snapshot()), r, c)
    {
      ghost var before := Snapshot();
      hide Available, L.Post;
      var item := |items|;
      items := items + [Item(r, c, amount, PayKey(c, runs[r].month), Reserved, 0, now)];
      var _ := book.PostEntry(
        L.Entry(L.Account(c, currency), L.PayoutReservation, -amount, now, L.ReservationKey(item), None));
      if runs[r].status != Processing {
        runs := runs[r := runs[r].(status := Processing)];
      }
      assert runs == before.runs[r := before.runs[r].(status := Processing)];
    }

    /** One creator of the page. */
    method ReserveFor(r: nat, payee: Payee, minimum: int)
      requires PS.Inv(Snapshot()) && r < |runs|
      modifies this, book
      ensures PS.Inv(Snapshot())
      ensures Snapshot() == ReservePayee(old(Snapshot()), r, payee, minimum)
    {
      hide PS.Inv, HasItem, HasUnsettled, L.BalanceAt, L.Valid, Reserve;
      PayeeKeeps(Snapshot(), r, payee, minimum);
      LedgerIsValid(Snapshot());
      if !payee.transfersActive {
        return;
      }
      var already := FindItem(r, payee.creator);
      if already {
        return;
      }
      var unsettled := FindUnsettled(payee.creator);
      if unsettled {
        return;
      }
      var balance := book.BalanceOf(L.Account(payee.creator, currency), now);
      if balance.availableCents < MinimumCents(minimum) {
        return;
      }
      ReserveAmount(r, payee.creator, balance.availableCents);
    }

    /** A page of creators; every creator it pays is left with nothing available. */
    method ReserveBatch(r: nat, page: seq<Payee>, minimum: int)
      requires PS.Inv(Snapshot())
      modifies this, book
      ensures PS.Inv(Snapshot())
      ensures Snapshot() == Step(old(Snapshot()), ReservePageOp(r, page, minimum))
    {
      if r >= |runs| {
        return;
      }
      hide PS.Inv, ReservePayee;
      for k := 0 to |page|
        invariant r < |runs| && PS.Inv(Snapshot())
        invariant old(r < |runs|)
        invariant Snapshot() == ReservePage(old(Snapshot()), r, page[..k], minimum)
      {
        assert page[..k + 1][..k] == page[..k];
        ReserveFor(r, page[k], minimum);
      }
      assert page[..|page|] == page;
    }

    /** Takes a due item for one attempt. */
    method ClaimTransfer(i: nat) returns (claimed: Option<Item>)
      modifies this
      ensures Snapshot() == Claim(old(Snapshot()), i)
      ensures claimed.Some? <==> i < |old(items)| && Claimable(old(items)[i], now)
      ensures claimed.Some? ==> i < |items| && claimed.value == items[i]
    {
      if i >= |items| || items[i].attempts >= MAX_TRANSFER_ATTEMPTS {
        return None;
      }
      var item := items[i];
      var due := item.status == Reserved || ((item.status == Retry || item.status == Sending) && item.nextAttemptAt <= now);
      if !due {
        return None;
      }
      items := items[i := item.(status := Sending, attempts := item.attempts + 1, nextAttemptAt := now + TRANSFER_LEASE_MS)];
      return Some(items[i]);
    }

    /** Called with the transfer Stripe returned for the item. */
    method RecordPaid(i: nat)
      requires i < |items| ==> Sent(transfers, items[i].key)
      modifies this
      ensures Snapshot() == MarkPaid(old(Snapshot()), i)
    {
      if i < |items| && items[i].status == Sending {
        items := items[i := items[i].(status := Paid)];
      }
    }

    method RecordFailure(i: nat)
      modifies this
      ensures Snapshot() == RetryTransfer(old(Snapshot()), i)
    {
      if i >= |items| || items[i].status != Sending {
        return;
      }
      var item := items[i];
      if item.attempts >= MAX_TRANSFER_ATTEMPTS {
        items := items[i := item.(status := Failed)];
        return;
      }
      var delay := Backoff(item.attempts);
      items := items[i := item.(status := Retry, nextAttemptAt := now + delay)];
    }

    method AnyWithStatus(r: nat, status: ItemStatus) returns (found: bool)
      ensures found <==> exists i :: 0 <= i < |items| && items[i].run == r && items[i].status == status
    {
      for i := 0 to |items|
        invariant forall j :: 0 <= j < i ==> !(items[j].run == r && items[j].status == status)
      {
        if items[i].run == r && items[i].status == status {
          return true;
        }
      }
      return false;
    }

    /** Closes one open run that has nothing in flight. */
    method FinishRun(r: nat)
      requires r < |runs|
      modifies this`runs
      ensures runs == old(runs)[r := Closed(items, r, old(runs)[r])]
    {
      var reserved := AnyWithStatus(r, Reserved);
      var sending := AnyWithStatus(r, Sending);
      var retrying := AnyWithStatus(r, Retry);
      if reserved || sending || retrying {
        return;
      }
      var failed := AnyWithStatus(r, Failed);
      runs := runs[r := runs[r].(status := if failed then PartialFailed else Completed)];
    }

    /** The first FINISH_BATCH open runs. */
    method FinishOpenRuns()
      modifies this
      ensures Snapshot() == FinishRuns(old(Snapshot()))
    {
      var r, left := 0, FINISH_BATCH;
      hide Closed;
      while r < |runs| && left > 0
        invariant 0 <= r <= |runs| && left >= 0
        invariant items == old(items) && now == old(now) && transfers == old(transfers) && book.Value() == old(book.Value())
        invariant FinishFrom(items, runs, r, left) == FinishFrom(items, old(runs), 0, FINISH_BATCH)
        decreases |runs| - r
      {
        if runs[r].status == Processing {
          FinishRun(r);
          left := left - 1;
        }
        r := r + 1;
      }
    }
  }

  lemma PayeeKeeps(s: State, r: nat, payee: Payee, minimum: int)
    requires PS.Inv(s) && r < |s.runs|
    ensures PS.Inv(ReservePayee(s, r, payee, minimum))
  {
    hide PS.Inv, Due, Reserve;
    if Due(s, r, payee, minimum) {
      PS.ReserveKeeps(s, r, payee, minimum);
    }
  }

  lemma LedgerIsValid(s: State)
    requires PS.Inv(s)
    ensures L.Valid(s.ledger)
  {
  }
}
