/**
 What every run of the payout machine keeps, and what follows: a creator is
 never sent more than was reserved, nor reserved more than had matured.
 */
module PayoutSafety {
  import opened Common
  import opened Payouts
  import L = Ledger

  // ------------------------------------------------------------ the invariant

  predicate ItemOk(item: Item, runs: seq<PayoutRun>) {
    && item.run < |runs|
    && item.amountCents > 0
    && item.key == PayKey(item.creator, runs[item.run].month)
    && item.attempts <= MAX_TRANSFER_ATTEMPTS
    && (item.status == Paid || item.status == Failed ==> item.attempts > 0)
  }

  predicate ItemsOk(items: seq<Item>, runs: seq<PayoutRun>) {
    forall i :: 0 <= i < |items| ==> ItemOk(items[i], runs)
  }

  /** A creator's earlier items are all paid, so at most the last is unsettled. */
  predicate OneAtATime(items: seq<Item>) {
    forall i, j :: 0 <= i < j < |items| && items[i].creator == items[j].creator ==> items[i].status == Paid
  }

  predicate OneItemPerRun(items: seq<Item>) {
    forall i, j :: 0 <= i < j < |items| && items[i].creator == items[j].creator ==> items[i].run != items[j].run
  }

  predicate MonthsDistinct(runs: seq<PayoutRun>) {
    forall q, r :: 0 <= q < r < |runs| ==> runs[q].month != runs[r].month
  }

  /** A closed run has nothing in flight, and its status says whether something failed. */
  predicate RunOk(items: seq<Item>, r: nat, status: RunStatus) {
    match status
    case Processing => true
    case Completed => !AnyInFlight(items, r) && !AnyFailed(items, r)
    case PartialFailed => !AnyInFlight(items, r) && AnyFailed(items, r)
  }

  predicate RunsOk(items: seq<Item>, runs: seq<PayoutRun>) {
    forall r :: 0 <= r < |runs| ==> RunOk(items, r, runs[r].status)
  }

  /** Paid means sent, and what was sent is what was reserved under the same keys. */
  ghost predicate TransfersOk(items: seq<Item>, transfers: seq<Transfer>) {
    && (forall i :: 0 <= i < |items| && items[i].status == Paid ==> Sent(transfers, items[i].key))
    && (forall c :: TransferSum(transfers, c) == KeyedSum(items, KeysOf(transfers), c))
    && (forall i :: 0 <= i < |items| && items[i].attempts == 0 ==> !Sent(transfers, items[i].key))
    && (forall t :: 0 <= t < |transfers| ==> exists i :: 0 <= i < |items| && Carries(items[i], transfers[t]))
  }

  predicate Carries(item: Item, t: Transfer) {
    item.key == t.key && item.creator == t.creator && item.amountCents == t.amountCents
  }

  /** The ledger's reservations are the items, and none lies in the future. */
  ghost predicate LedgerOk(s: State) {
    && L.Valid(s.ledger)
    && (forall c :: L.Sum(s.ledger.entries, L.Reservations(AccountOf(s, c))) == -ItemsSum(s.items, c))
    && (forall e :: e in s.ledger.entries && e.kind == L.PayoutReservation ==> e.effectiveAt <= s.now)
    && (forall i: nat :: L.ReservationKey(i) in L.Keys(s.ledger) ==> i < |s.items|)
  }

  ghost predicate Inv(s: State) {
    && ItemsOk(s.items, s.runs)
    && OneAtATime(s.items)
    && OneItemPerRun(s.items)
    && MonthsDistinct(s.runs)
    && RunsOk(s.items, s.runs)
    && TransfersOk(s.items, s.transfers)
    && LedgerOk(s)
  }

  /** Keys tell items apart: creator and month fix the run, and a run has one item per creator. */
  lemma KeysDistinct(s: State, i: nat, j: nat)
    requires ItemsOk(s.items, s.runs) && OneItemPerRun(s.items) && MonthsDistinct(s.runs)
    requires i < |s.items| && j < |s.items| && i != j
    ensures s.items[i].key != s.items[j].key
  {
    var a, b := if i < j then i else j, if i < j then j else i;
    assert ItemOk(s.items[a], s.runs) && ItemOk(s.items[b], s.runs);
  }

  // ------------------------------------------------------------ ledger postings

  /** Matured entries are the ones that are not payouts, and the payouts, once none lies ahead. */
  lemma {:induction false} MaturedSplits(es: seq<L.Entry>, acct: L.Account, now: int)
    requires forall e :: e in es && e.kind == L.PayoutReservation ==> e.effectiveAt <= now
    ensures L.Sum(es, L.Matured(acct, now)) == L.Sum(es, L.MaturedNonPayout(acct, now)) + L.Sum(es, L.Reservations(acct))
  {
    if es != [] {
      MaturedSplits(es[..|es| - 1], acct, now);
    }
  }

  lemma PostedKeys(l: L.Ledger, e: L.Entry)
    ensures L.Keys(L.Post(l, e)) <= L.Keys(l) + {e.key}
    ensures forall x :: x in L.Post(l, e).entries ==> x in l.entries || x == e
  {
  }

  /** Earnings, reversals and disputes leave the reservations alone. */
  lemma PostKeeps(s: State, e: L.Entry)
    requires Inv(s) && OtherEntry(e)
    ensures Inv(s.(ledger := L.Post(s.ledger, e)))
  {
    hide ItemsOk, OneAtATime, OneItemPerRun, MonthsDistinct, RunsOk, TransfersOk;
    hide L.Valid, L.Sum, L.Keys;
    var s' := s.(ledger := L.Post(s.ledger, e));
    L.PostKeepsValid(s.ledger, e);
    PostedKeys(s.ledger, e);
    forall c ensures L.Sum(s'.ledger.entries, L.Reservations(AccountOf(s', c))) == -ItemsSum(s'.items, c) {
      L.SumSnoc(s.ledger.entries, e, L.Reservations(AccountOf(s, c)));
    }
    hide L.Post;
  }

  // ------------------------------------------------------------ reserving

  lemma ReservedRuns(s: State, r: nat, c: UserId)
    requires Inv(s) && r < |s.runs|
    ensures RunsOk(Reserve(s, r, c).items, Reserve(s, r, c).runs) && MonthsDistinct(Reserve(s, r, c).runs)
  {
    hide LedgerOk, TransfersOk, OneAtATime, OneItemPerRun, ItemsOk;
    var s' := Reserve(s, r, c);
    assert forall i :: 0 <= i < |s.items| ==> s'.items[i] == s.items[i];
    forall q | 0 <= q < |s'.runs| ensures RunOk(s'.items, q, s'.runs[q].status) {
      if q != r {
        assert RunOk(s.items, q, s.runs[q].status);
        OtherRunsItems(s.items, s'.items[|s.items|], q);
        assert s'.items == s.items + [s'.items[|s.items|]];
      }
    }
  }

  lemma OtherRunsItems(items: seq<Item>, item: Item, r: nat)
    requires item.run != r
    ensures AnyInFlight(items + [item], r) == AnyInFlight(items, r)
    ensures AnyFailed(items + [item], r) == AnyFailed(items, r)
  {
    var items' := items + [item];
    assert forall i :: 0 <= i < |items| ==> items'[i] == items[i];
    if AnyFailed(items, r) {
      var i :| 0 <= i < |items| && items[i].run == r && items[i].status == Failed;
      assert items'[i].status == Failed;
    }
    if AnyInFlight(items, r) {
      var i :| 0 <= i < |items| && items[i].run == r && InFlight(items[i].status);
      assert InFlight(items'[i].status);
    }
  }

  lemma ReservedItems(s: State, r: nat, c: UserId)
    requires Inv(s) && r < |s.runs| && !HasItem(s.items, r, c) && !HasUnsettled(s.items, c) && Available(s, c) > 0
    ensures ItemsOk(Reserve(s, r, c).items, Reserve(s, r, c).runs)
    ensures OneAtATime(Reserve(s, r, c).items) && OneItemPerRun(Reserve(s, r, c).items)
  {
    hide LedgerOk, TransfersOk, RunsOk, Available;
    var s' := Reserve(s, r, c);
    assert forall i :: 0 <= i < |s.items| ==> s'.items[i] == s.items[i] && ItemOk(s.items[i], s.runs);
  }

  lemma ReservedTransfers(s: State, s': State, r: nat, item: Item)
    requires Inv(s) && r < |s.runs|
    requires s'.items == s.items + [item] && s'.transfers == s.transfers && s'.runs == s.runs[r := s.runs[r].(status := Processing)]
    requires ItemsOk(s'.items, s'.runs) && OneItemPerRun(s'.items) && MonthsDistinct(s'.runs)
    requires item.status == Reserved && item.attempts == 0
    ensures TransfersOk(s'.items, s'.transfers)
  {
    hide LedgerOk, OneAtATime, RunsOk;
    var n := |s.items|;
    hide TransferSum, L.Valid, ItemsOk;
    assert forall i :: 0 <= i < n ==> s'.items[i] == s.items[i];
    if Sent(s.transfers, item.key) {
      var t :| 0 <= t < |s.transfers| && s.transfers[t].key == item.key;
      var i :| 0 <= i < n && Carries(s.items[i], s.transfers[t]);
      KeysDistinct(s', i, n);
      assert false;
    }
    SentIsKey(s.transfers, item.key);
    assert s'.items[..n] == s.items;
    forall t | 0 <= t < |s.transfers| ensures exists i :: 0 <= i < |s'.items| && Carries(s'.items[i], s.transfers[t]) {
      var i :| 0 <= i < n && Carries(s.items[i], s.transfers[t]);
      assert Carries(s'.items[i], s.transfers[t]);
    }
  }

  lemma ReservedLedger(s: State, r: nat, c: UserId)
    requires Inv(s) && r < |s.runs| && Available(s, c) > 0
    ensures LedgerOk(Reserve(s, r, c))
    ensures Reserve(s, r, c).ledger.entries == s.ledger.entries + [ReservationEntry(s, c, Available(s, c))]
  {
    hide ItemsOk, OneAtATime, OneItemPerRun, MonthsDistinct, RunsOk, TransfersOk, Available;
    var s' := Reserve(s, r, c);
    var e := ReservationEntry(s, c, Available(s, c));
    L.PostKeepsValid(s.ledger, e);
    L.PostAppends(s.ledger, e);
    assert s'.items[..|s.items|] == s.items;
    forall x ensures L.Sum(s'.ledger.entries, L.Reservations(AccountOf(s', x))) == -ItemsSum(s'.items, x) {
      L.SumSnoc(s.ledger.entries, e, L.Reservations(AccountOf(s, x)));
    }
    hide L.Valid, L.Sum, L.Post;
  }

  lemma ReserveKeeps(s: State, r: nat, payee: Payee, minimum: int)
    requires Inv(s) && r < |s.runs| && Due(s, r, payee, minimum)
    ensures Inv(Reserve(s, r, payee.creator))
  {
    var s' := Reserve(s, r, payee.creator);
    hide ItemsOk, OneAtATime, OneItemPerRun, MonthsDistinct, RunsOk, TransfersOk, LedgerOk, HasItem, HasUnsettled, Available;
    ReservedRuns(s, r, payee.creator);
    ReservedItems(s, r, payee.creator);
    ReservedLedger(s, r, payee.creator);
    ReservedTransfers(s, s', r, s'.items[|s.items|]);
  }

  /**
   A reservation is exact: afterwards everything ever reserved for the creator
   is everything that has matured for them outside payouts, and nothing is
   available.
   */
  lemma ReservationIsExact(s: State, r: nat, payee: Payee, minimum: int)
    requires Inv(s) && r < |s.runs| && Due(s, r, payee, minimum)
    ensures var s' := Reserve(s, r, payee.creator);
      && ItemsSum(s'.items, payee.creator) == L.Sum(s'.ledger.entries, L.MaturedNonPayout(AccountOf(s', payee.creator), s'.now))
      && Available(s', payee.creator) == 0
  {
    var c := payee.creator;
    var s' := Reserve(s, r, c);
    var acct := AccountOf(s, c);
    var e := ReservationEntry(s, c, Available(s, c));
    hide ItemsOk, OneAtATime, OneItemPerRun, MonthsDistinct, RunsOk, TransfersOk, HasItem, HasUnsettled;
    ReservedLedger(s, r, c);
    L.BalanceIsDirectSum(s.ledger, acct, s.now);
    L.BalanceIsDirectSum(s'.ledger, acct, s.now);
    L.SumSnoc(s.ledger.entries, e, L.Matured(acct, s.now));
    MaturedSplits(s'.ledger.entries, acct, s.now);
    hide L.Valid, L.Sum, L.Post;
  }

  lemma {:induction false} PageKeeps(s: State, r: nat, page: seq<Payee>, minimum: int)
    requires Inv(s) && r < |s.runs|
    ensures Inv(ReservePage(s, r, page, minimum))
  {
    if page != [] {
      hide Inv, Reserve, Due;
      var before := ReservePage(s, r, page[..|page| - 1], minimum);
      PageKeeps(s, r, page[..|page| - 1], minimum);
      if Due(before, r, page[|page| - 1], minimum) {
        ReserveKeeps(before, r, page[|page| - 1], minimum);
      }
    }
  }

  // ------------------------------------------------------------ transfers

  lemma MovedRuns(items: seq<Item>, runs: seq<PayoutRun>, i: nat, item': Item)
    requires RunsOk(items, runs) && i < |items| && SameMoney(items[i], item') && InFlight(items[i].status)
    ensures RunsOk(items[i := item'], runs)
  {
    var items' := items[i := item'];
    forall r | 0 <= r < |runs| ensures RunOk(items', r, runs[r].status) {
      assert RunOk(items, r, runs[r].status);
      if runs[r].status != Processing {
        assert items[i].run != r;
        assert forall j :: 0 <= j < |items| && items[j].run == r ==> items'[j] == items[j];
        if AnyFailed(items, r) {
          var j :| 0 <= j < |items| && items[j].run == r && items[j].status == Failed;
          assert items'[j].status == Failed;
        }
      }
    }
  }

  lemma MoveKeeps(s: State, i: nat, item': Item)
    requires Inv(s) && i < |s.items| && InFlight(s.items[i].status)
    requires SameMoney(s.items[i], item') && s.items[i].attempts <= item'.attempts && ItemOk(item', s.runs)
    requires item'.status == Paid ==> Sent(s.transfers, item'.key)
    ensures Inv(s.(items := s.items[i := item']))
  {
    var s' := s.(items := s.items[i := item']);
    assert ItemsOk(s'.items, s'.runs);
    MovedRuns(s.items, s.runs, i, item');
    assert OneAtATime(s'.items) && OneItemPerRun(s'.items);
    MovedTransfers(s, i, item');
    MovedLedger(s, i, item');
    hide ItemsOk, OneAtATime, OneItemPerRun, MonthsDistinct, RunsOk, TransfersOk, LedgerOk;
  }

  lemma MovedLedger(s: State, i: nat, item': Item)
    requires LedgerOk(s) && i < |s.items| && SameMoney(s.items[i], item')
    ensures LedgerOk(s.(items := s.items[i := item']))
  {
    hide L.Valid, L.Sum, L.Keys, ItemsSum;
    var s' := s.(items := s.items[i := item']);
    forall c ensures L.Sum(s'.ledger.entries, L.Reservations(AccountOf(s', c))) == -ItemsSum(s'.items, c) {
      PatchKeepsSums(s.items, i, item', {}, c);
      assert AccountOf(s', c) == AccountOf(s, c);
    }
  }

  lemma MovedTransfers(s: State, i: nat, item': Item)
    requires TransfersOk(s.items, s.transfers) && i < |s.items| && SameMoney(s.items[i], item')
    requires s.items[i].attempts <= item'.attempts
    requires item'.status == Paid ==> Sent(s.transfers, item'.key)
    ensures TransfersOk(s.items[i := item'], s.transfers)
  {
    var items' := s.items[i := item'];
    hide TransferSum, KeyedSum, KeysOf, Sent;
    assert forall j :: 0 <= j < |items'| ==> items'[j] == if j == i then item' else s.items[j];
    forall c ensures TransferSum(s.transfers, c) == KeyedSum(items', KeysOf(s.transfers), c) {
      PatchKeepsSums(s.items, i, item', KeysOf(s.transfers), c);
    }
    forall t | 0 <= t < |s.transfers| ensures exists j :: 0 <= j < |items'| && Carries(items'[j], s.transfers[t]) {
      var j :| 0 <= j < |s.items| && Carries(s.items[j], s.transfers[t]);
      assert Carries(items'[j], s.transfers[t]);
    }
  }

  /** A new transfer is its item's, under a key no other item has. */
  lemma SentSums(s: State, i: nat)
    requires Inv(s) && Send(s, i) != s
    ensures KeysOf(Send(s, i).transfers) == KeysOf(s.transfers) + {s.items[i].key}
    ensures forall c :: TransferSum(Send(s, i).transfers, c) == KeyedSum(s.items, KeysOf(Send(s, i).transfers), c)
  {
    hide LedgerOk, OneAtATime, RunsOk, ItemsOk, OneItemPerRun, MonthsDistinct;
    var transfers' := Send(s, i).transfers;
    forall j | 0 <= j < |s.items| && j != i ensures s.items[j].key != s.items[i].key {
      KeysDistinct(s, i, j);
    }
    hide Inv;
    assert KeysOf(transfers') == KeysOf(s.transfers) + {s.items[i].key};
    SentIsKey(s.transfers, s.items[i].key);
    assert transfers'[..|s.transfers|] == s.transfers;
    forall c ensures TransferSum(transfers', c) == KeyedSum(s.items, KeysOf(transfers'), c) {
      OwnKey(s.items, KeysOf(s.transfers), i, c);
    }
  }

  lemma SentMore(s: State, i: nat, key: PayKey)
    requires Send(s, i) != s
    ensures Sent(Send(s, i).transfers, key) <==> Sent(s.transfers, key) || key == s.items[i].key
  {
    var transfers' := Send(s, i).transfers;
    assert transfers'[|s.transfers|].key == s.items[i].key;
    assert forall t :: 0 <= t < |s.transfers| ==> transfers'[t] == s.transfers[t];
  }

  lemma SentTransfers(s: State, i: nat)
    requires Inv(s) && Send(s, i) != s
    ensures TransfersOk(s.items, Send(s, i).transfers)
  {
    hide LedgerOk, OneAtATime, RunsOk, ItemsOk, OneItemPerRun, MonthsDistinct, TransferSum, KeyedSum, KeysOf;
    var transfers' := Send(s, i).transfers;
    SentSums(s, i);
    forall j | 0 <= j < |s.items| ensures Sent(transfers', s.items[j].key) <==> Sent(s.transfers, s.items[j].key) || j == i {
      SentMore(s, i, s.items[j].key);
      if j != i {
        KeysDistinct(s, i, j);
      }
    }
    hide Sent;
    assert Carries(s.items[i], transfers'[|s.transfers|]);
    assert forall t :: 0 <= t < |s.transfers| ==> transfers'[t] == s.transfers[t];
  }

  lemma SendKeeps(s: State, i: nat)
    requires Inv(s)
    ensures Inv(Send(s, i))
  {
    hide OneAtATime, RunsOk, ItemsOk, OneItemPerRun, MonthsDistinct, TransfersOk;
    if Send(s, i) != s {
      SentTransfers(s, i);
    }
  }

  lemma ClaimKeeps(s: State, i: nat)
    requires Inv(s)
    ensures Inv(Claim(s, i))
  {
    if Claim(s, i) != s {
      assert ItemOk(s.items[i], s.runs);
      hide Inv;
      MoveKeeps(s, i, Claim(s, i).items[i]);
    }
  }

  lemma MarkPaidKeeps(s: State, i: nat)
    requires Inv(s)
    ensures Inv(MarkPaid(s, i))
  {
    if MarkPaid(s, i) != s {
      assert ItemOk(s.items[i], s.runs);
      SendingWasClaimed(s, i);
      hide Inv;
      MoveKeeps(s, i, MarkPaid(s, i).items[i]);
    }
  }

  /** Only a claim makes an item SENDING, so it has an attempt to its name. */
  lemma SendingWasClaimed(s: State, i: nat)
    requires Inv(s) && i < |s.items| && Sent(s.transfers, s.items[i].key)
    ensures s.items[i].attempts > 0
  {
    hide LedgerOk;
  }

  lemma RetryKeeps(s: State, i: nat)
    requires Inv(s)
    ensures Inv(RetryTransfer(s, i))
  {
    if RetryTransfer(s, i) != s {
      assert ItemOk(s.items[i], s.runs);
      hide Inv, Backoff;
      MoveKeeps(s, i, RetryTransfer(s, i).items[i]);
    }
  }

  // ------------------------------------------------------------ closing runs

  lemma {:induction false} FinishKeeps(items: seq<Item>, runs: seq<PayoutRun>, r: nat, left: nat)
    requires RunsOk(items, runs)
    ensures var runs' := FinishFrom(items, runs, r, left);
      RunsOk(items, runs') && (forall q :: 0 <= q < |runs| ==> runs'[q].month == runs[q].month)
    decreases |runs| - r
  {
    hide AnyInFlight, AnyFailed;
    if r < |runs| && left > 0 {
      if runs[r].status != Processing {
        FinishKeeps(items, runs, r + 1, left);
      } else {
        FinishKeeps(items, runs[r := Closed(items, r, runs[r])], r + 1, left - 1);
      }
    }
  }

  lemma FinishRunsKeeps(s: State)
    requires Inv(s)
    ensures Inv(FinishRuns(s))
  {
    FinishKeeps(s.items, s.runs, 0, FINISH_BATCH);
    var s' := FinishRuns(s);
    hide TransfersOk, RunsOk, FinishRuns, L.Valid, L.Sum, ItemsSum, FinishFrom;
    assert MonthsDistinct(s'.runs);
    assert forall i :: 0 <= i < |s.items| ==> ItemOk(s.items[i], s.runs);
  }

  // ------------------------------------------------------------ whole runs

  lemma TickKeeps(s: State, to: Millis)
    requires Inv(s) && s.now <= to
    ensures Inv(s.(now := to))
  {
    hide ItemsOk, OneAtATime, OneItemPerRun, MonthsDistinct, RunsOk, TransfersOk, L.Valid, L.Sum, L.Keys, ItemsSum;
    var s' := s.(now := to);
    assert forall c :: AccountOf(s', c) == AccountOf(s, c);
  }

  lemma OpenRunKeeps(s: State, month: int)
    requires Inv(s)
    ensures Inv(OpenRun(s, month))
  {
    var s' := OpenRun(s, month);
    if s' != s {
      assert forall r :: 0 <= r < |s.runs| ==> s'.runs[r] == s.runs[r];
      assert forall i :: 0 <= i < |s.items| ==> ItemOk(s.items[i], s.runs);
      assert ItemsOk(s'.items, s'.runs) && MonthsDistinct(s'.runs) && RunsOk(s'.items, s'.runs);
      assert LedgerOk(s') by {
        hide ItemsOk, OneAtATime, OneItemPerRun, MonthsDistinct, RunsOk, TransfersOk, L.Valid, L.Sum, L.Keys, ItemsSum;
        assert forall c :: AccountOf(s', c) == AccountOf(s, c);
      }
    }
  }

  lemma StepKeeps(s: State, op: Op)
    requires Inv(s)
    ensures Inv(Step(s, op))
  {
    hide Inv, OpenRun, ReservePage, Claim, Send, MarkPaid, RetryTransfer, FinishRuns, L.Post;
    match op
    case Tick(to) => if s.now <= to { TickKeeps(s, to); }
    case PostOp(e) => if OtherEntry(e) { PostKeeps(s, e); }
    case OpenRunOp(month) => OpenRunKeeps(s, month);
    case ReservePageOp(r, page, minimum) => if r < |s.runs| { PageKeeps(s, r, page, minimum); }
    case ClaimOp(i) => ClaimKeeps(s, i);
    case SendOp(i) => SendKeeps(s, i);
    case MarkPaidOp(i) => MarkPaidKeeps(s, i);
    case RetryOp(i) => RetryKeeps(s, i);
    case FinishRunsOp => FinishRunsKeeps(s);
  }

  lemma InitialInv(s: State)
    requires Initial(s)
    ensures Inv(s)
  {
  }

  lemma {:induction false} RunKeeps(s: State, ops: seq<Op>)
    requires Inv(s)
    ensures Inv(Run(s, ops))
  {
    hide Inv, Step;
    if ops != [] {
      RunKeeps(s, ops[..|ops| - 1]);
      StepKeeps(Run(s, ops[..|ops| - 1]), ops[|ops| - 1]);
    }
  }

  /** In every reachable state, at every creator of a page whose turn comes, the reservation is exact. */
  lemma EveryReservationIsExact(start: State, ops: seq<Op>, r: nat, page: seq<Payee>, k: nat, minimum: int)
    requires Initial(start) && r < |Run(start, ops).runs| && k < |page|
    requires Due(ReservePage(Run(start, ops), r, page[..k], minimum), r, page[k], minimum)
    ensures var s := ReservePage(Run(start, ops), r, page[..k + 1], minimum);
      var c := page[k].creator;
      && ItemsSum(s.items, c) == L.Sum(s.ledger.entries, L.MaturedNonPayout(AccountOf(s, c), s.now))
      && Available(s, c) == 0
  {
    InitialInv(start);
    hide Inv, Run, Due, Reserve, Available, ItemsSum;
    RunKeeps(start, ops);
    var s := Run(start, ops);
    PageKeeps(s, r, page[..k], minimum);
    ReservationIsExact(ReservePage(s, r, page[..k], minimum), r, page[k], minimum);
    assert page[..k + 1][..k] == page[..k];
  }

  /**
   No over-payment: in every reachable state Stripe has transferred to a creator
   no more than the sum of their items, which is exactly what the ledger holds
   reserved for them; and every transfer is some item's amount, to its creator,
   under its key.
   */
  lemma NeverOverpaid(start: State, ops: seq<Op>, c: UserId)
    requires Initial(start)
    ensures var s := Run(start, ops);
      && 0 <= TransferSum(s.transfers, c) <= ItemsSum(s.items, c)
      && ItemsSum(s.items, c) == -L.Sum(s.ledger.entries, L.Reservations(AccountOf(s, c)))
      && (forall t :: 0 <= t < |s.transfers| ==> exists i :: 0 <= i < |s.items| && Carries(s.items[i], s.transfers[t]))
  {
    InitialInv(start);
    hide Run;
    RunKeeps(start, ops);
    var s := Run(start, ops);
    hide OneAtATime, OneItemPerRun, MonthsDistinct, RunsOk, L.Valid, L.Sum;
    assert forall i :: 0 <= i < |s.items| ==> ItemOk(s.items[i], s.runs);
    KeyedWithin(s.items, KeysOf(s.transfers), c);
  }

  predicate KeysOnce(ts: seq<Transfer>) {
    forall t, u :: 0 <= t < u < |ts| ==> ts[t].key != ts[u].key
  }

  lemma SendKeepsKeys(s: State, i: nat)
    requires KeysOnce(s.transfers)
    ensures KeysOnce(Send(s, i).transfers)
  {
  }

  /** Stripe never makes two transfers under one key. */
  lemma {:induction false} TransferKeysDistinct(start: State, ops: seq<Op>)
    requires Initial(start)
    ensures KeysOnce(Run(start, ops).transfers)
  {
    if ops != [] {
      var s, op := Run(start, ops[..|ops| - 1]), ops[|ops| - 1];
      TransferKeysDistinct(start, ops[..|ops| - 1]);
      StepTransfers(s, op);
      hide Step, KeysOnce;
      if op.SendOp? {
        SendKeepsKeys(s, op.item);
      }
    }
  }

  lemma {:induction false} PageTransfers(s: State, r: nat, page: seq<Payee>, minimum: int)
    requires r < |s.runs|
    ensures ReservePage(s, r, page, minimum).transfers == s.transfers
  {
    hide Due;
    if page != [] {
      PageTransfers(s, r, page[..|page| - 1], minimum);
    }
  }

  lemma StepTransfers(s: State, op: Op)
    ensures Step(s, op).transfers == s.transfers || (op.SendOp? && Step(s, op) == Send(s, op.item))
  {
    hide L.Post, Backoff, FinishFrom, ReservePage;
    if op.ReservePageOp? && op.run < |s.runs| {
      PageTransfers(s, op.run, op.page, op.minimum);
    }
  }

  /** An item that is paid was sent exactly once, with its own amount, however often its action ran. */
  lemma PaidExactlyOnce(start: State, ops: seq<Op>, i: nat)
    requires Initial(start) && i < |Run(start, ops).items| && Run(start, ops).items[i].status == Paid
    ensures var s := Run(start, ops);
      exists t :: 0 <= t < |s.transfers| && Carries(s.items[i], s.transfers[t])
                  && (forall u :: 0 <= u < |s.transfers| && s.transfers[u].key == s.items[i].key ==> u == t)
  {
    InitialInv(start);
    RunKeeps(start, ops);
    TransferKeysDistinct(start, ops);
    hide Run;
    var s := Run(start, ops);
    hide LedgerOk, RunsOk, OneAtATime;
    var t :| 0 <= t < |s.transfers| && s.transfers[t].key == s.items[i].key;
    var j :| 0 <= j < |s.items| && Carries(s.items[j], s.transfers[t]);
    if j != i {
      KeysDistinct(s, i, j);
    }
  }

  /** Items, runs and their states, as every reachable state has them. */
  lemma ItemsAndRuns(start: State, ops: seq<Op>)
    requires Initial(start)
    ensures var s := Run(start, ops);
      && (forall i, j :: 0 <= i < j < |s.items| && s.items[i].creator == s.items[j].creator ==>
            s.items[i].run != s.items[j].run && s.items[i].status == Paid)
      && (forall i :: 0 <= i < |s.items| ==> s.items[i].attempts <= MAX_TRANSFER_ATTEMPTS)
      && (forall r :: 0 <= r < |s.runs| ==>
            && (s.runs[r].status == Completed ==> !AnyInFlight(s.items, r) && !AnyFailed(s.items, r))
            && (s.runs[r].status == PartialFailed ==> !AnyInFlight(s.items, r) && AnyFailed(s.items, r)))
  {
    InitialInv(start);
    RunKeeps(start, ops);
    hide Run, LedgerOk, TransfersOk, MonthsDistinct, AnyInFlight, AnyFailed;
    var s := Run(start, ops);
    assert forall i :: 0 <= i < |s.items| ==> ItemOk(s.items[i], s.runs);
    assert forall r :: 0 <= r < |s.runs| ==> RunOk(s.items, r, s.runs[r].status);
  }

  // ------------------------------------------------------------ how items move

  predicate Claims(s: State, op: Op, i: nat) {
    op == ClaimOp(i) && i < |s.items| && Claimable(s.items[i], s.now)
  }

  /** Items stay, PAID and FAILED ones for good, and only a claim counts as an attempt. */
  ghost predicate ItemsMove(s: State, op: Op, s': State) {
    && |s.items| <= |s'.items|
    && (forall i :: 0 <= i < |s.items| ==>
          && SameMoney(s.items[i], s'.items[i])
          && (s.items[i].status == Paid || s.items[i].status == Failed ==> s'.items[i] == s.items[i])
          && s'.items[i].attempts == s.items[i].attempts + (if Claims(s, op, i) then 1 else 0))
    && (forall i :: |s.items| <= i < |s'.items| ==> !HasUnsettled(s.items, s'.items[i].creator))
  }

  lemma UnsettledStays(items: seq<Item>, items': seq<Item>, c: UserId)
    requires items <= items'
    ensures HasUnsettled(items, c) ==> HasUnsettled(items', c)
  {
    if HasUnsettled(items, c) {
      var i :| 0 <= i < |items| && items[i].creator == c && Unsettled(items[i].status);
      assert items'[i] == items[i];
    }
  }

  lemma {:induction false} PageAppends(s: State, r: nat, page: seq<Payee>, minimum: int)
    requires r < |s.runs|
    ensures var s' := ReservePage(s, r, page, minimum);
      && s.items <= s'.items
      && (forall i :: |s.items| <= i < |s'.items| ==> !HasUnsettled(s.items, s'.items[i].creator))
  {
    hide Available, L.Post;
    if page != [] {
      var before := ReservePage(s, r, page[..|page| - 1], minimum);
      PageAppends(s, r, page[..|page| - 1], minimum);
      UnsettledStays(s.items, before.items, page[|page| - 1].creator);
    }
  }

  /** No step reopens a settled item, pays a creator who has an unsettled one, or counts an attempt nobody claimed. */
  lemma StepMovesItems(s: State, op: Op)
    ensures ItemsMove(s, op, Step(s, op))
  {
    hide L.Post, Backoff, FinishFrom, ReservePage, HasUnsettled;
    if op.ReservePageOp? && op.run < |s.runs| {
      PageAppends(s, op.run, op.page, op.minimum);
    }
  }

  /** Once paid or failed, an item never changes again. */
  lemma {:induction false} SettledForGood(s: State, ops: seq<Op>, i: nat)
    requires i < |s.items| && (s.items[i].status == Paid || s.items[i].status == Failed)
    ensures i < |Run(s, ops).items| && Run(s, ops).items[i] == s.items[i]
  {
    hide Step;
    if ops != [] {
      SettledForGood(s, ops[..|ops| - 1], i);
      StepMovesItems(Run(s, ops[..|ops| - 1]), ops[|ops| - 1]);
    }
  }
}
