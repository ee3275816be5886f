/**
 The monthly payout run of frontend/convex/payouts.ts. Each creator's available
 balance is reserved in the ledger, sent to Stripe under a key of its own, and
 retried until it is paid or given up on. Stripe is a log of transfers that
 answers a known key with the transfer it already made. One currency is
 configured.
 */
module Payouts {
  import opened Common
  import L = Ledger

  const MAX_TRANSFER_ATTEMPTS := 10
  const TRANSFER_LEASE_MS := 300_000
  const FINISH_BATCH := 12
  const DEFAULT_MINIMUM_CENTS := 2500

  datatype ItemStatus = Reserved | Sending | Retry | Paid | Failed

  datatype RunStatus = Processing | Completed | PartialFailed

  /** `bling-payout-<creator>-<month>`; a month is counted from year 0. */
  datatype PayKey = PayKey(creator: UserId, month: int)

  datatype Item = Item(
    run: nat,
    creator: UserId,
    amountCents: int,
    key: PayKey,
    status: ItemStatus,
    attempts: nat,
    nextAttemptAt: Millis)

  datatype PayoutRun = PayoutRun(month: int, status: RunStatus)

  datatype Transfer = Transfer(key: PayKey, creator: UserId, amountCents: int)

  /** A row of payoutAccounts, as far as a run reads it. */
  datatype Payee = Payee(creator: UserId, transfersActive: bool)

  /** Items and runs are identified by their position. */
  datatype State = State(
    now: Millis,
    currency: string,
    ledger: L.Ledger,
    items: seq<Item>,
    runs: seq<PayoutRun>,
    transfers: seq<Transfer>)

  // ------------------------------------------------------------ reserving

  predicate InFlight(st: ItemStatus) {
    st == Reserved || st == Sending || st == Retry
  }

  predicate Unsettled(st: ItemStatus) {
    InFlight(st) || st == Failed
  }

  predicate HasItem(items: seq<Item>, r: nat, c: UserId) {
    exists i :: 0 <= i < |items| && items[i].run == r && items[i].creator == c
  }

  predicate HasUnsettled(items: seq<Item>, c: UserId) {
    exists i :: 0 <= i < |items| && items[i].creator == c && Unsettled(items[i].status)
  }

  function MinimumCents(configured: int): (m: int)
    ensures m > 0
  {
    if configured > 0 then configured else DEFAULT_MINIMUM_CENTS
  }

  function AccountOf(s: State, c: UserId): L.Account {
    L.Account(c, s.currency)
  }

  function Available(s: State, c: UserId): int {
    L.BalanceAt(s.ledger, AccountOf(s, c), s.now).availableCents
  }

  /** Whether a run pays this creator now. */
  predicate Due(s: State, r: nat, payee: Payee, minimum: int) {
    && payee.transfersActive
    && !HasItem(s.items, r, payee.creator)
    && !HasUnsettled(s.items, payee.creator)
    && Available(s, payee.creator) >= MinimumCents(minimum)
  }

  function ReservationEntry(s: State, c: UserId, amount: int): L.Entry {
    L.Entry(AccountOf(s, c), L.PayoutReservation, -amount, s.now, L.ReservationKey(|s.items|), None)
  }

  /** Reserves a creator's whole available balance and reopens the run if it was closed. */
  function Reserve(s: State, r: nat, c: UserId): State
    requires r < |s.runs|
  {
    var amount := Available(s, c);
    s.(
      items := s.items + [Item(r, c, amount, PayKey(c, s.runs[r].month), Reserved, 0, s.now)],
      ledger := L.Post(s.ledger, ReservationEntry(s, c, amount)),
      runs := s.runs[r := s.runs[r].(status := Processing)])
  }

  function ReservePayee(s: State, r: nat, payee: Payee, minimum: int): (s': State)
    requires r < |s.runs|
    ensures |s'.runs| == |s.runs|
  {
    if Due(s, r, payee, minimum) then Reserve(s, r, payee.creator) else s
  }

  /** One page of creators, in order. */
  function ReservePage(s: State, r: nat, page: seq<Payee>, minimum: int): (s': State)
    requires r < |s.runs|
    ensures |s'.runs| == |s.runs|
  {
    if page == [] then s
    else ReservePayee(ReservePage(s, r, page[..|page| - 1], minimum), r, page[|page| - 1], minimum)
  }

  predicate HasRun(runs: seq<PayoutRun>, month: int) {
    exists r :: 0 <= r < |runs| && runs[r].month == month
  }

  /** Opens the month's run unless it is there. */
  function OpenRun(s: State, month: int): State {
    if HasRun(s.runs, month) then s else s.(runs := s.runs + [PayoutRun(month, Processing)])
  }

  // ------------------------------------------------------------ transfers

  predicate Claimable(item: Item, now: Millis) {
    && item.attempts < MAX_TRANSFER_ATTEMPTS
    && (item.status == Reserved || ((item.status == Retry || item.status == Sending) && item.nextAttemptAt <= now))
  }

  function Claim(s: State, i: nat): State {
    if i < |s.items| && Claimable(s.items[i], s.now) then
      s.(items := s.items[i := s.items[i].(status := Sending, attempts := s.items[i].attempts + 1,
                                           nextAttemptAt := s.now + TRANSFER_LEASE_MS)])
    else s
  }

  predicate Sent(transfers: seq<Transfer>, key: PayKey) {
    exists t :: 0 <= t < |transfers| && transfers[t].key == key
  }

  /** Stripe receives the request of an action that claimed the item; it may arrive late, or again. */
  function Send(s: State, i: nat): State {
    if i < |s.items| && s.items[i].attempts > 0 && !Sent(s.transfers, s.items[i].key) then
      s.(transfers := s.transfers + [Transfer(s.items[i].key, s.items[i].creator, s.items[i].amountCents)])
    else s
  }

  /** The action reports the transfer Stripe returned. */
  function MarkPaid(s: State, i: nat): State {
    if i < |s.items| && s.items[i].status == Sending && Sent(s.transfers, s.items[i].key) then
      s.(items := s.items[i := s.items[i].(status := Paid)])
    else s
  }

  function Pow2(n: nat): nat {
    if n == 0 then 1 else 2 * Pow2(n - 1)
  }

  function Backoff(attempts: nat): nat {
    1000 * Pow2(if attempts < 8 then attempts else 8)
  }

  function RetryTransfer(s: State, i: nat): State {
    if i < |s.items| && s.items[i].status == Sending then
      s.(items := s.items[i :=
        if s.items[i].attempts >= MAX_TRANSFER_ATTEMPTS then s.items[i].(status := Failed)
        else s.items[i].(status := Retry, nextAttemptAt := s.now + Backoff(s.items[i].attempts))])
    else s
  }

  // ------------------------------------------------------------ closing runs

  predicate AnyInFlight(items: seq<Item>, r: nat) {
    exists i :: 0 <= i < |items| && items[i].run == r && InFlight(items[i].status)
  }

  predicate AnyFailed(items: seq<Item>, r: nat) {
    exists i :: 0 <= i < |items| && items[i].run == r && items[i].status == Failed
  }

  function Closed(items: seq<Item>, r: nat, run: PayoutRun): PayoutRun {
    if AnyInFlight(items, r) then run else run.(status := if AnyFailed(items, r) then PartialFailed else Completed)
  }

  /** Looks at the first `left` open runs from position `r` on. */
  function FinishFrom(items: seq<Item>, runs: seq<PayoutRun>, r: nat, left: nat): (runs': seq<PayoutRun>)
    ensures |runs'| == |runs|
    decreases |runs| - r
  {
    if r >= |runs| || left == 0 then runs
    else if runs[r].status != Processing then FinishFrom(items, runs, r + 1, left)
    else FinishFrom(items, runs[r := Closed(items, r, runs[r])], r + 1, left - 1)
  }

  function FinishRuns(s: State): State {
    s.(runs := FinishFrom(s.items, s.runs, 0, FINISH_BATCH))
  }

  // ------------------------------------------------------------ runs of the machine

  datatype Op =
    | Tick(to: Millis)
    | PostOp(entry: L.Entry)
    | OpenRunOp(month: int)
    | ReservePageOp(run: nat, page: seq<Payee>, minimum: int)
    | ClaimOp(item: nat)
    | SendOp(item: nat)
    | MarkPaidOp(item: nat)
    | RetryOp(item: nat)
    | FinishRunsOp

  /** Everything else that posts to the ledger: earnings, reversals, disputes. */
  predicate OtherEntry(e: L.Entry) {
    L.WellKeyed(e) && e.kind != L.PayoutReservation
  }

  function Step(s: State, op: Op): State {
    match op
    case Tick(to) => if s.now <= to then s.(now := to) else s
    case PostOp(e) => if OtherEntry(e) then s.(ledger := L.Post(s.ledger, e)) else s
    case OpenRunOp(month) => OpenRun(s, month)
    case ReservePageOp(r, page, minimum) => if r < |s.runs| then ReservePage(s, r, page, minimum) else s
    case ClaimOp(i) => Claim(s, i)
    case SendOp(i) => Send(s, i)
    case MarkPaidOp(i) => MarkPaid(s, i)
    case RetryOp(i) => RetryTransfer(s, i)
    case FinishRunsOp => FinishRuns(s)
  }

  function Run(s: State, ops: seq<Op>): State {
    if ops == [] then s else Step(Run(s, ops[..|ops| - 1]), ops[|ops| - 1])
  }

  predicate Initial(s: State) {
    s.ledger == L.EMPTY && s.items == [] && s.runs == [] && s.transfers == []
  }

  // ------------------------------------------------------------ sums

  /** All that was ever reserved for a creator. */
  function ItemsSum(items: seq<Item>, c: UserId): int {
    if items == [] then 0
    else ItemsSum(items[..|items| - 1], c) + (if items[|items| - 1].creator == c then items[|items| - 1].amountCents else 0)
  }

  /** All that Stripe ever transferred to a creator. */
  function TransferSum(transfers: seq<Transfer>, c: UserId): int {
    if transfers == [] then 0
    else TransferSum(transfers[..|transfers| - 1], c)
         + (if transfers[|transfers| - 1].creator == c then transfers[|transfers| - 1].amountCents else 0)
  }

  /** What was reserved for a creator under the given keys. */
  function KeyedSum(items: seq<Item>, keys: set<PayKey>, c: UserId): int {
    if items == [] then 0
    else
      var last := items[|items| - 1];
      KeyedSum(items[..|items| - 1], keys, c) + (if last.creator == c && last.key in keys then last.amountCents else 0)
  }

  function KeysOf(transfers: seq<Transfer>): set<PayKey> {
    set t | t in transfers :: t.key
  }

  lemma SentIsKey(transfers: seq<Transfer>, key: PayKey)
    ensures Sent(transfers, key) <==> key in KeysOf(transfers)
  {
    if key in KeysOf(transfers) {
      var t :| t in transfers && t.key == key;
    }
  }

  predicate SameMoney(item: Item, item': Item) {
    item'.creator == item.creator && item'.amountCents == item.amountCents && item'.key == item.key && item'.run == item.run
  }

  lemma {:induction false} PatchKeepsSums(items: seq<Item>, i: nat, item': Item, keys: set<PayKey>, c: UserId)
    requires i < |items| && SameMoney(items[i], item')
    ensures ItemsSum(items[i := item'], c) == ItemsSum(items, c)
    ensures KeyedSum(items[i := item'], keys, c) == KeyedSum(items, keys, c)
  {
    var n := |items| - 1;
    var items' := items[i := item'];
    if i < n {
      assert items'[..n] == items[..n][i := item'];
      PatchKeepsSums(items[..n], i, item', keys, c);
    } else {
      assert items'[..n] == items[..n];
    }
  }

  lemma {:induction false} KeyedWithin(items: seq<Item>, keys: set<PayKey>, c: UserId)
    requires forall i :: 0 <= i < |items| ==> items[i].amountCents > 0
    ensures 0 <= KeyedSum(items, keys, c) <= ItemsSum(items, c)
  {
    if items != [] {
      KeyedWithin(items[..|items| - 1], keys, c);
    }
  }

  /** A key that belongs to none of the items changes nothing. */
  lemma {:induction false} ForeignKey(items: seq<Item>, keys: set<PayKey>, key: PayKey, c: UserId)
    requires forall i :: 0 <= i < |items| ==> items[i].key != key
    ensures KeyedSum(items, keys + {key}, c) == KeyedSum(items, keys, c)
  {
    if items != [] {
      ForeignKey(items[..|items| - 1], keys, key, c);
    }
  }

  /** A new key adds exactly the one item that carries it. */
  lemma {:induction false} OwnKey(items: seq<Item>, keys: set<PayKey>, i: nat, c: UserId)
    requires i < |items| && items[i].key !in keys
    requires forall j :: 0 <= j < |items| && j != i ==> items[j].key != items[i].key
    ensures KeyedSum(items, keys + {items[i].key}, c)
         == KeyedSum(items, keys, c) + (if items[i].creator == c then items[i].amountCents else 0)
  {
    var n := |items| - 1;
    if i == n {
      ForeignKey(items[..n], keys, items[i].key, c);
    } else {
      OwnKey(items[..n], keys, i, c);
    }
  }
}
