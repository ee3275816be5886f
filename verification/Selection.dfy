/**
 How frontend/convex/calls.ts picks a caller at random: from the highest tier
 with anyone waiting, the first caller who joined at or after a random moment
 between the tier's first and last.
 */
module Selection {
  import opened Common
  import opened Tables
  import opened Steps
  import opened Stores

  function WaitingIn(entries: map<EntryId, Entry>, sh: ShowId, rank: nat): set<EntryId> {
    set e | e in entries && entries[e].show == sh && entries[e].status == Waiting && entries[e].rank == rank
  }

  /** The ranks of the show's tiers in which someone is waiting. */
  function WaitingRanks(tiers: map<TierId, Tier>, entries: map<EntryId, Entry>, sh: ShowId): set<nat> {
    set t | t in tiers && tiers[t].show == sh && WaitingIn(entries, sh, tiers[t].rank) != {} :: tiers[t].rank
  }

  predicate JoinedBefore(entries: map<EntryId, Entry>, a: EntryId, b: EntryId)
    requires a in entries && b in entries
  {
    entries[a].joinedAt < entries[b].joinedAt || (entries[a].joinedAt == entries[b].joinedAt && a < b)
  }

  ghost predicate IsFirst(entries: map<EntryId, Entry>, rows: set<EntryId>, e: EntryId) {
    rows <= entries.Keys && e in rows && forall x :: x in rows && x != e ==> JoinedBefore(entries, e, x)
  }

  ghost predicate IsLast(entries: map<EntryId, Entry>, rows: set<EntryId>, e: EntryId) {
    rows <= entries.Keys && e in rows && forall x :: x in rows && x != e ==> JoinedBefore(entries, x, e)
  }

  /** The random moment, for a random number from 0 up to but not including 1. */
  function Moment(first: Entry, last: Entry, random: real): real {
    first.joinedAt as real + random * (last.joinedAt as real - first.joinedAt as real)
  }

  function JoinedFrom(entries: map<EntryId, Entry>, rows: set<EntryId>, moment: real): set<EntryId>
    requires rows <= entries.Keys
  {
    set x | x in rows && moment <= entries[x].joinedAt as real
  }

  /** `e` is who the random number picks among the rows. */
  ghost predicate Picks(entries: map<EntryId, Entry>, rows: set<EntryId>, random: real, e: EntryId) {
    exists first, last :: IsFirst(entries, rows, first) && IsLast(entries, rows, last)
      && IsFirst(entries, JoinedFrom(entries, rows, Moment(entries[first], entries[last], random)), e)
  }

  /** Whatever the random number, the last caller joined at or after the moment, so someone is picked. */
  lemma SomeoneIsPicked(entries: map<EntryId, Entry>, rows: set<EntryId>, first: EntryId, last: EntryId, random: real)
    requires IsFirst(entries, rows, first) && IsLast(entries, rows, last) && 0.0 <= random < 1.0
    ensures last in JoinedFrom(entries, rows, Moment(entries[first], entries[last], random))
  {
    var span := entries[last].joinedAt as real - entries[first].joinedAt as real;
    assert first == last || JoinedBefore(entries, first, last);
    assert entries[first].joinedAt <= entries[last].joinedAt;
    FractionBelow(random, span);
    var moment := Moment(entries[first], entries[last], random);
    assert moment == entries[first].joinedAt as real + random * span;
    assert moment <= entries[last].joinedAt as real;
    assert last in rows;
  }

  lemma FractionBelow(random: real, span: real)
    requires 0.0 <= random < 1.0 && span >= 0.0
    ensures 0.0 <= random * span <= span
  {
  }

  /** The latest join among callers who joined before `e`. */
  lemma {:induction false} LatestBefore(entries: map<EntryId, Entry>, rows: set<EntryId>, e: EntryId) returns (t: Millis)
    requires rows <= entries.Keys && e in entries && rows != {}
    requires forall x :: x in rows ==> entries[x].joinedAt < entries[e].joinedAt
    ensures t < entries[e].joinedAt && forall x :: x in rows ==> entries[x].joinedAt <= t
  {
    var x :| x in rows;
    if rows == {x} {
      t := entries[x].joinedAt;
    } else {
      assert forall y :: y in rows ==> y == x || y in rows - {x};
      t := LatestBefore(entries, rows - {x}, e);
      t := if t < entries[x].joinedAt then entries[x].joinedAt else t;
    }
  }

  lemma FirstIs(entries: map<EntryId, Entry>, rows: set<EntryId>, first: EntryId, e: EntryId)
    requires IsFirst(entries, rows, first) && e in rows
    requires forall x :: x in rows ==> entries[e].joinedAt <= entries[x].joinedAt
    requires forall x :: x in rows && entries[x].joinedAt == entries[e].joinedAt ==> e <= x
    ensures e == first
  {
  }

  /** A moment after everyone earlier and not after `e` picks `e`. */
  lemma MomentPicks(entries: map<EntryId, Entry>, rows: set<EntryId>, e: EntryId, t: Millis, moment: real)
    requires rows <= entries.Keys && e in rows
    requires forall x :: x in rows && entries[x].joinedAt < entries[e].joinedAt ==> entries[x].joinedAt <= t
    requires forall x :: x in rows && entries[x].joinedAt == entries[e].joinedAt ==> e <= x
    requires t as real < moment <= entries[e].joinedAt as real
    ensures IsFirst(entries, JoinedFrom(entries, rows, moment), e)
  {
    forall y | y in JoinedFrom(entries, rows, moment) && y != e ensures JoinedBefore(entries, e, y) {
      assert entries[y].joinedAt > t;
    }
  }

  /**
   Every waiting caller of the tier can be picked, unless someone joined in the
   same millisecond before them: some random number below 1 picks them.
   */
  lemma EveryoneCanBePicked(entries: map<EntryId, Entry>, rows: set<EntryId>, first: EntryId, last: EntryId, e: EntryId)
    returns (random: real)
    requires IsFirst(entries, rows, first) && IsLast(entries, rows, last) && e in rows
    requires forall x :: x in rows && entries[x].joinedAt == entries[e].joinedAt ==> e <= x
    ensures 0.0 <= random < 1.0 && Picks(entries, rows, random, e)
  {
    var earlier := set x | x in rows && entries[x].joinedAt < entries[e].joinedAt;
    if earlier == {} {
      random := 0.0;
      assert forall x :: x in rows ==> x !in earlier;
      FirstIs(entries, rows, first, e);
      assert JoinedFrom(entries, rows, Moment(entries[first], entries[last], random)) == rows;
    } else {
      var t := LatestBefore(entries, earlier, e);
      SpanCovers(entries, rows, first, last, e, earlier);
      assert forall x :: x in rows && entries[x].joinedAt < entries[e].joinedAt ==> x in earlier;
      random := Between(entries[first].joinedAt, t, entries[e].joinedAt, entries[last].joinedAt);
      hide IsFirst, IsLast, JoinedFrom;
      MomentPicks(entries, rows, e, t, Moment(entries[first], entries[last], random));
    }
  }

  lemma SpanCovers(entries: map<EntryId, Entry>, rows: set<EntryId>, first: EntryId, last: EntryId, e: EntryId, earlier: set<EntryId>)
    requires IsFirst(entries, rows, first) && IsLast(entries, rows, last) && e in rows
    requires earlier != {} && earlier == (set x | x in rows && entries[x].joinedAt < entries[e].joinedAt)
    ensures first in earlier && entries[e].joinedAt <= entries[last].joinedAt
  {
    var x :| x in earlier;
    assert first == x || JoinedBefore(entries, first, x);
    assert e == last || JoinedBefore(entries, e, last);
  }

  /** A random number whose moment falls after `t` and not after `at`. */
  lemma Between(first: Millis, t: Millis, at: Millis, last: Millis) returns (random: real)
    requires first <= t < at <= last
    ensures 0.0 <= random < 1.0
    ensures t as real < first as real + random * (last as real - first as real) <= at as real
  {
    var span := last as real - first as real;
    var middle := (t as real + at as real) / 2.0 - first as real;
    random := middle / span;
    assert random * span == middle;
    QuotientBelow(middle, span);
  }

  lemma QuotientBelow(part: real, whole: real)
    requires 0.0 <= part < whole
    ensures 0.0 <= part / whole < 1.0
  {
  }

  // ------------------------------------------------------------ in place

  /** The first caller of the rows, by join time and then by age of the entry. */
  method FirstJoined(entries: map<EntryId, Entry>, rows: set<EntryId>) returns (e: EntryId)
    requires rows != {} && rows <= entries.Keys
    ensures IsFirst(entries, rows, e)
  {
    e := PickRow(rows);
    var rest := rows - {e};
    while rest != {}
      invariant rest <= rows && e in rows
      invariant forall x :: x in rows && x !in rest && x != e ==> JoinedBefore(entries, e, x)
      decreases |rest|
    {
      var x := PickRow(rest);
      if JoinedBefore(entries, x, e) {
        e := x;
      }
      rest := rest - {x};
    }
  }

  method LastJoined(entries: map<EntryId, Entry>, rows: set<EntryId>) returns (e: EntryId)
    requires rows != {} && rows <= entries.Keys
    ensures IsLast(entries, rows, e)
  {
    e := PickRow(rows);
    var rest := rows - {e};
    while rest != {}
      invariant rest <= rows && e in rows
      invariant forall x :: x in rows && x !in rest && x != e ==> JoinedBefore(entries, x, e)
      decreases |rest|
    {
      var x := PickRow(rest);
      if JoinedBefore(entries, e, x) {
        e := x;
      }
      rest := rest - {x};
    }
  }

  /** The show's ranks, highest first, each once. */
  method RanksDescending(tiers: map<TierId, Tier>, sh: ShowId) returns (ranks: seq<nat>)
    ensures forall i, j :: 0 <= i < j < |ranks| ==> ranks[i] > ranks[j]
    ensures forall r :: r in ranks <==> exists t :: t in tiers && tiers[t].show == sh && tiers[t].rank == r
  {
    ranks := [];
    var rest := set t | t in tiers && tiers[t].show == sh;
    while rest != {}
      invariant forall t :: t in rest ==> t in tiers && tiers[t].show == sh
      invariant forall i, j :: 0 <= i < j < |ranks| ==> ranks[i] > ranks[j]
      invariant forall r :: r in ranks ==> exists t :: t in tiers && tiers[t].show == sh && tiers[t].rank == r
      invariant forall t :: t in tiers && tiers[t].show == sh ==> t in rest || tiers[t].rank in ranks
      invariant forall i, t :: 0 <= i < |ranks| && t in rest ==> tiers[t].rank < ranks[i]
      decreases |rest|
    {
      var top := HighestTier(tiers, rest);
      ranks := ranks + [tiers[top].rank];
      var same := set t | t in rest && tiers[t].rank == tiers[top].rank;
      assert top in same;
      Smaller(rest, same, top);
      rest := rest - same;
    }
  }

  lemma Smaller(rest: set<TierId>, same: set<TierId>, top: TierId)
    requires top in rest && top in same
    ensures |rest - same| < |rest|
  {
    assert rest == (rest - same) + (rest * same);
    assert top in rest * same;
  }

  method HighestTier(tiers: map<TierId, Tier>, rows: set<TierId>) returns (top: TierId)
    requires rows != {} && rows <= tiers.Keys
    ensures top in rows && forall t :: t in rows ==> tiers[t].rank <= tiers[top].rank
  {
    top := PickRow(rows);
    var rest := rows - {top};
    while rest != {}
      invariant rest <= rows && top in rows
      invariant forall t :: t in rows && t !in rest ==> tiers[t].rank <= tiers[top].rank
      decreases |rest|
    {
      var t := PickRow(rest);
      if tiers[t].rank > tiers[top].rank {
        top := t;
      }
      rest := rest - {t};
    }
  }

  /** The highest rank with anyone waiting, if there is one. */
  ghost predicate IsTopRank(tiers: map<TierId, Tier>, entries: map<EntryId, Entry>, sh: ShowId, rank: nat) {
    rank in WaitingRanks(tiers, entries, sh) && forall r :: r in WaitingRanks(tiers, entries, sh) ==> r <= rank
  }

  /** Who `random` picks: from the highest rank with anyone waiting, or nobody exactly when nobody waits. */
  method PickAtRandom(tiers: map<TierId, Tier>, entries: map<EntryId, Entry>, sh: ShowId, random: real)
    returns (picked: Option<EntryId>)
    requires 0.0 <= random < 1.0
    ensures picked.None? <==> WaitingRanks(tiers, entries, sh) == {}
    ensures picked.Some? ==>
      exists rank :: IsTopRank(tiers, entries, sh, rank) && Picks(entries, WaitingIn(entries, sh, rank), random, picked.value)
  {
    var ranks := RanksDescending(tiers, sh);
    var i := 0;
    while i < |ranks|
      invariant 0 <= i <= |ranks|
      invariant forall k :: 0 <= k < i ==> WaitingIn(entries, sh, ranks[k]) == {}
    {
      var waiting := WaitingIn(entries, sh, ranks[i]);
      if waiting != {} {
        var first := FirstJoined(entries, waiting);
        var last := LastJoined(entries, waiting);
        var moment := Moment(entries[first], entries[last], random);
        SomeoneIsPicked(entries, waiting, first, last, random);
        var chosen := FirstJoined(entries, JoinedFrom(entries, waiting, moment));
        TopIs(tiers, entries, sh, ranks, i);
        assert Picks(entries, waiting, random, chosen);
        return Some(chosen);
      }
      i := i + 1;
    }
    NobodyWaits(tiers, entries, sh, ranks);
    return None;
  }

  lemma TopIs(tiers: map<TierId, Tier>, entries: map<EntryId, Entry>, sh: ShowId, ranks: seq<nat>, i: nat)
    requires forall i, j :: 0 <= i < j < |ranks| ==> ranks[i] > ranks[j]
    requires forall r :: r in ranks <==> exists t :: t in tiers && tiers[t].show == sh && tiers[t].rank == r
    requires i < |ranks| && WaitingIn(entries, sh, ranks[i]) != {}
    requires forall k :: 0 <= k < i ==> WaitingIn(entries, sh, ranks[k]) == {}
    ensures IsTopRank(tiers, entries, sh, ranks[i])
  {
    hide WaitingIn;
    assert ranks[i] in ranks;
    forall r | r in WaitingRanks(tiers, entries, sh) ensures r <= ranks[i] {
      assert r in ranks;
      var k :| 0 <= k < |ranks| && ranks[k] == r;
      assert k >= i;
    }
  }

  lemma NobodyWaits(tiers: map<TierId, Tier>, entries: map<EntryId, Entry>, sh: ShowId, ranks: seq<nat>)
    requires forall r :: r in ranks <==> exists t :: t in tiers && tiers[t].show == sh && tiers[t].rank == r
    requires forall k :: 0 <= k < |ranks| ==> WaitingIn(entries, sh, ranks[k]) == {}
    ensures WaitingRanks(tiers, entries, sh) == {}
  {
    hide WaitingIn;
    forall t | t in tiers && tiers[t].show == sh ensures WaitingIn(entries, sh, tiers[t].rank) == {} {
      assert tiers[t].rank in ranks;
    }
  }

  /** A caller who is picked waits in the show. */
  lemma PickedWaits(entries: map<EntryId, Entry>, sh: ShowId, rank: nat, random: real, e: EntryId)
    requires Picks(entries, WaitingIn(entries, sh, rank), random, e)
    ensures e in entries && entries[e].show == sh && entries[e].status == Waiting && entries[e].rank == rank
  {
  }

  /**
   The creator connects to a random caller. It is a selection like any other, of
   the caller the random number picks from the highest rank with anyone waiting.
   */
  method SelectRandomCaller(store: Store, sh: ShowId, creator: UserId, random: real)
    returns (r: Result<CallId, Error>, ghost picked: Option<EntryId>)
    requires 0.0 <= random < 1.0
    modifies store
    ensures var db := old(store.Snapshot());
      if sh !in db.shows || db.shows[sh].creator != creator then r == Err(ShowNotFound) && store.Snapshot() == db
      else if db.shows[sh].status != ShowLive then r == Err(ShowNotLive) && store.Snapshot() == db
      else if ActiveCall(db.calls, sh).Some? then r == Err(ActiveCallExists) && store.Snapshot() == db
      else if WaitingRanks(db.tiers, db.entries, sh) == {} then r == Err(QueueEmpty) && store.Snapshot() == db
      else
        && picked.Some?
        && (exists rank :: IsTopRank(db.tiers, db.entries, sh, rank)
                           && Picks(db.entries, WaitingIn(db.entries, sh, rank), random, picked.value))
        && (var want := Select(db, sh, creator, picked.value);
            if want.Err? then r == Err(want.error) && store.Snapshot() == db
            else r == Ok(db.nextId) && store.Snapshot() == want.value)
  {
    hide ActiveCall, WaitingRanks, Picks, IsTopRank;
    picked := None;
    if sh !in store.shows || store.shows[sh].creator != creator {
      return Err(ShowNotFound), None;
    }
    if store.shows[sh].status != ShowLive {
      return Err(ShowNotLive), None;
    }
    var blocking := store.FindActiveCall(sh);
    if blocking.Some? {
      return Err(ActiveCallExists), None;
    }
    var chosen := PickAtRandom(store.tiers, store.entries, sh, random);
    if chosen.None? {
      return Err(QueueEmpty), None;
    }
    ghost var rank :| IsTopRank(store.tiers, store.entries, sh, rank)
                      && Picks(store.entries, WaitingIn(store.entries, sh, rank), random, chosen.value);
    PickedWaits(store.entries, sh, rank, random, chosen.value);
    picked := chosen;
    r := store.OpenCall(sh, chosen.value);
  }
}
