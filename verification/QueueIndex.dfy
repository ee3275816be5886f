/**
 The queue index of backend/internal/queue/index.go: one sorted set of waiting
 callers per show and priority rank, and per show the set of ranks in use.
 Listing walks the ranks from high to low; it is proved to page through the one
 list that the database query orders by rank and position.
 */
module QueueIndex {
  import opened Common

  /** A member of a sorted set; members compare by id where scores are equal. */
  datatype Slot = Slot(show: ShowId, rank: int, entry: EntryId)

  datatype Candidate = Candidate(show: ShowId, rank: int, position: int, entry: EntryId)

  datatype Tier = Tier(show: ShowId, rank: int)

  datatype Index = Index(priorities: set<Tier>, scores: map<Slot, int>)

  const EMPTY := Index({}, map[])

  function SlotOf(c: Candidate): Slot {
    Slot(c.show, c.rank, c.entry)
  }

  // ------------------------------------------------------------ updates

  function Add(ix: Index, c: Candidate): Index {
    Index(ix.priorities + {Tier(c.show, c.rank)}, ix.scores[SlotOf(c) := c.position])
  }

  function Remove(ix: Index, c: Candidate): Index {
    ix.(scores := ix.scores - {SlotOf(c)})
  }

  /** Deletes the tiers whose ranks are registered, and the registry. */
  function Clear(ix: Index, sh: ShowId): Index {
    Index(
      set t | t in ix.priorities && t.show != sh,
      map s | s in ix.scores && !(s.show == sh && Tier(sh, s.rank) in ix.priorities) :: ix.scores[s])
  }

  /** Every non-empty tier has its rank registered. */
  ghost predicate Registered(ix: Index) {
    forall s :: s in ix.scores ==> Tier(s.show, s.rank) in ix.priorities
  }

  /** Every update keeps ranks registered, and clearing a show then leaves nothing of it. */
  lemma UpdatesKeepRegistered(ix: Index, c: Candidate, sh: ShowId)
    requires Registered(ix)
    ensures Registered(Add(ix, c)) && Registered(Remove(ix, c)) && Registered(Clear(ix, sh))
    ensures forall s :: s in Clear(ix, sh).scores <==> s in ix.scores && s.show != sh
    ensures forall s :: s in Clear(ix, sh).scores ==> Clear(ix, sh).scores[s] == ix.scores[s]
  {
  }

  // ------------------------------------------------------------ the single list

  /** Rank descending, then position ascending; ids break ties. */
  predicate Before(a: Candidate, b: Candidate) {
    || a.rank > b.rank
    || (a.rank == b.rank && a.position < b.position)
    || (a.rank == b.rank && a.position == b.position && a.entry < b.entry)
  }

  predicate Sorted(s: seq<Candidate>) {
    forall i, j :: 0 <= i < j < |s| ==> Before(s[i], s[j])
  }

  function Elements(s: seq<Candidate>): set<Candidate> {
    set c | c in s
  }

  /** The callers waiting in a show, and those in one of its tiers. */
  function Waiting(ix: Index, sh: ShowId): set<Candidate> {
    set s | s in ix.scores && s.show == sh :: Candidate(sh, s.rank, ix.scores[s], s.entry)
  }

  function InTier(ix: Index, sh: ShowId, rank: int): set<Candidate> {
    set s | s in ix.scores && s.show == sh && s.rank == rank :: Candidate(sh, rank, ix.scores[s], s.entry)
  }

  /** A sorted sequence is the only one with its elements. */
  lemma {:induction false} SortedIsUnique(a: seq<Candidate>, b: seq<Candidate>)
    requires Sorted(a) && Sorted(b) && Elements(a) == Elements(b)
    ensures a == b
    decreases |a|
  {
    assert a == [] <==> Elements(a) == {} by { assert a != [] ==> a[0] in Elements(a); }
    assert b == [] <==> Elements(b) == {} by { assert b != [] ==> b[0] in Elements(b); }
    if a != [] {
      assert a[0] in Elements(b);
      assert b[0] in Elements(a);
      assert a[0] in b && b[0] in a;
      assert a[0] == b[0];
      TailElements(a);
      TailElements(b);
      SortedIsUnique(a[1..], b[1..]);
      assert a == [a[0]] + a[1..] && b == [b[0]] + b[1..];
    }
  }

  /**
   Everyone waiting in a show as one list: what the database returns for
   ORDER BY priority_rank DESC, queue_position ASC.
   */
  ghost function QueueOrder(ix: Index, sh: ShowId): (all: seq<Candidate>)
    ensures Sorted(all) && Elements(all) == Waiting(ix, sh)
  {
    Arranged(Waiting(ix, sh), sh)
  }

  ghost function Arranged(cs: set<Candidate>, sh: ShowId): (all: seq<Candidate>)
    requires forall c :: c in cs ==> c.show == sh
    ensures Sorted(all) && Elements(all) == cs
  {
    if cs == {} then []
    else
      var c :| c in cs;
      var rest := Arranged(cs - {c}, sh);
      assert forall i :: 0 <= i < |rest| ==> rest[i] in Elements(rest);
      InsertElements(rest, c);
      InsertKeepsSorted(rest, c);
      InsertSorted(rest, c)
  }

  lemma TailElements(s: seq<Candidate>)
    requires s != [] && Sorted(s)
    ensures Sorted(s[1..]) && Elements(s[1..]) == Elements(s) - {s[0]}
  {
    assert forall c :: c in s <==> c == s[0] || c in s[1..];
    assert s[0] !in s[1..];
  }

  function Ids(s: seq<Candidate>): (ids: seq<EntryId>)
    ensures |ids| == |s|
    ensures forall i :: 0 <= i < |s| ==> ids[i] == s[i].entry
  {
    if s == [] then [] else Ids(s[..|s| - 1]) + [s[|s| - 1].entry]
  }

  lemma IdsConcat(a: seq<Candidate>, b: seq<Candidate>)
    ensures Ids(a + b) == Ids(a) + Ids(b)
  {
  }

  /** LIMIT and OFFSET. */
  function Page(s: seq<Candidate>, limit: nat, offset: nat): seq<Candidate> {
    s[Min(offset, |s|)..Min(offset + limit, |s|)]
  }

  /** How a page grows when more is appended to the list. */
  lemma PageAppend(s: seq<Candidate>, t: seq<Candidate>, limit: nat, offset: nat)
    ensures var rest := if offset > |s| then offset - |s| else 0;
      Page(s + t, limit, offset) == Page(s, limit, offset) + Page(t, limit - |Page(s, limit, offset)|, rest)
  {
    var p := Page(s, limit, offset);
    var rest := if offset > |s| then offset - |s| else 0;
    if offset >= |s| {
      assert p == [];
      assert Page(s + t, limit, offset) == t[Min(rest, |t|)..Min(rest + limit, |t|)];
    } else if offset + limit <= |s| {
      assert Page(s + t, limit, offset) == p;
    } else {
      assert p == s[offset..];
      assert Page(s + t, limit, offset) == s[offset..] + t[..Min(limit - |p|, |t|)];
    }
  }

  // ------------------------------------------------------------ the index, in place

  class CandidateIndex {
    var priorities: set<Tier>
    var scores: map<Slot, int>

    function Value(): Index
      reads this
    {
      Index(priorities, scores)
    }

    constructor ()
      ensures Value() == EMPTY
    {
      priorities, scores := {}, map[];
    }

    method AddCandidate(c: Candidate)
      modifies this
      ensures Value() == Add(old(Value()), c)
    {
      priorities := priorities + {Tier(c.show, c.rank)};
      scores := scores[SlotOf(c) := c.position];
    }

    method RemoveCandidate(c: Candidate)
      modifies this
      ensures Value() == Remove(old(Value()), c)
    {
      scores := scores - {SlotOf(c)};
    }

    /** The registered ranks of a show, highest first. */
    method Ranks(sh: ShowId) returns (ranks: seq<int>)
      ensures Descending(ranks)
      ensures forall r :: r in ranks <==> Tier(sh, r) in priorities
    {
      ranks := [];
      var rest := set t | t in priorities && t.show == sh;
      while rest != {}
        invariant rest <= priorities && (forall t :: t in rest ==> t.show == sh)
        invariant forall i, j :: 0 <= i < j < |ranks| ==> ranks[i] > ranks[j]
        invariant forall r :: r in ranks ==> Tier(sh, r) in priorities
        invariant forall t :: t in priorities && t.show == sh ==> t in rest || t.rank in ranks
        invariant forall i, t :: 0 <= i < |ranks| && t in rest ==> t.rank < ranks[i]
        decreases |rest|
      {
        var top := Highest(rest, sh);
        ranks := ranks + [top.rank];
        rest := rest - {top};
      }
      assert forall r :: Tier(sh, r) in priorities ==> Tier(sh, r).rank in ranks;
    }

    /** Clearing a show deletes each registered tier, then the registry. */
    method ClearShow(sh: ShowId)
      modifies this
      ensures Value() == Clear(old(Value()), sh)
    {
      var ranks := Ranks(sh);
      for k := 0 to |ranks|
        invariant priorities == old(priorities)
        invariant scores == map s | s in old(scores) && !(s.show == sh && s.rank in ranks[..k]) :: old(scores)[s]
      {
        assert ranks[..k + 1] == ranks[..k] + [ranks[k]];
        scores := map s | s in scores && !(s.show == sh && s.rank == ranks[k]) :: scores[s];
      }
      assert ranks[..|ranks|] == ranks;
      priorities := set t | t in priorities && t.show != sh;
      assert scores == Clear(old(Value()), sh).scores;
    }

    /** The sorted set of one tier, in order. */
    method TierInOrder(sh: ShowId, rank: int) returns (s: seq<Candidate>)
      ensures Sorted(s) && Elements(s) == InTier(Value(), sh, rank)
    {
      var rest := InTier(Value(), sh, rank);
      s := [];
      while rest != {}
        invariant rest <= InTier(Value(), sh, rank)
        invariant Sorted(s) && Elements(s) == InTier(Value(), sh, rank) - rest
        decreases |rest|
      {
        var c :| c in rest;
        forall i | 0 <= i < |s| ensures Before(s[i], c) || Before(c, s[i]) {
          assert s[i] in Elements(s);
        }
        InsertElements(s, c);
        InsertKeepsSorted(s, c);
        s := InsertSorted(s, c);
        rest := rest - {c};
      }
    }

    /**
     A page of the show's callers: tier by tier, skipping whole tiers while the
     offset lasts. Whatever the tiers, empty ones included, it is the same page
     of the single list of everyone waiting.
     */
    method List(sh: ShowId, limit: nat, offset: nat) returns (ids: seq<EntryId>)
      requires Registered(Value())
      ensures ids == Ids(Page(QueueOrder(Value(), sh), limit, offset))
    {
      var ranks := Ranks(sh);
      var remainingOffset, remaining := offset, limit;
      ids := [];
      ghost var seen: seq<Candidate> := [];
      var k := 0;
      while k < |ranks| && remaining != 0
        invariant 0 <= k <= |ranks|
        invariant Sorted(seen) && Elements(seen) == Reached(Value(), sh, ranks[..k])
        invariant ids == Ids(Page(seen, limit, offset))
        invariant remaining == limit - |ids|
        invariant remainingOffset == if offset > |seen| then offset - |seen| else 0
        decreases |ranks| - k
      {
        var tier := TierInOrder(sh, ranks[k]);
        AppendTier(Value(), sh, ranks, k, seen, tier);
        PageAppend(seen, tier, limit, offset);
        if remainingOffset >= |tier| {
          assert Page(tier, remaining, remainingOffset) == [];
          remainingOffset := remainingOffset - |tier|;
        } else {
          var page := tier[remainingOffset..Min(remainingOffset + remaining, |tier|)];
          assert page == Page(tier, remaining, remainingOffset);
          IdsConcat(Page(seen, limit, offset), page);
          ids := ids + Ids(page);
          remaining := remaining - |page|;
          remainingOffset := 0;
        }
        seen := seen + tier;
        k := k + 1;
      }
      assert ranks[..|ranks|] == ranks;
      AllReached(Value(), sh, ranks);
      ghost var all := QueueOrder(Value(), sh);
      SeenIsPrefix(Value(), sh, ranks, k, seen, all);
      if k == |ranks| {
        SortedIsUnique(seen, all);
      }
      PageIsDone(seen, all, limit, offset);
    }
  }

  // ------------------------------------------------------------ lemmas about listing

  method Highest(s: set<Tier>, sh: ShowId) returns (top: Tier)
    requires s != {} && (forall t :: t in s ==> t.show == sh)
    ensures top in s && forall t :: t in s && t != top ==> t.rank < top.rank
  {
    top :| top in s;
    var rest := s - {top};
    while rest != {}
      invariant rest <= s && top in s
      invariant forall t :: t in s && t !in rest && t != top ==> t.rank < top.rank
      decreases |rest|
    {
      var t :| t in rest;
      if t.rank > top.rank {
        top := t;
      }
      rest := rest - {t};
    }
  }

  lemma ConcatElements(a: seq<Candidate>, b: seq<Candidate>)
    ensures Elements(a + b) == Elements(a) + Elements(b)
  {
    assert forall c :: c in a + b <==> c in a || c in b;
  }

  /** Inserts where the order puts it. */
  function InsertSorted(s: seq<Candidate>, c: Candidate): (r: seq<Candidate>)
    requires Sorted(s)
    requires forall i :: 0 <= i < |s| ==> Before(s[i], c) || Before(c, s[i])
    ensures |r| == |s| + 1
  {
    if s == [] then [c]
    else if Before(c, s[0]) then [c] + s
    else [s[0]] + InsertSorted(s[1..], c)
  }

  lemma {:induction false} InsertElements(s: seq<Candidate>, c: Candidate)
    requires Sorted(s)
    requires forall i :: 0 <= i < |s| ==> Before(s[i], c) || Before(c, s[i])
    ensures Elements(InsertSorted(s, c)) == Elements(s) + {c}
  {
    if s == [] {
    } else if Before(c, s[0]) {
      ConcatElements([c], s);
    } else {
      InsertElements(s[1..], c);
      ConcatElements([s[0]], InsertSorted(s[1..], c));
      ConcatElements([s[0]], s[1..]);
      assert s == [s[0]] + s[1..];
    }
  }

  lemma {:induction false} InsertKeepsSorted(s: seq<Candidate>, c: Candidate)
    requires Sorted(s)
    requires forall i :: 0 <= i < |s| ==> Before(s[i], c) || Before(c, s[i])
    ensures Sorted(InsertSorted(s, c))
  {
    if s != [] && !Before(c, s[0]) {
      var r := InsertSorted(s[1..], c);
      InsertKeepsSorted(s[1..], c);
      InsertElements(s[1..], c);
      forall i | 0 <= i < |r| ensures Before(s[0], r[i]) {
        assert r[i] in Elements(r);
        assert r[i] == c || r[i] in s[1..];
      }
    }
  }

  /** The callers in the given ranks of a show. */
  function Reached(ix: Index, sh: ShowId, ranks: seq<int>): set<Candidate> {
    set c | c in Waiting(ix, sh) && c.rank in ranks
  }

  lemma TierElements(ix: Index, sh: ShowId, rank: int)
    ensures forall c :: c in InTier(ix, sh, rank) <==> c in Waiting(ix, sh) && c.rank == rank
  {
  }

  predicate Descending(ranks: seq<int>) {
    forall i, j :: 0 <= i < j < |ranks| ==> ranks[i] > ranks[j]
  }

  lemma AppendTier(ix: Index, sh: ShowId, ranks: seq<int>, k: nat, seen: seq<Candidate>, tier: seq<Candidate>)
    requires k < |ranks| && Descending(ranks)
    requires Sorted(seen) && Elements(seen) == Reached(ix, sh, ranks[..k])
    requires Sorted(tier) && Elements(tier) == InTier(ix, sh, ranks[k])
    ensures Sorted(seen + tier) && Elements(seen + tier) == Reached(ix, sh, ranks[..k + 1])
  {
    TierElements(ix, sh, ranks[k]);
    hide Waiting, InTier;
    forall i | 0 <= i < |seen| ensures seen[i].rank > ranks[k] {
      assert seen[i] in Elements(seen);
      var j :| 0 <= j < k && ranks[..k][j] == seen[i].rank;
      assert ranks[j] > ranks[k];
    }
    forall i | 0 <= i < |tier| ensures tier[i].rank == ranks[k] {
      assert tier[i] in Elements(tier);
    }
    ConcatElements(seen, tier);
    assert ranks[..k + 1] == ranks[..k] + [ranks[k]];
    assert Reached(ix, sh, ranks[..k + 1]) == Reached(ix, sh, ranks[..k]) + Elements(tier);
  }

  /** The registered ranks reach everyone waiting. */
  lemma AllReached(ix: Index, sh: ShowId, ranks: seq<int>)
    requires Registered(ix) && (forall r :: r in ranks <==> Tier(sh, r) in ix.priorities)
    ensures Reached(ix, sh, ranks) == Waiting(ix, sh)
  {
    forall c | c in Waiting(ix, sh) ensures c.rank in ranks {
      var s :| s in ix.scores && s.show == sh && c == Candidate(sh, s.rank, ix.scores[s], s.entry);
      assert Tier(sh, s.rank) in ix.priorities;
    }
  }

  /** A full page, or a page of the whole list, is not changed by what follows. */
  lemma PageIsDone(seen: seq<Candidate>, all: seq<Candidate>, limit: nat, offset: nat)
    requires seen <= all
    requires |Page(seen, limit, offset)| == limit || seen == all
    ensures Page(all, limit, offset) == Page(seen, limit, offset)
  {
    assert all == seen + all[|seen|..];
    PageAppend(seen, all[|seen|..], limit, offset);
  }

  /** What was seen is a prefix of the whole list, and nothing later belongs before it. */
  lemma SeenIsPrefix(ix: Index, sh: ShowId, ranks: seq<int>, k: nat, seen: seq<Candidate>, all: seq<Candidate>)
    requires Descending(ranks) && k <= |ranks| && Sorted(seen) && Sorted(all)
    requires Elements(seen) == Reached(ix, sh, ranks[..k]) && Elements(all) == Reached(ix, sh, ranks)
    ensures seen <= all
  {
    var later := Later(all, ranks, k);
    LaterSplits(ix, sh, ranks, k, all);
    SortedIsUnique(all[..later], seen);
  }

  /** Where the callers of the ranks from `k` on begin. */
  function Later(all: seq<Candidate>, ranks: seq<int>, k: nat): (n: nat)
    requires k <= |ranks|
    ensures n <= |all|
    ensures forall i :: 0 <= i < n ==> all[i].rank in ranks[..k]
    ensures n < |all| ==> all[n].rank !in ranks[..k]
  {
    if all == [] || all[0].rank !in ranks[..k] then 0 else 1 + Later(all[1..], ranks, k)
  }

  lemma LaterSplits(ix: Index, sh: ShowId, ranks: seq<int>, k: nat, all: seq<Candidate>)
    requires Descending(ranks) && k <= |ranks| && Sorted(all) && Elements(all) == Reached(ix, sh, ranks)
    ensures Sorted(all[..Later(all, ranks, k)])
    ensures Elements(all[..Later(all, ranks, k)]) == Reached(ix, sh, ranks[..k])
  {
    var n := Later(all, ranks, k);
    forall c | c in Reached(ix, sh, ranks[..k]) ensures c in all[..n] {
      assert c.rank in ranks;
      assert c in Elements(all);
      var i :| 0 <= i < |all| && all[i] == c;
      forall m | 0 <= m < |all| ensures all[m].rank in ranks {
        assert all[m] in Elements(all);
      }
      if n <= i {
        AfterLater(all, ranks, k, i);
      }
      assert all[..n][i] == c;
    }
    forall c | c in all[..n] ensures c in Reached(ix, sh, ranks[..k]) {
      var i :| 0 <= i < n && all[i] == c;
      assert all[i] in Elements(all);
    }
  }

  lemma AfterLater(all: seq<Candidate>, ranks: seq<int>, k: nat, i: nat)
    requires Descending(ranks) && k <= |ranks| && Sorted(all) && Later(all, ranks, k) <= i < |all|
    requires forall m :: 0 <= m < |all| ==> all[m].rank in ranks
    ensures all[i].rank !in ranks[..k]
  {
    var n := Later(all, ranks, k);
    var q :| 0 <= q < |ranks| && ranks[q] == all[n].rank;
    var p :| 0 <= p < |ranks| && ranks[p] == all[i].rank;
    assert k <= q by { assert forall m :: 0 <= m < k ==> ranks[..k][m] == ranks[m]; }
    assert all[n] == all[i] || Before(all[n], all[i]);
    assert q <= p;
    assert forall m :: 0 <= m < k ==> ranks[m] > ranks[p];
  }
}
