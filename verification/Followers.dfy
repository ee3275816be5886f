/**
 Follower counts of frontend/convex/follows.ts: the follow relation, a total
 per creator spread over 64 shards, a count per follower, and the profile's
 cached total, projected a while after the shards change.
 */
module Followers {
  import opened Common

  const SHARDS := 64
  const MAX_FOLLOWS := 1000

  datatype Follow = Follow(follower: UserId, creator: UserId)

  datatype Slot = Slot(creator: UserId, shard: nat)

  datatype Profile = Profile(published: bool, followerCount: int)

  datatype State = State(
    follows: set<Follow>,
    followingCounts: map<UserId, int>,
    shards: map<Slot, int>,
    markers: set<UserId>,
    jobs: multiset<UserId>,
    profiles: map<UserId, Profile>)

  datatype Error = CreatorNotFound | SelfFollow | RateLimited | FollowLimit

  // ------------------------------------------------------------ what the counts stand for

  function FollowersOf(follows: set<Follow>, c: UserId): set<UserId> {
    set f | f in follows && f.creator == c :: f.follower
  }

  function FollowedBy(follows: set<Follow>, u: UserId): set<UserId> {
    set f | f in follows && f.follower == u :: f.creator
  }

  function ShardCount(shards: map<Slot, int>, c: UserId, k: nat): int {
    if Slot(c, k) in shards then shards[Slot(c, k)] else 0
  }

  /** The first `n` shards of a creator, added up. */
  function ShardSum(shards: map<Slot, int>, c: UserId, n: nat): int {
    if n == 0 then 0 else ShardSum(shards, c, n - 1) + ShardCount(shards, c, n - 1)
  }

  function FollowingCount(s: State, u: UserId): int {
    if u in s.followingCounts then s.followingCounts[u] else 0
  }

  // ------------------------------------------------------------ the mutations

  /** The first non-empty shard at or after `start + offset`, going round once. */
  function Probe(shards: map<Slot, int>, c: UserId, start: nat, offset: nat): (r: Option<nat>)
    ensures r.Some? ==> r.value < SHARDS && ShardCount(shards, c, r.value) > 0
    decreases SHARDS - offset
  {
    if offset >= SHARDS then None
    else if ShardCount(shards, c, (start + offset) % SHARDS) > 0 then Some((start + offset) % SHARDS)
    else Probe(shards, c, start, offset + 1)
  }

  function Bumped(shards: map<Slot, int>, c: UserId, k: nat, delta: int): map<Slot, int> {
    shards[Slot(c, k) := ShardCount(shards, c, k) + delta]
  }

  /** Moves one shard by one and makes sure a projection is on its way. */
  function AdjustShard(s: State, c: UserId, follow: bool, start: nat): (s': State)
    ensures s' == s.(shards := s'.shards, markers := s'.markers, jobs := s'.jobs)
  {
    var taken := Probe(s.shards, c, start, 0);
    var shards :=
      if follow then Bumped(s.shards, c, start, 1)
      else if taken.Some? then Bumped(s.shards, c, taken.value, -1)
      else s.shards;
    if c in s.markers then s.(shards := shards)
    else s.(shards := shards, markers := s.markers + {c}, jobs := s.jobs + multiset{c})
  }

  /** Following is target state, not a toggle; `start` is the random shard. */
  function SetFollow(s: State, u: UserId, c: UserId, follow: bool, start: nat, allowed: bool): Result<State, Error> {
    if c !in s.profiles || (follow && !s.profiles[c].published) then Err(CreatorNotFound)
    else if c == u then Err(SelfFollow)
    else if (Follow(u, c) in s.follows) == follow then Ok(s)
    else if !allowed then Err(RateLimited)
    else if follow && FollowingCount(s, u) >= MAX_FOLLOWS then Err(FollowLimit)
    else
      var counted := s.(
        followingCounts := s.followingCounts[u := FollowingCount(s, u) + (if follow then 1 else -1)],
        follows := if follow then s.follows + {Follow(u, c)} else s.follows - {Follow(u, c)});
      Ok(AdjustShard(counted, c, follow, start))
  }

  /** The scheduled projection: the cached total becomes the sum of the shards. */
  function Project(s: State, c: UserId): State {
    var total := ShardSum(s.shards, c, SHARDS);
    s.(
      profiles := if c in s.profiles then s.profiles[c := s.profiles[c].(followerCount := total)] else s.profiles,
      markers := s.markers - {c},
      jobs := s.jobs - multiset{c})
  }

  function CreateProfile(s: State, u: UserId): State {
    if u in s.profiles then s else s.(profiles := s.profiles[u := Profile(false, 0)])
  }

  function Publish(s: State, u: UserId, published: bool): State {
    if u in s.profiles then s.(profiles := s.profiles[u := s.profiles[u].(published := published)]) else s
  }

  datatype Op =
    | SetFollowOp(user: UserId, creator: UserId, follow: bool, start: nat, allowed: bool)
    | ProjectOp(creator: UserId)
    | CreateProfileOp(user: UserId)
    | PublishOp(user: UserId, published: bool)

  function Step(s: State, op: Op): State {
    match op
    case SetFollowOp(u, c, follow, start, allowed) =>
      var r := SetFollow(s, u, c, follow, start % SHARDS, allowed);
      if r.Ok? then r.value else s
    case ProjectOp(c) => if c in s.jobs then Project(s, c) else s
    case CreateProfileOp(u) => CreateProfile(s, u)
    case PublishOp(u, published) => Publish(s, u, published)
  }

  function Run(s: State, ops: seq<Op>): State {
    if ops == [] then s else Step(Run(s, ops[..|ops| - 1]), ops[|ops| - 1])
  }

  const EMPTY := State({}, map[], map[], {}, multiset{}, map[])

  // ------------------------------------------------------------ the invariant

  ghost predicate ShardsOk(shards: map<Slot, int>, follows: set<Follow>) {
    && (forall slot :: slot in shards ==> slot.shard < SHARDS && shards[slot] >= 0)
    && (forall c :: ShardSum(shards, c, SHARDS) == |FollowersOf(follows, c)|)
  }

  ghost predicate CountsOk(s: State) {
    forall u :: FollowingCount(s, u) == |FollowedBy(s.follows, u)| <= MAX_FOLLOWS
  }

  ghost predicate ProfilesOk(s: State) {
    && (forall c :: c in s.markers ==> c in s.jobs)
    && (forall c :: c in s.profiles && c !in s.markers ==> s.profiles[c].followerCount == |FollowersOf(s.follows, c)|)
    && (forall f :: f in s.follows ==> f.creator in s.profiles && f.follower != f.creator)
  }

  ghost predicate Inv(s: State) {
    ShardsOk(s.shards, s.follows) && CountsOk(s) && ProfilesOk(s)
  }

  // ------------------------------------------------------------ shards

  lemma {:induction false} BumpSum(shards: map<Slot, int>, c: UserId, k: nat, delta: int, x: UserId, n: nat)
    ensures ShardSum(Bumped(shards, c, k, delta), x, n)
         == ShardSum(shards, x, n) + (if x == c && k < n then delta else 0)
  {
    if n > 0 {
      BumpSum(shards, c, k, delta, x, n - 1);
    }
  }

  /** Where the sum is positive some shard is. */
  lemma {:induction false} SomeShard(shards: map<Slot, int>, c: UserId, n: nat) returns (k: nat)
    requires ShardSum(shards, c, n) > 0
    ensures k < n && ShardCount(shards, c, k) > 0
  {
    if ShardCount(shards, c, n - 1) > 0 {
      k := n - 1;
    } else {
      k := SomeShard(shards, c, n - 1);
    }
  }

  lemma {:induction false} ProbeReaches(shards: map<Slot, int>, c: UserId, start: nat, offset: nat, target: nat)
    requires offset <= target < SHARDS && ShardCount(shards, c, (start + target) % SHARDS) > 0
    ensures Probe(shards, c, start, offset).Some?
    decreases SHARDS - offset
  {
    if ShardCount(shards, c, (start + offset) % SHARDS) <= 0 {
      ProbeReaches(shards, c, start, offset + 1, target);
    }
  }

  /** From any random start the probe finds a non-empty shard whenever the creator has a follower. */
  lemma ProbeFinds(shards: map<Slot, int>, c: UserId, start: nat)
    requires start < SHARDS && ShardSum(shards, c, SHARDS) > 0
    ensures Probe(shards, c, start, 0).Some?
  {
    var k := SomeShard(shards, c, SHARDS);
    var target := if k >= start then k - start else k + SHARDS - start;
    assert (start + target) % SHARDS == k;
    ProbeReaches(shards, c, start, 0, target);
  }

  // ------------------------------------------------------------ the relation

  lemma FollowersAdd(follows: set<Follow>, u: UserId, c: UserId, x: UserId)
    requires Follow(u, c) !in follows
    ensures |FollowersOf(follows + {Follow(u, c)}, x)| == |FollowersOf(follows, x)| + (if x == c then 1 else 0)
  {
    assert Follow(u, c) in follows + {Follow(u, c)};
    assert FollowersOf(follows + {Follow(u, c)}, x) == FollowersOf(follows, x) + (if x == c then {u} else {});
  }

  lemma FollowedAdd(follows: set<Follow>, u: UserId, c: UserId, x: UserId)
    requires Follow(u, c) !in follows
    ensures |FollowedBy(follows + {Follow(u, c)}, x)| == |FollowedBy(follows, x)| + (if x == u then 1 else 0)
  {
    assert Follow(u, c) in follows + {Follow(u, c)};
    assert FollowedBy(follows + {Follow(u, c)}, x) == FollowedBy(follows, x) + (if x == u then {c} else {});
  }

  lemma FollowAdds(follows: set<Follow>, u: UserId, c: UserId)
    requires Follow(u, c) !in follows
    ensures forall x :: |FollowersOf(follows + {Follow(u, c)}, x)| == |FollowersOf(follows, x)| + (if x == c then 1 else 0)
    ensures forall x :: |FollowedBy(follows + {Follow(u, c)}, x)| == |FollowedBy(follows, x)| + (if x == u then 1 else 0)
  {
    hide FollowersOf, FollowedBy;
    forall x ensures |FollowersOf(follows + {Follow(u, c)}, x)| == |FollowersOf(follows, x)| + (if x == c then 1 else 0) {
      FollowersAdd(follows, u, c, x);
    }
    forall x ensures |FollowedBy(follows + {Follow(u, c)}, x)| == |FollowedBy(follows, x)| + (if x == u then 1 else 0) {
      FollowedAdd(follows, u, c, x);
    }
  }

  lemma UnfollowTakes(follows: set<Follow>, u: UserId, c: UserId)
    requires Follow(u, c) in follows
    ensures forall x :: |FollowersOf(follows - {Follow(u, c)}, x)| == |FollowersOf(follows, x)| - (if x == c then 1 else 0)
    ensures forall x :: |FollowedBy(follows - {Follow(u, c)}, x)| == |FollowedBy(follows, x)| - (if x == u then 1 else 0)
  {
    var fewer := follows - {Follow(u, c)};
    FollowAdds(fewer, u, c);
    assert fewer + {Follow(u, c)} == follows;
  }

  /** The relation and the shards move together. */
  lemma AdjustKeepsShards(s: State, follows: set<Follow>, c: UserId, follow: bool, start: nat)
    requires ShardsOk(s.shards, follows) && start < SHARDS
    requires forall x :: |FollowersOf(s.follows, x)| == |FollowersOf(follows, x)| + (if x != c then 0 else if follow then 1 else -1)
    ensures ShardsOk(AdjustShard(s, c, follow, start).shards, s.follows)
  {
    var s' := AdjustShard(s, c, follow, start);
    hide FollowersOf;
    if !follow {
      assert |FollowersOf(s.follows, c)| >= 0;
      ProbeFinds(s.shards, c, start);
    }
    var k := if follow then start else Probe(s.shards, c, start, 0).value;
    forall x ensures ShardSum(s'.shards, x, SHARDS) == |FollowersOf(s.follows, x)| {
      BumpSum(s.shards, c, k, if follow then 1 else -1, x, SHARDS);
    }
  }

  /** What a change of the relation does to the counts, before the shard is adjusted. */
  function Counted(s: State, u: UserId, c: UserId, follow: bool): State {
    s.(
      followingCounts := s.followingCounts[u := FollowingCount(s, u) + (if follow then 1 else -1)],
      follows := if follow then s.follows + {Follow(u, c)} else s.follows - {Follow(u, c)})
  }

  lemma CountedMoves(s: State, u: UserId, c: UserId, follow: bool)
    requires (Follow(u, c) in s.follows) != follow
    ensures var s' := Counted(s, u, c, follow);
      var delta := if follow then 1 else -1;
      && (forall x :: |FollowersOf(s'.follows, x)| == |FollowersOf(s.follows, x)| + (if x == c then delta else 0))
      && (forall x :: |FollowedBy(s'.follows, x)| == |FollowedBy(s.follows, x)| + (if x == u then delta else 0))
  {
    hide FollowersOf, FollowedBy;
    if follow {
      FollowAdds(s.follows, u, c);
    } else {
      UnfollowTakes(s.follows, u, c);
    }
  }

  lemma SetFollowKeeps(s: State, u: UserId, c: UserId, follow: bool, start: nat, allowed: bool)
    requires Inv(s) && start < SHARDS
    ensures var r := SetFollow(s, u, c, follow, start, allowed); r.Ok? ==> Inv(r.value)
  {
    hide FollowersOf, FollowedBy, Probe, ShardsOk;
    var r := SetFollow(s, u, c, follow, start, allowed);
    if r.Ok? && r.value != s {
      CountedMoves(s, u, c, follow);
      AdjustKeepsShards(Counted(s, u, c, follow), s.follows, c, follow, start);
      assert CountsOk(r.value);
      assert ProfilesOk(r.value);
    }
  }

  lemma ProjectKeeps(s: State, c: UserId)
    requires Inv(s)
    ensures Inv(Project(s, c))
  {
    hide FollowersOf, FollowedBy, ShardSum;
    var s' := Project(s, c);
    assert CountsOk(s') by { assert forall u :: FollowingCount(s', u) == FollowingCount(s, u); }
  }

  lemma StepKeeps(s: State, op: Op)
    requires Inv(s)
    ensures Inv(Step(s, op))
  {
    match op
    case SetFollowOp(u, c, follow, start, allowed) => SetFollowKeeps(s, u, c, follow, start % SHARDS, allowed);
    case ProjectOp(c) => ProjectKeeps(s, c);
    case CreateProfileOp(u) => NewProfileKeeps(s, u);
    case PublishOp(u, published) =>
      hide FollowersOf, FollowedBy, ShardsOk;
      assert forall x :: FollowingCount(Publish(s, u, published), x) == FollowingCount(s, x);
  }

  lemma NewProfileKeeps(s: State, u: UserId)
    requires Inv(s)
    ensures Inv(CreateProfile(s, u))
  {
    if u !in s.profiles {
      assert FollowersOf(s.follows, u) == {};
    }
    hide FollowersOf, FollowedBy, ShardsOk;
    assert forall x :: FollowingCount(CreateProfile(s, u), x) == FollowingCount(s, x);
  }

  lemma EmptyInv()
    ensures Inv(EMPTY)
  {
    forall c ensures ShardSum(EMPTY.shards, c, SHARDS) == |FollowersOf(EMPTY.follows, c)| {
      NoShards(c, SHARDS);
    }
    assert forall u :: FollowedBy({}, u) == {};
  }

  lemma {:induction false} NoShards(c: UserId, n: nat)
    ensures ShardSum(map[], c, n) == 0
  {
    if n > 0 {
      NoShards(c, n - 1);
    }
  }

  lemma {:induction false} RunKeeps(s: State, ops: seq<Op>)
    requires Inv(s)
    ensures Inv(Run(s, ops))
  {
    hide Inv, Step;
    if ops != [] {
      RunKeeps(s, ops[..|ops| - 1]);
      StepKeeps(Run(s, ops[..|ops| - 1]), ops[|ops| - 1]);
    }
  }

  /**
   In every reachable state a creator's shards add up to their followers and
   none is negative, a user's count is the creators they follow and at most
   1000, and a profile with no projection pending shows the exact number; a
   pending one has its projection scheduled.
   */
  lemma CountsAreExact(ops: seq<Op>, c: UserId)
    ensures var s := Run(EMPTY, ops);
      && ShardSum(s.shards, c, SHARDS) == |FollowersOf(s.follows, c)|
      && (forall k :: 0 <= ShardCount(s.shards, c, k))
      && FollowingCount(s, c) == |FollowedBy(s.follows, c)| <= MAX_FOLLOWS
      && (c in s.profiles && c !in s.markers ==> s.profiles[c].followerCount == |FollowersOf(s.follows, c)|)
      && (c in s.markers ==> c in s.jobs)
  {
    EmptyInv();
    RunKeeps(EMPTY, ops);
    hide Run, FollowersOf, FollowedBy, ShardSum;
  }

  /** In every reachable state an unfollow takes one from exactly one shard, wherever it starts to look. */
  lemma UnfollowAlwaysFindsAShard(ops: seq<Op>, u: UserId, c: UserId, start: nat)
    requires Follow(u, c) in Run(EMPTY, ops).follows && start < SHARDS
    ensures Probe(Run(EMPTY, ops).shards, c, start, 0).Some?
  {
    EmptyInv();
    RunKeeps(EMPTY, ops);
    var s := Run(EMPTY, ops);
    assert u in FollowersOf(s.follows, c);
    ProbeFinds(s.shards, c, start);
  }
}
