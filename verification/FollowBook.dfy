/**
 The follow tables updated in place, as frontend/convex/follows.ts does it: one
 shard document at a time, a probe loop for an unfollow, a projection later.
 */
module FollowBooks {
  import opened Common
  import opened Followers

  class FollowBook {
    var follows: set<Follow>
    var followingCounts: map<UserId, int>
    var shards: map<Slot, int>
    var markers: set<UserId>
    var jobs: multiset<UserId>
    var profiles: map<UserId, Profile>

    function Snapshot(): State
      reads this
    {
      State(follows, followingCounts, shards, markers, jobs, profiles)
    }

    constructor ()
      ensures Snapshot() == EMPTY
    {
      follows, followingCounts, shards, markers, jobs, profiles := {}, map[], map[], {}, multiset{}, map[];
    }

    /** Takes one from the first non-empty shard after a random start. */
    method TakeFromShard(c: UserId, start: nat) returns (taken: Option<nat>)
      requires start < SHARDS
      modifies this`shards
      ensures taken == Probe(old(shards), c, start, 0)
      ensures shards == if taken.Some? then Bumped(old(shards), c, taken.value, -1) else old(shards)
    {
      var offset := 0;
      while offset < SHARDS
        invariant 0 <= offset <= SHARDS && shards == old(shards)
        invariant Probe(shards, c, start, 0) == Probe(shards, c, start, offset)
      {
        var slot := Slot(c, (start + offset) % SHARDS);
        if slot in shards && shards[slot] > 0 {
          shards := shards[slot := shards[slot] - 1];
          return Some(slot.shard);
        }
        offset := offset + 1;
      }
      return None;
    }

    method Adjust(c: UserId, follow: bool, start: nat)
      requires start < SHARDS
      modifies this
      ensures Snapshot() == AdjustShard(old(Snapshot()), c, follow, start)
    {
      if follow {
        var slot := Slot(c, start);
        if slot in shards {
          shards := shards[slot := shards[slot] + 1];
        } else {
          shards := shards[slot := 1];
        }
      } else {
        var _ := TakeFromShard(c, start);
      }
      if c !in markers {
        markers := markers + {c};
        jobs := jobs + multiset{c};
      }
    }

    /** Keeps every count exact; a call that fails changes nothing. */
    method ChangeFollow(u: UserId, c: UserId, follow: bool, start: nat, allowed: bool) returns (r: Result<bool, Error>)
      requires Inv(Snapshot()) && start < SHARDS
      modifies this
      ensures Inv(Snapshot())
      ensures var want := SetFollow(old(Snapshot()), u, c, follow, start, allowed);
        if want.Err? then r == Err(want.error) && Snapshot() == old(Snapshot())
        else r == Ok(follow) && Snapshot() == want.value
      ensures r.Ok? ==> (Follow(u, c) in follows <==> follow)
    {
      hide Inv, AdjustShard;
      SetFollowKeeps(Snapshot(), u, c, follow, start, allowed);
      if c !in profiles || (follow && !profiles[c].published) {
        return Err(CreatorNotFound);
      }
      if c == u {
        return Err(SelfFollow);
      }
      var existing := Follow(u, c) in follows;
      if existing == follow {
        return Ok(follow);
      }
      if !allowed {
        return Err(RateLimited);
      }
      var count := if u in followingCounts then followingCounts[u] else 0;
      if follow && count >= MAX_FOLLOWS {
        return Err(FollowLimit);
      }
      followingCounts := followingCounts[u := count + (if follow then 1 else -1)];
      if follow {
        follows := follows + {Follow(u, c)};
      } else {
        follows := follows - {Follow(u, c)};
      }
      Adjust(c, follow, start);
      return Ok(follow);
    }

    /** Sums a creator's shards into the profile, which is then exact. */
    method RunProjection(c: UserId)
      requires Inv(Snapshot()) && c in jobs
      modifies this
      ensures Inv(Snapshot())
      ensures Snapshot() == Project(old(Snapshot()), c)
      ensures c in profiles ==> profiles[c].followerCount == |FollowersOf(follows, c)|
    {
      hide FollowersOf, Inv;
      ProjectKeeps(Snapshot(), c);
      SumIsFollowers(Snapshot(), c);
      var total := 0;
      for k := 0 to SHARDS
        invariant total == ShardSum(shards, c, k)
        invariant Snapshot() == old(Snapshot())
      {
        if Slot(c, k) in shards {
          total := total + shards[Slot(c, k)];
        }
      }
      if c in profiles && profiles[c].followerCount != total {
        profiles := profiles[c := profiles[c].(followerCount := total)];
      }
      assert profiles == Project(old(Snapshot()), c).profiles;
      markers := markers - {c};
      jobs := jobs - multiset{c};
    }
  }

  lemma SumIsFollowers(s: State, c: UserId)
    requires Inv(s)
    ensures ShardSum(s.shards, c, SHARDS) == |FollowersOf(s.follows, c)|
  {
  }
}
