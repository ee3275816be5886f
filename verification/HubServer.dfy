/**
 The hub's locked regions, updated in place as
 backend/internal/realtime/hub.go does it under its mutex. Each method is one
 region and is proved to be the step of the same name in module Hub.
 */
module HubServers {
  import opened Common
  import opened Hub

  class HubServer {
    const maxPerShow: int
    var nextId: nat
    var rooms: map<ShowId, Room>
    var clients: set<ClientId>
    var stopped: set<ClientId>
    var openSubs: set<SubId>
    var inFlight: map<SubId, ShowId>
    var closing: set<SubId>

    function Snapshot(): State
      reads this
    {
      State(maxPerShow, nextId, rooms, clients, stopped, openSubs, inFlight, closing)
    }

    constructor (maxPerShow: int)
      ensures Snapshot() == NewHub(maxPerShow)
    {
      this.maxPerShow := maxPerShow;
      nextId, rooms, clients, stopped := 0, map[], {}, {};
      openSubs, inFlight, closing := {}, map[], {};
    }

    /** ErrRoomFull is None. */
    method AddClientLocked(sh: ShowId) returns (client: Option<ClientId>)
      requires sh in rooms
      modifies this
      ensures Snapshot() == AddClient(old(Snapshot()), sh)
      ensures client.Some? <==> |old(rooms)[sh].clients| < maxPerShow
      ensures client.Some? ==> sh in rooms && client.value in rooms[sh].clients && client.value == old(nextId)
    {
      var room := rooms[sh];
      if |room.clients| >= maxPerShow {
        return None;
      }
      var id := nextId;
      nextId := nextId + 1;
      clients := clients + {id};
      rooms := rooms[sh := room.(clients := room.clients + {id})];
      return Some(id);
    }

    /** The first lock of Subscribe; `found` tells whether the call is done. */
    method SubscribeFirst(sh: ShowId) returns (found: bool, client: Option<ClientId>)
      modifies this
      ensures Snapshot() == Join(old(Snapshot()), sh)
      ensures found <==> sh in old(rooms)
    {
      if sh in rooms {
        var added := AddClientLocked(sh);
        return true, added;
      }
      return false, None;
    }

    /** The second lock: another call may have made the room in between. */
    method SubscribeSecond(sub: SubId) returns (client: Option<ClientId>)
      requires sub in inFlight
      modifies this
      ensures Snapshot() == JoinOrCreate(old(Snapshot()), sub)
      ensures maxPerShow >= 1 && old(inFlight)[sub] !in old(rooms) ==> client.Some?
    {
      var sh := inFlight[sub];
      inFlight := map q | q in inFlight && q != sub :: inFlight[q];
      if sh in rooms {
        client := AddClientLocked(sh);
        closing := closing + {sub};
        return;
      }
      rooms := rooms[sh := Room(sub, {})];
      client := AddClientLocked(sh);
    }

    method UnsubscribeClient(sh: ShowId, client: ClientId)
      modifies this
      ensures Snapshot() == Unsubscribe(old(Snapshot()), sh, client)
    {
      if sh !in rooms || client !in rooms[sh].clients {
        return;
      }
      var room := rooms[sh];
      assert room.clients * {client} == {client};
      var left := room.clients - {client};
      stopped := stopped + {client};
      if left == {} {
        rooms := Unmap(rooms, sh);
        closing := closing + {room.subscription};
      } else {
        rooms := rooms[sh := room.(clients := left)];
      }
    }

    /** Tries every client in turn; those whose buffer is full are dropped and stopped. */
    method DropSlow(all: set<ClientId>, slow: set<ClientId>) returns (left: set<ClientId>)
      modifies this`stopped
      ensures left == all - slow
      ensures stopped == old(stopped) + (all * slow)
    {
      var untried := all;
      left := all;
      while untried != {}
        invariant untried <= all
        invariant forall c :: c in left <==> c in all && (c in untried || c !in slow)
        invariant forall c :: c in stopped <==> c in old(stopped) || (c in all && c !in untried && c in slow)
        decreases |untried|
      {
        var client := PickClient(untried);
        if client in slow {
          left := left - {client};
          stopped := stopped + {client};
        }
        untried := untried - {client};
      }
      assert left == all - slow;
      assert stopped == old(stopped) + (all * slow);
    }

    method BroadcastTo(sh: ShowId, sub: SubId, slow: set<ClientId>)
      modifies this
      ensures Snapshot() == Broadcast(old(Snapshot()), sh, sub, slow)
    {
      if sh !in rooms || rooms[sh].subscription != sub {
        return;
      }
      var room := rooms[sh];
      var left := DropSlow(room.clients, slow);
      if left == {} {
        rooms := Unmap(rooms, sh);
        closing := closing + {room.subscription};
      } else {
        rooms := rooms[sh := room.(clients := left)];
      }
    }

    method EndRoom(sh: ShowId, sub: SubId)
      modifies this
      ensures Snapshot() == CloseRoom(old(Snapshot()), sh, sub)
    {
      if sh !in rooms || rooms[sh].subscription != sub {
        return;
      }
      var room := rooms[sh];
      rooms := Unmap(rooms, sh);
      var rest := room.clients;
      while rest != {}
        invariant rest <= room.clients
        invariant stopped == old(stopped) + (room.clients - rest)
        invariant Snapshot() == old(Snapshot()).(rooms := rooms, stopped := stopped)
        invariant rooms == Unmap(old(rooms), sh)
        decreases |rest|
      {
        var client := PickClient(rest);
        stopped := stopped + {client};
        rest := rest - {client};
      }
      closing := closing + {sub};
    }
  }

  /** The next of a set of clients; the source ranges over a map in no particular order. */
  method PickClient(s: set<ClientId>) returns (c: ClientId)
    requires s != {}
    ensures c in s
  {
    c :| c in s;
  }
}
