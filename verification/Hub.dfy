/**
 The realtime hub of backend/internal/realtime/hub.go. The mutex makes each
 locked region one step; everything outside it (opening and closing a bus
 subscription) is a step of its own, and steps of any number of goroutines
 interleave freely. A room is identified by the subscription it was made with.
 */
module Hub {
  import opened Common

  type ClientId = nat
  type SubId = nat

  datatype Room = Room(subscription: SubId, clients: set<ClientId>)

  datatype State = State(
    maxPerShow: int,
    nextId: nat,
    rooms: map<ShowId, Room>,
    /** Clients handed out so far, and those told to stop. */
    clients: set<ClientId>,
    stopped: set<ClientId>,
    /** Open bus subscriptions; those a Subscribe call holds between its two locks; those being closed. */
    openSubs: set<SubId>,
    inFlight: map<SubId, ShowId>,
    closing: set<SubId>)

  // ------------------------------------------------------------ locked regions

  /** Adds a client to a mapped room, unless it is full. */
  function AddClient(s: State, sh: ShowId): State
    requires sh in s.rooms
  {
    var room := s.rooms[sh];
    if |room.clients| >= s.maxPerShow then s
    else s.(
      rooms := s.rooms[sh := room.(clients := room.clients + {s.nextId})],
      clients := s.clients + {s.nextId},
      nextId := s.nextId + 1)
  }

  /** Subscribe's first lock: join the room if there is one. */
  function Join(s: State, sh: ShowId): State {
    if sh in s.rooms then AddClient(s, sh) else s
  }

  /** Subscribe's second lock, with a subscription of its own in hand. */
  function JoinOrCreate(s: State, sub: SubId): State
    requires sub in s.inFlight
  {
    var sh := s.inFlight[sub];
    var landed := s.(inFlight := map q | q in s.inFlight && q != sub :: s.inFlight[q]);
    if sh in s.rooms then AddClient(landed, sh).(closing := s.closing + {sub})
    else AddClient(landed.(rooms := s.rooms[sh := Room(sub, {})]), sh)
  }

  function Unmap(rooms: map<ShowId, Room>, sh: ShowId): map<ShowId, Room> {
    map q | q in rooms && q != sh :: rooms[q]
  }

  /** Takes clients out of a mapped room; an empty room is unmapped and its subscription closed. */
  function Drop(s: State, sh: ShowId, gone: set<ClientId>): State
    requires sh in s.rooms
  {
    var room := s.rooms[sh];
    var left := room.clients - gone;
    var stopped := s.stopped + (room.clients * gone);
    if left == {} then s.(rooms := Unmap(s.rooms, sh), stopped := stopped, closing := s.closing + {room.subscription})
    else s.(rooms := s.rooms[sh := room.(clients := left)], stopped := stopped)
  }

  function Unsubscribe(s: State, sh: ShowId, client: ClientId): State {
    if sh in s.rooms && client in s.rooms[sh].clients then Drop(s, sh, {client}) else s
  }

  /** A message for room `sub`: clients whose buffers are full are dropped. */
  function Broadcast(s: State, sh: ShowId, sub: SubId, slow: set<ClientId>): State {
    if sh in s.rooms && s.rooms[sh].subscription == sub then Drop(s, sh, slow) else s
  }

  /** Room `sub` ends, if it is still the show's room. */
  function CloseRoom(s: State, sh: ShowId, sub: SubId): State {
    if sh in s.rooms && s.rooms[sh].subscription == sub then
      s.(rooms := Unmap(s.rooms, sh), stopped := s.stopped + s.rooms[sh].clients, closing := s.closing + {sub})
    else s
  }

  // ------------------------------------------------------------ outside the lock

  function OpenSubscription(s: State, sh: ShowId): State {
    s.(openSubs := s.openSubs + {s.nextId}, inFlight := s.inFlight[s.nextId := sh], nextId := s.nextId + 1)
  }

  function FinishClose(s: State, sub: SubId): State {
    if sub in s.closing then s.(openSubs := s.openSubs - {sub}, closing := s.closing - {sub}) else s
  }

  // ------------------------------------------------------------ interleavings

  datatype Op =
    | JoinOp(show: ShowId)
    | OpenOp(show: ShowId)
    | JoinOrCreateOp(sub: SubId)
    | UnsubscribeOp(show: ShowId, client: ClientId)
    | BroadcastOp(show: ShowId, sub: SubId, slow: set<ClientId>)
    | CloseRoomOp(show: ShowId, sub: SubId)
    | FinishCloseOp(sub: SubId)

  function Step(s: State, op: Op): State {
    match op
    case JoinOp(sh) => Join(s, sh)
    case OpenOp(sh) => OpenSubscription(s, sh)
    case JoinOrCreateOp(sub) => if sub in s.inFlight then JoinOrCreate(s, sub) else s
    case UnsubscribeOp(sh, client) => Unsubscribe(s, sh, client)
    case BroadcastOp(sh, sub, slow) => Broadcast(s, sh, sub, slow)
    case CloseRoomOp(sh, sub) => CloseRoom(s, sh, sub)
    case FinishCloseOp(sub) => FinishClose(s, sub)
  }

  function Run(s: State, ops: seq<Op>): State {
    if ops == [] then s else Step(Run(s, ops[..|ops| - 1]), ops[|ops| - 1])
  }

  function NewHub(maxPerShow: int): State {
    State(maxPerShow, 0, map[], {}, {}, {}, map[], {})
  }

  // ------------------------------------------------------------ the invariant

  function RoomSubs(rooms: map<ShowId, Room>): set<SubId> {
    set sh | sh in rooms :: rooms[sh].subscription
  }

  predicate RoomOk(room: Room, maxPerShow: int, clients: set<ClientId>, stopped: set<ClientId>) {
    1 <= |room.clients| <= maxPerShow && room.clients <= clients && room.clients !! stopped
  }

  /** Mapped rooms hold 1 to maxPerShow clients, none stopped. */
  ghost predicate RoomsOk(rooms: map<ShowId, Room>, maxPerShow: int, clients: set<ClientId>, stopped: set<ClientId>) {
    forall sh :: sh in rooms ==> RoomOk(rooms[sh], maxPerShow, clients, stopped)
  }

  /** Rooms share neither clients nor subscriptions. */
  ghost predicate RoomsApart(rooms: map<ShowId, Room>) {
    forall q, r :: q in rooms && r in rooms && q != r ==>
      rooms[q].clients !! rooms[r].clients && rooms[q].subscription != rooms[r].subscription
  }

  ghost predicate InSomeRoom(rooms: map<ShowId, Room>, c: ClientId) {
    exists sh :: sh in rooms && c in rooms[sh].clients
  }

  /** A client that was not stopped is in a mapped room. */
  ghost predicate ClientsOk(clients: set<ClientId>, stopped: set<ClientId>, rooms: map<ShowId, Room>, nextId: nat) {
    && (forall c :: c in clients ==> c < nextId)
    && stopped <= clients
    && (forall c :: c in clients && c !in stopped ==> InSomeRoom(rooms, c))
  }

  /** `whole` is the disjoint union of three parts. */
  predicate Parts(whole: set<SubId>, a: set<SubId>, b: set<SubId>, c: set<SubId>) {
    whole == a + b + c && a !! b && a !! c && b !! c
  }

  /** Every open subscription belongs to a mapped room, an unfinished Subscribe or a pending close, and to only one. */
  ghost predicate SubsOk(s: State) {
    && Parts(s.openSubs, RoomSubs(s.rooms), s.inFlight.Keys, s.closing)
    && (forall sub :: sub in s.openSubs ==> sub < s.nextId)
  }

  ghost predicate Inv(s: State) {
    && RoomsOk(s.rooms, s.maxPerShow, s.clients, s.stopped)
    && RoomsApart(s.rooms)
    && ClientsOk(s.clients, s.stopped, s.rooms, s.nextId)
    && SubsOk(s)
  }

  // ------------------------------------------------------------ subscriptions

  lemma PartsMove(whole: set<SubId>, a: set<SubId>, b: set<SubId>, c: set<SubId>, x: SubId)
    requires Parts(whole, a, b, c)
    ensures x !in whole ==> Parts(whole + {x}, a, b + {x}, c)
    ensures x in c ==> Parts(whole - {x}, a, b, c - {x})
    ensures x in a ==> Parts(whole, a - {x}, b, c + {x})
    ensures x in b ==> Parts(whole, a, b - {x}, c + {x}) && Parts(whole, a + {x}, b - {x}, c)
  {
    assert x in c ==> whole - {x} == a + b + (c - {x});
    assert x in a ==> whole == (a - {x}) + b + (c + {x});
    assert x in b ==> whole == a + (b - {x}) + (c + {x}) && whole == (a + {x}) + (b - {x}) + c;
  }

  lemma SubsSame(rooms: map<ShowId, Room>, sh: ShowId, room: Room)
    requires sh in rooms && room.subscription == rooms[sh].subscription
    ensures RoomSubs(rooms[sh := room]) == RoomSubs(rooms)
  {
    assert forall q :: q in rooms ==> rooms[sh := room][q].subscription == rooms[q].subscription;
  }

  lemma UnmapSubs(rooms: map<ShowId, Room>, sh: ShowId)
    requires sh in rooms && RoomsApart(rooms)
    ensures RoomSubs(Unmap(rooms, sh)) == RoomSubs(rooms) - {rooms[sh].subscription}
    ensures rooms[sh].subscription in RoomSubs(rooms)
  {
    forall x | x in RoomSubs(rooms) && x != rooms[sh].subscription ensures x in RoomSubs(Unmap(rooms, sh)) {
      var q :| q in rooms && rooms[q].subscription == x;
      assert q in Unmap(rooms, sh);
    }
  }

  lemma NewRoomSubs(rooms: map<ShowId, Room>, sh: ShowId, sub: SubId)
    requires sh !in rooms
    ensures RoomSubs(rooms[sh := Room(sub, {})]) == RoomSubs(rooms) + {sub}
  {
    var rooms' := rooms[sh := Room(sub, {})];
    forall x | x in RoomSubs(rooms) + {sub} ensures x in RoomSubs(rooms') {
      if x == sub {
        assert rooms'[sh].subscription == sub;
      } else {
        var q :| q in rooms && rooms[q].subscription == x;
        assert rooms'[q].subscription == x;
      }
    }
  }

  // ------------------------------------------------------------ adding a client

  /** A client joins a room that may have just been created and still be empty. */
  lemma RoomGains(rooms: map<ShowId, Room>, sh: ShowId, c: ClientId, maxPerShow: int, clients: set<ClientId>, stopped: set<ClientId>)
    requires sh in rooms && c !in clients && stopped <= clients
    requires RoomsOk(Unmap(rooms, sh), maxPerShow, clients, stopped) && RoomsApart(rooms)
    requires rooms[sh].clients <= clients && rooms[sh].clients !! stopped && |rooms[sh].clients| < maxPerShow
    ensures var rooms' := rooms[sh := rooms[sh].(clients := rooms[sh].clients + {c})];
      RoomsOk(rooms', maxPerShow, clients + {c}, stopped) && RoomsApart(rooms')
  {
    var rooms' := rooms[sh := rooms[sh].(clients := rooms[sh].clients + {c})];
    forall q | q in rooms' ensures RoomOk(rooms'[q], maxPerShow, clients + {c}, stopped) {
      if q != sh {
        assert q in Unmap(rooms, sh);
        assert RoomOk(rooms[q], maxPerShow, clients, stopped);
      }
    }
    forall q | q in rooms && q != sh ensures c !in rooms[q].clients {
      assert q in Unmap(rooms, sh) && RoomOk(Unmap(rooms, sh)[q], maxPerShow, clients, stopped);
    }
  }

  lemma ClientsGain(rooms: map<ShowId, Room>, sh: ShowId, clients: set<ClientId>, stopped: set<ClientId>, nextId: nat)
    requires sh in rooms && ClientsOk(clients, stopped, rooms, nextId)
    ensures var rooms' := rooms[sh := rooms[sh].(clients := rooms[sh].clients + {nextId})];
      ClientsOk(clients + {nextId}, stopped, rooms', nextId + 1)
  {
    var rooms' := rooms[sh := rooms[sh].(clients := rooms[sh].clients + {nextId})];
    forall c | c in clients + {nextId} && c !in stopped ensures InSomeRoom(rooms', c) {
      if c == nextId {
        assert sh in rooms' && c in rooms'[sh].clients;
      } else {
        var q :| q in rooms && c in rooms[q].clients;
        assert q in rooms' && c in rooms'[q].clients;
      }
    }
  }

  /** The room may be full only if it is not the one just created. */
  lemma AddClientKeeps(s: State, sh: ShowId)
    requires sh in s.rooms && s.maxPerShow >= 1
    requires RoomsOk(Unmap(s.rooms, sh), s.maxPerShow, s.clients, s.stopped) && RoomsApart(s.rooms)
    requires s.rooms[sh].clients == {} || RoomOk(s.rooms[sh], s.maxPerShow, s.clients, s.stopped)
    requires ClientsOk(s.clients, s.stopped, s.rooms, s.nextId) && SubsOk(s)
    ensures Inv(AddClient(s, sh))
  {
    hide Parts, RoomSubs, InSomeRoom, RoomsApart, RoomsOk, ClientsOk, Unmap;
    var room := s.rooms[sh];
    if |room.clients| >= s.maxPerShow {
      RoomBack(s, sh);
    } else {
      FreshClient(s);
      RoomGains(s.rooms, sh, s.nextId, s.maxPerShow, s.clients, s.stopped);
      ClientsGain(s.rooms, sh, s.clients, s.stopped, s.nextId);
      SubsSame(s.rooms, sh, room.(clients := room.clients + {s.nextId}));
    }
  }

  lemma RoomBack(s: State, sh: ShowId)
    requires sh in s.rooms && RoomOk(s.rooms[sh], s.maxPerShow, s.clients, s.stopped)
    requires RoomsOk(Unmap(s.rooms, sh), s.maxPerShow, s.clients, s.stopped)
    ensures RoomsOk(s.rooms, s.maxPerShow, s.clients, s.stopped)
  {
    forall q | q in s.rooms ensures RoomOk(s.rooms[q], s.maxPerShow, s.clients, s.stopped) {
      assert q != sh ==> q in Unmap(s.rooms, sh) && RoomOk(Unmap(s.rooms, sh)[q], s.maxPerShow, s.clients, s.stopped);
    }
  }

  lemma FreshClient(s: State)
    requires ClientsOk(s.clients, s.stopped, s.rooms, s.nextId)
    ensures s.nextId !in s.clients && s.stopped <= s.clients
  {
  }

  lemma UnmapRooms(s: State, sh: ShowId)
    requires RoomsOk(s.rooms, s.maxPerShow, s.clients, s.stopped)
    ensures RoomsOk(Unmap(s.rooms, sh), s.maxPerShow, s.clients, s.stopped)
    ensures sh in s.rooms ==> RoomOk(s.rooms[sh], s.maxPerShow, s.clients, s.stopped)
  {
  }

  /** The race: two Subscribe calls for one show both hold a subscription; the later one gives its own up. */
  lemma JoinOrCreateKeeps(s: State, sub: SubId)
    requires Inv(s) && s.maxPerShow >= 1 && sub in s.inFlight
    ensures Inv(JoinOrCreate(s, sub))
  {
    hide Parts, RoomSubs, InSomeRoom, RoomsApart, RoomsOk, ClientsOk, RoomOk;
    var sh := s.inFlight[sub];
    var landed := s.(inFlight := map q | q in s.inFlight && q != sub :: s.inFlight[q]);
    assert landed.inFlight.Keys == s.inFlight.Keys - {sub};
    PartsMove(s.openSubs, RoomSubs(s.rooms), s.inFlight.Keys, s.closing, sub);
    UnmapRooms(s, sh);
    if sh in s.rooms {
      var giveUp := landed.(closing := s.closing + {sub});
      assert SubsOk(giveUp);
      hide SubsOk;
      AddClientKeeps(giveUp, sh);
      assert JoinOrCreate(s, sub) == AddClient(giveUp, sh);
    } else {
      var created := landed.(rooms := s.rooms[sh := Room(sub, {})]);
      NewRoomSubs(s.rooms, sh, sub);
      assert SubsOk(created);
      NewRoomApart(s, sh, sub);
      NewRoomClients(s, sh, sub);
      assert Unmap(created.rooms, sh) == Unmap(s.rooms, sh);
      hide SubsOk;
      AddClientKeeps(created, sh);
    }
  }

  lemma NewRoomApart(s: State, sh: ShowId, sub: SubId)
    requires RoomsApart(s.rooms) && SubsOk(s) && sub in s.inFlight && sh !in s.rooms
    ensures RoomsApart(s.rooms[sh := Room(sub, {})])
  {
    assert sub in s.inFlight.Keys;
    forall q | q in s.rooms ensures s.rooms[q].subscription != sub {
      assert s.rooms[q].subscription in RoomSubs(s.rooms);
    }
    hide SubsOk, RoomSubs;
  }

  lemma NewRoomClients(s: State, sh: ShowId, sub: SubId)
    requires ClientsOk(s.clients, s.stopped, s.rooms, s.nextId) && sh !in s.rooms
    ensures ClientsOk(s.clients, s.stopped, s.rooms[sh := Room(sub, {})], s.nextId)
  {
    var rooms' := s.rooms[sh := Room(sub, {})];
    forall c | c in s.clients && c !in s.stopped ensures InSomeRoom(rooms', c) {
      var q :| q in s.rooms && c in s.rooms[q].clients;
      assert q in rooms' && c in rooms'[q].clients;
    }
  }

  // ------------------------------------------------------------ dropping clients

  lemma Fewer(a: set<ClientId>, b: set<ClientId>)
    requires a <= b
    ensures |a| <= |b|
  {
    assert b == a + (b - a);
  }

  lemma DropRooms(s: State, sh: ShowId, gone: set<ClientId>)
    requires RoomsOk(s.rooms, s.maxPerShow, s.clients, s.stopped) && RoomsApart(s.rooms) && sh in s.rooms
    ensures var s' := Drop(s, sh, gone);
      RoomsOk(s'.rooms, s'.maxPerShow, s'.clients, s'.stopped) && RoomsApart(s'.rooms)
  {
    var s' := Drop(s, sh, gone);
    Fewer(s.rooms[sh].clients - gone, s.rooms[sh].clients);
    forall q | q in s'.rooms ensures RoomOk(s'.rooms[q], s.maxPerShow, s'.clients, s'.stopped) {
      assert RoomOk(s.rooms[q], s.maxPerShow, s.clients, s.stopped);
    }
  }

  lemma DropClients(s: State, sh: ShowId, gone: set<ClientId>)
    requires ClientsOk(s.clients, s.stopped, s.rooms, s.nextId) && sh in s.rooms && s.rooms[sh].clients <= s.clients
    ensures var s' := Drop(s, sh, gone); ClientsOk(s'.clients, s'.stopped, s'.rooms, s'.nextId)
  {
    var s' := Drop(s, sh, gone);
    forall c | c in s'.clients && c !in s'.stopped ensures InSomeRoom(s'.rooms, c) {
      assert c !in s.stopped;
      var q :| q in s.rooms && c in s.rooms[q].clients;
      if q == sh {
        assert c in s.rooms[sh].clients - gone;
      }
      assert q in s'.rooms && c in s'.rooms[q].clients;
    }
  }

  lemma DropSubs(s: State, sh: ShowId, gone: set<ClientId>)
    requires RoomsApart(s.rooms) && SubsOk(s) && sh in s.rooms
    ensures SubsOk(Drop(s, sh, gone))
  {
    hide Parts, RoomSubs, RoomsApart;
    UnmapSubs(s.rooms, sh);
    PartsMove(s.openSubs, RoomSubs(s.rooms), s.inFlight.Keys, s.closing, s.rooms[sh].subscription);
    SubsSame(s.rooms, sh, s.rooms[sh].(clients := s.rooms[sh].clients - gone));
  }

  lemma DropKeeps(s: State, sh: ShowId, gone: set<ClientId>)
    requires Inv(s) && sh in s.rooms
    ensures Inv(Drop(s, sh, gone))
  {
    UnmapRooms(s, sh);
    hide RoomsApart, RoomsOk, ClientsOk, SubsOk, Drop;
    DropRooms(s, sh, gone);
    DropClients(s, sh, gone);
    DropSubs(s, sh, gone);
    DropFrame(s, sh, gone);
  }

  lemma DropFrame(s: State, sh: ShowId, gone: set<ClientId>)
    requires sh in s.rooms
    ensures Drop(s, sh, gone).maxPerShow == s.maxPerShow
  {
  }

  /** Closing a room is dropping all its clients. */
  lemma CloseIsDrop(s: State, sh: ShowId)
    requires sh in s.rooms
    ensures CloseRoom(s, sh, s.rooms[sh].subscription) == Drop(s, sh, s.rooms[sh].clients)
  {
    assert s.rooms[sh].clients * s.rooms[sh].clients == s.rooms[sh].clients;
  }

  // ------------------------------------------------------------ outside the lock

  lemma OpenKeeps(s: State, sh: ShowId)
    requires Inv(s)
    ensures Inv(OpenSubscription(s, sh))
  {
    hide RoomSubs, Parts, RoomsOk, RoomsApart, InSomeRoom;
    var s' := OpenSubscription(s, sh);
    assert s'.inFlight.Keys == s.inFlight.Keys + {s.nextId};
    PartsMove(s.openSubs, RoomSubs(s.rooms), s.inFlight.Keys, s.closing, s.nextId);
  }

  lemma FinishCloseKeeps(s: State, sub: SubId)
    requires Inv(s)
    ensures Inv(FinishClose(s, sub))
  {
    hide RoomSubs, Parts, RoomsOk, RoomsApart, ClientsOk;
    PartsMove(s.openSubs, RoomSubs(s.rooms), s.inFlight.Keys, s.closing, sub);
  }

  lemma StepKeeps(s: State, op: Op)
    requires Inv(s) && s.maxPerShow >= 1
    ensures Inv(Step(s, op))
  {
    hide Drop, AddClient, JoinOrCreate, OpenSubscription, FinishClose, RoomsOk, RoomsApart, ClientsOk, SubsOk, RoomOk, Unmap;
    match op
    case JoinOp(sh) =>
      UnmapRooms(s, sh);
      if sh in s.rooms {
        AddClientKeeps(s, sh);
      }
    case OpenOp(sh) => OpenKeeps(s, sh);
    case JoinOrCreateOp(sub) => if sub in s.inFlight { JoinOrCreateKeeps(s, sub); }
    case UnsubscribeOp(sh, client) => if sh in s.rooms { DropKeeps(s, sh, {client}); }
    case BroadcastOp(sh, sub, slow) => if sh in s.rooms { DropKeeps(s, sh, slow); }
    case CloseRoomOp(sh, sub) =>
      if sh in s.rooms && s.rooms[sh].subscription == sub {
        CloseIsDrop(s, sh);
        hide CloseRoom;
        DropKeeps(s, sh, s.rooms[sh].clients);
      }
    case FinishCloseOp(sub) => FinishCloseKeeps(s, sub);
  }

  lemma LimitStays(s: State, op: Op)
    ensures Step(s, op).maxPerShow == s.maxPerShow
  {
  }

  lemma {:induction false} RunKeeps(maxPerShow: int, ops: seq<Op>)
    requires maxPerShow >= 1
    ensures var s := Run(NewHub(maxPerShow), ops); Inv(s) && s.maxPerShow == maxPerShow
  {
    if ops != [] {
      hide Step, Inv;
      RunKeeps(maxPerShow, ops[..|ops| - 1]);
      var s := Run(NewHub(maxPerShow), ops[..|ops| - 1]);
      LimitStays(s, ops[|ops| - 1]);
      StepKeeps(s, ops[|ops| - 1]);
    }
  }

  /**
   Under every interleaving: each mapped room has 1 to maxPerShow clients and
   none of them is stopped; a client is either stopped or in exactly one mapped
   room; and the open subscriptions are exactly one per mapped room, the ones
   unfinished Subscribe calls hold and the ones about to be closed.
   */
  lemma HubIsSafe(maxPerShow: int, ops: seq<Op>)
    requires maxPerShow >= 1
    ensures var s := Run(NewHub(maxPerShow), ops);
      && (forall sh :: sh in s.rooms ==> 1 <= |s.rooms[sh].clients| <= maxPerShow && s.rooms[sh].clients !! s.stopped)
      && (forall c :: c in s.clients && c !in s.stopped ==> exists sh :: sh in s.rooms && c in s.rooms[sh].clients)
      && (forall q, r :: q in s.rooms && r in s.rooms && q != r ==> s.rooms[q].clients !! s.rooms[r].clients)
      && s.openSubs == RoomSubs(s.rooms) + s.inFlight.Keys + s.closing
  {
    RunKeeps(maxPerShow, ops);
    hide Run;
    var s := Run(NewHub(maxPerShow), ops);
    assert forall sh :: sh in s.rooms ==> RoomOk(s.rooms[sh], maxPerShow, s.clients, s.stopped);
    assert forall c :: c in s.clients && c !in s.stopped ==> InSomeRoom(s.rooms, c);
  }

  /** No leak: once no Subscribe call and no close is under way, there is one open subscription per mapped room. */
  lemma NoSubscriptionLeaks(maxPerShow: int, ops: seq<Op>)
    requires maxPerShow >= 1
    requires var s := Run(NewHub(maxPerShow), ops); s.inFlight == map[] && s.closing == {}
    ensures var s := Run(NewHub(maxPerShow), ops);
      s.openSubs == RoomSubs(s.rooms) && |s.openSubs| == |s.rooms|
  {
    RunKeeps(maxPerShow, ops);
    hide Run;
    var s := Run(NewHub(maxPerShow), ops);
    OneSubPerRoom(s.rooms);
  }

  lemma {:induction false} OneSubPerRoom(rooms: map<ShowId, Room>)
    requires RoomsApart(rooms)
    ensures |RoomSubs(rooms)| == |rooms|
    decreases |rooms|
  {
    if rooms != map[] {
      var sh :| sh in rooms;
      var rest := Unmap(rooms, sh);
      UnmapSubs(rooms, sh);
      assert rooms.Keys == rest.Keys + {sh};
      assert |rooms| == |rest| + 1;
      OneSubPerRoom(rest);
      hide RoomSubs, RoomsApart, Unmap;
      assert RoomSubs(rooms) == RoomSubs(rest) + {rooms[sh].subscription};
    }
  }
}
