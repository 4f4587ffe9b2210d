/** The collaboration presence registry and relay of the socket server
    (server/src/services/socketService.ts).

    Node runs each socket handler to completion, so every handler below is
    one atomic step on the service's state. Messages are not sent anywhere:
    each emit appends one `Delivery` per recipient connection to `outbox`,
    in the order socket.io walks the room. */
module Realtime {
  import opened Common
  import opened Protocol

  /** The socket.io room that carries one proposal's traffic,
      `proposal:<proposalId>`. */
  function RoomName(proposalId: ProposalId): (name: string)
    ensures StartsWith(name, "proposal:") && name[9..] == proposalId
  {
    "proposal:" + proposalId
  }

  /** Distinct proposals never share a socket.io room. */
  lemma RoomNameInjective(a: ProposalId, b: ProposalId)
    ensures RoomName(a) == RoomName(b) <==> a == b
  {
    if RoomName(a) == RoomName(b) {
      assert a == RoomName(a)[9..];
    }
  }

  /** What `jwt.verify` followed by `User.findById` made of the handshake
      token: the token did not verify (or the lookup threw), it named no
      user, or it named this user. */
  datatype Lookup = VerifyFailed | UserMissing | UserFound(user: Identity)

  /** The handshake middleware: a missing or empty token is refused before
      anything is looked up; an unknown user is refused with its own
      message; any other failure is "Authentication failed". */
  function Authenticate(token: Option<string>, lookup: Lookup): (r: Result<Identity, string>)
    ensures r.Ok? <==> token.Some? && token.value != "" && lookup.UserFound?
    ensures r.Ok? ==> r.value == lookup.user
    ensures r == Err("User not found") <==> token.Some? && token.value != "" && lookup.UserMissing?
    ensures r.Err? ==> r.error == "Authentication failed" || r.error == "User not found"
  {
    if token.None? || token.value == "" then Err("Authentication failed")
    else match lookup
      case VerifyFailed => Err("Authentication failed")
      case UserMissing => Err("User not found")
      case UserFound(user) => Ok(user)
  }

  /** One emit: the same event to each recipient, in order. */
  function Deliver(recipients: seq<SocketId>, e: Event): (ds: seq<Delivery>)
    ensures |ds| == |recipients|
    ensures forall i :: 0 <= i < |ds| ==> ds[i] == Delivery(recipients[i], e)
  {
    seq(|recipients|, i requires 0 <= i < |recipients| => Delivery(recipients[i], e))
  }

  /** An emit reaches exactly its recipients: for a relay, whose recipients
      are the room without the sender, every other socket of the room and
      never the sender's own. */
  lemma DeliverReaches(recipients: seq<SocketId>, e: Event, s: SocketId)
    ensures Delivery(s, e) in Deliver(recipients, e) <==> s in recipients
    ensures forall d :: d in Deliver(recipients, e) ==> d.event == e
  {
    var ds := Deliver(recipients, e);
    if s in recipients {
      var i :| 0 <= i < |recipients| && recipients[i] == s;
      assert ds[i] == Delivery(s, e);
    }
    if Delivery(s, e) in ds {
      var i :| 0 <= i < |ds| && ds[i] == Delivery(s, e);
      assert recipients[i] == s;
    }
  }

  /** The sockets of a socket.io room; a room nobody is in has none. */
  function RoomSockets(rooms: map<string, seq<SocketId>>, room: string): seq<SocketId>
  {
    if room in rooms then rooms[room] else []
  }

  /** `section-updated` as relayed: the sender's id and identity first, the
      payload spread over them. */
  function SectionUpdatedEvent(sender: Identity, data: SectionUpdate): (e: Event)
    ensures e.SectionUpdated?
    ensures e.userId == Override(sender.id, data.userId) && e.user == Override(sender, data.user)
    ensures e.proposalId == data.proposalId && e.sectionName == data.sectionName
    ensures e.content == data.content && e.cursorPosition == data.cursorPosition
  {
    SectionUpdated(Override(sender.id, data.userId), Override(sender, data.user), data.proposalId,
                   data.sectionName, data.content, data.cursorPosition)
  }

  /** `cursor-moved` as relayed, the payload spread last. */
  function CursorMovedEvent(sender: Identity, data: CursorMove): (e: Event)
    ensures e.CursorMoved?
    ensures e.userId == Override(sender.id, data.userId) && e.user == Override(sender, data.user)
    ensures e.proposalId == data.proposalId && e.sectionName == data.sectionName && e.position == data.position
  {
    CursorMoved(Override(sender.id, data.userId), Override(sender, data.user), data.proposalId,
                data.sectionName, data.position)
  }

  /** `comment-added` as relayed: stamped with the server's clock unless the
      payload brings its own `timestamp`. */
  function CommentAddedEvent(sender: Identity, data: AddComment, now: Timestamp): (e: Event)
    ensures e.CommentAdded?
    ensures e.userId == Override(sender.id, data.userId) && e.user == Override(sender, data.user)
    ensures e.timestamp == Override(now, data.timestamp)
    ensures e.proposalId == data.proposalId && e.sectionName == data.sectionName
    ensures e.comment == data.comment && e.range == data.range
  {
    CommentAdded(Override(sender.id, data.userId), Override(sender, data.user),
                 Override(now, data.timestamp), data.proposalId, data.sectionName, data.comment, data.range)
  }

  /** socket.io takes a closing socket out of every room it was in before
      the `disconnect` handler runs. */
  function LeaveAllRooms(rooms: map<string, seq<SocketId>>, sid: SocketId): (r: map<string, seq<SocketId>>)
    ensures r.Keys == rooms.Keys
    ensures forall room :: room in r ==> r[room] == Remove(rooms[room], sid)
  {
    map room | room in rooms :: Remove(rooms[room], sid)
  }

  /** The users of a proposal room, in joining order; a room never joined
      has none (the `|| []` of the leave handler). */
  function MembersOf(rooms: map<ProposalId, seq<UserId>>, proposalId: ProposalId): seq<UserId>
  {
    if proposalId in rooms then rooms[proposalId] else []
  }

  /** The join handler's table update: the room's set is created if missing
      and the user added to it. */
  function JoinRoom(rooms: map<ProposalId, seq<UserId>>, proposalId: ProposalId, u: UserId): (r: map<ProposalId, seq<UserId>>)
    ensures r.Keys == rooms.Keys + {proposalId}
    ensures forall q :: q in rooms && q != proposalId ==> r[q] == rooms[q]
    ensures u in r[proposalId] && |MembersOf(rooms, proposalId)| <= |r[proposalId]|
    ensures MembersOf(rooms, proposalId) == r[proposalId][..|MembersOf(rooms, proposalId)|]
    ensures u in MembersOf(rooms, proposalId) ==> MembersOf(r, proposalId) == MembersOf(rooms, proposalId)
    ensures u !in MembersOf(rooms, proposalId) ==> r[proposalId] == MembersOf(rooms, proposalId) + [u]
  {
    rooms[proposalId := Add(MembersOf(rooms, proposalId), u)]
  }

  /** The leave handler's table update: the user is deleted from the room's
      set if the room exists; an unknown room is left alone. */
  function LeaveRoom(rooms: map<ProposalId, seq<UserId>>, proposalId: ProposalId, u: UserId): (r: map<ProposalId, seq<UserId>>)
    ensures r.Keys == rooms.Keys
    ensures forall q :: q in rooms && q != proposalId ==> r[q] == rooms[q]
    ensures u !in MembersOf(r, proposalId)
    ensures forall v :: v in MembersOf(r, proposalId) <==> v in MembersOf(rooms, proposalId) && v != u
    ensures u !in MembersOf(rooms, proposalId) ==> r == rooms
  {
    if proposalId in rooms then rooms[proposalId := Remove(rooms[proposalId], u)] else rooms
  }

  /** A user who was not in a room and joins and then leaves it finds the
      room's list exactly as it was, order included. */
  lemma JoinThenLeaveRestores(rooms: map<ProposalId, seq<UserId>>, proposalId: ProposalId, u: UserId)
    requires u !in MembersOf(rooms, proposalId)
    ensures MembersOf(LeaveRoom(JoinRoom(rooms, proposalId, u), proposalId, u), proposalId) == MembersOf(rooms, proposalId)
  {
    RemoveUndoesAdd(MembersOf(rooms, proposalId), u);
  }

  /** One `user-left` broadcast of a disconnect: the room and the user list
      it carries. */
  datatype Notice = Notice(proposalId: ProposalId, activeUsers: seq<UserId>)

  function NoticeRooms(ns: seq<Notice>): (ids: seq<ProposalId>)
    ensures |ids| == |ns| && forall i :: 0 <= i < |ns| ==> ids[i] == ns[i].proposalId
  {
    seq(|ns|, i requires 0 <= i < |ns| => ns[i].proposalId)
  }

  /** The `user-left` broadcasts the disconnect handler's `forEach` makes,
      walking the proposal rooms in the order they were created: one per
      room that holds the user, each carrying that room's list without the
      user. */
  ghost function LeftNotices(order: seq<ProposalId>, rooms: map<ProposalId, seq<UserId>>, u: UserId): seq<Notice>
    decreases |order|
  {
    if order == [] then []
    else
      var last := order[|order| - 1];
      LeftNotices(order[..|order| - 1], rooms, u)
        + (if last in rooms && u in rooms[last] then [Notice(last, Remove(rooms[last], u))] else [])
  }

  /** Every notice is for a room that held the user and carries that room's
      list without the user. */
  lemma {:induction false} LeftNoticesContent(order: seq<ProposalId>, rooms: map<ProposalId, seq<UserId>>, u: UserId)
    ensures forall n :: n in LeftNotices(order, rooms, u) ==>
              (n.proposalId in rooms && u in rooms[n.proposalId] && n.activeUsers == Remove(rooms[n.proposalId], u))
    decreases |order|
  {
    if order != [] {
      LeftNoticesContent(order[..|order| - 1], rooms, u);
    }
  }

  /** The rooms announced are exactly the rooms of `order` that hold the
      user, in the order walked. */
  lemma {:induction false} LeftNoticesRooms(order: seq<ProposalId>, rooms: map<ProposalId, seq<UserId>>, u: UserId)
    ensures NoticeRooms(LeftNotices(order, rooms, u)) == Filter(p => p in rooms && u in rooms[p], order)
    decreases |order|
  {
    if order != [] {
      var last := order[|order| - 1];
      var front := order[..|order| - 1];
      LeftNoticesRooms(front, rooms, u);
      FilterConcat(p => p in rooms && u in rooms[p], front, [last]);
      assert order == front + [last];
      var here := if last in rooms && u in rooms[last] then [Notice(last, Remove(rooms[last], u))] else [];
      assert NoticeRooms(LeftNotices(front, rooms, u) + here) == NoticeRooms(LeftNotices(front, rooms, u)) + NoticeRooms(here);
    }
  }

  /** Every `user-left` of a disconnect, delivered to the sockets still in
      the room. */
  ghost function Announce(ns: seq<Notice>, rooms: map<string, seq<SocketId>>, u: UserId): seq<Delivery>
    decreases |ns|
  {
    if ns == [] then []
    else
      var n := ns[|ns| - 1];
      Announce(ns[..|ns| - 1], rooms, u) + Deliver(RoomSockets(rooms, RoomName(n.proposalId)), UserLeft(u, n.activeUsers))
  }

  /** Each delivery of a disconnect carries one of the notices to a socket
      still in that notice's room. */
  lemma {:induction false} AnnounceSound(ns: seq<Notice>, rooms: map<string, seq<SocketId>>, u: UserId)
    ensures forall d :: d in Announce(ns, rooms, u) ==>
              exists n :: n in ns && d.event == UserLeft(u, n.activeUsers) && d.to in RoomSockets(rooms, RoomName(n.proposalId))
    decreases |ns|
  {
    if ns != [] {
      var n := ns[|ns| - 1];
      AnnounceSound(ns[..|ns| - 1], rooms, u);
      assert forall m :: m in ns[..|ns| - 1] ==> m in ns;
      var here := Deliver(RoomSockets(rooms, RoomName(n.proposalId)), UserLeft(u, n.activeUsers));
      assert forall d :: d in here ==> d.event == UserLeft(u, n.activeUsers) && d.to in RoomSockets(rooms, RoomName(n.proposalId));
    }
  }

  /** A disconnect makes exactly one `user-left` broadcast for each room
      that held the user and none for any other room, every list it sends
      leaves the user out, and none of it goes to the closed socket. */
  lemma DisconnectAnnouncesEachRoomOnce(order: seq<ProposalId>, rooms: map<ProposalId, seq<UserId>>,
                                        io: map<string, seq<SocketId>>, sid: SocketId, u: UserId)
    requires NoDup(order) && forall p :: p in rooms <==> p in order
    ensures NoDup(NoticeRooms(LeftNotices(order, rooms, u)))
    ensures forall p :: p in NoticeRooms(LeftNotices(order, rooms, u)) <==> p in rooms && u in rooms[p]
    ensures forall n :: n in LeftNotices(order, rooms, u) ==> u !in n.activeUsers
    ensures forall d :: d in Announce(LeftNotices(order, rooms, u), LeaveAllRooms(io, sid), u) ==> d.to != sid
  {
    LeftNoticesRooms(order, rooms, u);
    FilterNoDup(p => p in rooms && u in rooms[p], order);
    LeftNoticesContent(order, rooms, u);
    AnnounceSound(LeftNotices(order, rooms, u), LeaveAllRooms(io, sid), u);
  }

  /** Walking one more room extends the notices by that room's, if it holds
      the user. */
  lemma LeftNoticesSnoc(order: seq<ProposalId>, p: ProposalId, rooms: map<ProposalId, seq<UserId>>, u: UserId)
    ensures LeftNotices(order + [p], rooms, u)
         == LeftNotices(order, rooms, u) + (if p in rooms && u in rooms[p] then [Notice(p, Remove(rooms[p], u))] else [])
  {
    assert (order + [p])[..|order|] == order;
  }

  /** One more notice extends the deliveries by that notice's broadcast. */
  lemma AnnounceSnoc(ns: seq<Notice>, n: Notice, io: map<string, seq<SocketId>>, u: UserId)
    ensures Announce(ns + [n], io, u)
         == Announce(ns, io, u) + Deliver(RoomSockets(io, RoomName(n.proposalId)), UserLeft(u, n.activeUsers))
  {
    assert (ns + [n])[..|ns|] == ns;
  }

  /** The deliveries of the disconnect walk after its first `k` rooms. */
  ghost function Farewells(order: seq<ProposalId>, k: nat, rooms: map<ProposalId, seq<UserId>>,
                           io: map<string, seq<SocketId>>, u: UserId): seq<Delivery>
    requires k <= |order|
  {
    if k == 0 then []
    else
      var p := order[k - 1];
      Farewells(order, k - 1, rooms, io, u)
        + (if p in rooms && u in rooms[p] then Deliver(RoomSockets(io, RoomName(p)), UserLeft(u, Remove(rooms[p], u))) else [])
  }

  /** The walk's deliveries so far are the broadcasts of its notices so far. */
  lemma {:induction false} FarewellsAnnounce(order: seq<ProposalId>, k: nat, rooms: map<ProposalId, seq<UserId>>,
                                             io: map<string, seq<SocketId>>, u: UserId)
    requires k <= |order|
    ensures Farewells(order, k, rooms, io, u) == Announce(LeftNotices(order[..k], rooms, u), io, u)
  {
    if k > 0 {
      var p := order[k - 1];
      FarewellsAnnounce(order, k - 1, rooms, io, u);
      assert order[..k] == order[..k - 1] + [p];
      LeftNoticesSnoc(order[..k - 1], p, rooms, u);
      var ns := LeftNotices(order[..k - 1], rooms, u);
      if p in rooms && u in rooms[p] {
        AnnounceSnoc(ns, Notice(p, Remove(rooms[p], u)), io, u);
      } else {
        assert ns + [] == ns;
      }
    }
  }

  /** Where the disconnect walk stands after its first `i` rooms: those
      rooms have lost the user, the others are untouched, and their
      broadcasts have been made. */
  ghost predicate SweptUpTo(order: seq<ProposalId>, rooms: map<ProposalId, seq<UserId>>, io: map<string, seq<SocketId>>,
                            u: UserId, i: int, after: map<ProposalId, seq<UserId>>, sent: seq<Delivery>)
  {
    && 0 <= i <= |order|
    && after.Keys == rooms.Keys
    && (forall j :: 0 <= j < |order| ==> order[j] in rooms)
    && (forall j :: 0 <= j < i ==> after[order[j]] == Remove(rooms[order[j]], u))
    && (forall j :: i <= j < |order| ==> after[order[j]] == rooms[order[j]])
    && sent == Farewells(order, i, rooms, io, u)
  }

  /** Visiting the next room keeps the walk's invariant. */
  lemma SweepAdvance(order: seq<ProposalId>, rooms: map<ProposalId, seq<UserId>>, io: map<string, seq<SocketId>>,
                     u: UserId, i: int, after: map<ProposalId, seq<UserId>>, sent: seq<Delivery>)
    requires NoDup(order) && SweptUpTo(order, rooms, io, u, i, after, sent) && i < |order|
    ensures var p := order[i];
            if u in after[p] then
              SweptUpTo(order, rooms, io, u, i + 1, after[p := Remove(after[p], u)],
                        sent + Deliver(RoomSockets(io, RoomName(p)), UserLeft(u, Remove(after[p], u))))
            else
              SweptUpTo(order, rooms, io, u, i + 1, after, sent)
  {
  }

  /** A walk over every room has removed the user everywhere and made
      the broadcasts of all its notices. */
  lemma SweepDone(order: seq<ProposalId>, rooms: map<ProposalId, seq<UserId>>, io: map<string, seq<SocketId>>,
                  u: UserId, after: map<ProposalId, seq<UserId>>, sent: seq<Delivery>)
    requires (forall p :: p in rooms <==> p in order) && SweptUpTo(order, rooms, io, u, |order|, after, sent)
    ensures after.Keys == rooms.Keys
    ensures forall p :: p in after ==> after[p] == Remove(rooms[p], u)
    ensures sent == Announce(LeftNotices(order, rooms, u), io, u)
  {
    FarewellsAnnounce(order, |order|, rooms, io, u);
    assert order[..|order|] == order;
    forall p | p in after
      ensures after[p] == Remove(rooms[p], u)
    {
      var j :| 0 <= j < |order| && order[j] == p;
    }
  }

  /** The `forEach` of the disconnect handler over the proposal rooms, taken
      in creation order `order`: the user is deleted from every room that
      holds it, and each such room is sent `user-left` through `io`. */
  method SweepRooms(order: seq<ProposalId>, rooms: map<ProposalId, seq<UserId>>, io: map<string, seq<SocketId>>, u: UserId)
    returns (after: map<ProposalId, seq<UserId>>, sent: seq<Delivery>)
    requires NoDup(order) && forall p :: p in rooms <==> p in order
    ensures after.Keys == rooms.Keys
    ensures forall p :: p in after ==> after[p] == Remove(rooms[p], u)
    ensures sent == Announce(LeftNotices(order, rooms, u), io, u)
  {
    after, sent := rooms, [];
    var i := 0;
    while i < |order|
      invariant SweptUpTo(order, rooms, io, u, i, after, sent)
    {
      SweepAdvance(order, rooms, io, u, i, after, sent);
      var proposalId := order[i];
      var users := after[proposalId];
      if u in users {
        var rest := Remove(users, u);
        after := after[proposalId := rest];
        sent := sent + Deliver(RoomSockets(io, RoomName(proposalId)), UserLeft(u, rest));
      }
      i := i + 1;
    }
    SweepDone(order, rooms, io, u, after, sent);
  }

  /** The user has at least one live socket. */
  ghost predicate HasSocket(conns: map<SocketId, Identity>, u: UserId)
  {
    exists s :: s in conns && conns[s].id == u
  }

  /** The proposal rooms are keyed by exactly the ids in `order`, each room
      is a set, and every user in a room has a live socket. */
  ghost predicate RoomsValid(rooms: map<ProposalId, seq<UserId>>, order: seq<ProposalId>, conns: map<SocketId, Identity>)
  {
    && NoDup(order)
    && (forall p :: p in rooms <==> p in order)
    && (forall p :: p in rooms ==> NoDup(rooms[p]))
    && (forall p, u :: p in rooms && u in rooms[p] ==> HasSocket(conns, u))
  }

  /** Every socket.io room is a set of live sockets. */
  ghost predicate IoValid(io: map<string, seq<SocketId>>, conns: map<SocketId, Identity>)
  {
    && (forall room :: room in io ==> NoDup(io[room]))
    && (forall room, s :: room in io && s in io[room] ==> s in conns)
  }

  /** Each registered user names a live socket of that same user. */
  ghost predicate RegistryValid(userSockets: map<UserId, SocketId>, conns: map<SocketId, Identity>)
  {
    forall u :: u in userSockets ==> userSockets[u] in conns && conns[userSockets[u]].id == u
  }

  /** Accepting a new socket keeps every room and registry entry live. */
  lemma ConnectKeepsValid(rooms: map<ProposalId, seq<UserId>>, order: seq<ProposalId>, io: map<string, seq<SocketId>>,
                          userSockets: map<UserId, SocketId>, conns: map<SocketId, Identity>, sid: SocketId, user: Identity)
    requires RoomsValid(rooms, order, conns) && IoValid(io, conns) && RegistryValid(userSockets, conns)
    requires sid !in conns
    ensures RoomsValid(rooms, order, conns[sid := user])
    ensures IoValid(io, conns[sid := user])
    ensures RegistryValid(userSockets[user.id := sid], conns[sid := user])
  {
    forall p, u | p in rooms && u in rooms[p]
      ensures HasSocket(conns[sid := user], u)
    {
      assert HasSocket(conns, u);
      var s :| s in conns && conns[s].id == u;
      assert conns[sid := user][s] == conns[s];
    }
  }

  /** Joining adds a live user to the proposal room, creating that room
      last in the walking order. */
  lemma JoinKeepsRoomsValid(rooms: map<ProposalId, seq<UserId>>, order: seq<ProposalId>,
                            conns: map<SocketId, Identity>, sid: SocketId, proposalId: ProposalId)
    requires RoomsValid(rooms, order, conns) && sid in conns
    ensures RoomsValid(JoinRoom(rooms, proposalId, conns[sid].id),
                       if proposalId in rooms then order else order + [proposalId], conns)
  {
    assert HasSocket(conns, conns[sid].id);
    AddNoDup(MembersOf(rooms, proposalId), conns[sid].id);
    if proposalId !in rooms {
      assert proposalId !in order;
    }
  }

  /** Joining adds a live socket to a socket.io room. */
  lemma JoinKeepsIoValid(io: map<string, seq<SocketId>>, conns: map<SocketId, Identity>, sid: SocketId, room: string)
    requires IoValid(io, conns) && sid in conns
    ensures IoValid(io[room := Add(RoomSockets(io, room), sid)], conns)
  {
    AddNoDup(RoomSockets(io, room), sid);
  }

  /** Leaving only removes entries, so everything left is still live. */
  lemma LeaveKeepsValid(rooms: map<ProposalId, seq<UserId>>, order: seq<ProposalId>, io: map<string, seq<SocketId>>,
                        conns: map<SocketId, Identity>, sid: SocketId, proposalId: ProposalId)
    requires RoomsValid(rooms, order, conns) && IoValid(io, conns) && sid in conns
    ensures RoomsValid(LeaveRoom(rooms, proposalId, conns[sid].id),
                       order, conns)
    ensures IoValid(if RoomName(proposalId) in io then io[RoomName(proposalId) := Remove(io[RoomName(proposalId)], sid)] else io,
                    conns)
  {
    if proposalId in rooms {
      RemoveNoDup(rooms[proposalId], conns[sid].id);
    }
    if RoomName(proposalId) in io {
      RemoveNoDup(io[RoomName(proposalId)], sid);
    }
  }

  /** Closing a socket keeps the state live: the socket leaves every
      socket.io room, and its user leaves every proposal room and the
      registry, so no other socket's user loses a live socket. */
  lemma DisconnectKeepsValid(rooms: map<ProposalId, seq<UserId>>, after: map<ProposalId, seq<UserId>>, order: seq<ProposalId>,
                             io: map<string, seq<SocketId>>, userSockets: map<UserId, SocketId>,
                             conns: map<SocketId, Identity>, sid: SocketId)
    requires RoomsValid(rooms, order, conns) && IoValid(io, conns) && RegistryValid(userSockets, conns)
    requires sid in conns
    requires after.Keys == rooms.Keys && forall p :: p in after ==> after[p] == Remove(rooms[p], conns[sid].id)
    ensures RoomsValid(after, order, conns - {sid})
    ensures IoValid(LeaveAllRooms(io, sid), conns - {sid})
    ensures RegistryValid(userSockets - {conns[sid].id}, conns - {sid})
  {
    var gone := conns[sid].id;
    forall p | p in after
      ensures NoDup(after[p])
    {
      RemoveNoDup(rooms[p], gone);
    }
    forall room | room in io
      ensures NoDup(LeaveAllRooms(io, sid)[room])
    {
      RemoveNoDup(io[room], sid);
    }
    forall p, u | p in after && u in after[p]
      ensures HasSocket(conns - {sid}, u)
    {
      assert u in rooms[p] && u != gone;
      assert HasSocket(conns, u);
      var s :| s in conns && conns[s].id == u;
      assert s != sid;
      assert s in conns - {sid} && (conns - {sid})[s] == conns[s];
    }
  }

  /** The process-wide presence registry of the socket server together with
      the socket.io state it drives.
      - `userSockets`: user id to that user's latest socket.
      - `proposalRooms`: proposal id to the users who joined it, in joining
        order (a JavaScript `Set`).
      - `roomOrder`: the keys of `proposalRooms` in creation order, the order
        a `Map` is walked in.
      - `ioRooms`: socket.io's rooms, room name to socket ids.
      - `connections`: `socket.data.user` of every live socket.
      - `outbox`: everything emitted so far. */
  class SocketService {
    var userSockets: map<UserId, SocketId>
    var proposalRooms: map<ProposalId, seq<UserId>>
    var roomOrder: seq<ProposalId>
    var ioRooms: map<string, seq<SocketId>>
    var connections: map<SocketId, Identity>
    var outbox: seq<Delivery>

    /** Rooms and the user registry only name live connections, each room is
        a set, and the proposal rooms are walked in a fixed order. */
    ghost predicate Valid()
      reads this`userSockets, this`proposalRooms, this`roomOrder, this`ioRooms, this`connections
    {
      RoomsValid(proposalRooms, roomOrder, connections) && IoValid(ioRooms, connections)
      && RegistryValid(userSockets, connections)
    }

    constructor ()
      ensures Valid()
      ensures userSockets == map[] && proposalRooms == map[] && roomOrder == []
      ensures ioRooms == map[] && connections == map[] && outbox == []
    {
      userSockets, proposalRooms, roomOrder := map[], map[], [];
      ioRooms, connections, outbox := map[], map[], [];
    }

    /** A socket's handshake followed, when it is accepted, by the
        `connection` handler: the socket's user becomes that user's socket,
        silently replacing any earlier one, whose rooms are left as they
        are. A refused socket changes nothing. */
    method Connect(sid: SocketId, token: Option<string>, lookup: Lookup) returns (r: Result<Identity, string>)
      requires Valid() && sid !in connections
      modifies this
      ensures Valid()
      ensures r == Authenticate(token, lookup)
      ensures r.Err? ==> connections == old(connections) && userSockets == old(userSockets)
      ensures r.Ok? ==> (connections == old(connections)[sid := r.value]
                         && userSockets == old(userSockets)[r.value.id := sid])
      ensures proposalRooms == old(proposalRooms) && roomOrder == old(roomOrder)
      ensures ioRooms == old(ioRooms) && outbox == old(outbox)
    {
      r := Authenticate(token, lookup);
      if r.Ok? {
        ConnectKeepsValid(proposalRooms, roomOrder, ioRooms, userSockets, connections, sid, r.value);
        connections := connections[sid := r.value];
        userSockets := userSockets[r.value.id := sid];
      }
    }

    /** `join-proposal`: the socket joins the proposal's socket.io room, the
        user set is created on first use and the user added to it, and the
        whole room, the joiner included, gets `user-joined` with the list as
        it is after the join. */
    method OnJoinProposal(sid: SocketId, proposalId: ProposalId)
      requires Valid() && sid in connections
      modifies this
      ensures Valid()
      ensures connections == old(connections) && userSockets == old(userSockets)
      ensures ioRooms == old(ioRooms)[RoomName(proposalId) := Add(RoomSockets(old(ioRooms), RoomName(proposalId)), sid)]
      ensures proposalRooms == JoinRoom(old(proposalRooms), proposalId, connections[sid].id)
      ensures roomOrder == if proposalId in old(proposalRooms) then old(roomOrder) else old(roomOrder) + [proposalId]
      ensures outbox == old(outbox) + Deliver(ioRooms[RoomName(proposalId)], UserJoined(connections[sid], proposalRooms[proposalId]))
      ensures sid in ioRooms[RoomName(proposalId)]
    {
      var room := RoomName(proposalId);
      var user := connections[sid];
      var members := Add(MembersOf(proposalRooms, proposalId), user.id);
      JoinKeepsRoomsValid(proposalRooms, roomOrder, connections, sid, proposalId);
      JoinKeepsIoValid(ioRooms, connections, sid, room);
      ioRooms := ioRooms[room := Add(RoomSockets(ioRooms, room), sid)];
      if proposalId !in proposalRooms {
        roomOrder := roomOrder + [proposalId];
      }
      proposalRooms := proposalRooms[proposalId := members];
      outbox := outbox + Deliver(ioRooms[room], UserJoined(user, members));
    }

    /** `leave-proposal`: the socket leaves the socket.io room, the user is
        deleted from the proposal's user set if there is one, and the sockets
        still in the room get `user-left` with the list after the removal,
        or an empty list for a room never joined. */
    method OnLeaveProposal(sid: SocketId, proposalId: ProposalId)
      requires Valid() && sid in connections
      modifies this
      ensures Valid()
      ensures roomOrder == old(roomOrder) && connections == old(connections) && userSockets == old(userSockets)
      ensures ioRooms == if RoomName(proposalId) in old(ioRooms)
                         then old(ioRooms)[RoomName(proposalId) := Remove(old(ioRooms)[RoomName(proposalId)], sid)]
                         else old(ioRooms)
      ensures proposalRooms == LeaveRoom(old(proposalRooms), proposalId, connections[sid].id)
      ensures outbox == old(outbox) + Deliver(RoomSockets(ioRooms, RoomName(proposalId)),
                                              UserLeft(connections[sid].id, MembersOf(proposalRooms, proposalId)))
    {
      var room := RoomName(proposalId);
      var userId := connections[sid].id;
      LeaveKeepsValid(proposalRooms, roomOrder, ioRooms, connections, sid, proposalId);
      if room in ioRooms {
        ioRooms := ioRooms[room := Remove(ioRooms[room], sid)];
      }
      if proposalId in proposalRooms {
        proposalRooms := proposalRooms[proposalId := Remove(proposalRooms[proposalId], userId)];
      }
      outbox := outbox + Deliver(RoomSockets(ioRooms, room), UserLeft(userId, MembersOf(proposalRooms, proposalId)));
    }

    /** `section-update`: relayed to every socket of the payload's room but
        the sender's. Membership is not checked and nothing but the outbox
        changes. */
    method OnSectionUpdate(sid: SocketId, data: SectionUpdate)
      requires Valid() && sid in connections
      modifies this`outbox
      ensures Valid()
      ensures outbox == old(outbox) + Deliver(Remove(RoomSockets(ioRooms, RoomName(data.proposalId)), sid),
                                              SectionUpdatedEvent(connections[sid], data))
    {
      var recipients := Remove(RoomSockets(ioRooms, RoomName(data.proposalId)), sid);
      outbox := outbox + Deliver(recipients, SectionUpdatedEvent(connections[sid], data));
    }

    /** `cursor-move`: relayed like a section update, to the room minus the
        sender. */
    method OnCursorMove(sid: SocketId, data: CursorMove)
      requires Valid() && sid in connections
      modifies this`outbox
      ensures Valid()
      ensures outbox == old(outbox) + Deliver(Remove(RoomSockets(ioRooms, RoomName(data.proposalId)), sid),
                                              CursorMovedEvent(connections[sid], data))
    {
      var recipients := Remove(RoomSockets(ioRooms, RoomName(data.proposalId)), sid);
      outbox := outbox + Deliver(recipients, CursorMovedEvent(connections[sid], data));
    }

    /** `add-comment`: stamped with `now` and sent to the whole room, the
        sender's own socket included when it is there. */
    method OnAddComment(sid: SocketId, data: AddComment, now: Timestamp)
      requires Valid() && sid in connections
      modifies this`outbox
      ensures Valid()
      ensures outbox == old(outbox) + Deliver(RoomSockets(ioRooms, RoomName(data.proposalId)),
                                              CommentAddedEvent(connections[sid], data, now))
    {
      var recipients := RoomSockets(ioRooms, RoomName(data.proposalId));
      outbox := outbox + Deliver(recipients, CommentAddedEvent(connections[sid], data, now));
    }

    /** `disconnect`: socket.io has already taken the socket out of its
        rooms; the handler deletes the user's `userSockets` entry (whichever
        socket it names) and, walking the proposal rooms in creation order,
        deletes the user from each room that holds it and tells that room
        `user-left` with the remaining list. Rooms left empty stay. */
    method OnDisconnect(sid: SocketId)
      requires Valid() && sid in connections
      modifies this
      ensures Valid()
      ensures connections == old(connections) - {sid}
      ensures userSockets == old(userSockets) - {old(connections)[sid].id}
      ensures ioRooms == LeaveAllRooms(old(ioRooms), sid)
      ensures roomOrder == old(roomOrder)
      ensures proposalRooms.Keys == old(proposalRooms).Keys
      ensures forall p :: p in proposalRooms ==> proposalRooms[p] == Remove(old(proposalRooms)[p], old(connections)[sid].id)
      ensures outbox == old(outbox) + Announce(LeftNotices(roomOrder, old(proposalRooms), old(connections)[sid].id),
                                               ioRooms, old(connections)[sid].id)
    {
      var userId := connections[sid].id;
      var after, sent := SweepRooms(roomOrder, proposalRooms, LeaveAllRooms(ioRooms, sid), userId);
      DisconnectKeepsValid(proposalRooms, after, roomOrder, ioRooms, userSockets, connections, sid);
      ioRooms := LeaveAllRooms(ioRooms, sid);
      connections := connections - {sid};
      userSockets := userSockets - {userId};
      proposalRooms := after;
      outbox := outbox + sent;
    }
  }

  /** The design's worked example: Alice and Bob join the same proposal,
      and Alice's disconnect leaves Bob alone in it. */
  method TwoEditorsSession()
  {
    var alice := Identity("a", "Alice", "alice@example.org");
    var bob := Identity("b", "Bob", "bob@example.org");
    var svc := new SocketService();
    var r := svc.Connect("s1", Some("ta"), UserFound(alice));
    r := svc.Connect("s2", Some("tb"), UserFound(bob));
    svc.OnJoinProposal("s1", "p1");
    svc.OnJoinProposal("s2", "p1");
    assert "a" in svc.proposalRooms["p1"] && "b" in svc.proposalRooms["p1"];
    svc.OnDisconnect("s1");
    assert "a" !in svc.proposalRooms["p1"] && "b" in svc.proposalRooms["p1"];
  }

  /** A user who connects twice keeps only the newer socket in
      `userSockets`, and when the older socket closes the entry goes
      although the newer socket is still open. */
  method StaleSocketDisconnect()
  {
    var alice := Identity("a", "Alice", "alice@example.org");
    var svc := new SocketService();
    var r := svc.Connect("s1", Some("t"), UserFound(alice));
    r := svc.Connect("s2", Some("t"), UserFound(alice));
    assert svc.userSockets == map["a" := "s2"];
    svc.OnDisconnect("s1");
    assert "s2" in svc.connections && "a" !in svc.userSockets;
  }
}
