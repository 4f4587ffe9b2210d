/** The records exchanged between a collaborating client and the socket
    server: who a connection belongs to, the intents a client emits and the
    events the server fans out. */
module Protocol {
  import opened Common

  type UserId = string
  type SocketId = string
  type ProposalId = string

  /** Milliseconds since the epoch, as `new Date()` would give. */
  type Timestamp = int

  /** `socket.data.user`: the identity a connection was authenticated as. */
  datatype Identity = Identity(id: UserId, name: string, email: string)

  datatype Position = Position(line: int, ch: int)

  datatype Range = Range(from: int, to: int)

  /** Payload of a `section-update` intent. The optional `userId` and
      `user` are keys a client may put in the payload; the server spreads
      the payload last, so they win over the sender's own. */
  datatype SectionUpdate = SectionUpdate(
    proposalId: ProposalId,
    sectionName: string,
    content: string,
    cursorPosition: Option<Position>,
    userId: Option<UserId>,
    user: Option<Identity>)

  /** Payload of a `cursor-move` intent. */
  datatype CursorMove = CursorMove(
    proposalId: ProposalId,
    sectionName: string,
    position: Position,
    userId: Option<UserId>,
    user: Option<Identity>)

  /** Payload of an `add-comment` intent; a `timestamp` key in it overrides
      the server's clock as well. */
  datatype AddComment = AddComment(
    proposalId: ProposalId,
    sectionName: string,
    comment: string,
    range: Option<Range>,
    userId: Option<UserId>,
    user: Option<Identity>,
    timestamp: Option<Timestamp>)

  /** The events the server emits. `activeUsers` lists user ids in the
      order the room's user set was filled. */
  datatype Event =
    | UserJoined(user: Identity, activeUsers: seq<UserId>)
    | UserLeft(userId: UserId, activeUsers: seq<UserId>)
    | SectionUpdated(userId: UserId, user: Identity, proposalId: ProposalId,
                     sectionName: string, content: string, cursorPosition: Option<Position>)
    | CursorMoved(userId: UserId, user: Identity, proposalId: ProposalId,
                  sectionName: string, position: Position)
    | CommentAdded(userId: UserId, user: Identity, timestamp: Timestamp, proposalId: ProposalId,
                   sectionName: string, comment: string, range: Option<Range>)

  /** One event handed to one connection. */
  datatype Delivery = Delivery(to: SocketId, event: Event)

  /** `value` if the payload carries the key, the server's own otherwise:
      the effect of `{ key: own, ...payload }`. */
  function Override<T>(own: T, fromPayload: Option<T>): (r: T)
    ensures fromPayload.None? ==> r == own
    ensures fromPayload.Some? ==> r == fromPayload.value
  {
    match fromPayload
    case None => own
    case Some(v) => v
  }
}
