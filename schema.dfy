/**
 * Rows of the datastore tables the modelled code reads and writes, with the
 * columns it uses (types/database.ts and the `select` shapes of the routes).
 * Identifiers are strings; the empty string stands for an absent value
 * wherever the code tests a field for truthiness. Timestamps are integer
 * milliseconds since the epoch.
 */
module Schema {
  import opened Wrappers

  type Id = string

  const MinuteMs: int := 60_000
  const HourMs: int := 3_600_000
  const DayMs: int := 86_400_000

  /** A nullable latitude/longitude pair as stored on profiles and posts. */
  datatype Coords = Coords(latitude: Option<real>, longitude: Option<real>)

  /** Catalog entry (table `signals`). */
  datatype Signal = Signal(id: Id, categoryId: Id, labelText: string, displayOrder: int)

  /** A user's adoption of a signal (table `user_signals`). */
  datatype UserSignal = UserSignal(id: Id, userId: Id, signalId: Id, createdAt: int, expiresAt: Option<int>)

  /** Table `posts`. */
  datatype Post = Post(
    id: Id,
    userId: Id,
    content: string,
    postType: string,
    visibility: string,
    expiresAt: Option<int>,
    city: Option<string>,
    state: Option<string>,
    country: Option<string>,
    location: Coords,
    archived: bool,
    createdAt: int)

  datatype ConnectionStatus = Pending | Accepted | Rejected

  /** Table `connections`: an edge from requester to receiver. */
  datatype Connection = Connection(id: Id, requesterId: Id, receiverId: Id, status: ConnectionStatus, createdAt: int)

  /** Table `messages`. */
  datatype Message = Message(id: Id, connectionId: Id, senderId: Id, content: string, createdAt: int, readAt: Option<int>)

  /** The profile columns embedded in a joined row: `user:user_id(id, email, full_name)`. */
  datatype UserRef = UserRef(id: Id, email: string, fullName: Option<string>)

  /**
   * The query filter `expires_at.is.null,expires_at.gt.<now>` used for user
   * signals and posts: no expiry, or an expiry strictly after `now`.
   */
  predicate NotExpired(expiresAt: Option<int>, now: int)
  {
    expiresAt.None? || expiresAt.value > now
  }

  /** The candidate-post filter: `archived = false` and not expired. */
  predicate PostVisible(p: Post, now: int)
  {
    !p.archived && NotExpired(p.expiresAt, now)
  }

  /** The caller is one of the two parties of the edge. */
  predicate Involves(c: Connection, user: Id)
  {
    c.requesterId == user || c.receiverId == user
  }

  /** The party of an edge that is not `user` (the requester when `user` is not the requester). */
  function OtherParty(c: Connection, user: Id): Id
  {
    if c.requesterId == user then c.receiverId else c.requesterId
  }
}
