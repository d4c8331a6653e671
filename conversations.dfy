/**
 * The conversation list, app/api/conversations/route.ts: one summary per
 * accepted connection of the caller (the other party, the latest message,
 * the number of unread messages from the other party, the time of the last
 * activity), sorted by last activity, most recent first.
 */
module ConversationsRoute {
  import opened Wrappers
  import opened Seqs
  import opened Sorting
  import opened Schema
  import opened MessagesRoute

  /** One entry of the response. */
  datatype Conversation = Conversation(
    connectionId: Id,
    otherUser: UserRef,
    lastMessage: Option<Message>,
    unreadCount: nat,
    createdAt: int,
    lastActivity: int)

  function UnreadFrom(connectionId: Id, senderId: Id): Message -> bool
  {
    (m: Message) => m.connectionId == connectionId && m.senderId == senderId && m.readAt.None?
  }

  /**
   * The unread count: messages of the connection sent by the party that is
   * not the caller and not read yet.
   */
  function UnreadCount(messages: seq<Message>, c: Connection, caller: Id): nat
  {
    |Filter(messages, UnreadFrom(c.id, OtherParty(c, caller)))|
  }

  function MessageCreatedAt(m: Message): real { m.createdAt as real }

  /** The latest message of the connection (`order desc, limit 1, single`), or none when it has none. */
  function LastMessage(messages: seq<Message>, connectionId: Id): (r: Option<Message>)
    ensures r.None? <==> forall m :: m in messages ==> m.connectionId != connectionId
    ensures r.Some? ==> r.value in messages && r.value.connectionId == connectionId
    ensures r.Some? ==> forall m :: m in messages && m.connectionId == connectionId ==> m.createdAt <= r.value.createdAt
  {
    var mine := Filter(messages, InConnection(connectionId));
    var sorted := SortDesc(mine, MessageCreatedAt);
    SortDescMembers(mine, MessageCreatedAt);
    if |sorted| == 0 then None
    else
      HeadIsMax(sorted, MessageCreatedAt);
      assert sorted[0] in sorted;
      assert sorted[0] in mine;
      assert forall m :: m in messages && m.connectionId == connectionId ==> m.createdAt <= sorted[0].createdAt by {
        forall m | m in messages && m.connectionId == connectionId ensures m.createdAt <= sorted[0].createdAt {
          assert m in mine;
          assert m in sorted;
          assert MessageCreatedAt(m) <= MessageCreatedAt(sorted[0]);
        }
      }
      Some(sorted[0])
  }

  /** The summary of one connection; `people` gives the joined profile of a user id. */
  function Summary(messages: seq<Message>, people: Id -> UserRef, caller: Id, c: Connection): Conversation
  {
    var last := LastMessage(messages, c.id);
    Conversation(c.id, people(OtherParty(c, caller)), last, UnreadCount(messages, c, caller), c.createdAt,
                 if last.Some? then last.value.createdAt else c.createdAt)
  }

  function SummaryFor(messages: seq<Message>, people: Id -> UserRef, caller: Id): Connection -> Conversation
  {
    (c: Connection) => Summary(messages, people, caller, c)
  }

  function AcceptedWith(caller: Id): Connection -> bool
  {
    (c: Connection) => c.status == Accepted && Involves(c, caller)
  }

  function LastActivity(conv: Conversation): real { conv.lastActivity as real }

  /** One summary per accepted connection of the caller, and nothing else. */
  lemma SummariesOfAccepted(edges: seq<Connection>, messages: seq<Message>, people: Id -> UserRef, caller: Id)
    ensures forall conv :: conv in Map(Filter(edges, AcceptedWith(caller)), SummaryFor(messages, people, caller)) ==>
      exists c :: (c in edges && c.status == Accepted && Involves(c, caller) &&
        conv == Summary(messages, people, caller, c))
    ensures forall c :: c in edges && c.status == Accepted && Involves(c, caller) ==>
      Summary(messages, people, caller, c) in Map(Filter(edges, AcceptedWith(caller)), SummaryFor(messages, people, caller))
  {
    var mine := Filter(edges, AcceptedWith(caller));
    var summaries := Map(mine, SummaryFor(messages, people, caller));
    forall conv | conv in summaries
      ensures exists c :: (c in edges && c.status == Accepted && Involves(c, caller) &&
        conv == Summary(messages, people, caller, c))
    {
      var i :| 0 <= i < |summaries| && summaries[i] == conv;
      assert mine[i] in mine;
    }
    forall c | c in edges && c.status == Accepted && Involves(c, caller)
      ensures Summary(messages, people, caller, c) in summaries
    {
      assert c in mine;
      var i :| 0 <= i < |mine| && mine[i] == c;
      assert summaries[i] == Summary(messages, people, caller, c);
    }
  }

  /** GET /api/conversations by `caller`. */
  function Conversations(edges: seq<Connection>, messages: seq<Message>, people: Id -> UserRef, caller: Id)
    : (r: seq<Conversation>)
    ensures |r| == |Filter(edges, AcceptedWith(caller))|
    ensures NonIncreasing(r, LastActivity)
    ensures forall conv :: conv in r ==> exists c :: (c in edges && c.status == Accepted && Involves(c, caller) &&
      conv == Summary(messages, people, caller, c))
    ensures forall c :: c in edges && c.status == Accepted && Involves(c, caller) ==>
      Summary(messages, people, caller, c) in r
  {
    var summaries := Map(Filter(edges, AcceptedWith(caller)), SummaryFor(messages, people, caller));
    SortDescMembers(summaries, LastActivity);
    SummariesOfAccepted(edges, messages, people, caller);
    SortDesc(summaries, LastActivity)
  }

  /**
   * The summary's parts: the other user is a party to the connection and is
   * not the caller unless the edge joins a user to itself; the last activity
   * is the time of the newest message of the connection, or the connection's
   * own creation time when it has none.
   */
  lemma SummaryFields(messages: seq<Message>, people: Id -> UserRef, caller: Id, c: Connection)
    requires Involves(c, caller)
    ensures Involves(c, OtherParty(c, caller))
    ensures c.requesterId != c.receiverId ==> OtherParty(c, caller) != caller
    ensures (forall m :: m in messages ==> m.connectionId != c.id) ==>
      Summary(messages, people, caller, c).lastActivity == c.createdAt &&
      Summary(messages, people, caller, c).lastMessage.None?
    ensures forall m :: m in messages && m.connectionId == c.id ==>
      m.createdAt <= Summary(messages, people, caller, c).lastActivity
    ensures (exists m :: m in messages && m.connectionId == c.id) ==>
      exists m :: m in messages && m.connectionId == c.id && m.createdAt == Summary(messages, people, caller, c).lastActivity
  {
  }

  /**
   * After the caller marks a connection read, the conversation list shows no
   * unread message for it — provided the two parties differ. For an edge from
   * a user to that same user, the "other party" is the caller, whose own
   * messages the read route never marks.
   */
  lemma MarkReadClearsUnread(messages: seq<Message>, c: Connection, caller: Id, now: int)
    requires OtherParty(c, caller) != caller
    ensures UnreadCount(Map(messages, MarkOne(caller, c.id, now)), c, caller) == 0
  {
    var marked := Map(messages, MarkOne(caller, c.id, now));
    var p := UnreadFrom(c.id, OtherParty(c, caller));
    forall m | m in marked ensures !p(m) {
      var i :| 0 <= i < |marked| && marked[i] == m;
      assert m == MarkOne(caller, c.id, now)(messages[i]);
    }
    FilterKeepsNone(marked, p);
  }

  /**
   * For an edge from a user to that same user, marking read leaves every
   * unread message of the connection unread: the count never drops.
   */
  lemma SelfConnectionUnreadStays(messages: seq<Message>, c: Connection, now: int)
    requires c.requesterId == c.receiverId
    ensures UnreadCount(Map(messages, MarkOne(c.requesterId, c.id, now)), c, c.requesterId)
         == UnreadCount(messages, c, c.requesterId)
  {
    var caller := c.requesterId;
    var p := UnreadFrom(c.id, OtherParty(c, caller));
    var marked := Map(messages, MarkOne(caller, c.id, now));
    UnreadUnchanged(messages, marked, p, MarkOne(caller, c.id, now));
  }

  lemma {:induction false} UnreadUnchanged(messages: seq<Message>, marked: seq<Message>, p: Message -> bool,
                                          f: Message -> Message)
    requires |marked| == |messages|
    requires forall i :: 0 <= i < |messages| ==> marked[i] == f(messages[i])
    requires forall m :: p(m) ==> f(m) == m
    requires forall m :: !p(m) ==> !p(f(m))
    ensures |Filter(marked, p)| == |Filter(messages, p)|
    decreases |messages|
  {
    if |messages| > 0 {
      UnreadUnchanged(messages[1..], marked[1..], p, f);
    }
  }

  /** A new message from one party counts as unread for the other party. */
  lemma NewMessageUnreadForOther(messages: seq<Message>, c: Connection, sender: Id, newId: Id, content: string,
                                 now: int)
    requires Involves(c, sender)
    ensures UnreadCount(messages + [NewMessage(newId, c.id, sender, content, now)], c, OtherParty(c, sender))
         == UnreadCount(messages, c, OtherParty(c, sender)) + 1
  {
    var m := NewMessage(newId, c.id, sender, content, now);
    var reader := OtherParty(c, sender);
    assert OtherParty(c, reader) == sender;
    FilterAppend(messages, [m], UnreadFrom(c.id, OtherParty(c, reader)));
  }
}
