/**
 * Messaging, app/api/messages/route.ts and app/api/messages/read/route.ts:
 * reading and sending the messages of an accepted connection the caller is a
 * party to, and marking the other party's messages as read. The `messages`
 * table is a sequence held by a store object; the `connections` table is
 * passed in.
 */
module MessagesRoute {
  import opened Wrappers
  import opened Seqs
  import opened Sorting
  import opened Schema

  /** 400 for a missing parameter, 404 for a connection the caller may not use, 500 for a datastore error. */
  datatype MessageError = BadRequest | NotFound | StoreFailure(message: string)

  function AuthorizedFor(connectionId: Id, caller: Id): Connection -> bool
  {
    (c: Connection) => c.id == connectionId && Involves(c, caller) && c.status == Accepted
  }

  /**
   * The authorisation lookup: the edge with that id, accepted, with the caller
   * as a party, read with `.single()` (a row only when exactly one matches).
   */
  function AuthorizedConnection(edges: seq<Connection>, connectionId: Id, caller: Id): (r: Option<Connection>)
    ensures r.Some? ==>
      r.value in edges && r.value.id == connectionId && Involves(r.value, caller) && r.value.status == Accepted
    ensures r.Some? <==> |Filter(edges, AuthorizedFor(connectionId, caller))| == 1
  {
    Single(Filter(edges, AuthorizedFor(connectionId, caller)))
  }

  /** Connection ids are a key of the table. */
  predicate UniqueIds(edges: seq<Connection>)
  {
    forall i, j :: 0 <= i < j < |edges| ==> edges[i].id != edges[j].id
  }

  lemma {:induction false} AtMostOneWithId(edges: seq<Connection>, connectionId: Id, caller: Id)
    requires UniqueIds(edges)
    ensures |Filter(edges, AuthorizedFor(connectionId, caller))| <= 1
    decreases |edges|
  {
    if |edges| > 0 {
      var p := AuthorizedFor(connectionId, caller);
      AtMostOneWithId(edges[1..], connectionId, caller);
      if p(edges[0]) {
        forall x | x in edges[1..] ensures !p(x) {
          var j :| 0 <= j < |edges[1..]| && edges[1..][j] == x;
          assert edges[j + 1] == x;
        }
        FilterKeepsNone(edges[1..], p);
      }
    }
  }

  /**
   * With unique connection ids the lookup is exact: it finds the connection
   * whenever there is an accepted edge with that id the caller is a party to.
   */
  lemma AuthorizationExact(edges: seq<Connection>, connectionId: Id, caller: Id)
    requires UniqueIds(edges)
    ensures AuthorizedConnection(edges, connectionId, caller).Some? <==>
      exists c :: c in edges && c.id == connectionId && Involves(c, caller) && c.status == Accepted
  {
    AtMostOneWithId(edges, connectionId, caller);
    var f := Filter(edges, AuthorizedFor(connectionId, caller));
    if exists c :: c in edges && c.id == connectionId && Involves(c, caller) && c.status == Accepted {
      var c :| c in edges && c.id == connectionId && Involves(c, caller) && c.status == Accepted;
      assert c in f;
    }
  }

  function InConnection(connectionId: Id): Message -> bool
  {
    (m: Message) => m.connectionId == connectionId
  }

  /** Oldest first: `order('created_at', { ascending: true })` is the descending sort of the negated time. */
  function Earliest(m: Message): real { -(m.createdAt as real) }

  /** GET /api/messages?connection_id=… by `caller`. */
  function GetMessages(edges: seq<Connection>, messages: seq<Message>, connectionId: Id, caller: Id)
    : (r: Result<seq<Message>, MessageError>)
    ensures connectionId == "" ==> r == Err(BadRequest)
    ensures connectionId != "" && AuthorizedConnection(edges, connectionId, caller).None? ==> r == Err(NotFound)
    ensures r.Ok? ==> AuthorizedConnection(edges, connectionId, caller).Some?
    ensures r.Ok? ==> forall m :: m in r.value <==> m in messages && m.connectionId == connectionId
    ensures r.Ok? ==> forall i, j :: 0 <= i < j < |r.value| ==> r.value[i].createdAt <= r.value[j].createdAt
    ensures r.Ok? ==> multiset(r.value) == multiset(Filter(messages, InConnection(connectionId)))
  {
    if connectionId == "" then Err(BadRequest)
    else if AuthorizedConnection(edges, connectionId, caller).None? then Err(NotFound)
    else
      var mine := Filter(messages, InConnection(connectionId));
      var sorted := SortDesc(mine, Earliest);
      SortDescMembers(mine, Earliest);
      assert forall i, j :: 0 <= i < j < |sorted| ==> Earliest(sorted[i]) >= Earliest(sorted[j]);
      Ok(sorted)
  }

  /** The row the POST inserts: unread, sent now by the caller. */
  function NewMessage(newId: Id, connectionId: Id, caller: Id, content: string, now: int): Message
  {
    Message(newId, connectionId, caller, content, now, None)
  }

  /**
   * The update of the read route applied to one row: a message of the
   * connection, sent by someone other than the caller and still unread, gets
   * `read_at = now`; every other row is left as it is.
   */
  function MarkOne(caller: Id, connectionId: Id, now: int): Message -> Message
  {
    (m: Message) =>
      if m.connectionId == connectionId && m.senderId != caller && m.readAt.None? then m.(readAt := Some(now)) else m
  }

  /**
   * Marking is idempotent, even at a later time: a second pass finds no row
   * still unread, so the first time stamp stays.
   */
  lemma MarkReadIdempotent(messages: seq<Message>, caller: Id, connectionId: Id, now: int, later: int)
    ensures Map(Map(messages, MarkOne(caller, connectionId, now)), MarkOne(caller, connectionId, later))
         == Map(messages, MarkOne(caller, connectionId, now))
  {
  }

  /**
   * What the update touches: only unread messages of the connection that the
   * caller did not send, and it only sets their `read_at`.
   */
  lemma MarkReadTouchesOnlyUnread(messages: seq<Message>, caller: Id, connectionId: Id, now: int, i: int)
    requires 0 <= i < |messages|
    ensures Map(messages, MarkOne(caller, connectionId, now))[i] != messages[i] <==>
      messages[i].connectionId == connectionId && messages[i].senderId != caller && messages[i].readAt.None?
    ensures Map(messages, MarkOne(caller, connectionId, now))[i] == messages[i] ||
      Map(messages, MarkOne(caller, connectionId, now))[i] == messages[i].(readAt := Some(now))
  {
  }

  class MessageStore {
    var messages: seq<Message>

    constructor (initial: seq<Message>)
      ensures messages == initial
    {
      messages := initial;
    }

    /**
     * POST /api/messages by `caller`: both fields are required, the connection
     * must be accepted and include the caller, and the new message is
     * appended.
     */
    method Send(edges: seq<Connection>, caller: Id, connectionId: Id, content: string, newId: Id, now: int,
                storeError: Option<string>) returns (r: Result<Message, MessageError>)
      modifies this
      ensures connectionId == "" || content == "" ==> r == Err(BadRequest) && messages == old(messages)
      ensures connectionId != "" && content != "" && AuthorizedConnection(edges, connectionId, caller).None? ==>
        r == Err(NotFound) && messages == old(messages)
      ensures r.Ok? ==> AuthorizedConnection(edges, connectionId, caller).Some? && storeError.None?
      ensures connectionId != "" && content != "" && AuthorizedConnection(edges, connectionId, caller).Some? ==>
        if storeError.Some? then r == Err(StoreFailure(storeError.value)) && messages == old(messages)
        else r == Ok(NewMessage(newId, connectionId, caller, content, now)) &&
             messages == old(messages) + [NewMessage(newId, connectionId, caller, content, now)]
    {
      if connectionId == "" || content == "" {
        return Err(BadRequest);
      }
      var connection := AuthorizedConnection(edges, connectionId, caller);
      if connection.None? {
        return Err(NotFound);
      }
      if storeError.Some? {
        return Err(StoreFailure(storeError.value));
      }
      var message := NewMessage(newId, connectionId, caller, content, now);
      messages := messages + [message];
      r := Ok(message);
    }

    /**
     * POST /api/messages/read by `caller`: the update runs row by row over the
     * table. The route does not check that the caller is a party to the
     * connection.
     */
    method MarkRead(caller: Id, connectionId: Id, now: int, storeError: Option<string>) returns (r: Option<MessageError>)
      modifies this
      ensures connectionId == "" ==> r == Some(BadRequest) && messages == old(messages)
      ensures connectionId != "" && storeError.Some? ==>
        r == Some(StoreFailure(storeError.value)) && messages == old(messages)
      ensures connectionId != "" && storeError.None? ==>
        r == None && messages == Map(old(messages), MarkOne(caller, connectionId, now))
    {
      if connectionId == "" {
        return Some(BadRequest);
      }
      if storeError.Some? {
        return Some(StoreFailure(storeError.value));
      }
      var mark := MarkOne(caller, connectionId, now);
      var i := 0;
      while i < |messages|
        invariant 0 <= i <= |messages| && |messages| == |old(messages)|
        invariant forall k :: 0 <= k < i ==> messages[k] == mark(old(messages)[k])
        invariant forall k :: i <= k < |messages| ==> messages[k] == old(messages)[k]
      {
        var m := messages[i];
        if m.connectionId == connectionId && m.senderId != caller && m.readAt.None? {
          messages := messages[i := m.(readAt := Some(now))];
        }
        i := i + 1;
      }
      r := None;
    }
  }

  /** A sent message is listed, for the sender, among the messages of its connection. */
  lemma SentMessageListed(edges: seq<Connection>, messages: seq<Message>, connectionId: Id, caller: Id,
                          content: string, newId: Id, now: int)
    requires connectionId != "" && AuthorizedConnection(edges, connectionId, caller).Some?
    ensures GetMessages(edges, messages + [NewMessage(newId, connectionId, caller, content, now)], connectionId, caller).Ok?
    ensures NewMessage(newId, connectionId, caller, content, now)
         in GetMessages(edges, messages + [NewMessage(newId, connectionId, caller, content, now)], connectionId, caller).value
  {
    var m := NewMessage(newId, connectionId, caller, content, now);
    assert m in messages + [m];
  }
}
