/**
 * Connection requests, app/api/connections/route.ts: POST creates a pending
 * edge from the caller to a receiver unless an edge between the two already
 * exists in either direction; GET lists the caller's edges, newest first.
 * The `connections` table is a sequence held by a store object.
 */
module ConnectionsRoute {
  import opened Wrappers
  import opened Seqs
  import opened Sorting
  import opened Schema

  /** The duplicate check's filter: an edge from `a` to `b` or from `b` to `a`. */
  function SamePair(a: Id, b: Id): Connection -> bool
  {
    (c: Connection) => (c.requesterId == a && c.receiverId == b) || (c.requesterId == b && c.receiverId == a)
  }

  /** The edges between two users, in either direction and of any status. */
  function Between(edges: seq<Connection>, a: Id, b: Id): seq<Connection>
  {
    Filter(edges, SamePair(a, b))
  }

  /** At most one edge per unordered pair of users. */
  ghost predicate UniquePairs(edges: seq<Connection>)
  {
    forall a, b :: |Between(edges, a, b)| <= 1
  }

  /** The edge a request inserts. */
  function NewRequest(newId: Id, caller: Id, receiverId: Id, now: int): Connection
  {
    Connection(newId, caller, receiverId, Pending, now)
  }

  datatype RequestError = MissingReceiver | AlreadyExists | StoreFailure(message: string)

  /** The pair relation does not depend on the order of the two users. */
  lemma BetweenSymmetric(edges: seq<Connection>, a: Id, b: Id)
    ensures Between(edges, a, b) == Between(edges, b, a)
  {
    FilterExtensional(edges, SamePair(a, b), SamePair(b, a));
  }

  /**
   * Inserting a request between two users that have no edge yet keeps at most
   * one edge per pair: the only pair the new edge joins had none.
   */
  lemma InsertKeepsUniquePairs(edges: seq<Connection>, newId: Id, caller: Id, receiverId: Id, now: int)
    requires UniquePairs(edges)
    requires |Between(edges, caller, receiverId)| != 1
    ensures UniquePairs(edges + [NewRequest(newId, caller, receiverId, now)])
  {
    var n := NewRequest(newId, caller, receiverId, now);
    forall a, b ensures |Between(edges + [n], a, b)| <= 1 {
      FilterAppend(edges, [n], SamePair(a, b));
      assert |Between(edges, a, b)| <= 1;
      if SamePair(a, b)(n) {
        assert |Between(edges, caller, receiverId)| <= 1;
        if a == caller && b == receiverId {
        } else {
          assert a == receiverId && b == caller;
          BetweenSymmetric(edges, caller, receiverId);
        }
        assert Between(edges, a, b) == [];
      } else {
        assert Filter([n], SamePair(a, b)) == [];
      }
    }
  }

  function InvolvesUser(user: Id): Connection -> bool
  {
    (c: Connection) => Involves(c, user)
  }

  function ConnectionCreatedAt(c: Connection): real { c.createdAt as real }

  /** GET: the edges the caller is a party to, of any status, newest first. */
  function MyConnections(edges: seq<Connection>, caller: Id): (r: seq<Connection>)
    ensures forall c :: c in r <==> c in edges && Involves(c, caller)
    ensures multiset(r) == multiset(Filter(edges, InvolvesUser(caller)))
    ensures NonIncreasing(r, ConnectionCreatedAt)
  {
    var mine := Filter(edges, InvolvesUser(caller));
    var r := SortDesc(mine, ConnectionCreatedAt);
    SortDescMembers(mine, ConnectionCreatedAt);
    r
  }

  /** A new request shows up in the lists of both the requester and the receiver. */
  lemma RequestListedForBoth(edges: seq<Connection>, newId: Id, caller: Id, receiverId: Id, now: int)
    ensures NewRequest(newId, caller, receiverId, now) in MyConnections(edges + [NewRequest(newId, caller, receiverId, now)], caller)
    ensures NewRequest(newId, caller, receiverId, now) in MyConnections(edges + [NewRequest(newId, caller, receiverId, now)], receiverId)
  {
    var n := NewRequest(newId, caller, receiverId, now);
    assert n in edges + [n];
  }

  class ConnectionStore {
    var edges: seq<Connection>

    constructor (initial: seq<Connection>)
      ensures edges == initial
    {
      edges := initial;
    }

    /**
     * POST /api/connections by `caller`. The duplicate check reads the
     * either-direction lookup with `.single()`, which yields a row only when
     * exactly one edge matches. There is no check that the receiver differs
     * from the caller.
     */
    method Request(caller: Id, receiverId: Id, newId: Id, now: int, storeError: Option<string>)
      returns (r: Result<Connection, RequestError>)
      modifies this
      ensures receiverId == "" ==> r == Err(MissingReceiver) && edges == old(edges)
      ensures receiverId != "" && |Between(old(edges), caller, receiverId)| == 1 ==>
        r == Err(AlreadyExists) && edges == old(edges)
      ensures receiverId != "" && |Between(old(edges), caller, receiverId)| != 1 && storeError.Some? ==>
        r == Err(StoreFailure(storeError.value)) && edges == old(edges)
      ensures receiverId != "" && |Between(old(edges), caller, receiverId)| != 1 && storeError.None? ==>
        r == Ok(NewRequest(newId, caller, receiverId, now)) &&
        edges == old(edges) + [NewRequest(newId, caller, receiverId, now)]
    {
      if receiverId == "" {
        return Err(MissingReceiver);
      }
      var existing := Single(Between(edges, caller, receiverId));
      if existing.Some? {
        return Err(AlreadyExists);
      }
      if storeError.Some? {
        return Err(StoreFailure(storeError.value));
      }
      var connection := NewRequest(newId, caller, receiverId, now);
      edges := edges + [connection];
      r := Ok(connection);
    }
  }

  /**
   * On a table with at most one edge per pair, a request is refused as a
   * duplicate exactly when some edge joins the two users, whatever its status
   * and direction.
   */
  lemma DuplicateCheckExact(edges: seq<Connection>, caller: Id, receiverId: Id)
    requires UniquePairs(edges)
    ensures |Between(edges, caller, receiverId)| == 1 <==>
      exists c :: c in edges &&
        ((c.requesterId == caller && c.receiverId == receiverId) ||
         (c.requesterId == receiverId && c.receiverId == caller))
  {
    var between := Between(edges, caller, receiverId);
    assert |between| <= 1;
    if exists c :: c in edges &&
        ((c.requesterId == caller && c.receiverId == receiverId) ||
         (c.requesterId == receiverId && c.receiverId == caller)) {
      var c :| c in edges &&
        ((c.requesterId == caller && c.receiverId == receiverId) ||
         (c.requesterId == receiverId && c.receiverId == caller));
      assert c in between;
    }
    if |between| == 1 {
      assert between[0] in between;
    }
  }
}
