/**
 * The signal helpers of lib/signals.ts: grouping the catalog by category, and
 * adding and removing a user's signal in the `user_signals` table, which a
 * store object holds as a sequence of rows.
 */
module SignalsLib {
  import opened Wrappers
  import opened Seqs
  import opened Schema
  import opened Sorting

  function SignalInCategory(categoryId: Id): Signal -> bool
  {
    (s: Signal) => s.categoryId == categoryId
  }

  /** The group of a category: the catalog's signals of that category, in catalog order. */
  function Group(signals: seq<Signal>, categoryId: Id): seq<Signal>
  {
    Filter(signals, SignalInCategory(categoryId))
  }

  /**
   * Every signal lands in the group of its own category and in no other, with
   * as many copies as the catalog has: together the groups are the catalog.
   */
  lemma GroupsPartition(signals: seq<Signal>, s: Signal, categoryId: Id)
    ensures s in signals ==> s in Group(signals, s.categoryId)
    ensures categoryId != s.categoryId ==> s !in Group(signals, categoryId)
    ensures multiset(Group(signals, s.categoryId))[s] == multiset(signals)[s]
  {
    FilterMultiset(signals, SignalInCategory(s.categoryId));
  }

  /** `order('display_order')`, ascending: the descending order of the negated position. */
  function DisplayOrderKey(s: Signal): real { -(s.displayOrder as real) }

  /** A catalog fetched in display order yields groups in display order. */
  lemma GroupKeepsDisplayOrder(signals: seq<Signal>, categoryId: Id)
    requires NonIncreasing(signals, DisplayOrderKey)
    ensures forall i, j :: 0 <= i < j < |Group(signals, categoryId)| ==>
      Group(signals, categoryId)[i].displayOrder <= Group(signals, categoryId)[j].displayOrder
  {
    SubsequenceNonIncreasing(Group(signals, categoryId), signals, DisplayOrderKey);
  }

  /** Meeting one more signal extends its own category's group and no other. */
  lemma GroupStep(seen: seq<Signal>, s: Signal, categoryId: Id)
    ensures Group(seen + [s], categoryId) ==
      if s.categoryId == categoryId then Group(seen, categoryId) + [s] else Group(seen, categoryId)
  {
    FilterAppend(seen, [s], SignalInCategory(categoryId));
  }

  /** A category has a non-empty group exactly when some signal belongs to it. */
  lemma GroupNonEmpty(signals: seq<Signal>, categoryId: Id)
    ensures Group(signals, categoryId) != [] <==> exists s :: s in signals && s.categoryId == categoryId
  {
    if exists s :: s in signals && s.categoryId == categoryId {
      var s :| s in signals && s.categoryId == categoryId;
      assert s in Group(signals, categoryId);
    }
    if Group(signals, categoryId) != [] {
      assert Group(signals, categoryId)[0] in Group(signals, categoryId);
    }
  }

  /**
   * getSignalsByCategory's `reduce`: a map from category id to the list of its
   * signals, each list created empty the first time its category is met and
   * pushed to in catalog order.
   */
  method GetSignalsByCategory(signals: seq<Signal>) returns (grouped: map<Id, seq<Signal>>)
    ensures forall c :: c in grouped <==> exists s :: s in signals && s.categoryId == c
    ensures forall c :: c in grouped ==> grouped[c] == Group(signals, c)
  {
    grouped := map[];
    var i := 0;
    while i < |signals|
      invariant 0 <= i <= |signals|
      invariant forall c :: c in grouped <==> Group(signals[..i], c) != []
      invariant forall c :: c in grouped ==> grouped[c] == Group(signals[..i], c)
    {
      var s := signals[i];
      var categoryId := s.categoryId;
      var list := if categoryId in grouped then grouped[categoryId] else [];
      assert list == Group(signals[..i], categoryId);
      ghost var before := grouped;
      grouped := grouped[categoryId := list + [s]];
      assert signals[..i + 1] == signals[..i] + [s];
      forall c
        ensures c in grouped <==> Group(signals[..i + 1], c) != []
        ensures c in grouped ==> grouped[c] == Group(signals[..i + 1], c)
      {
        GroupStep(signals[..i], s, c);
        if c != categoryId {
          assert (c in grouped) == (c in before);
        }
      }
      i := i + 1;
    }
    assert signals[..i] == signals;
    forall c ensures Group(signals, c) != [] <==> exists s :: s in signals && s.categoryId == c {
      GroupNonEmpty(signals, c);
    }
  }

  function NotPair(userId: Id, signalId: Id): UserSignal -> bool
  {
    (row: UserSignal) => !(row.userId == userId && row.signalId == signalId)
  }

  /**
   * The table after `delete().eq('user_id', u).eq('signal_id', s)`: every row
   * of the pair is gone and every other row keeps its copies and its order.
   */
  function WithoutPair(rows: seq<UserSignal>, userId: Id, signalId: Id): (r: seq<UserSignal>)
    ensures IsSubsequence(r, rows)
    ensures forall row :: row in r ==> !(row.userId == userId && row.signalId == signalId)
    ensures forall row: UserSignal :: row.userId == userId && row.signalId == signalId ==> multiset(r)[row] == 0
    ensures forall row: UserSignal :: !(row.userId == userId && row.signalId == signalId) ==> multiset(r)[row] == multiset(rows)[row]
  {
    FilterMultiset(rows, NotPair(userId, signalId));
    Filter(rows, NotPair(userId, signalId))
  }

  /** The row `insert({ user_id, signal_id })` creates: no expiry, created now. */
  function NewUserSignal(newId: Id, userId: Id, signalId: Id, now: int): UserSignal
  {
    UserSignal(newId, userId, signalId, now, None)
  }

  /** Removing is idempotent: a second removal of the same pair changes nothing. */
  lemma WithoutPairIdempotent(rows: seq<UserSignal>, userId: Id, signalId: Id)
    ensures WithoutPair(WithoutPair(rows, userId, signalId), userId, signalId) == WithoutPair(rows, userId, signalId)
  {
    FilterIdempotent(rows, NotPair(userId, signalId));
  }

  /** Adding a signal and then removing it leaves no row of the pair, whatever was there before. */
  lemma RemoveAfterAdd(rows: seq<UserSignal>, newId: Id, userId: Id, signalId: Id, now: int)
    ensures WithoutPair(rows + [NewUserSignal(newId, userId, signalId, now)], userId, signalId)
         == WithoutPair(rows, userId, signalId)
  {
    FilterAppend(rows, [NewUserSignal(newId, userId, signalId, now)], NotPair(userId, signalId));
  }

  class UserSignalStore {
    var rows: seq<UserSignal>

    constructor (initial: seq<UserSignal>)
      ensures rows == initial
    {
      rows := initial;
    }

    /**
     * addUserSignal: inserts one row for the user and the signal and returns
     * it; when the datastore reports an error, nothing is inserted and the
     * error is returned.
     */
    method AddUserSignal(userId: Id, signalId: Id, newId: Id, now: int, storeError: Option<string>)
      returns (r: Result<UserSignal, string>)
      modifies this
      ensures storeError.Some? ==> r == Err(storeError.value) && rows == old(rows)
      ensures storeError.None? ==>
        r == Ok(NewUserSignal(newId, userId, signalId, now)) &&
        rows == old(rows) + [NewUserSignal(newId, userId, signalId, now)]
    {
      if storeError.Some? {
        return Err(storeError.value);
      }
      var row := NewUserSignal(newId, userId, signalId, now);
      rows := rows + [row];
      r := Ok(row);
    }

    /** removeUserSignal: deletes every row of the pair; on an error nothing is deleted. */
    method RemoveUserSignal(userId: Id, signalId: Id, storeError: Option<string>) returns (r: Option<string>)
      modifies this
      ensures r == storeError
      ensures storeError.Some? ==> rows == old(rows)
      ensures storeError.None? ==> rows == WithoutPair(old(rows), userId, signalId)
    {
      if storeError.Some? {
        return storeError;
      }
      rows := WithoutPair(rows, userId, signalId);
      r := None;
    }
  }
}
