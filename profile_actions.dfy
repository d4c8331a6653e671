/**
 * The server action `toggleSignal` (app/profile/actions.ts): deletes or
 * inserts the user's row for a signal, according to whether the client says
 * the signal is currently selected. The server applies no cap; the caps of
 * the signal rules hold only when the caller consulted `canAddSignal` first.
 */
module ProfileActions {
  import opened Wrappers
  import opened Seqs
  import opened Schema
  import opened SignalRules
  import opened SignalsLib

  /** `{ success: true }` or `{ error: message }`. */
  datatype ToggleResult = Success | Failure(message: string)

  /**
   * toggleSignal on the `user_signals` table. A datastore error is returned
   * as it is and the table is left as it was.
   */
  method ToggleSignal(store: UserSignalStore, userId: Id, signalId: Id, currentlySelected: bool,
                      newId: Id, now: int, storeError: Option<string>) returns (r: ToggleResult)
    modifies store
    ensures storeError.Some? ==> r == Failure(storeError.value) && store.rows == old(store.rows)
    ensures storeError.None? ==> r == Success
    ensures storeError.None? && currentlySelected ==>
      store.rows == WithoutPair(old(store.rows), userId, signalId)
    ensures storeError.None? && !currentlySelected ==>
      store.rows == old(store.rows) + [NewUserSignal(newId, userId, signalId, now)]
  {
    if currentlySelected {
      var error := store.RemoveUserSignal(userId, signalId, storeError);
      if error.Some? {
        return Failure(error.value);
      }
    } else {
      var inserted := store.AddUserSignal(userId, signalId, newId, now, storeError);
      if inserted.Err? {
        return Failure(inserted.error);
      }
    }
    r := Success;
  }

  function OfUser(userId: Id): UserSignal -> bool
  {
    (row: UserSignal) => row.userId == userId
  }

  function WithDetails(catalog: Id -> Signal): UserSignal -> UserSignalWithDetails
  {
    (row: UserSignal) => UserSignalWithDetails(row, catalog(row.signalId))
  }

  /**
   * A user's signals as the profile page passes them to canAddSignal: every
   * row of the user, expired or not, joined with its catalog entry.
   */
  function UserDetails(rows: seq<UserSignal>, userId: Id, catalog: Id -> Signal): (r: seq<UserSignalWithDetails>)
    ensures |r| == |Filter(rows, OfUser(userId))|
    ensures forall d :: d in r ==> d.row in rows && d.row.userId == userId && d.signal == catalog(d.row.signalId)
    ensures forall row :: row in rows && row.userId == userId ==> UserSignalWithDetails(row, catalog(row.signalId)) in r
    ensures forall i :: 0 <= i < |r| ==> r[i].row == Filter(rows, OfUser(userId))[i]
  {
    var mine := Filter(rows, OfUser(userId));
    var r := Map(mine, WithDetails(catalog));
    forall d | d in r ensures d.row in mine && d.signal == catalog(d.row.signalId) {
      var i :| 0 <= i < |r| && r[i] == d;
      assert mine[i] in mine;
    }
    forall row | row in rows && row.userId == userId ensures UserSignalWithDetails(row, catalog(row.signalId)) in r {
      assert row in mine;
      var i :| 0 <= i < |mine| && mine[i] == row;
      assert r[i] == UserSignalWithDetails(row, catalog(row.signalId));
    }
    r
  }

  lemma UserDetailsAppend(rows: seq<UserSignal>, row: UserSignal, userId: Id, catalog: Id -> Signal)
    ensures UserDetails(rows + [row], userId, catalog)
         == UserDetails(rows, userId, catalog) + (if row.userId == userId then [WithDetails(catalog)(row)] else [])
  {
    FilterAppend(rows, [row], OfUser(userId));
    MapAppend(Filter(rows, OfUser(userId)), Filter([row], OfUser(userId)), WithDetails(catalog));
  }

  /**
   * An insert that canAddSignal allowed over the user's full row set keeps
   * both caps for that user.
   */
  lemma GuardedInsertKeepsCaps(rows: seq<UserSignal>, newId: Id, userId: Id, signalId: Id, now: int,
                               catalog: Id -> Signal)
    requires WithinCaps(UserDetails(rows, userId, catalog))
    requires CanAddSignal(UserDetails(rows, userId, catalog), catalog(signalId)).Allow?
    ensures WithinCaps(UserDetails(rows + [NewUserSignal(newId, userId, signalId, now)], userId, catalog))
  {
    var row := NewUserSignal(newId, userId, signalId, now);
    UserDetailsAppend(rows, row, userId, catalog);
    AllowedAddKeepsCaps(UserDetails(rows, userId, catalog), WithDetails(catalog)(row));
  }

  /**
   * The server itself checks nothing: at the global cap, toggling one more
   * signal on succeeds and leaves the user above the cap.
   */
  lemma UnguardedInsertBreaksCap(rows: seq<UserSignal>, newId: Id, userId: Id, signalId: Id, now: int,
                                 catalog: Id -> Signal)
    requires |Filter(rows, OfUser(userId))| == MaxTotalSignals
    ensures !WithinCaps(UserDetails(rows + [NewUserSignal(newId, userId, signalId, now)], userId, catalog))
  {
    UserDetailsAppend(rows, NewUserSignal(newId, userId, signalId, now), userId, catalog);
  }
}
