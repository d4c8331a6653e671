/**
 * Signal selection rules (types/signals.ts): the global and per-category caps
 * checked before a user adds a signal, and the day arithmetic used to show
 * how long a signal has left.
 */
module SignalRules {
  import opened Wrappers
  import opened Seqs
  import opened Schema
  import Text

  /** CONSTRAINTS.MAX_TOTAL_SIGNALS */
  const MaxTotalSignals: nat := 5

  /** CONSTRAINTS.CATEGORY_LIMITS; a category id that is not a key has no limit of its own. */
  const CategoryLimits: map<Id, nat> :=
    map["availability" := 2, "learning" := 99, "contribution" := 99, "perspective" := 3]

  /** A user_signals row joined with its catalog signal. */
  datatype UserSignalWithDetails = UserSignalWithDetails(row: UserSignal, signal: Signal)

  /** A profile as the directory lists it: the user and the user's signals with their catalog entries. */
  datatype ProfileWithSignals = ProfileWithSignals(id: Id, signals: seq<UserSignalWithDetails>)

  /** `{ allowed: true }` or `{ allowed: false, reason }`. */
  datatype Decision = Allow | Deny(reason: string)

  function InCategory(categoryId: Id): UserSignalWithDetails -> bool
  {
    (s: UserSignalWithDetails) => s.signal.categoryId == categoryId
  }

  /** Number of entries of `current` whose signal is in the category. */
  function CategoryCount(current: seq<UserSignalWithDetails>, categoryId: Id): nat
  {
    |Filter(current, InCategory(categoryId))|
  }

  /**
   * canAddSignal: the global cap is checked first, then the cap of the new
   * signal's category when the category has one. Every entry passed in is
   * counted, whether or not it has expired.
   */
  function CanAddSignal(current: seq<UserSignalWithDetails>, newSignal: Signal): (r: Decision)
    ensures r.Allow? <==>
      |current| < MaxTotalSignals &&
      (newSignal.categoryId in CategoryLimits ==>
         CategoryCount(current, newSignal.categoryId) < CategoryLimits[newSignal.categoryId])
    ensures |current| >= MaxTotalSignals ==>
      r == Deny("Maximum " + Text.NatToString(MaxTotalSignals) + " signals allowed")
    ensures |current| < MaxTotalSignals && r.Deny? ==>
      newSignal.categoryId in CategoryLimits &&
      r.reason == "Maximum " + Text.NatToString(CategoryLimits[newSignal.categoryId]) + " signals allowed in this category"
  {
    if |current| >= MaxTotalSignals then
      Deny("Maximum " + Text.NatToString(MaxTotalSignals) + " signals allowed")
    else if newSignal.categoryId in CategoryLimits
         && CategoryCount(current, newSignal.categoryId) >= CategoryLimits[newSignal.categoryId] then
      Deny("Maximum " + Text.NatToString(CategoryLimits[newSignal.categoryId]) + " signals allowed in this category")
    else
      Allow
  }

  /** At the global cap the refusal reads "Maximum 5 signals allowed". */
  lemma GlobalCapMessage(current: seq<UserSignalWithDetails>, newSignal: Signal)
    requires |current| >= MaxTotalSignals
    ensures CanAddSignal(current, newSignal) == Deny("Maximum 5 signals allowed")
  {
    assert Text.NatToString(MaxTotalSignals) == "5" by {
      assert Text.DigitChar(5) == '5';
    }
    assert "Maximum " + "5" + " signals allowed" == "Maximum 5 signals allowed";
  }

  /** The invariant the caps are meant to keep for a user's signal set. */
  predicate WithinCaps(signals: seq<UserSignalWithDetails>)
  {
    |signals| <= MaxTotalSignals &&
    forall c :: c in CategoryLimits ==> CategoryCount(signals, c) <= CategoryLimits[c]
  }

  /** An addition that canAddSignal allows keeps both caps. */
  lemma AllowedAddKeepsCaps(current: seq<UserSignalWithDetails>, added: UserSignalWithDetails)
    requires WithinCaps(current)
    requires CanAddSignal(current, added.signal).Allow?
    ensures WithinCaps(current + [added])
  {
    forall c | c in CategoryLimits
      ensures CategoryCount(current + [added], c) <= CategoryLimits[c]
    {
      FilterAppend(current, [added], InCategory(c));
    }
  }

  /**
   * The limits of the table: below the global cap, two "availability" signals
   * and three "perspective" signals fill their categories, while a category
   * the table does not name is held only by the global cap.
   */
  lemma CategoryLimitsAtWork(current: seq<UserSignalWithDetails>, newSignal: Signal)
    requires |current| < MaxTotalSignals
    ensures newSignal.categoryId == "availability" ==>
      (CanAddSignal(current, newSignal).Allow? <==> CategoryCount(current, "availability") < 2)
    ensures newSignal.categoryId == "perspective" ==>
      (CanAddSignal(current, newSignal).Allow? <==> CategoryCount(current, "perspective") < 3)
    ensures newSignal.categoryId !in {"availability", "learning", "contribution", "perspective"} ==>
      CanAddSignal(current, newSignal).Allow?
  {
  }

  /** isSignalExpired: the expiry is strictly before `now`; no expiry never expires. */
  function IsSignalExpired(us: UserSignal, now: int): (r: bool)
    ensures us.expiresAt.None? ==> !r
    ensures us.expiresAt.Some? ==> (r <==> us.expiresAt.value < now)
  {
    us.expiresAt.Some? && us.expiresAt.value < now
  }

  /**
   * A signal the active-signals query returns is never shown as expired, an
   * expired one is never returned, and at the very instant of its expiry a
   * signal is neither.
   */
  lemma ExpiredAndActiveDisjoint(us: UserSignal, now: int)
    ensures IsSignalExpired(us, now) ==> !NotExpired(us.expiresAt, now)
    ensures NotExpired(us.expiresAt, now) ==> !IsSignalExpired(us, now)
    ensures (!IsSignalExpired(us, now) && !NotExpired(us.expiresAt, now)) <==> us.expiresAt == Some(now)
  {
  }

  /** Math.ceil(ms / day) for an integer number of milliseconds. */
  function CeilDays(ms: int): int
  {
    -((-ms) / DayMs)
  }

  /**
   * getDaysUntilExpiration: null without an expiry; otherwise the number of
   * started days left, and 0 once the expiry has passed.
   */
  function GetDaysUntilExpiration(us: UserSignal, now: int): (r: Option<nat>)
    ensures r.None? <==> us.expiresAt.None?
    ensures r.Some? ==> (r.value == 0 <==> us.expiresAt.value <= now)
    ensures r.Some? && r.value > 0 ==>
      (r.value - 1) * DayMs < us.expiresAt.value - now <= r.value * DayMs
  {
    if us.expiresAt.None? then None
    else
      var days := CeilDays(us.expiresAt.value - now);
      if days > 0 then Some(days) else Some(0)
  }
}
