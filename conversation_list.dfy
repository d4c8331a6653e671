/**
 * The pure helpers of the conversation list component
 * (components/messages/ConversationList.tsx): the search filter, the
 * relative-time label, message truncation and the last-message preview.
 */
module ConversationList {
  import opened Wrappers
  import opened Seqs
  import opened Text
  import opened Schema
  import opened ConversationsRoute

  /** `full_name || email`: the name shown and searched. */
  function DisplayName(u: UserRef): string
  {
    if u.fullName.Some? && u.fullName.value != "" then u.fullName.value else u.email
  }

  function MatchesQuery(query: string): Conversation -> bool
  {
    (conv: Conversation) => Contains(ToLower(DisplayName(conv.otherUser)), ToLower(query))
  }

  /**
   * `filteredConversations`: an empty query keeps the list; otherwise a
   * conversation stays exactly when its lower-cased name contains the
   * lower-cased query, in list order.
   */
  function FilterConversations(conversations: seq<Conversation>, query: string): (r: seq<Conversation>)
    ensures query == "" ==> r == conversations
    ensures IsSubsequence(r, conversations)
    ensures query != "" ==> forall conv :: conv in r <==>
      conv in conversations && exists i :: OccursAt(ToLower(DisplayName(conv.otherUser)), ToLower(query), i)
  {
    if query == "" then
      SubsequenceReflexive(conversations);
      conversations
    else Filter(conversations, MatchesQuery(query))
  }

  /** The search ignores the case of the query: typing it in capitals finds the same conversations. */
  lemma SearchIgnoresQueryCase(conversations: seq<Conversation>, query: string)
    ensures FilterConversations(conversations, ToLower(query)) == FilterConversations(conversations, query)
  {
    ToLowerIdempotent(query);
    if query != "" {
      assert ToLower(query) != "";
      FilterExtensional(conversations, MatchesQuery(ToLower(query)), MatchesQuery(query));
    }
  }

  /** The label of getRelativeTime; a date older than a week is shown as a calendar date. */
  datatype RelativeTime = JustNow | MinutesAgo(minutes: int) | HoursAgo(hours: int) | Yesterday
                        | DaysAgo(days: int) | CalendarDate

  /**
   * getRelativeTime for a difference `now - date` in milliseconds. The
   * Math.floor divisions by a positive constant are Dafny's `/`, so a date in
   * the future (negative difference) reads "Just now".
   */
  function GetRelativeTime(diffMs: int): (r: RelativeTime)
    ensures r == JustNow <==> diffMs < MinuteMs
    ensures r.MinutesAgo? <==> MinuteMs <= diffMs < HourMs
    ensures r.MinutesAgo? ==> 1 <= r.minutes < 60 && r.minutes * MinuteMs <= diffMs < (r.minutes + 1) * MinuteMs
    ensures r.HoursAgo? <==> HourMs <= diffMs < DayMs
    ensures r.HoursAgo? ==> 1 <= r.hours < 24 && r.hours * HourMs <= diffMs < (r.hours + 1) * HourMs
    ensures r == Yesterday <==> DayMs <= diffMs < 2 * DayMs
    ensures r.DaysAgo? <==> 2 * DayMs <= diffMs < 7 * DayMs
    ensures r.DaysAgo? ==> 2 <= r.days < 7 && r.days * DayMs <= diffMs < (r.days + 1) * DayMs
    ensures r == CalendarDate <==> diffMs >= 7 * DayMs
  {
    var diffMins := diffMs / MinuteMs;
    var diffHours := diffMs / HourMs;
    var diffDays := diffMs / DayMs;
    if diffMins < 1 then JustNow
    else if diffMins < 60 then MinutesAgo(diffMins)
    else if diffHours < 24 then HoursAgo(diffHours)
    else if diffDays == 1 then Yesterday
    else if diffDays < 7 then DaysAgo(diffDays)
    else CalendarDate
  }

  /** The order of the labels from newest to oldest. */
  function Freshness(r: RelativeTime): nat
  {
    match r
    case JustNow => 0
    case MinutesAgo(_) => 1
    case HoursAgo(_) => 2
    case Yesterday => 3
    case DaysAgo(_) => 4
    case CalendarDate => 5
  }

  /** An older date never gets a fresher label, nor a smaller count within the same label. */
  lemma RelativeTimeMonotone(d1: int, d2: int)
    requires d1 <= d2
    ensures Freshness(GetRelativeTime(d1)) <= Freshness(GetRelativeTime(d2))
    ensures GetRelativeTime(d1).MinutesAgo? && GetRelativeTime(d2).MinutesAgo? ==>
      GetRelativeTime(d1).minutes <= GetRelativeTime(d2).minutes
    ensures GetRelativeTime(d1).HoursAgo? && GetRelativeTime(d2).HoursAgo? ==>
      GetRelativeTime(d1).hours <= GetRelativeTime(d2).hours
    ensures GetRelativeTime(d1).DaysAgo? && GetRelativeTime(d2).DaysAgo? ==>
      GetRelativeTime(d1).days <= GetRelativeTime(d2).days
  {
  }

  /** The text of a label (the calendar date is formatted by the locale and is not modelled). */
  function RenderRelativeTime(r: RelativeTime): string
  {
    match r
    case JustNow => "Just now"
    case MinutesAgo(m) => (if m >= 0 then NatToString(m) else "") + "m ago"
    case HoursAgo(h) => (if h >= 0 then NatToString(h) else "") + "h ago"
    case Yesterday => "Yesterday"
    case DaysAgo(d) => (if d >= 0 then NatToString(d) else "") + "d ago"
    case CalendarDate => ""
  }

  /**
   * The label getRelativeTime returns for a difference: "Just now" under a
   * minute, then the whole number of minutes, hours or days followed by its
   * unit, with "Yesterday" for the second day.
   */
  lemma RelativeTimeLabel(diffMs: int)
    ensures diffMs < MinuteMs ==> RenderRelativeTime(GetRelativeTime(diffMs)) == "Just now"
    ensures MinuteMs <= diffMs < HourMs ==>
      exists n: nat ::
        1 <= n < 60 && n * MinuteMs <= diffMs < (n + 1) * MinuteMs && RenderRelativeTime(GetRelativeTime(diffMs)) == NatToString(n) + "m ago"
    ensures HourMs <= diffMs < DayMs ==>
      exists n: nat ::
        1 <= n < 24 && n * HourMs <= diffMs < (n + 1) * HourMs && RenderRelativeTime(GetRelativeTime(diffMs)) == NatToString(n) + "h ago"
    ensures DayMs <= diffMs < 2 * DayMs ==> RenderRelativeTime(GetRelativeTime(diffMs)) == "Yesterday"
    ensures 2 * DayMs <= diffMs < 7 * DayMs ==>
      exists n: nat ::
        2 <= n < 7 && n * DayMs <= diffMs < (n + 1) * DayMs && RenderRelativeTime(GetRelativeTime(diffMs)) == NatToString(n) + "d ago"
  {
    var r := GetRelativeTime(diffMs);
    if r.MinutesAgo? {
      var n: nat := r.minutes;
      assert RenderRelativeTime(r) == NatToString(n) + "m ago";
    } else if r.HoursAgo? {
      var n: nat := r.hours;
      assert RenderRelativeTime(r) == NatToString(n) + "h ago";
    } else if r.DaysAgo? {
      var n: nat := r.days;
      assert RenderRelativeTime(r) == NatToString(n) + "d ago";
    }
  }

  const DefaultMaxLength: nat := 60

  /** truncateMessage: unchanged up to `maxLength` characters, else the first `maxLength` and "...". */
  function TruncateMessage(content: string, maxLength: nat): (r: string)
    ensures |content| <= maxLength ==> r == content
    ensures |content| > maxLength ==>
      (|r| == maxLength + 3 && r[..maxLength] == content[..maxLength] && r[maxLength..] == "...")
    ensures |r| <= maxLength + 3
  {
    if |content| <= maxLength then content else content[..maxLength] + "..."
  }

  /** Truncating a truncated message changes nothing more. */
  lemma TruncateIdempotent(content: string, maxLength: nat)
    ensures TruncateMessage(TruncateMessage(content, maxLength), maxLength) == TruncateMessage(content, maxLength)
  {
    if |content| > maxLength {
      var t := TruncateMessage(content, maxLength);
      assert t[..maxLength] + "..." == t;
    }
  }

  /**
   * The preview line of a conversation: "Start messaging" without a last
   * message, else its truncated text, prefixed with "You: " when the current
   * user sent it.
   */
  function LastMessagePreview(conv: Conversation, currentUserId: Id): (r: string)
    ensures conv.lastMessage.None? ==> r == "Start messaging"
    ensures conv.lastMessage.Some? && conv.lastMessage.value.senderId == currentUserId ==>
      HasPrefix(r, "You: ") && r[5..] == TruncateMessage(conv.lastMessage.value.content, DefaultMaxLength)
    ensures conv.lastMessage.Some? && conv.lastMessage.value.senderId != currentUserId ==>
      r == TruncateMessage(conv.lastMessage.value.content, DefaultMaxLength)
    ensures |r| <= 5 + DefaultMaxLength + 3
  {
    match conv.lastMessage
    case None => "Start messaging"
    case Some(m) =>
      if m.senderId == currentUserId then "You: " + TruncateMessage(m.content, DefaultMaxLength)
      else TruncateMessage(m.content, DefaultMaxLength)
  }
}
