# Signal: a model of the matching, signal and messaging core

Signal is a professional network. People describe themselves by *signals*:
short tags such as "open to mentoring", grouped in categories and capped per
user. The application has three parts that this project models:

- a feed that ranks recent posts by how well they match the viewer;
- a connection and messaging layer;
- a few client-side helpers: the conversation list, the discover screens and the location field.

The datastore tables (`user_signals`, `posts`, `post_signals`, `connections`,
`messages`) are in-memory sequences.

- Tables that a route writes are fields of store classes (`UserSignalStore`,
  `PostStore`, `ConnectionStore`, `MessageStore`), and the writes are methods.
- Read-only queries are functions over the sequences.
- Time is one integer number of milliseconds, `now`, per request.
- A datastore error is a parameter of the method that would meet it.

Modules, one per source file, plus shared foundations:

| module | source |
|---|---|
| `Wrappers`, `Seqs`, `Sorting`, `Text` | `Option`/`Result`, and the JavaScript array and string operations the code uses (filter, map, slice, a stable sort, `includes`, case mapping, literal `replace`) |
| `Schema` | the table rows of types/database.ts and the `expires_at is null or > now` query filter |
| `SignalRules` | types/signals.ts |
| `Distance` | lib/distance.ts |
| `PostsFeed`, `PostsCreate` | app/api/posts/route.ts (GET and POST) |
| `SignalsLib` | lib/signals.ts |
| `ProfileActions` | app/profile/actions.ts |
| `ConnectionsRoute` | app/api/connections/route.ts |
| `MessagesRoute` | app/api/messages/route.ts and app/api/messages/read/route.ts |
| `ConversationsRoute` | app/api/conversations/route.ts |
| `ConversationList` | components/messages/ConversationList.tsx |
| `DiscoverContent`, `DiscoverPage` | app/discover/DiscoverContent.tsx, app/discover/page.tsx |
| `LocationAutocomplete` | components/profiles/LocationAutocomplete.tsx |

Behaviours of the code that the proofs make explicit:

- The feed's signal-match reason names the post's *first* linked signal, even when that signal is not one the viewer holds (`PostsFeed.Reason`).
- Nothing forbids a connection request from a user to themselves.
  - On such an edge the "other party" is the caller. Marking the conversation read therefore never clears its unread count (`ConversationsRoute.SelfConnectionUnreadStays`).
  - Only such an edge puts the viewer among their own connections (`PostsFeed.ViewerAmongConnections`).
- The duplicate check of a connection request reads its lookup with `.single()`, which yields a row only when exactly one edge matches. A table that already holds two edges for a pair lets a third through. On a table with at most one edge per pair the check is exact, and a request keeps that invariant (`ConnectionsRoute.DuplicateCheckExact`, `ConnectionsRoute.InsertKeepsUniquePairs`). This holds only when the lookup succeeds and requests run one at a time. The route discards the lookup's error, and no uniqueness constraint on the table is part of this model, so a failed lookup or two simultaneous requests between the same users can add a second edge.
- `toggleSignal` applies no cap. The caps hold only when the caller asked `canAddSignal` first (`ProfileActions.GuardedInsertKeepsCaps`, `ProfileActions.UnguardedInsertBreaksCap`).
- The mark-read route does not check that the caller is a party to the connection.
- The feed's candidate query does not look at a post's `visibility`.
- The two discover screens differ only when no signal is selected. One shows every profile, the other none (`DiscoverPage.FilterProfiles`, `DiscoverContent.MatchingProfiles`).

## Model

| member | source | states |
|---|---|---|
| PostsFeed.ParseFeedType | app/api/posts/route.ts:18 | "own" and "connections" select their feeds; any other value, or none, is the smart feed |
| PostsFeed.ActiveSignalIds | app/api/posts/route.ts:64-70 | an id is listed iff the viewer has a row for that signal that has no expiry or expires after now |
| PostsFeed.ConnectionUserIds | app/api/posts/route.ts:73-81 | a user is listed iff some accepted edge involves the viewer and that user is its other party |
| PostsFeed.ViewerAmongConnections | app/api/posts/route.ts:79-81 | the viewer is among their own connection ids iff there is an accepted edge from the viewer to the viewer, so the connections feed shows own posts only then |
| PostsFeed.Candidates | app/api/posts/route.ts:84-98 | each kept post is in the table, unarchived and unexpired, newest first; exactly min(100, visible count) posts, all of them when there are at most 100; every visible post left out is no newer than every post kept |
| PostsFeed.OverlapCount | app/api/posts/route.ts:126-127 | the overlap never exceeds the number of linked signals |
| PostsFeed.ScorePost | app/api/posts/route.ts:109-157 | the step-by-step closure yields the additive score (+50 for an own post under 24 h, otherwise +10; +10 per overlapping linked signal; +5 for a connection; +3 for a help request; max(0, 5 - age in days)) and the first reason that applies, defaulting to "Suggested for you" |
| PostsFeed.ScoreNonNegative | app/api/posts/route.ts:109-148 | no post scores below zero |
| PostsFeed.ScoreAgeMonotone | app/api/posts/route.ts:114-148 | of two posts that differ only in creation time, the older never scores higher |
| PostsFeed.FreshOwnPostFirst | app/api/posts/route.ts:114-148 | the viewer's own post under a day old outscores any other author's post that matches no signal and is not dated in the future |
| PostsFeed.RankCandidates | app/api/posts/route.ts:160 | the ranked list is a permutation of the scored candidates with scores non-increasing; each ranked entry wraps one of the candidates |
| PostsFeed.RankingStable | app/api/posts/route.ts:97-160 | posts with equal scores keep their fetch order, which is newest first |
| PostsFeed.ConnectionsFeedIsRankingOfConnectionPosts | app/api/posts/route.ts:160-166 | filtering to connections after the stable sort equals sorting the connection posts alone |
| PostsFeed.RankedFeed | app/api/posts/route.ts:160-179 | at most 50 posts, an order-preserving sub-list of the ranking, still score-ordered; only connection authors for the connections feed; within the radius when the distance filter applies; empty for a NaN radius; in every case exactly the first 50 of the type-filtered, distance-filtered ranking, so with fewer than 50 kept every post of the type-filtered ranking within the radius is kept |
| PostsFeed.DistanceStage | app/api/posts/route.ts:167-176 | the list unchanged unless a distance and both viewer coordinates are given; empty for a NaN radius; otherwise an order-preserving sub-list holding exactly the posts with coordinates within the radius |
| PostsFeed.OwnFeed | app/api/posts/route.ts:34-61 | exactly the viewer's visible posts, newest first, unscored and unlimited |
| PostsFeed.Feed | app/api/posts/route.ts:6-184 | the own feed iff type is "own", holding exactly the viewer's visible posts, newest first; otherwise at most 50 score-ordered posts, all visible posts of the table; the ranked response is exactly RankedFeed over the candidates and the viewer read from the tables |
| PostsCreate.ExpiryFor | app/api/posts/route.ts:216-221 | an expiry is set iff the day count is present and positive, and then lies that many days after now |
| PostsCreate.LinksFor | app/api/posts/route.ts:244-249 | one link per given signal id, in order, all to the new post |
| PostsCreate.NewPostVisible | app/api/posts/route.ts:217-237 | a new post is visible when created and stays visible exactly until its expiry |
| PostsCreate.PostStore.Create | app/api/posts/route.ts:187-262 | missing content or type inserts nothing; a failed post insert inserts nothing; otherwise the post is appended, with visibility defaulting to "public" and the profile's location; the links are appended unless their insert fails, which leaves the post in place and reports the error |
| SignalRules.CanAddSignal | types/signals.ts:34-61 | allowed iff fewer than 5 signals and, when the category has a limit, fewer than that limit in it; at 5 or more the refusal renders the global cap whatever the category; otherwise a refusal gives the category's limit |
| SignalRules.GlobalCapMessage | types/signals.ts:38-43 | at 5 or more signals the refusal reads exactly "Maximum 5 signals allowed" |
| SignalRules.CategoryLimitsAtWork | types/signals.ts:21-29 | under the global cap, availability admits a third signal never and perspective a fourth never; a category missing from the table is always admitted |
| SignalRules.AllowedAddKeepsCaps | types/signals.ts:34-61 | appending an entry that canAddSignal allows keeps the global and every category cap |
| SignalRules.IsSignalExpired | types/signals.ts:64-67 | no expiry never expires; with an expiry, expired iff it is strictly before now |
| SignalRules.ExpiredAndActiveDisjoint | types/signals.ts:64-67 | an expired signal is never active and an active one never expired; only at the exact expiry instant is a signal neither |
| SignalRules.GetDaysUntilExpiration | types/signals.ts:70-77 | null iff there is no expiry; 0 iff the expiry is not after now; otherwise the ceiling of the remaining days |
| Distance.FilterPostsByDistance | lib/distance.ts:35-56 | an order-preserving sub-list holding exactly the posts with truthy coordinates within the radius (inclusive); a post without coordinates is never kept |
| Distance.DistanceFilterIdempotent | lib/distance.ts:35-56 | filtering twice keeps the same posts as filtering once |
| Distance.SameSpotKept | lib/distance.ts:41-54 | a post at the user's own position is kept for every non-negative radius |
| Distance.NegativeRadiusKeepsNothing | lib/distance.ts:54 | a negative radius keeps nothing |
| Distance.RadiusMonotone | lib/distance.ts:54 | what a smaller radius keeps, a larger one keeps too, in the same order |
| SignalsLib.GetSignalsByCategory | lib/signals.ts:34-49 | the keys are exactly the categories present; each key maps to its category's signals in catalog order; both discover screens (app/discover/DiscoverContent.tsx:42-48, app/discover/page.tsx:35-41) repeat the same grouping inline |
| SignalsLib.GroupsPartition | lib/signals.ts:37-46 | every signal lands in its own category's group, in no other, and as many times as in the catalog |
| SignalsLib.GroupKeepsDisplayOrder | lib/signals.ts:27-44 | a catalog in display order gives groups in display order |
| SignalsLib.WithoutPair | lib/signals.ts:115-119 | no row of the pair remains; every other row keeps its copies and order |
| SignalsLib.WithoutPairIdempotent | lib/signals.ts:112-122 | deleting a pair twice is deleting it once |
| SignalsLib.RemoveAfterAdd | lib/signals.ts:94-122 | adding a signal and then removing it leaves the table as removing alone would |
| SignalsLib.UserSignalStore.AddUserSignal | lib/signals.ts:94-109 | one row for the user and signal is appended and returned; on an error nothing changes |
| SignalsLib.UserSignalStore.RemoveUserSignal | lib/signals.ts:112-122 | every row of the pair is deleted; on an error nothing changes |
| ProfileActions.ToggleSignal | app/profile/actions.ts:6-36 | currently selected: every row of the pair is deleted; otherwise one row is appended; an error is returned with the table unchanged, and success otherwise |
| ProfileActions.UserDetails | app/profile/actions.ts:20-27 | the entries canAddSignal sees are exactly the user's rows, in table order and with expired ones included, each joined with its catalog signal |
| ProfileActions.GuardedInsertKeepsCaps | app/profile/actions.ts:20-27 | an insert that canAddSignal allowed keeps the user within both caps |
| ProfileActions.UnguardedInsertBreaksCap | app/profile/actions.ts:20-27 | at the global cap, the unguarded insert puts the user above it |
| ConnectionsRoute.BetweenSymmetric | app/api/connections/route.ts:56-62 | the duplicate lookup does not depend on the order of the two users |
| ConnectionsRoute.ConnectionStore.Request | app/api/connections/route.ts:35-87 | missing receiver: 400 and no insert; exactly one edge between the pair: "already exists" and no insert; a store error: no insert; otherwise a pending edge from the caller is appended |
| ConnectionsRoute.InsertKeepsUniquePairs | app/api/connections/route.ts:56-80 | a request that passes the check keeps at most one edge per pair |
| ConnectionsRoute.DuplicateCheckExact | app/api/connections/route.ts:56-69 | with at most one edge per pair, a request is refused iff an edge joins the two users in either direction, of any status |
| ConnectionsRoute.MyConnections | app/api/connections/route.ts:17-25 | exactly the edges the caller is a party to, newest first |
| ConnectionsRoute.RequestListedForBoth | app/api/connections/route.ts:17-80 | a new request appears in both parties' lists |
| MessagesRoute.AuthorizedConnection | app/api/messages/route.ts:27-33 | found only for an accepted edge with that id that the caller is a party to, read with `.single()` |
| MessagesRoute.AuthorizationExact | app/api/messages/route.ts:27-40 | with unique connection ids, the lookup succeeds iff such an edge exists |
| MessagesRoute.GetMessages | app/api/messages/route.ts:5-57 | 400 without an id; 404 without authorisation; otherwise exactly the connection's messages, oldest first |
| MessagesRoute.MessageStore.Send | app/api/messages/route.ts:60-112 | 400 for a missing field; 404 without authorisation; a store error changes nothing; otherwise an unread message from the caller is appended and returned |
| MessagesRoute.SentMessageListed | app/api/messages/route.ts:43-105 | a sent message is listed among its connection's messages |
| MessagesRoute.MessageStore.MarkRead | app/api/messages/read/route.ts:5-40 | 400 without an id and a store error change nothing; otherwise the row-by-row update applies the read-marking to every row |
| MessagesRoute.MarkReadTouchesOnlyUnread | app/api/messages/read/route.ts:27-32 | a row changes iff it is in the connection, not sent by the caller and unread, and then only gains `read_at = now` |
| MessagesRoute.MarkReadIdempotent | app/api/messages/read/route.ts:27-32 | a second marking, even later, changes nothing |
| ConversationsRoute.LastMessage | app/api/conversations/route.ts:42-48 | none iff the connection has no message; otherwise one of its messages with the latest time |
| ConversationsRoute.SummaryFields | app/api/conversations/route.ts:51-77 | the other user is a party to the connection and differs from the caller unless the edge is a self-edge; last activity is the newest message's time, or the connection's creation time without messages |
| ConversationsRoute.Conversations | app/api/conversations/route.ts:17-84 | one summary per accepted connection of the caller, every such connection summarised, sorted by last activity, most recent first |
| ConversationsRoute.MarkReadClearsUnread | app/api/conversations/route.ts:56-61 | after the caller marks a connection read, its unread count is 0 when the parties differ |
| ConversationsRoute.SelfConnectionUnreadStays | app/api/conversations/route.ts:51-61 | on a self-edge, marking read leaves the unread count as it was |
| ConversationsRoute.NewMessageUnreadForOther | app/api/conversations/route.ts:56-61 | a new message raises the other party's unread count by one |
| ConversationList.FilterConversations | components/messages/ConversationList.tsx:60-64 | an empty query keeps every conversation; otherwise it keeps, in order, exactly those whose lower-cased name (full name, else email) contains the lower-cased query |
| ConversationList.SearchIgnoresQueryCase | components/messages/ConversationList.tsx:63 | a query and its lower-cased form find the same conversations |
| ConversationList.RelativeTimeLabel | components/messages/ConversationList.tsx:81-85 | the label text: "Just now" under a minute; "<n>m ago", "<n>h ago" or "<n>d ago" with n the whole minutes, hours or days elapsed; "Yesterday" on the second day |
| ConversationList.GetRelativeTime | components/messages/ConversationList.tsx:73-88 | "Just now" iff under a minute, future dates included; minutes 1-59 under an hour; hours 1-23 under a day; "Yesterday" for the second day; days 2-6 under a week; a calendar date otherwise |
| ConversationList.RelativeTimeMonotone | components/messages/ConversationList.tsx:73-88 | an older date never gets a fresher label, nor a smaller count under the same label |
| ConversationList.TruncateMessage | components/messages/ConversationList.tsx:90-93 | unchanged up to the limit; otherwise the first limit characters and "...", so never longer than limit + 3 |
| ConversationList.TruncateIdempotent | components/messages/ConversationList.tsx:90-93 | truncating twice is truncating once |
| ConversationList.LastMessagePreview | components/messages/ConversationList.tsx:163-167 | "Start messaging" without a last message; "You: " and the truncated text when the viewer sent it; the truncated text otherwise |
| DiscoverContent.MatchingProfiles | app/discover/DiscoverContent.tsx:60-70 | no selection gives no profile; otherwise the profiles having a selected signal, in order |
| DiscoverContent.TotalPages | app/discover/DiscoverContent.tsx:75 | the fewest pages of 20 that hold the list; 0 iff the list is empty |
| DiscoverContent.PageSlice | app/discover/DiscoverContent.tsx:76-78 | at most 20 profiles, those at positions (p-1)*20 on; full on every page before the last; empty past the end |
| DiscoverContent.PagesCoverList | app/discover/DiscoverContent.tsx:75-78 | pages 1 to totalPages, one after the other, are the whole list |
| DiscoverContent.DiscoverState.CurrentProfiles | app/discover/DiscoverContent.tsx:78-121 | the filtered profiles from position (page-1)*20 on, at most 20, each a loaded profile having a selected signal; a full 20 before the last page; never empty while some profile matches |
| DiscoverContent.DiscoverState.SetSelectedSignals | app/discover/DiscoverContent.tsx:60-72 | a new selection refilters and goes back to page 1 |
| DiscoverContent.DiscoverState.Previous | app/discover/DiscoverContent.tsx:125-128 | with two pages or more, one page back but never below 1 |
| DiscoverContent.DiscoverState.Next | app/discover/DiscoverContent.tsx:125-156 | with two pages or more, one page on but never past the last |
| DiscoverContent.DiscoverState.GoToPage | app/discover/DiscoverContent.tsx:140-143 | a page button exists, and is taken, only for pages 1 to totalPages |
| DiscoverPage.FilterProfiles | app/discover/page.tsx:53-62 | no selection shows every profile; otherwise exactly the profiles with a selected signal; always an order-preserving sub-list |
| DiscoverPage.SameMatchesForASelection | app/discover/page.tsx:57-59 | for a non-empty selection both discover screens list the same profiles in the same order |
| LocationAutocomplete.CountryCodeOf | components/profiles/LocationAutocomplete.tsx:122 | the country code is never empty: the given code upper-cased character by character, or "US" when none is given |
| LocationAutocomplete.FormatLocationShapes | components/profiles/LocationAutocomplete.tsx:119-125 | for comma-free parts the result is "c, s, CC", "c, CC", "s, CC" or "CC": no separator is left at an end or doubled |
| LocationAutocomplete.CityLevelSuggestions | components/profiles/LocationAutocomplete.tsx:84-93 | the first min(5, count) city-level results, in response order: exactly 5 when there are that many, all of them when there are fewer |
| LocationAutocomplete.ArrowDownIndex | components/profiles/LocationAutocomplete.tsx:219-224 | the index moves down one, but never past the last suggestion |
| LocationAutocomplete.ArrowUpIndex | components/profiles/LocationAutocomplete.tsx:225-228 | the index moves up one, down to no selection (-1) and never below |
| LocationAutocomplete.UpUndoesDown | components/profiles/LocationAutocomplete.tsx:219-228 | ArrowUp undoes an ArrowDown that moved |
| LocationAutocomplete.PressDownStopsAtLast | components/profiles/LocationAutocomplete.tsx:219-224 | k ArrowDowns from no selection select item k-1, stopping at the last |
| LocationAutocomplete.AutocompleteState.HandleInputChange | components/profiles/LocationAutocomplete.tsx:104-107 | typing sets the text and clears the selection |
| LocationAutocomplete.AutocompleteState.ReceiveSuggestions | components/profiles/LocationAutocomplete.tsx:60-101 | under 3 characters or on a failure the list is cleared; otherwise the city-level suggestions are kept, and the dropdown opens iff there was one |
| LocationAutocomplete.AutocompleteState.Focus | components/profiles/LocationAutocomplete.tsx:250 | focus reopens the dropdown only for 3 or more characters and some suggestions |
| LocationAutocomplete.AutocompleteState.HandleSelect | components/profiles/LocationAutocomplete.tsx:128-146 | the input shows the formatted place and the dropdown closes and empties; city, state and country ("United States" by default) are reported |
| LocationAutocomplete.AutocompleteState.HandleKeyDown | components/profiles/LocationAutocomplete.tsx:215-239 | every key is ignored while closed; the arrows move the index as above; Enter selects only an index naming a suggestion; Escape closes; the index never drops below -1 |

## Left out

- Haversine: `calculateDistance` (lib/distance.ts:5-30) is floating-point trigonometry. It is a parameter `dist`. Lemmas that need its laws (non-negative, symmetric, zero between equal points) take `Distance.HaversineLaws` as a hypothesis.
- Scores are exact reals, not IEEE doubles. Ages are exact quotients of integer milliseconds.
- Distance parameter: `parseInt` of the `distance` parameter is not modelled. The parameter arrives already read: absent, a whole number, or NaN.
- Coordinates: `parseFloat` of a geocoder result's coordinates is not modelled. `LocationAutocomplete.ChosenOf` reports the coordinate strings.
- Dates are integer milliseconds. Not modelled: ISO strings, `new Date` parsing, and the `toLocaleDateString` text of a date older than a week (`ConversationList.CalendarDate` carries no text).
- PostsCreate.ExpiryFor: adds the day count times 24 hours. The source's `setDate` adds calendar days in local time, which differ across a daylight-saving change. A fractional day count is not modelled.
- Authentication and the 401 responses are out of scope. The caller's id is a parameter.
- These 500 responses for a failed read query are not modelled: the own feed (app/api/posts/route.ts:52), the ranked feed (app/api/posts/route.ts:100), the connection list (app/api/connections/route.ts:27-29), the message list (app/api/messages/route.ts:52-54) and the conversation list (app/api/conversations/route.ts:30-32).
- ConnectionsRoute.ConnectionStore.Request: the duplicate lookup is assumed to succeed, and requests are assumed to run one at a time.
  - The route keeps only the lookup's data and discards its error (app/api/connections/route.ts:56-62). A failed lookup leaves nothing to compare against, so the insert at app/api/connections/route.ts:71-80 goes ahead and can add a second edge for the pair.
  - Two requests between the same users that run at the same time, A to B and B to A, can both pass the check.
  - `ConnectionsRoute.InsertKeepsUniquePairs` therefore covers only a successful lookup followed by its own insert.
- ConversationsRoute.Conversations: the per-connection message reads are assumed to succeed. The route discards their errors (app/api/conversations/route.ts:42-61). A failed latest-message read shows no last message and falls back to the connection's creation time as the last activity. A failed count shows 0 unread. The model always reads the table.
- MessagesRoute.GetMessages and MessagesRoute.MessageStore.Send: the authorisation lookup is assumed to succeed. Both routes keep only the lookup's data and discard its error (app/api/messages/route.ts:26-32 and :81-87). A failed read therefore looks like a missing connection. The route answers 404 even when the caller is a party to an accepted connection, and Send writes nothing. The model always reads the table.
- SignalsLib.NewUserSignal: the insert sets only the user and the signal (lib/signals.ts:100-103, app/profile/actions.ts:24-27). The creation time and the expiry come from column defaults of the database, which are not part of this model. A new user signal is taken to be created now with no expiry.
- PostsFeed.ActiveSignalIds and PostsFeed.ConnectionUserIds: these always read their table. The feed discards the errors of the `user_signals` query (app/api/posts/route.ts:64-70) and of the `connections` query (app/api/posts/route.ts:73-81). On an error it falls back to an empty list, so no post gets a signal-overlap or connection boost and the connections feed is empty. A failed read is not modelled; the viewer's ids are as a successful read returns them.
- PostsCreate.PostStore.Create: the profile lookup is a parameter. A failed lookup is `None`. A request body that is not JSON is not modelled.
- The joined user and signal objects of the queries are parameters.
  - `people` maps an id to the user in the conversation list.
  - `catalog` maps a signal id to the signal for `canAddSignal`.
  - `FeedPost` carries a post's linked signals and its reaction and comment counts.
- `Promise.all` in the conversation route runs as a sequential map.
- A tie in the latest message time is resolved to the first such message in table order. The datastore leaves this order unspecified.
- `revalidatePath` in app/profile/actions.ts is not modelled.
- Case mapping: `toLowerCase` and `toUpperCase` act on ASCII letters only.
- String length: lengths count characters, not UTF-16 code units.
- Location autocomplete: these are not modelled:
  - the debounce timer, the loading flag and the click-outside handler;
  - the request to the geocoder, whose answer is a parameter;
  - "use current location" (components/profiles/LocationAutocomplete.tsx:149-212), which needs browser geolocation and a reverse-geocoding request.
- DiscoverContent.PageSlice: requires a page of at least 1. The screen's state keeps the page there, which `DiscoverState.Valid` states. JavaScript's `slice` reading of a negative start is therefore not modelled.
- Discover loading: the fetch of the discover screens and the profile modal are not modelled.
- DiscoverState is built from the loaded profiles, which is the state once the first filter effect has run.
- Accepting, rejecting and deleting connections, and the profile and comment routes, are not part of this model.
