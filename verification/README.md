# CampusLynk state model in Dafny

CampusLynk is a front-end mock-up of a campus social network: a feed of
opportunities, networking, chat, clubs, notifications and profiles, all over
in-memory sample data. Its only logic is a single-user state machine. The root
component owns the students, opportunities, clubs and notifications, the
active tab, the profile being viewed and the search query. Its event handlers
rebuild one collection with `map`/`filter`/append and assign it. Beside it
sit three smaller pieces of logic:

- the chat page's own per-conversation message lists;
- the notification card's filter, counts and lookup tables;
- the "suggested connections" filter.

The Dafny project models all of this:

- `collections.dfy` (`Collections`): the list operations every handler uses.
  These are filter-out-an-id (`RemoveAll`) and toggle membership (`Toggle`),
  plus a subsequence predicate for "same elements, same order, some dropped".
- `entities.dfy` (`Entities`): the records (`Student`, `Opportunity`,
  `Comment`, `Club`, `Notification`, `Conversation`, `ChatMessage`), the tabs,
  the constant current-user id `"current"`, and `students.find` by id.
- `app.dfy` (`App`): one pure function per handler for the new collection,
  and the class `AppState`. Its fields are the component's state, and each
  method assigns the fields its handler sets. Each method's `modifies` clause
  names only those fields (`this`students`, …), so every other field is
  unchanged by construction.
- `chat.dfy` (`ChatPage`): `String.prototype.trim`, the initial selection, the
  visible message list, the append-on-send map update, the day labels and the
  date-separator rule. The class `ChatState` holds the selected chat, the
  compose field and the message map.
- `notifications_card.dfy` (`NotificationsCard`): the unread filter and count,
  and the all/unread view. Also the "Mark all" rule, what a row click asks of
  the parent, the icon and colour tables, and the "time ago" buckets.
- `suggestions.dfy` (`SuggestionsCard`): the filter-then-take-three chain, and
  the two skills shown per suggestion.

Clock readings, generated ids and the seed data are parameters:

- generated ids are `Id` parameters (`newId`);
- timestamps and "now" are integer milliseconds;
- the locale date formatter is a function parameter `calendar: int -> string`;
- the seed collections and the current-user record are constructor or method
  parameters.

JavaScript truthiness is kept where it shows:

- an empty selected-chat id counts as no selection;
- an empty first conversation id gives no initial selection;
- an empty viewed-profile id shows the current user.

A few behaviours of the code worth stating:

- Joining a club appends the user, even when they are already a member.
  Leaving removes every occurrence.
- Like and save always toggle the fixed user id `"current"`.
- A tab change clears the viewed profile whenever the new tab is not
  "profile", and clears the query whenever it is not "search".
- Viewing a profile, opening a chat and routing a notification set the tab
  directly. They clear nothing.

## Model

| member | source | states |
|---|---|---|
| `Collections.RemoveAll` | src/App.tsx:34 | `filter(id => id !== x)`: x is gone, every other element keeps its multiplicity, and the order is kept (subsequence) |
| `Collections.Toggle` | src/App.tsx:30-35 | after a toggle x is present iff it was absent, at most once; if absent it is appended at the end; other elements are untouched |
| `Collections.ToggleTwice` | src/App.tsx:30-35 | two toggles restore membership of x; when x was absent they restore the list exactly |
| `Collections.ToggleKeepsDistinct` | src/App.tsx:30-35 | a duplicate-free like/save list stays duplicate-free under toggling |
| `Entities.FindStudent` | src/App.tsx:211 | `find`: None iff no student has the id; otherwise the first student with it |
| `App.LikeToggled` | src/App.tsx:27-40 | on matched opportunities only the likes change: current user present iff absent before, appended once or every occurrence removed with the order kept; other opportunities and an unknown id leave the list unchanged |
| `App.SaveToggled` | src/App.tsx:42-55 | the same as LikeToggled, for the saved list |
| `App.LikeTwice` | src/App.tsx:27-40 | liking twice restores every opportunity's like membership, and the exact record when not liked before |
| `App.SaveTwice` | src/App.tsx:42-55 | saving twice restores saved membership, and the exact record when not saved before |
| `App.WithComment` | src/App.tsx:57-76 | the matched opportunity gets exactly one more comment, at the end; earlier comments, other fields and other opportunities unchanged |
| `App.AppState.AddComment` | src/App.tsx:57-76 | the appended comment carries the given id and time, author id `"current"`, the current user's name and avatar, and the text |
| `App.WithConnectRequest` | src/App.tsx:79-90 | the target's pending list gains `"current"` at the end, one occurrence more; nothing else changes |
| `App.ConnectTwiceDuplicates` | src/App.tsx:79-90 | no duplicate check: two requests add two pending entries |
| `App.WithAccepted` | src/App.tsx:92-109 | current user: requester appended to connections, removed from pending with the order kept; requester: `"current"` appended to connections; all other students unchanged |
| `App.WithRejected` | src/App.tsx:111-121 | no connections change; only the current user's pending list loses the requester (order kept); all other students unchanged |
| `App.WithJoined` | src/App.tsx:133-143 | the matched club's members gain `"current"` at the end, even when already a member; other clubs unchanged |
| `App.WithLeft` | src/App.tsx:145-155 | the matched club no longer lists `"current"`; other members and order kept; other clubs unchanged |
| `App.LeaveUndoesJoin` | src/App.tsx:133-155 | joining then leaving gives the same clubs as leaving alone |
| `App.JoinTwiceDuplicates` | src/App.tsx:133-143 | joining twice lists the user twice more |
| `App.Patched` | src/App.tsx:161 | shallow merge: each field present in the patch takes the patch value, each absent field keeps its value; the empty patch changes nothing |
| `App.BioOnlyPatch` | src/App.tsx:158-165 | a patch with only a bio changes the bio and nothing else |
| `App.PatchIdempotent` | src/App.tsx:161 | applying the same patch twice equals applying it once |
| `App.WithProfileEdit` | src/App.tsx:158-165 | only records whose id is `"current"` are patched; all other students unchanged |
| `App.WithRead` | src/App.tsx:168-172 | a notification becomes read iff it was read or has the id; nothing but `read` changes |
| `App.MarkAsReadLowersUnread` | src/App.tsx:168-172 | marking never raises the unread count, and lowers it when a notification with that id was unread |
| `App.MarkAsReadClearsId` | src/App.tsx:168-172 | afterwards no unread notification has that id |
| `App.AllRead` | src/App.tsx:174-176 | every notification read, nothing else changed, unread count 0 |
| `App.MarkAllIdempotent` | src/App.tsx:174-176 | marking all read twice equals once |
| `App.RouteFor` | src/App.tsx:178-194 | connection→network, message→chat, opportunity→feed, club→clubs; like, comment and unknown types keep the tab |
| `App.UnreadMessageTotal` | src/App.tsx:202 | the summed unread counter is at least each conversation's, 0 iff every conversation has none, and a single conversation's own counter |
| `App.UnreadMessageTotalAppend` | src/App.tsx:202 | the total of two lists concatenated is the sum of their totals |
| `App.UnreadMessageTotalFold` | src/App.tsx:202 | the left fold `reduce` performs: the first counter plus the total of the rest |
| `App.AppState.constructor` | src/App.tsx:15-22 | not signed in, feed tab, seed collections, no viewed profile, empty query |
| `App.AppState.Login` | src/App.tsx:197-199 | afterwards signed in |
| `App.AppState.Like` | src/App.tsx:27-40 | the opportunities become LikeToggled of the old ones; no other field changes |
| `App.AppState.Save` | src/App.tsx:42-55 | the opportunities become SaveToggled of the old ones; no other field changes |
| `App.AppState.Connect` | src/App.tsx:79-90 | students become WithConnectRequest of the old ones; no other field changes |
| `App.AppState.AcceptRequest` | src/App.tsx:92-109 | both sides updated in one assignment (WithAccepted); no other field changes |
| `App.AppState.RejectRequest` | src/App.tsx:111-121 | students become WithRejected of the old ones; no other field changes |
| `App.AppState.OpenChat` | src/App.tsx:123-125 | the tab becomes chat, whoever the student is; nothing else changes |
| `App.AppState.ViewProfile` | src/App.tsx:127-130 | the viewed profile is the id and the tab is profile; the query is kept |
| `App.AppState.JoinClub` | src/App.tsx:133-143 | clubs become WithJoined of the old ones; no other field changes |
| `App.AppState.LeaveClub` | src/App.tsx:145-155 | clubs become WithLeft of the old ones; no other field changes |
| `App.AppState.EditProfile` | src/App.tsx:158-165 | students become WithProfileEdit of the old ones; no other field changes |
| `App.AppState.MarkAsRead` | src/App.tsx:168-172 | notifications become WithRead of the old ones; no other field changes |
| `App.AppState.MarkAllAsRead` | src/App.tsx:174-176 | notifications become AllRead of the old ones, and the unread badge is 0 |
| `App.AppState.NotificationClick` | src/App.tsx:178-194 | the tab becomes RouteFor of the type; viewed profile and query are kept |
| `App.AppState.NotificationRowClick` | src/components/NotificationsCard.tsx:151-156 | a row click wired to this component: marks that id read only if unread, then routes |
| `App.AppState.TabChange` | src/App.tsx:215-223 | tab set; viewed profile cleared unless the tab is profile; query cleared unless the tab is search |
| `App.AppState.SetSearchQuery` | src/App.tsx:232 | the query becomes the typed text |
| `App.AppState.SearchFocus` | src/components/Navbar.tsx:32-36 | focusing the search box shows the search tab; from another tab this forgets the viewed profile; the query is kept |
| `App.AppState.UnreadNotifications` | src/App.tsx:203 | the badge is the length of the unread list (exactly the unread notifications, in order), so at most the list length and 0 iff every notification is read |
| `App.AppState.DisplayedStudent` | src/App.tsx:209-212 | with a non-empty viewed id that some student has, the first student with that id; otherwise the current-user record |
| `ChatPage.TrimStart` | src/components/ChatPage.tsx:109 | a suffix of the input; everything dropped is white space; the result does not start with white space |
| `ChatPage.TrimEnd` | src/components/ChatPage.tsx:109 | a prefix of the input; everything dropped is white space; the result does not end with white space |
| `ChatPage.Trim` | src/components/ChatPage.tsx:109 | empty iff the text is all white space; otherwise neither end is white space |
| `ChatPage.InitialSelection` | src/components/ChatPage.tsx:17 | the first conversation's id, or none when there are no conversations or that id is empty |
| `ChatPage.Lookup` | src/components/ChatPage.tsx:106 | `messages[id] \|\| []`: the stored list, or empty when the id has no entry |
| `ChatPage.VisibleMessages` | src/components/ChatPage.tsx:106 | empty with no selection or no entry; otherwise the selected conversation's list |
| `ChatPage.WithMessage` | src/components/ChatPage.tsx:119-122 | the key's list grows by one at the end with earlier messages kept; a missing key gets a one-element list; all other lists unchanged |
| `ChatPage.SendShowsMessage` | src/components/ChatPage.tsx:106-122 | after a send the visible list is the old visible list plus the new message |
| `ChatPage.FormatDate` | src/components/ChatPage.tsx:131-139 | under a day old gives "Today"; one to two days gives "Yesterday"; otherwise, including the future, the calendar date |
| `ChatPage.ShowDate` | src/components/ChatPage.tsx:244-245 | the first message always gets a separator; a later one gets one iff its day label differs from the previous message's |
| `ChatPage.SeparatorAbove` | src/components/ChatPage.tsx:243-245 | every message sits under a separator at or above it, none in between, and all those messages share its day label |
| `ChatPage.ChatState.constructor` | src/components/ChatPage.tsx:17-19 | InitialSelection of the conversations, empty compose field, seeded message map |
| `ChatPage.ChatState.ChatMessages` | src/components/ChatPage.tsx:106 | the messages shown for the current state: none without a selection or entry, otherwise the selected list |
| `ChatPage.ChatState.SelectChat` | src/components/ChatPage.tsx:165 | the clicked conversation becomes the selection |
| `ChatPage.ChatState.SetMessage` | src/components/ChatPage.tsx:302 | the compose field holds the typed text |
| `ChatPage.ChatState.SendMessage` | src/components/ChatPage.tsx:108-124 | blank text or no selection: nothing changes; otherwise the untrimmed text is appended as own message from `"current"` to the selected list and the field is cleared |
| `NotificationsCard.Unread` | src/components/NotificationsCard.tsx:77 | exactly the unread notifications (each with its multiplicity) in original order |
| `NotificationsCard.UnreadCount` | src/components/NotificationsCard.tsx:80 | at most the list length, and 0 iff every notification is read |
| `NotificationsCard.Displayed` | src/components/NotificationsCard.tsx:76-78 | 'all' shows the whole list; 'unread' shows the unread ones in order, and their number is UnreadCount |
| `NotificationsCard.ShowMarkAll` | src/components/NotificationsCard.tsx:97-107 | "Mark all" is offered iff some notification is unread |
| `NotificationsCard.RowClick` | src/components/NotificationsCard.tsx:151-156 | a mark-read request first, only for an unread row and only once; the click is then forwarded iff a handler exists |
| `NotificationsCard.DismissClick` | src/components/NotificationsCard.tsx:192-201 | the hover button on an unread row marks it read and forwards nothing |
| `NotificationsCard.IconFor` | src/components/NotificationsCard.tsx:26-43 | one icon per type; comment and message share one; the bell exactly for unknown types |
| `NotificationsCard.ColorFor` | src/components/NotificationsCard.tsx:45-62 | the default colour exactly for unknown types |
| `NotificationsCard.ColorsDistinguishTypes` | src/components/NotificationsCard.tsx:45-62 | two types share a colour iff they are equal or both unknown |
| `NotificationsCard.ElapsedSeconds` | src/components/NotificationsCard.tsx:67 | the floor of the elapsed milliseconds over 1000 |
| `NotificationsCard.FormatTimestamp` | src/components/NotificationsCard.tsx:64-74 | under 60 s (or in the future) "Just now"; then whole minutes 1-59, hours 1-23, days 1-6, each bracketing the elapsed seconds; a week or more gives the calendar date |
| `SuggestionsCard.Qualifies` | src/components/SuggestionsCard.tsx:20-23 | not the current user, not one of their connections, same branch; nobody qualifies when the current user is missing |
| `SuggestionsCard.Candidates` | src/components/SuggestionsCard.tsx:19-24 | a subsequence of the students holding exactly the qualifying ones, each as often as in the input |
| `SuggestionsCard.Suggested` | src/components/SuggestionsCard.tsx:16-25 | at most 3, in list order; never the current user, a connection or another branch; the first qualifying students; every qualifying one when fewer than 3; none when the current user is missing |
| `SuggestionsCard.ShownSkills` | src/components/SuggestionsCard.tsx:59 | the first min(2, n) skills |

## Left out

- Rendering, CSS classes, animations and the Tailwind configuration: presentation only.
- The navigation bar's own copy of the typed query and its rendering. Its
  two handlers are modelled: typing forwards the text
  (`App.AppState.SetSearchQuery`), and focusing the box switches to the
  search tab (`App.AppState.SearchFocus`).
- The profile card and the notifications page wrapper. The card only draws.
  The wrapper only passes handlers through, and that wiring appears as
  `App.AppState.NotificationRowClick`.
- The search page's query filter: SearchPage.tsx is not part of this model.
  Only the query field and how tab changes clear it are modelled.
- `Date.now()` ids, ISO timestamps and `toLocale…String` formatting: these are
  clock and locale calls. Ids are parameters, timestamps are integer
  milliseconds, and the locale date is the `calendar` parameter.
  `formatTime` (time of day) is not modelled.
- The confirmation `alert` after a connection request: a browser side effect.
- The mock-data module and the type definitions are not part of this model.
  Seed collections and the current-user record are parameters. The chat
  page's hand-written initial messages are the `seed` map of the
  `ChatState` constructor. Field types the code does not reveal are modelled
  as follows:
  - a student's year is an `int`;
  - projects are strings;
  - a conversation's unread counter is a `nat`.
- `selectedConversation` (the chat header's lookup): used only for rendering.
- The chat page's lifetime: the root component renders it only while the chat
  tab is active. Leaving that tab throws away its sent messages, selection and
  compose text, and coming back starts a fresh `ChatState` from the seed.
  The model does not tie `ChatState` to `App.AppState.activeTab`.
- App.Patched: a key present in the update with the value `undefined` is
  treated as absent. The spread would overwrite the field with `undefined`,
  which a `Student` field cannot hold in this model.
- React scheduling: each `setX` is a field assignment taking effect at once.
  Handlers read the state of the last render, and the model reads the current
  field, which is the same for one handler per event.
- `ChatPage.Trim`: its contract fixes the emptiness test and the ends of the
  result. It does not state that the result is the contiguous middle of the
  input; that is left to the definitions of `TrimStart` and `TrimEnd`.
