# Rocket.Chat web client — a Dafny model of its client-side core

This project models the client-side logic of a React front end for a Rocket.Chat server:

- **State providers.** These are the rooms, messages, authentication, presence status, add-menu, navigation and keyboard-help contexts. Each becomes a class whose methods update its fields. The browser's `localStorage` is the class `Storage.LocalStore`.
- **Form and view handlers.** These are the login page, the channel-creation page, the user search dropdown and the channel and direct-message views. They are also classes. Their handlers take what the server answered as a parameter.
- **Pure helpers.** These are the user-profile readers, the time-zone label, the API error normaliser, the attachment helpers, the pinned-message preview, the layout's navigation choice and the global keyboard-shortcut dispatch. They are functions, with lemmas about them.

Every reply from the server is an explicit input of the operation that awaits it:

- a `{ success: true }` payload;
- a `{ success: false, error }` refusal;
- or an exception (for example `Wrappers.Reply`).

The clock is a number passed in. Date labels come from a function `dayOf` that is passed in, and so does lower-casing.

The model checks these properties:

- **Message lists.** Pages arrive newest first and are shown oldest first. Loading a page keeps the list chronological. A poll tick replaces the list only when the message count changes.
- **Channel membership.** Leaving a channel removes exactly that channel and keeps the order of the others.
- **Date grouping.** The grouping loop files every message under its own date label, in order.
- **Keyboard navigation.** Moving to the previous room undoes moving to the next one.
- **Time-zone label.** The corrected label reads back as the offset it was built from.

Two places where the code does not do what it evidently intends are recorded under "Findings". For each, the model has the code as written and the corrected behaviour.

## Model

| member | source | states |
|---|---|---|
| Wrappers.ErrorOf | src/context/RoomsContext.jsx:22-30 | a refusal leaves the service's own error, an exception leaves the fixed text, and a success leaves no error |
| Domain.OrElse | src/context/StatusContext.jsx:15 | `s \|\| fallback`: the string when it is non-empty, the fallback otherwise |
| Domain.Either | src/components/chat/MessageItem.jsx:37 | `a \|\| b` on optional strings: `a` when truthy, `b` otherwise, and truthy exactly when either is |
| Text.Trim | src/components/chat/ChannelView.jsx:33 | `trim()` is no longer than the input and neither starts nor ends with white space |
| Text.TrimStart | src/components/chat/ChannelView.jsx:33 | a suffix of the input that does not start with white space, and only white space was removed |
| Text.TrimEnd | src/components/chat/ChannelView.jsx:33 | a prefix of the input that does not end with white space, and only white space was removed |
| Text.TrimEmptyIffBlank | src/pages/AddPage.jsx:37 | `!name.trim()` holds exactly when every character is white space |
| Text.Join | src/components/chat/DMView.jsx:85 | `join(", ")` of one part is that part, and of no parts is empty |
| Text.JoinSnoc | src/components/chat/DMView.jsx:85 | `join` read left to right: one more part appends the separator and that part |
| Text.JoinStartsWithFirst | src/components/chat/DMView.jsx:85 | a joined list starts with its first part, followed by the separator when more parts follow |
| Text.DigitChar | src/utils/userUtils.js:81 | a digit becomes a digit character |
| Text.Decimal | src/utils/userUtils.js:81 | `toString()` of a number is a non-empty string of digits |
| Text.DecimalValue | src/utils/userUtils.js:81 | reading the decimal numeral back gives the number |
| Text.PadTwo | src/utils/userUtils.js:81 | `padStart(2, '0')`: the string stays at the end, padded to two characters when shorter |
| Seqs.Reversed | src/context/MessagesContext.jsx:48 | `reverse()` keeps the length |
| Seqs.ReversedAt | src/context/MessagesContext.jsx:48 | element `k` of the reversal is element `n-1-k` of the input |
| Seqs.ReversedTwice | src/context/MessagesContext.jsx:48 | reversing twice gives the list back |
| Seqs.ReversedSameElements | src/context/MessagesContext.jsx:51 | the reversal holds the same messages with the same multiplicities |
| Seqs.Keep | src/context/RoomsContext.jsx:84 | `filter`: an element is kept exactly when it was present and passes the test, and the result is no longer than the input |
| Seqs.KeepConcat | src/context/RoomsContext.jsx:84 | filtering distributes over concatenation, so kept elements keep their relative order |
| Seqs.KeepAll | src/context/RoomsContext.jsx:84 | a filter that every element passes changes nothing |
| Seqs.KeepCount | src/context/RoomsContext.jsx:84 | each element is kept with its full multiplicity or dropped entirely |
| Storage.LocalStore.ClearSession | src/context/AuthContext.jsx:132-134 | `authToken`, `userId` and `user` are removed; `username` stays |
| Grouping.DaysExact | src/components/chat/ChannelView.jsx:74-84 | the group keys are distinct and are exactly the date labels of the messages |
| Grouping.NoGroupWithoutDay | src/components/chat/ChannelView.jsx:74-84 | a label that no message carries has no messages |
| Grouping.EachMessageInOneGroup | src/components/chat/ChannelView.jsx:74-84 | a message sits in its own label's group with its full multiplicity, and in no other group |
| Grouping.DaysSnoc | src/components/chat/ChannelView.jsx:76-80 | one more message adds its label to the keys exactly when the label is new |
| Grouping.OnDaySnoc | src/components/chat/ChannelView.jsx:76-81 | one more message joins the end of its own label's group and of no other |
| Grouping.GroupStep | src/components/chat/ChannelView.jsx:76-81 | creating the group on first use and then pushing keeps the grouping exact |
| Grouping.GroupByDate | src/components/chat/ChannelView.jsx:74-84 | the loop's keys are the labels in order of first appearance, and each group is that label's messages in their original order |
| MessagesContext.FailureText | src/context/MessagesContext.jsx:53-57 | a failed load leaves the server's text or the fixed exception text; a success leaves none |
| MessagesContext.Optimistic | src/context/MessagesContext.jsx:114-130 | the temporary message carries the text, the stored sender, the clock's timestamp, and the thread id only when one was given |
| MessagesContext.AfterLoad | src/context/MessagesContext.jsx:46-51 | a first load leaves as many messages as the page holds; a later one puts the page in front of the unchanged list |
| MessagesContext.AfterPoll | src/context/MessagesContext.jsx:77-83 | the list is kept when the counts agree, and otherwise replaced by as many messages as the page holds |
| MessagesContext.FirstLoadReplaces | src/context/MessagesContext.jsx:46-48 | the first page becomes the whole list, oldest first |
| MessagesContext.OlderPagePrepends | src/context/MessagesContext.jsx:49-51 | a later page goes in front, reversed, and the current list follows unchanged |
| MessagesContext.PollTickOutcome | src/context/MessagesContext.jsx:79-82 | a tick keeps the list when the counts agree, even if the contents differ, and otherwise replaces it with the reversed page |
| MessagesContext.PollReplacementDropsLocal | src/context/MessagesContext.jsx:79-82 | after a replacement only server messages remain, so an optimistic message is lost |
| MessagesContext.ReversedNewestFirst | src/context/MessagesContext.jsx:48 | reversing a newest-first page gives a chronological list |
| MessagesContext.LoadKeepsChronological | src/context/MessagesContext.jsx:46-51 | loading keeps the list chronological when pages are newest first and an older page precedes the list |
| MessagesContext.MessageStore.constructor | src/context/MessagesContext.jsx:9-15 | empty lists, no error, not loading, not polling |
| MessagesContext.MessageStore.LoadMessages | src/context/MessagesContext.jsx:37-62 | no room: no change; otherwise the list follows the first-page or prepend rule, the error follows the reply, and loading ends |
| MessagesContext.MessageStore.LoadMoreMessages | src/context/MessagesContext.jsx:168-173 | a no-op without a room or while loading; otherwise a load at the current length |
| MessagesContext.MessageStore.PollTick | src/context/MessagesContext.jsx:73-87 | one tick: a successful fetch goes through the count rule, and a failure changes nothing |
| MessagesContext.MessageStore.StartPolling | src/context/MessagesContext.jsx:65-90 | the old interval is cleared, and a new one runs exactly when there is a room and a session |
| MessagesContext.MessageStore.StopPolling | src/context/MessagesContext.jsx:93-99 | no interval and not polling |
| MessagesContext.MessageStore.SendMessage | src/context/MessagesContext.jsx:102-143 | no room: fails with "No room selected"; success appends one optimistic message at the tail; a refusal or an exception sets the error and leaves the list unchanged |
| MessagesContext.MessageStore.GetDirectMessages | src/context/MessagesContext.jsx:146-165 | success returns the reversed reply and makes it the list; a failure returns and records the error |
| MessagesContext.MessageStore.LoadPinnedMessages | src/context/MessagesContext.jsx:176-189 | a successful reply for a room replaces the pinned list; anything else keeps it |
| MessagesContext.MessageStore.PinAction | src/context/MessagesContext.jsx:212-228 | success reloads the pinned list; a refusal or an exception reports its text and keeps the pinned list |
| MessagesContext.MessageStore.PinMessage | src/context/MessagesContext.jsx:212-228 | as PinAction, with the pin exception text |
| MessagesContext.MessageStore.UnpinMessage | src/context/MessagesContext.jsx:231-247 | as PinAction, with the unpin exception text |
| MessagesContext.MessageStore.ClearMessages | src/context/MessagesContext.jsx:250-253 | empty list and no error |
| MessagesContext.MessageStore.ClearError | src/context/MessagesContext.jsx:256-258 | no error |
| MessagesContext.MessageStore.SelectRoomForMessages | src/context/MessagesContext.jsx:261-263 | the room counts as explicitly selected |
| MessagesContext.MessageStore.OnSelectionChange | src/context/MessagesContext.jsx:20-34 | with a session, a room and an explicit selection: load, load the pinned list and poll; otherwise stop polling and empty the lists |
| RoomsContext.WithoutRoom | src/context/RoomsContext.jsx:84 | the rooms kept are exactly those whose id differs from the left room's |
| RoomsContext.LeaveCounts | src/context/RoomsContext.jsx:84 | every copy of the left room goes, and every other room stays as often as before |
| RoomsContext.LeaveKeepsOrder | src/context/RoomsContext.jsx:84 | the remaining rooms keep their relative order |
| RoomsContext.LeaveAbsentRoom | src/context/RoomsContext.jsx:84 | leaving a room the list does not hold changes nothing |
| RoomsContext.RoomStore.constructor | src/context/RoomsContext.jsx:8-12 | no rooms, no selection, no error, the info panel closed |
| RoomsContext.RoomStore.LoadRooms | src/context/RoomsContext.jsx:16-33 | success replaces the list, a failure keeps it, and the error follows the reply |
| RoomsContext.RoomStore.AuthEffect | src/context/RoomsContext.jsx:36-45 | signed in: load; signed out: no rooms, no selection |
| RoomsContext.RoomStore.SelectRoom | src/context/RoomsContext.jsx:48-51 | the selection becomes the room and the error is cleared |
| RoomsContext.RoomStore.JoinRoom | src/context/RoomsContext.jsx:54-74 | reports success exactly when the server accepts; success reloads the list, and a failure records the error |
| RoomsContext.RoomStore.LeaveRoom | src/context/RoomsContext.jsx:77-101 | success removes the room and clears the selection when it was the left room; a failure changes neither |
| RoomsContext.RoomStore.CreateRoom | src/context/RoomsContext.jsx:104-124 | success returns the created room and reloads the list; a failure returns and records the error |
| RoomsContext.RoomStore.ClearError | src/context/RoomsContext.jsx:147-149 | no error |
| RoomsContext.RoomStore.ToggleRoomInfo | src/context/RoomsContext.jsx:152-154 | the info panel flag flips |
| RoomsContext.RoomStore.CloseRoomInfo | src/context/RoomsContext.jsx:156-158 | the info panel is closed |
| AuthContext.ExtractUserInfo | src/context/AuthContext.jsx:15-28 | the ten kept fields are copied and everything else is dropped |
| AuthContext.ExtractIdempotent | src/context/AuthContext.jsx:15-28 | projecting twice is projecting once, and a record is a fixed point exactly when it has no other fields |
| AuthContext.LoginThrown | src/context/AuthContext.jsx:113-117 | a non-success answer throws "Login failed"; a server error body throws its `message`; a request error throws `undefined` |
| AuthContext.Session.constructor | src/context/AuthContext.jsx:31-33 | no user, not signed in, loading |
| AuthContext.Session.SignOut | src/context/AuthContext.jsx:69-73 | the session keys are removed and the state is signed out |
| AuthContext.Session.CheckAuth | src/context/AuthContext.jsx:37-86 | without a token and a user id: signed out; with a fresh profile: signed in with it, stored projected; failing that, the cached user; failing that, signed out; loading ends |
| AuthContext.Session.Login | src/context/AuthContext.jsx:92-121 | a `'success'` answer stores the token, the id and the projected user, and signs in; anything else throws and changes nothing |
| AuthContext.Session.Logout | src/context/AuthContext.jsx:125-138 | whatever the server answers, the session keys go and the state is signed out |
| AuthContext.Session.UpdateUser | src/context/AuthContext.jsx:141-145 | the state and the stored user become the same projected record |
| StatusContext.InitialStatus | src/context/StatusContext.jsx:11-17 | the stored status when it is non-empty, otherwise "offline" |
| StatusContext.WithStatus | src/context/StatusContext.jsx:26-28 | the stored profile, or an empty one, with only `status` replaced |
| StatusContext.WrittenStatusIsRead | src/context/StatusContext.jsx:11-28 | a status written back is the status read at the next start-up |
| StatusContext.StatusStore.constructor | src/context/StatusContext.jsx:7-8 | "offline", not updating |
| StatusContext.StatusStore.Init | src/context/StatusContext.jsx:11-17 | a stored profile decides the status; without one the status stays |
| StatusContext.StatusStore.UpdateUserStatus | src/context/StatusContext.jsx:20-40 | when the server accepts, the state and the stored profile take the status; a failure is rethrown and changes neither |
| StatusContext.StatusStore.SetOnline | src/context/StatusContext.jsx:43-45 | UpdateUserStatus with "online" |
| StatusContext.StatusStore.SetOffline | src/context/StatusContext.jsx:48-50 | UpdateUserStatus with "offline" |
| StatusContext.StatusStore.SetCustomStatus | src/context/StatusContext.jsx:53-55 | UpdateUserStatus with any status |
| StatusContext.StatusStore.CurrentStatus | src/context/StatusContext.jsx:58 | the current status |
| AddContext.CloseFormIsHide | src/context/AddContext.jsx:18-36 | `closeForm` and `hideAddMenu` have the same effect from every state |
| AddContext.StepCoherent | src/context/AddContext.jsx:11-36 | after any operation the menu and the form are never both shown, and without a form no option is chosen |
| AddContext.RunCoherent | src/context/AddContext.jsx:6-36 | no sequence of operations from the initial state breaks that coherence |
| AddContext.AddMenu.constructor | src/context/AddContext.jsx:6-8 | nothing shown, nothing chosen |
| AddContext.AddMenu.ShowMenu | src/context/AddContext.jsx:11-15 | the menu is shown; the form is hidden and the choice cleared |
| AddContext.AddMenu.HideMenu | src/context/AddContext.jsx:18-22 | everything is hidden and the choice cleared |
| AddContext.AddMenu.SelectOption | src/context/AddContext.jsx:25-29 | the option is chosen, the form is shown and the menu hidden |
| AddContext.AddMenu.Close | src/context/AddContext.jsx:32-36 | everything is hidden and the choice cleared |
| NavigationContext.RunSnoc | src/context/NavigationContext.jsx:17-24 | running one more operation applies it to the result so far |
| NavigationContext.NavChangeClearsSelection | src/context/NavigationContext.jsx:17-20 | after a navigation change nothing is selected, whatever came before |
| NavigationContext.SelectionsKeepNav | src/context/NavigationContext.jsx:22-24 | selections alone never move the active entry |
| NavigationContext.Navigation.constructor | src/context/NavigationContext.jsx:14-15 | the "home" entry is active and nothing is selected |
| NavigationContext.Navigation.HandleNavChange | src/context/NavigationContext.jsx:17-20 | the entry becomes active and the selection is cleared |
| NavigationContext.Navigation.HandleItemSelect | src/context/NavigationContext.jsx:22-24 | only the selected item changes |
| KeyboardShortcutsContext.ToggleTwiceRestores | src/context/KeyboardShortcutsContext.jsx:8-14 | two toggles restore the flag, and hiding twice is hiding once |
| KeyboardShortcutsContext.RunIsParity | src/context/KeyboardShortcutsContext.jsx:8-10 | a run of toggles flips the flag once per toggle |
| KeyboardShortcutsContext.Help.constructor | src/context/KeyboardShortcutsContext.jsx:6 | the help is hidden |
| KeyboardShortcutsContext.Help.Toggle | src/context/KeyboardShortcutsContext.jsx:8-10 | the flag flips |
| KeyboardShortcutsContext.Help.Hide | src/context/KeyboardShortcutsContext.jsx:12-14 | the help is hidden |
| KeyboardShortcuts.FindIndex | src/hooks/useKeyboardShortcuts.js:20 | the first position holding the id, or -1 exactly when the id is absent |
| KeyboardShortcuts.CurrentIndex | src/hooks/useKeyboardShortcuts.js:20 | -1 exactly when there is no current entry or it is not in the list |
| KeyboardShortcuts.PrevIndex | src/hooks/useKeyboardShortcuts.js:21 | one back, wrapping from the first entry, or from none, to the last; always in range |
| KeyboardShortcuts.NextIndex | src/hooks/useKeyboardShortcuts.js:33 | one forward, wrapping from the last entry to the first; none found gives the first; always in range |
| KeyboardShortcuts.PrevNextInverse | src/hooks/useKeyboardShortcuts.js:18-40 | from a found entry, previous undoes next and next undoes previous |
| KeyboardShortcuts.PreviousTarget | src/hooks/useKeyboardShortcuts.js:18-28 | a target exists exactly on "/home" with rooms or on "/dms" with DMs, and it indexes that list |
| KeyboardShortcuts.NextTarget | src/hooks/useKeyboardShortcuts.js:30-40 | a target exists exactly on "/home" with rooms or on "/dms" with DMs, and it indexes that list |
| KeyboardShortcuts.StartsAtTheEnds | src/hooks/useKeyboardShortcuts.js:18-40 | with no current room, next picks the first room and previous the last |
| KeyboardShortcuts.FoundAtOwnPosition | src/hooks/useKeyboardShortcuts.js:20 | in a list of distinct ids, an entry is found at its own position |
| KeyboardShortcuts.NextThenPrevious | src/hooks/useKeyboardShortcuts.js:18-40 | moving to the next room and then back lands on the room that was current |
| KeyboardShortcuts.HandleKeyDown | src/hooks/useKeyboardShortcuts.js:42-137 | nothing while typing; Escape hides the menu; Alt+arrows go through history; Ctrl+N/L/? show the menu, log out, toggle help; Ctrl+arrows cycle; at most one effect |
| KeyboardShortcuts.CtrlNavigation | src/hooks/useKeyboardShortcuts.js:58-79 | Ctrl with 1, 2, 3, 4 and k navigates to home, DMs, pinned, search and search |
| UserUtils.DisplayName | src/utils/userUtils.js:6-9 | the name, else the username, else "Unknown User"; never empty |
| UserUtils.PrimaryEmail | src/utils/userUtils.js:14-17 | the first address exactly when `emails` is an array with a first entry that has one |
| UserUtils.HasRole | src/utils/userUtils.js:22-25 | never without a user whose `roles` is an array; with one, exactly when the role is in it |
| UserUtils.IsAdmin | src/utils/userUtils.js:22-32 | admin exactly when `roles` is an array holding "admin" |
| UserUtils.IsOnline | src/utils/userUtils.js:37-40 | never without a user; with one, exactly when both the chosen and the connection status are "online" |
| UserUtils.Avatar | src/utils/userUtils.js:45-55 | the avatar URL exactly when the user has a non-empty one |
| UserUtils.UserStatus | src/utils/userUtils.js:60-68 | a connected user shows the chosen status, or "online"; anyone else shows "offline" |
| UserUtils.OnlineShowsOnline | src/utils/userUtils.js:37-68 | an online user shows "online", and a status other than "offline" means connected |
| UserUtils.JsRemainder | src/utils/userUtils.js:79 | JavaScript's `%`: the remainder has the sign of the dividend, and its magnitude is the remainder of the magnitudes |
| UserUtils.TimezoneLabelAsWritten | src/utils/userUtils.js:73-82 | "UTC" without an offset; otherwise the label with hours `abs(floor(offset/60))` and minutes `abs(offset % 60)` |
| UserUtils.OffsetMinutes | src/utils/userUtils.js:79 | the minute part is below 60 |
| UserUtils.TimezoneLabel | src/utils/userUtils.js:73-82 | "UTC" without an offset; otherwise a label of at least nine characters that starts with "UTC" |
| UserUtils.SmallDecimal | src/utils/userUtils.js:81 | a number below 100 has at most two digits |
| UserUtils.PadTwoValue | src/utils/userUtils.js:81 | zero padding does not change the number a numeral denotes |
| UserUtils.PartsDenoteOffset | src/utils/userUtils.js:77-79 | the sign times (60 × hours + minutes) of the corrected parts is the offset, and 60 × hours + minutes is its magnitude |
| UserUtils.SplitComposed | src/utils/userUtils.js:81 | a composed label splits back into its sign, hours and minutes |
| UserUtils.ParseParts | src/utils/userUtils.js:81 | a split label reads as its sign times its total minutes |
| UserUtils.PaddedNumeral | src/utils/userUtils.js:81 | a padded numeral denotes its number and is two digits below 100 |
| UserUtils.LabelParts | src/utils/userUtils.js:81 | any label with minutes below 60 reads back as its signed total of minutes |
| UserUtils.LabelOfParts | src/utils/userUtils.js:76-81 | a label whose hours and minutes split the offset's magnitude, signed as the offset, reads back as the offset |
| UserUtils.LabelRoundTrip | src/utils/userUtils.js:76-81 | the corrected label reads back as the offset |
| UserUtils.TimezoneLabelRoundTrip | src/utils/userUtils.js:73-82 | the corrected label of a user with an offset reads back as that offset |
| UserUtils.AsWrittenHours | src/utils/userUtils.js:78-79 | as written, a negative offset that is not a whole number of hours gets one hour too many; the minutes are right |
| UserUtils.SmallLabels | src/utils/userUtils.js:81 | the two labels of the example below, spelled out |
| UserUtils.AsWrittenParts | src/utils/userUtils.js:78-79 | -330 minutes gets 6 h 30 as written and 5 h 30 corrected |
| UserUtils.AsWrittenMislabels | src/utils/userUtils.js:78-79 | -330 is labelled "UTC-06:30" as written, which reads back as -390; the corrected label is "UTC-05:30" |
| ApiErrorHandler.StatusText | src/utils/apiErrorHandler.js:14-34 | 400, 401, 403 and 404 have their own texts, and every other status gets the server-error text |
| ApiErrorHandler.HandleApiError | src/utils/apiErrorHandler.js:4-41 | no response: status 0 with the network text; otherwise the status is passed through, a non-empty body message wins, the status text is the fallback, and the message is never empty |
| ApiErrorHandler.FallbackTextsDistinct | src/utils/apiErrorHandler.js:16-34 | the four client-error texts tell the statuses apart and are never the network text |
| ApiErrorHandler.ServerMessageWins | src/utils/apiErrorHandler.js:4-34 | a non-empty server message is shown as it is, whatever the status, and a missing response reports status 0 |
| ApiErrorHandler.CollectedKeys | src/utils/apiErrorHandler.js:49-54 | the keys of the reduced map are exactly the entries' fields, with "general" for an entry without one |
| ApiErrorHandler.LastEntryWins | src/utils/apiErrorHandler.js:49-54 | each key holds the message of the last entry filed under it |
| ApiErrorHandler.FormatValidationErrors | src/utils/apiErrorHandler.js:44-62 | a string becomes the general error; a list is reduced entry by entry; an object is returned as it is; anything else becomes "Validation failed" |
| Layout.CurrentNav | src/components/layout/Layout.jsx:12-18 | "/dms" and "/search" select their entries, and every other path selects "home" |
| Layout.OwnPathSelects | src/components/layout/Layout.jsx:12-18 | each entry's own path selects it |
| UserProfileDropdown.StatusColor | src/components/UserProfileDropdown.jsx:25-33 | the four known statuses have their colours; the grey fallback is used exactly for any other status |
| UserProfileDropdown.StatusText | src/components/UserProfileDropdown.jsx:35-43 | the four known statuses have their labels; "Offline" is used exactly for any other status |
| UserProfileDropdown.SelectableDistinct | src/components/UserProfileDropdown.jsx:25-43 | the offered statuses have distinct colours and labels, none of them the fallback ones |
| UserProfileDropdown.Render | src/components/UserProfileDropdown.jsx:45-61 | nothing without a user; otherwise the first letter of the name, else of the username, else "U"; the title is the name when it is not empty, else the username (possibly none); the handle is the username |
| MessageItem.LinkCandidate | src/components/chat/MessageItem.jsx:37 | the first truthy of `image_url`, `title_link` and `url`; truthy exactly when one of them is |
| MessageItem.FileUrl | src/components/chat/MessageItem.jsx:35-53 | "#" without a link; an `http` link as it is; a rooted path after the server URL; any other path after the server URL and a slash |
| MessageItem.NoLinkIffNoCandidate | src/components/chat/MessageItem.jsx:35-53 | the link is "#" exactly when the attachment has no link candidate |
| MessageItem.DownloadTarget | src/components/chat/MessageItem.jsx:55-60 | a link is opened only when it is the built URL and not "#" |
| MessageItem.DownloadOpensIffLink | src/components/chat/MessageItem.jsx:55-60 | the download opens a window exactly when the attachment has a link candidate |
| MessageItem.FileName | src/components/chat/MessageItem.jsx:31-33 | `title`, else `file.name`, else `name`, else "Unknown file"; never empty |
| MessageItem.FileSize | src/components/chat/MessageItem.jsx:27-29 | `image_size`, else `file.size`, else `size`, else 0, with zero counting as missing |
| MessageItem.MediaKind | src/components/chat/MessageItem.jsx:10-12 | the image, video or audio kind exactly for a type with that prefix, and none for any other type |
| MessageItem.IconKindsPartition | src/components/chat/MessageItem.jsx:7-16 | a media prefix alone decides its icon, so an `image/` type is never a document; the document icon goes exactly to the other types mentioning pdf or document, the generic icon to the rest |
| MessageItem.FileIcon | src/components/chat/MessageItem.jsx:7-16 | no attachment or no non-empty type gives the generic icon; otherwise the first match, in order, of an `image/`, `video/` or `audio/` prefix, then a mention of pdf or document, else the generic icon |
| PinnedMessagesDrawer.Truncate | src/components/chat/PinnedMessagesDrawer.jsx:30-33 | a message that fits is kept whole; a longer one keeps its first `maxLength` characters followed by "..." |
| PinnedMessagesDrawer.TruncateBounds | src/components/chat/PinnedMessagesDrawer.jsx:30-33 | a preview is at most the limit plus three, starts like the message, and is shorter than any message longer than the limit plus three |
| PinnedMessagesDrawer.Visible | src/components/chat/PinnedMessagesDrawer.jsx:35 | the drawer shows exactly when something is pinned |
| UserSearch.Unselected | src/components/ui/UserSearchDropdown.jsx:47-49 | at most the users found, each one found and sharing no id with a selected user |
| UserSearch.UnselectedExact | src/components/ui/UserSearchDropdown.jsx:46-50 | a found user is offered exactly when no selected user has its id |
| UserSearch.WithUser | src/components/ui/UserSearchDropdown.jsx:62 | the selection with the user appended at the end |
| UserSearch.WithoutUser | src/components/ui/UserSearchDropdown.jsx:68-70 | exactly the selected users whose id differs |
| UserSearch.RemoveKeepsOthers | src/components/ui/UserSearchDropdown.jsx:68-70 | removal drops every copy of that id, keeps every other user as often, and keeps their order |
| UserSearch.ChosenUserNotOffered | src/components/ui/UserSearchDropdown.jsx:46-66 | a user just chosen is not offered again |
| UserSearch.Picker.constructor | src/components/ui/UserSearchDropdown.jsx:6-10 | closed, empty query, no results, not loading, no error |
| UserSearch.Picker.SearchUsers | src/components/ui/UserSearchDropdown.jsx:39-59 | success offers the unselected users found; a failure keeps the results and records the error; loading ends |
| UserSearch.Picker.QueryChanged | src/components/ui/UserSearchDropdown.jsx:15-25 | a blank query empties the results without searching; any other query searches |
| UserSearch.Picker.HandleUserSelect | src/components/ui/UserSearchDropdown.jsx:61-66 | the user is appended to the selection; the query and results are cleared and the dropdown closes |
| UserSearch.Picker.HandleInputFocus | src/components/ui/UserSearchDropdown.jsx:72-77 | the dropdown opens, and it searches exactly when the query is not blank |
| AddPage.Usernames | src/pages/AddPage.jsx:101 | the members' usernames, one per member, in selection order |
| AddPage.NameTaken | src/pages/AddPage.jsx:47-49 | taken exactly when some existing channel has the same lower-cased name, so always when the exact name exists |
| AddPage.ChannelPayload | src/pages/AddPage.jsx:99-110 | the request names the trimmed channel and lists the members' usernames, one per member, in selection order |
| AddPage.PayloadShape | src/pages/AddPage.jsx:99-110 | the request names the trimmed channel, lists the usernames in order, excludes the creator and sets the fixed flags |
| AddPage.ChannelForm.constructor | src/pages/AddPage.jsx:14-33 | an empty form, undecided validity, not submitting, no error |
| AddPage.ChannelForm.HandleNameChange | src/pages/AddPage.jsx:163-169 | only the name changes |
| AddPage.ChannelForm.HandleMembersChange | src/pages/AddPage.jsx:172-181 | only the members change |
| AddPage.ChannelForm.ValidateChannelName | src/pages/AddPage.jsx:36-78 | a blank name resets the validity; a name taken case-insensitively is invalid; a free one is valid; a refusal or an exception is invalid with its text; valid exactly when the server answered and the name is free |
| AddPage.ChannelForm.HandleChannelSubmit | src/pages/AddPage.jsx:90-138 | nothing happens unless the name is not blank and known valid; then success closes the form, and a failure records the error |
| LoginPage.FormErrors | src/pages/LoginPage.jsx:32-45 | one error per empty field and nothing else |
| LoginPage.SpacesPass | src/pages/LoginPage.jsx:35-41 | a username of spaces passes validation |
| LoginPage.GeneralErrorAsWritten | src/pages/LoginPage.jsx:59-62 | as written: any thrown string shows the default text, and a thrown `undefined` sets no error |
| LoginPage.ServerMessageNeverShown | src/pages/LoginPage.jsx:59-62 | as written, the server's refusal text never reaches the form |
| LoginPage.GeneralError | src/pages/LoginPage.jsx:61 | corrected: the thrown message when there is one, the default text otherwise |
| LoginPage.IntendedShowsServerMessage | src/pages/LoginPage.jsx:61 | corrected: a refusal with a message shows that message, a thrown text shows the default text, where as written a thrown text sets nothing |
| LoginPage.LoginForm.constructor | src/pages/LoginPage.jsx:11-15 | empty fields and no errors |
| LoginPage.LoginForm.HandleInputChange | src/pages/LoginPage.jsx:17-30 | only the named field changes, and its error is blanked only when one was shown |
| LoginPage.LoginForm.ValidateForm | src/pages/LoginPage.jsx:32-45 | the error map is replaced, and the form is valid exactly when neither field is empty |
| LoginPage.LoginForm.HandleSubmit | src/pages/LoginPage.jsx:47-63 | an invalid form stops at validation; success signs in and goes home; as written, a failure that rethrows a string sets only the general error to the default text, and one that rethrows `undefined` sets no error |
| ChannelView.IsCurrentUser | src/components/chat/ChannelView.jsx:186 | never mine without a sender or a sender `_id`; a string id is mine exactly when the same string is stored; a `null` id is mine exactly when no user id is stored |
| ChannelView.OwnOptimisticMessage | src/components/chat/ChannelView.jsx:186 | a message this browser appended shows as its own exactly while the store holds the user id it was built with, also when that is none |
| ChannelView.Composer.constructor | src/components/chat/ChannelView.jsx:11-12 | an empty input, not sending |
| ChannelView.Composer.HandleSendMessage | src/components/chat/ChannelView.jsx:31-44 | nothing for blank text or while sending; otherwise the trimmed text is sent, the input is cleared whenever the store's send returns, and the store's list, error and loading flag change as its `sendMessage` sets them |
| DMView.OtherUsernames | src/components/chat/DMView.jsx:84 | exactly the participants other than the current user |
| DMView.DisplayName | src/components/chat/DMView.jsx:84-85 | "Unknown User" when nobody else takes part, the one other participant, or the first one followed by ", " |
| DMView.DisplayNameJoins | src/components/chat/DMView.jsx:84-85 | with other participants, the name is their usernames joined with ", " in order (read left to right by JoinSnoc) |
| DMView.TwoPartyName | src/components/chat/DMView.jsx:84-85 | a one-to-one conversation is listed under the other participant's username |
| DMView.FindDM | src/components/chat/DMView.jsx:83-87 | a conversation listed under the name, and none exactly when no conversation is listed under it |
| DMView.FindDMIsFirstMatch | src/components/chat/DMView.jsx:83-87 | the conversation found is the first one listed under the name |
| DMView.SelectedConversation | src/components/chat/DMView.jsx:178-184 | none without a selection; otherwise the conversation listed under it |
| DMView.ReplyPrefill | src/components/chat/DMView.jsx:249-250 | "@" + username, else name, else "Unknown", then a space |
| DMView.HasThreadReplies | src/components/chat/DMView.jsx:340-342 | a message has replies exactly when its reply count is present and at least one |
| DMView.ThreadReply | src/components/chat/DMView.jsx:323-330 | the temporary reply carries the text, the conversation, the clock and the parent's id |
| DMView.MainMessages | src/components/chat/DMView.jsx:370 | exactly the messages that are not thread replies |
| DMView.GroupMainMessagesByDate | src/components/chat/DMView.jsx:367-379 | the date grouping of the main messages, and no group holds a thread reply |
| DMView.Panel.constructor | src/components/chat/DMView.jsx:42-52 | an empty input, no thread, no conversation, no file |
| DMView.Panel.SyncSelection | src/components/chat/DMView.jsx:80-98 | a matching conversation becomes current; with no selection or no DMs there is none |
| DMView.Panel.HandleSendMessage | src/components/chat/DMView.jsx:173-195 | nothing for blank text, while sending, or without a matching conversation; otherwise the trimmed text goes to it, and the input is cleared whenever the send returns, and kept only when it throws |
| DMView.Panel.HandleFileUpload | src/components/chat/DMView.jsx:151-170 | needs a file, a conversation and no upload running; success clears the file and the input |
| DMView.Panel.LoadThreadMessages | src/components/chat/DMView.jsx:125-138 | the server's replies, or an empty thread on any failure |
| DMView.Panel.StartThread | src/components/chat/DMView.jsx:290-297 | the parent is recorded, the thread shown, and its replies loaded |
| DMView.Panel.CloseThread | src/components/chat/DMView.jsx:300-304 | the thread is hidden and emptied |
| DMView.Panel.HandleSendThreadMessage | src/components/chat/DMView.jsx:307-337 | nothing without a parent, for blank text or without a conversation; success appends the optimistic reply |
| DMView.Panel.HandleReply | src/components/chat/DMView.jsx:249-251 | the input becomes the mention of the sender |
| DMView.Panel.HandleFileSelect | src/components/chat/DMView.jsx:141-143 | the file is chosen |
| DMView.Panel.HandleFileRemove | src/components/chat/DMView.jsx:146-148 | no file is chosen |

## Left out

- Timers. Polling intervals, the debounce delays (300 ms for the user search, 500 ms for the name check) and `setTimeout` focus calls are left out. A poll tick, a debounced effect and an interval that is running are modelled as explicit calls and a flag.
- HTTP transport and the services. The server's answer is a parameter, and the axios interceptors are not part of this model.
- `getThreadMessages`, `getAllPinnedMessages`, `getRoomInfo` and `getChannelMembers`: left out. They only forward to a service and return its answer.
- The DM view's loads. The view also reads `dms` and `dmMessages` from the messages context and calls `loadDMMessages`, `sendDMMessage`, `uploadDMFile` and the polling callbacks, none of which the context provides. The list of conversations `dms` is a parameter of `SyncSelection`, `HandleSendMessage` and `HandleSendThreadMessage`; the calls' results are parameters; `dmMessages` and the loads are not modelled.
- The DM form of the add page (`handleDMSubmit`, `handleDMChange`): left out. It is an unfinished stub that calls an undefined setter.
- The keyboard shortcuts read `dms`, `currentDM`, `setCurrentRoom` and `setCurrentDM`, which the providers do not export. The model takes the lists and selections as inputs and returns the entry to select.
- `formatFileSize`: left out, because it is floating-point arithmetic. Date and time formatting, and the locale, are a function parameter `dayOf`.
- `utcOffset` is modelled as a whole number of minutes. A fractional offset is not modelled.
- JSON parsing. A stored profile is the parsed record itself, and a parse failure is not modelled. `null` and `undefined` are one missing value, except for a sender's `_id`, where an optimistic message's `null` is kept apart from a missing field. String lengths count characters, not UTF-16 code units.
- Lower-casing for the channel-name check is a parameter `lower`, not Unicode case folding.
- Concurrency. Two handlers that interleave across an `await`, and a stale validation answer that arrives after the name has changed, are not modelled. Each handler runs to completion.
- The status `message` argument of `updateUserStatus` and the `size` argument of `getUserAvatar` are not modelled, because neither changes any result the client keeps.
- Rendering, `window.open`, scrolling, focus, the outside-click handlers and console logging are left out. The dropdown's `handleProfile` and `handleLogout` only forward to props.
- MessageItem.DownloadTarget: only says what it opens, not the empty-string check, because a built URL is never empty (DownloadOpensIffLink).

## Findings

| source | as written | input that shows it | evidently intended | confidence | as-written member | corrected member |
|---|---|---|---|---|---|---|
| src/utils/userUtils.js:78-79 | the hours are `abs(floor(offset / 60))` | an offset of -330 minutes (UTC-5:30) is labelled "UTC-06:30" | hours and minutes split the absolute offset, giving "UTC-05:30" | not executed | UserUtils.AsWrittenMislabels | UserUtils.TimezoneLabelRoundTrip |
| src/pages/LoginPage.jsx:61 with src/context/AuthContext.jsx:117 | the page shows `error.message` of a thrown string, or of `undefined` | a server refusal with the message "Invalid password" shows the default text, and a network failure sets no error | the thrown message is shown, else the default text | not executed | LoginPage.ServerMessageNeverShown | LoginPage.GeneralError |
