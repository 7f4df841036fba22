# Messaging app screens, modelled in Dafny

This project models the behaviour behind the screens of a mock messaging app, a React
front end whose state lives in component hooks. The model covers:

- the chat-list pipelines: archive exclusion, search, filter chips and the pinned-first sort;
- the quick-action handlers: select, pin, mute, archive and delete;
- the contacts and archived-chats lists;
- the phone-verification keypads and the seven-step onboarding machine;
- the change-number wizard;
- the one-to-one and group chat timelines, with delivery status and simulated replies;
- the media viewer's wrap-around navigation and clamped zoom;
- the story viewer;
- the call screen's `mm:ss` display;
- the notification-settings record.

The code is modelled in the form it has:

- An expression handed to a `filter`, `sort` or state setter is a function. Its meaning is proved in lemmas about membership, permutation, order, round trips and involutions.
- A handler that updates hook state is a method of a `class` whose fields are that state.
- Each method's `ensures` gives the new state in terms of the old state and those functions.
- A timer or interval callback is one step method.
- A random choice is an index parameter.
- A parent callback (`onVerified`, `onComplete`, `onNext`, `console.log`) is a boolean or value out-parameter.

Shared modules:

- `Text` defines JavaScript string helpers: `toLowerCase` as an ASCII fold, `includes`, `trim`, `localeCompare` as code-point order, `toString` and `padStart(2, "0")`.
- `Seqs` defines `filter` and an insertion `sort` driven by a comparator.
- `ChatData` is the chat and group records.
- `Wrappers` is `Option`.

## Model

| member | source | states |
|---|---|---|
| MainAppScreenHelpers.Toggle | client/components/MainAppScreenHelpers.tsx:9-13 | the id is in the result iff it was absent; an absent id is appended at the end; every other id keeps its membership; removing the id afterwards gives the same list as removing it before |
| MainAppScreenHelpers.RemoveAll | client/components/MainAppScreenHelpers.tsx:11 | `filter(id => id !== x)`: x is gone, every other id keeps its membership, and the result is a subsequence of the input (order kept) |
| MainAppScreenHelpers.RemoveAllAbsent | client/components/MainAppScreenHelpers.tsx:11 | removing an id that is not there returns the list unchanged |
| MainAppScreenHelpers.RemoveAllAppend | client/components/MainAppScreenHelpers.tsx:11 | removal distributes over concatenation |
| MainAppScreenHelpers.ToggleTwiceAbsent | client/components/MainAppScreenHelpers.tsx:9-13 | toggling an absent id twice restores the original list |
| MainAppScreenHelpers.ToggleTwicePresent | client/components/MainAppScreenHelpers.tsx:9-13 | toggling a present id twice removes every copy and appends one copy at the end |
| MainAppScreenHelpers.ToggleChatSelection | client/components/MainAppScreenHelpers.tsx:4-14 | the chat id becomes selected iff it was not, and every other id keeps its membership; ToggleHandlersAgree shows the handler is `Toggle` of `prev` |
| MainAppScreenHelpers.TogglePinChat | client/components/MainAppScreenHelpers.tsx:16-26 | the chat id becomes pinned iff it was not, and every other id keeps its membership |
| MainAppScreenHelpers.ToggleMuteChat | client/components/MainAppScreenHelpers.tsx:28-38 | the chat id becomes muted iff it was not, and every other id keeps its membership |
| MainAppScreenHelpers.ToggleHandlersAgree | client/components/MainAppScreenHelpers.tsx:4-38 | the select, pin and mute handlers all compute the same toggle of `prev`, whatever snapshot list they are passed |
| MainAppScreenHelpers.ArchiveSelectedChats | client/components/MainAppScreenHelpers.tsx:40-49 | archived becomes prev ++ selected with no dedup, so its length grows by exactly the selection's length; selection is emptied, selection mode is off, pinned and muted are kept |
| MainAppScreenHelpers.DeleteSelectedChats | client/components/MainAppScreenHelpers.tsx:51-58 | selection is emptied and selection mode is off; archived, pinned and muted are untouched |
| ChatData.ChatIds | client/components/EnhancedMainAppScreen.tsx:365 | `chats.map(c => c.id)`: the same length, with the id of chat i at position i |
| ChatData.MatchesSearch | client/components/EnhancedMainAppScreen.tsx:248-252 | the shared search clause, also at EnhancedMainAppScreen.tsx:281-285 and MainAppScreen.tsx:302-307; its meaning in the lists is stated by EnhancedMainAppScreen.FilteredChatsMembers, FilteredGroupsMembers and MainAppScreen.FilteredMembers |
| ChatData.VisibleChats | client/components/EnhancedMainAppScreen.tsx:242 | the archive exclusion of chats; VisibleMembers states it as a membership iff |
| ChatData.VisibleGroups | client/components/EnhancedMainAppScreen.tsx:243 | the archive exclusion of groups, against the same archive list; VisibleMembers states it as a membership iff |
| ChatData.VisibleMembers | client/components/EnhancedMainAppScreen.tsx:242-243 | a chat or group is visible iff it is in the list and its id is not archived |
| EnhancedMainAppScreen.NextSortBy | client/components/EnhancedMainAppScreen.tsx:503-510 | the sort button always changes the mode |
| EnhancedMainAppScreen.SortByCycle | client/components/EnhancedMainAppScreen.tsx:503-510 | three presses return the original mode (time, then name, then unread, then time) |
| EnhancedMainAppScreen.KeepsChat | client/components/EnhancedMainAppScreen.tsx:246-261 | the filter callback, written as the source's early returns, keeps a chat iff it matches the search and the selected chip admits it |
| EnhancedMainAppScreen.KeepsGroup | client/components/EnhancedMainAppScreen.tsx:280-293 | the group callback keeps a group iff it matches the search and the chip admits it, where "online" admits every group |
| EnhancedMainAppScreen.ChatCompare | client/components/EnhancedMainAppScreen.tsx:262-273 | a pinned chat sorts before an unpinned one; within a pin class "unread" puts the larger count first; under "time" no two chats compare equal |
| EnhancedMainAppScreen.ChatOrderConsistent | client/components/EnhancedMainAppScreen.tsx:262-273 | under "name" and "unread" the comparator (pinned first, then name or unread) is a total preorder |
| EnhancedMainAppScreen.FilteredChats | client/components/EnhancedMainAppScreen.tsx:242-278 | the chat pipeline; FilteredChatsMembers, FilteredChatsPermutation and FilteredChatsOrder state what it lists and in which order |
| EnhancedMainAppScreen.FilteredGroups | client/components/EnhancedMainAppScreen.tsx:280-293 | the group pipeline; FilteredGroupsMembers and FilteredGroupsKeepOrder state what it lists and in which order |
| EnhancedMainAppScreen.FilteredChatsMembers | client/components/EnhancedMainAppScreen.tsx:242-261 | a chat is listed iff it is in the input, its id is not archived, its lower-cased name contains the lower-cased query (or the query is empty), and the selected chip admits it (unread > 0, pinned, online, muted, or anything for "all") |
| EnhancedMainAppScreen.FilteredChatsPermutation | client/components/EnhancedMainAppScreen.tsx:246-278 | the sorted list is a permutation of the filtered list and a sub-multiset of all chats |
| EnhancedMainAppScreen.FilteredChatsOrder | client/components/EnhancedMainAppScreen.tsx:262-273 | under "name" and "unread" a pinned chat never follows an unpinned one; within one pin class "unread" is descending by count and "name" ascending by name |
| EnhancedMainAppScreen.NothingArchivedListed | client/components/EnhancedMainAppScreen.tsx:242-243 | no listed chat or group has an archived id |
| EnhancedMainAppScreen.FilteredGroupsMembers | client/components/EnhancedMainAppScreen.tsx:280-293 | a group is listed iff it is visible, matches the search and is admitted by its chip; under "online" every matching group is kept |
| EnhancedMainAppScreen.FilteredGroupsKeepOrder | client/components/EnhancedMainAppScreen.tsx:280-293 | the groups are a subsequence of the input, in input order |
| EnhancedMainAppScreen.Screen.constructor | client/components/EnhancedMainAppScreen.tsx:85-95 | empty query, "all" chip, time sort, empty selection, pinned [1, 3], muted [4], nothing archived |
| EnhancedMainAppScreen.Screen.Chats | client/components/EnhancedMainAppScreen.tsx:242-278 | the chats drawn on each render never include an archived id |
| EnhancedMainAppScreen.Screen.Groups | client/components/EnhancedMainAppScreen.tsx:280-293 | the groups drawn on each render never include an archived id |
| EnhancedMainAppScreen.Screen.ToggleChatSelection | client/components/EnhancedMainAppScreen.tsx:296-302 | the selection becomes its toggle by the id |
| EnhancedMainAppScreen.Screen.TogglePinChat | client/components/EnhancedMainAppScreen.tsx:304-310 | the pinned list becomes its toggle by the id |
| EnhancedMainAppScreen.Screen.ToggleMuteChat | client/components/EnhancedMainAppScreen.tsx:312-318 | the muted list becomes its toggle by the id |
| EnhancedMainAppScreen.Screen.ArchiveSelectedChats | client/components/EnhancedMainAppScreen.tsx:320-324 | archived gains the selection at its end; selection is emptied and selection mode is off; afterwards no listed chat or group carries a formerly selected id |
| EnhancedMainAppScreen.Screen.DeleteSelectedChats | client/components/EnhancedMainAppScreen.tsx:326-329 | selection is emptied and selection mode is off; nothing else changes |
| EnhancedMainAppScreen.Screen.CycleSortBy | client/components/EnhancedMainAppScreen.tsx:503-510 | the mode advances one step of the cycle |
| EnhancedMainAppScreen.Screen.ClickChat | client/components/EnhancedMainAppScreen.tsx:643-649 | in selection mode the click toggles the chat's selection; otherwise it opens the chat and leaves the selection alone |
| EnhancedMainAppScreen.Screen.ContextMenuChat | client/components/EnhancedMainAppScreen.tsx:650-654 | a right-click enters selection mode and toggles the chat |
| EnhancedMainAppScreen.Screen.SelectAllListed | client/components/EnhancedMainAppScreen.tsx:414-416 | the selection becomes exactly the ids of the listed chats, in list order |
| EnhancedMainAppScreen.Screen.PressSelectAllShortcut | client/components/EnhancedMainAppScreen.tsx:363-367 | Ctrl+A selects exactly the listed ids in order, and only in selection mode |
| EnhancedMainAppScreen.Screen.PressEscape | client/components/EnhancedMainAppScreen.tsx:370-375 | Escape leaves selection mode, empties the selection, clears the query and hides the filters |
| EnhancedMainAppScreen.Screen.CloseSelection | client/components/EnhancedMainAppScreen.tsx:440 | the close button leaves selection mode and keeps the selection |
| EnhancedMainAppScreen.Screen.SetSearchQuery | client/components/EnhancedMainAppScreen.tsx:488 | the query becomes the input's value |
| EnhancedMainAppScreen.Screen.SetFilter | client/components/EnhancedMainAppScreen.tsx:565 | the chip becomes the one pressed |
| EnhancedMainAppScreen.Screen.ToggleFilters | client/components/EnhancedMainAppScreen.tsx:493 | the filter panel's visibility flips |
| MainAppScreen.FilteredMembers | client/components/MainAppScreen.tsx:298-325 | a chat or group is kept iff it is visible, matches the search (or the query is empty), and under "unread" has unread > 0 |
| MainAppScreen.KeepsChat | client/components/MainAppScreen.tsx:301-312 | the chat callback; OnlyUnreadRestricts shows that only the "unread" chip restricts |
| MainAppScreen.KeepsGroup | client/components/MainAppScreen.tsx:314-325 | the group callback; FilteredMembers states it as a membership iff |
| MainAppScreen.FilteredChats | client/components/MainAppScreen.tsx:301-312 | the visible chats the callback keeps; FilteredMembers and FilteredKeepOrder state what is listed and in which order |
| MainAppScreen.FilteredGroups | client/components/MainAppScreen.tsx:314-325 | the visible groups the callback keeps; FilteredMembers and FilteredKeepOrder state what is listed and in which order |
| MainAppScreen.UnreadTabCount | client/components/MainAppScreen.tsx:407 | the "Unread (n)" chip count; UnreadTabCountIsUnreadListing and UnreadTabCountBound state its value and bound |
| MainAppScreen.ArchivedIdHidesBoth | client/components/MainAppScreen.tsx:203-213 | one archived id hides both the chat and the group carrying it |
| MainAppScreen.FilteredKeepOrder | client/components/MainAppScreen.tsx:301-325 | both results are subsequences of their inputs (no sort) |
| MainAppScreen.OnlyUnreadRestricts | client/components/MainAppScreen.tsx:308-311 | every chip other than "unread", "favourites" included, gives the same lists as "all" |
| MainAppScreen.UnreadTabCountIsUnreadListing | client/components/MainAppScreen.tsx:407 | the unread tab count equals the number of items the "unread" chip lists for an empty query |
| MainAppScreen.UnreadTabCountBound | client/components/MainAppScreen.tsx:407 | the unread count never exceeds the number of visible chats plus groups |
| ContactsScreen.NextContactSort | client/components/ContactsScreen.tsx:226 | the sort button always changes the mode |
| ContactsScreen.NextContactSortTwice | client/components/ContactsScreen.tsx:226 | two presses restore the mode |
| ContactsScreen.MatchesContactSearch | client/components/ContactsScreen.tsx:113-121 | the search callback; FilteredContactsMembers states it as a membership iff |
| ContactsScreen.PassesFilter | client/components/ContactsScreen.tsx:122-131 | the chip callback; FilteredContactsMembers states it as a membership iff |
| ContactsScreen.ContactCompare | client/components/ContactsScreen.tsx:132-138 | both branches of the comparator are the name comparison |
| ContactsScreen.FilteredContacts | client/components/ContactsScreen.tsx:112-138 | the pipeline; FilteredContactsMembers, FilteredContactsPermutation and FilteredContactsSortedByName state what is listed and in which order |
| ContactsScreen.FilteredContactsMembers | client/components/ContactsScreen.tsx:112-130 | a contact is listed iff it is in the input, its lower-cased name contains the lower-cased query or its phone contains the raw query (or the query is empty), and the chip admits it |
| ContactsScreen.FilteredContactsPermutation | client/components/ContactsScreen.tsx:112-138 | the result is a permutation of the filtered contacts and a sub-multiset of all contacts |
| ContactsScreen.FilteredContactsSortedByName | client/components/ContactsScreen.tsx:132-138 | the result is ascending by name whatever the sort mode |
| ContactsScreen.SortLabelIrrelevant | client/components/ContactsScreen.tsx:132-138 | "recent" gives exactly the same list as "name" |
| ContactsScreen.EmptySearchListsAll | client/components/ContactsScreen.tsx:120 | an empty query with "all" lists every contact |
| ContactsScreen.ChipCounts | client/components/ContactsScreen.tsx:206-218 | the Favorites and Online counts equal the lengths of those chips' lists for an empty query |
| ContactsScreen.FavoriteCount | client/components/ContactsScreen.tsx:206 | the "Favorites (n)" count is at most the number of contacts |
| ContactsScreen.OnlineCount | client/components/ContactsScreen.tsx:218 | the "Online (n)" count is at most the number of contacts |
| ContactsScreen.ToggleFavorite | client/components/ContactsScreen.tsx:140-143 | the handler leaves every contact as it was |
| ArchivedChatsScreen.FilteredChatsMembers | client/components/ArchivedChatsScreen.tsx:54-56 | a chat is kept iff its lower-cased name contains the lower-cased query |
| ArchivedChatsScreen.FilteredChats | client/components/ArchivedChatsScreen.tsx:54-56 | no more chats than the list holds, each with the lower-cased query in its lower-cased name |
| ArchivedChatsScreen.NameSearch | client/components/ArchivedChatsScreen.tsx:55 | the search callback; FilteredChatsMembers states it as a membership iff |
| ArchivedChatsScreen.EmptyQueryListsAll | client/components/ArchivedChatsScreen.tsx:54-56 | the empty query keeps the whole list |
| ArchivedChatsScreen.FilteredChatsKeepOrder | client/components/ArchivedChatsScreen.tsx:54-56 | the result is a subsequence of the list |
| ArchivedChatsScreen.SearchIgnoresCase | client/components/ArchivedChatsScreen.tsx:30-56 | example: searching the three archived chats for "SMITH" yields exactly "John Smith"; its steps are the example lemmas JohnSmithMatches, OldProjectTeamMisses and CollegeFriendsMisses |
| ArchivedChatsScreen.Screen.DisplayedCount | client/components/ArchivedChatsScreen.tsx:135 | the header count is the length of the filtered list and at most the list's length |
| ArchivedChatsScreen.Screen.ToggleChatSelection | client/components/ArchivedChatsScreen.tsx:58-64 | the selection becomes its toggle by the id |
| ArchivedChatsScreen.Screen.UnarchiveSelectedChats | client/components/ArchivedChatsScreen.tsx:66-70 | the selection is logged and emptied, which hides the action buttons; the archived list is a constant and is unchanged |
| ArchivedChatsScreen.Screen.DeleteSelectedChats | client/components/ArchivedChatsScreen.tsx:72-76 | the selection is logged and emptied, which hides the action buttons |
| ArchivedChatsScreen.ActionsVisible | client/components/ArchivedChatsScreen.tsx:93 | the action buttons are shown iff something is selected; the unarchive and delete methods state that they are hidden afterwards |
| ArchivedChatsScreen.Screen.constructor | client/components/ArchivedChatsScreen.tsx:27-28 | empty query and empty selection |
| ArchivedChatsScreen.Screen.SetSearchQuery | client/components/ArchivedChatsScreen.tsx:122-123 | the query becomes the input's value |
| PhoneVerification.KeyIsOneCharacter | client/components/PhoneVerification.tsx:36-41 | every keypad key is one character |
| PhoneVerification.EntryKeys | client/components/PhoneVerification.tsx:36-41 | the keys that enter text are the ten digits, "#" and "." |
| PhoneVerification.DropLast | client/components/PhoneVerification.tsx:46 | `slice(0, -1)`: the empty string stays empty, otherwise the result plus the last character is the input |
| PhoneVerification.DropLastUndoesEntry | client/components/PhoneVerification.tsx:46-57 | "←" undoes the entry of one character |
| PhoneVerification.PhoneAfterKey | client/components/PhoneVerification.tsx:44-58 | in the phone step the number grows iff an entry key is pressed, by exactly that key; "⊗" clears; "←" drops the last character; "✓" and "—" leave it |
| PhoneVerification.CodeAfterKey | client/components/PhoneVerification.tsx:59-75 | in the code step an entry key is appended only while the code is shorter than 6, so it never grows past 6; "⊗" clears; "←" drops one; "✓" and "—" leave it |
| PhoneVerification.CompletesCodeIff | client/components/PhoneVerification.tsx:67-73 | a key press completes the code iff it is an entry key pressed on a five-character code |
| PhoneVerification.Countdown | client/components/PhoneVerification.tsx:24-30 | the timer never goes negative, drops by one from any positive value, and reaches 0 exactly when the previous value is at most 1 |
| PhoneVerification.AfterTicksValue | client/components/PhoneVerification.tsx:21-34 | after k ticks from t the timer shows t - k, or 0 once t ticks have passed |
| PhoneVerification.MinuteRunsOut | client/components/PhoneVerification.tsx:18-34 | example: from 60 the timer shows 1 after 59 ticks and 0 after 60 |
| PhoneVerification.Screen.constructor | client/components/PhoneVerification.tsx:14-19 | the screen starts on the phone step with empty buffers, timer 60 and resend off |
| PhoneVerification.Screen.KeypadPress | client/components/PhoneVerification.tsx:43-76 | the buffer of the current step follows its key function; "✓" on ten or more digits moves to the code step with timer 60 and resend off; `onVerified` fires on "✓" with six digits and is scheduled when an entry completes the code |
| PhoneVerification.Screen.Tick | client/components/PhoneVerification.tsx:21-34 | while on the code step with time left, the timer counts down and resend is enabled exactly when it reaches 0; otherwise nothing changes |
| PhoneVerification.Screen.ResendCode | client/components/PhoneVerification.tsx:78-82 | the timer goes back to 60, resend is disabled and the code is cleared |
| PhoneVerification.Screen.Back | client/components/PhoneVerification.tsx:100-104 | the back arrow returns to the phone step |
| PhoneVerificationEnhanced.ProgressStep | client/components/PhoneVerificationEnhanced.tsx:72-77 | progress rises by 2 below 100 and stays at 100; an even value in [0, 100] stays even, in range and does not decrease |
| PhoneVerificationEnhanced.AfterProgressTicksValue | client/components/PhoneVerificationEnhanced.tsx:69-80 | after k ticks from an even p the bar shows p + 2k, capped at 100 |
| PhoneVerificationEnhanced.ProgressFullAfterFiftyTicks | client/components/PhoneVerificationEnhanced.tsx:45-80 | example: from 0 the bar is at 98 after 49 ticks and full after 50 |
| PhoneVerificationEnhanced.Screen.constructor | client/components/PhoneVerificationEnhanced.tsx:28-45 | the screen starts on the phone step with empty buffers, timer 60, the popup hidden and progress 0 |
| PhoneVerificationEnhanced.Screen.FinishScheduled | client/components/PhoneVerificationEnhanced.tsx:83-90 | `onVerified` is scheduled iff progress is 100 on the initializing step |
| PhoneVerificationEnhanced.Screen.KeypadPress | client/components/PhoneVerificationEnhanced.tsx:92-122 | on the phone step "✓" with ten or more digits only shows the confirm popup; on the code step the code stays at most 6 long and "✓" with six digits moves to the profile step; on every other step a press changes nothing |
| PhoneVerificationEnhanced.Screen.CodeCompletedTimeout | client/components/PhoneVerificationEnhanced.tsx:118 | the delayed step after the sixth digit moves to the profile step |
| PhoneVerificationEnhanced.Screen.ConfirmEdit | client/components/PhoneVerificationEnhanced.tsx:190 | "Edit" hides the popup |
| PhoneVerificationEnhanced.Screen.ConfirmYes | client/components/PhoneVerificationEnhanced.tsx:196 | "Yes" moves to auto-verify |
| PhoneVerificationEnhanced.Screen.AutoVerifyBack | client/components/PhoneVerificationEnhanced.tsx:224 | the back button on auto-verify returns to the phone step |
| PhoneVerificationEnhanced.Screen.ChooseCodeEntry | client/components/PhoneVerificationEnhanced.tsx:286-292 | Continue and "Verify another way" both go to the code step |
| PhoneVerificationEnhanced.Screen.SetUserName | client/components/PhoneVerificationEnhanced.tsx:397 | the name becomes the input's value |
| PhoneVerificationEnhanced.Screen.ProfileNext | client/components/PhoneVerificationEnhanced.tsx:403-407 | Next moves to the email step iff the name is not blank after trimming |
| PhoneVerificationEnhanced.Screen.EmailContinue | client/components/PhoneVerificationEnhanced.tsx:466-472 | "Add email" and "Skip" both go to the initializing step |
| PhoneVerificationEnhanced.Screen.ProgressTick | client/components/PhoneVerificationEnhanced.tsx:69-80 | on the initializing step progress takes one step, elsewhere it is unchanged; it stays even and in [0, 100] |
| PhoneVerificationEnhanced.Screen.Tick | client/components/PhoneVerificationEnhanced.tsx:54-67 | the countdown works as on the basic screen |
| PhoneVerificationEnhanced.Screen.Resend | client/components/PhoneVerificationEnhanced.tsx:341-345 | the timer goes back to 60, resend is disabled and the code is cleared |
| ChangeNumberScreen.NextStep | client/components/ChangeNumberScreen.tsx:25-34 | the step never moves backwards and advances by exactly one unless it is already "complete" |
| ChangeNumberScreen.TwoPressesComplete | client/components/ChangeNumberScreen.tsx:25-34 | two presses from any step reach "complete" |
| ChangeNumberScreen.Title | client/components/ChangeNumberScreen.tsx:232-236 | the header title of each step; TitlesDistinct shows the three differ |
| ChangeNumberScreen.TitlesDistinct | client/components/ChangeNumberScreen.tsx:232-236 | the three header titles differ, so the title identifies the step |
| ChangeNumberScreen.Screen.constructor | client/components/ChangeNumberScreen.tsx:20-23 | the wizard starts on "info", unverified, with an empty number |
| ChangeNumberScreen.Screen.SetNewNumber | client/components/ChangeNumberScreen.tsx:86 | the number becomes the input's value |
| ChangeNumberScreen.Screen.HandleContinue | client/components/ChangeNumberScreen.tsx:25-34 | info goes to verify, verify goes to complete, and `isVerified` turns on exactly on that second transition; from complete, `onComplete` is called and the step stays |
| ChangeNumberScreen.Screen.PressContinue | client/components/ChangeNumberScreen.tsx:95-99 | on the info step the button does nothing while the number is blank after trimming |
| ChatScreen.InitialIdsArePositions | client/components/ChatScreen.tsx:39-79 | the seed messages are numbered 1 to 6 by position |
| ChatScreen.WithStatus | client/components/ChatScreen.tsx:110-114 | the status map keeps length, order and every field except the status, which it replaces exactly on the messages with the id |
| ChatScreen.WithStatusAtPosition | client/components/ChatScreen.tsx:110-122 | on a positionally numbered list the update touches only the message at position id - 1, and it keeps the numbering |
| ChatScreen.WithStatusNeverReads | client/components/ChatScreen.tsx:112-120 | an update to "sent" or "delivered" never makes a message "read" |
| ChatScreen.Outgoing | client/components/ChatScreen.tsx:94-103 | a sent message is numbered after the list, is marked sent and is "sending" |
| ChatScreen.SendLifecycle | client/components/ChatScreen.tsx:105-122 | the two status callbacks take the new message from "sending" to "sent" to "delivered" and leave every other message as it was, even with a reply appended in between |
| ChatScreen.Incoming | client/components/ChatScreen.tsx:141-152 | the reply is numbered after the list, is received and has no status |
| ChatScreen.AppendKeepsNumbering | client/components/ChatScreen.tsx:94-152 | both appends keep "position i carries id i + 1" |
| ChatScreen.Screen.constructor | client/components/ChatScreen.tsx:38-80 | empty input, the seed timeline with positional ids, nobody typing |
| ChatScreen.Screen.SetMessage | client/components/ChatScreen.tsx:277 | the input becomes the typed value and the timeline keeps its numbering |
| ChatScreen.Screen.SendMessage | client/components/ChatScreen.tsx:92-106 | a blank input changes nothing; otherwise one outgoing message is appended and the input cleared |
| ChatScreen.Screen.MarkSent | client/components/ChatScreen.tsx:109-115 | the timeline becomes its status map to "sent" |
| ChatScreen.Screen.MarkDelivered | client/components/ChatScreen.tsx:117-123 | the timeline becomes its status map to "delivered" |
| ChatScreen.Screen.StartTyping | client/components/ChatScreen.tsx:126-128 | the typing indicator turns on |
| ChatScreen.Screen.ReceiveResponse | client/components/ChatScreen.tsx:130-153 | the indicator turns off and one canned reply is appended |
| GroupChatScreen.InitialIdsArePositions | client/components/GroupChatScreen.tsx:46-91 | the seed messages are numbered 1 to 6 by position |
| GroupChatScreen.WithStatus | client/components/GroupChatScreen.tsx:123-135 | the status map keeps every field except the status, which it replaces exactly on the messages with the id |
| GroupChatScreen.WithStatusAtPosition | client/components/GroupChatScreen.tsx:123-135 | on a numbered list only position id - 1 changes, and the numbering is kept |
| GroupChatScreen.Reply | client/components/GroupChatScreen.tsx:143-169 | the reply is numbered after the list, is received, is one of the canned texts and comes from one of the three responders |
| GroupChatScreen.GetSenderColor | client/components/GroupChatScreen.tsx:181-192 | a non-empty sender gets the colour at its first UTF-16 code unit modulo 6; the empty sender gets none |
| GroupChatScreen.SameInitialSameColor | client/components/GroupChatScreen.tsx:190 | senders with the same first character get the same colour |
| GroupChatScreen.KnownSenderColors | client/components/GroupChatScreen.tsx:181-192 | example: the three responders and "You" all get indigo, and "Emily Davis" gets yellow |
| GroupChatScreen.Join | client/components/GroupChatScreen.tsx:218 | `typingUsers.join(", ")`; SubtitleCases uses it for the typing line |
| GroupChatScreen.Subtitle | client/components/GroupChatScreen.tsx:217-219 | the header subtitle; SubtitleCases states its three branches |
| GroupChatScreen.SubtitleCases | client/components/GroupChatScreen.tsx:217-219 | "is" with one typer, "are" with more, the participant count with none |
| GroupChatScreen.SubtitleAfterSend | client/components/GroupChatScreen.tsx:139-141 | example: while the two members type, the subtitle names both with "are" |
| GroupChatScreen.ShownParticipants | client/components/GroupChatScreen.tsx:269 | the panel shows the first min(n, 6) participants |
| GroupChatScreen.MoreChip | client/components/GroupChatScreen.tsx:282-288 | the "+n more" chip appears iff there are more than six participants |
| GroupChatScreen.MoreChipCountsHidden | client/components/GroupChatScreen.tsx:282-288 | the chip's number reads back as exactly the count of participants the panel leaves out |
| GroupChatScreen.Screen.constructor | client/components/GroupChatScreen.tsx:45-92 | empty input, the seed timeline with positional ids, nobody typing |
| GroupChatScreen.Screen.SetMessage | client/components/GroupChatScreen.tsx:373 | the input becomes the typed value and the timeline keeps its numbering |
| GroupChatScreen.Screen.SendMessage | client/components/GroupChatScreen.tsx:104-120 | a blank input changes nothing; otherwise "You" sends one message numbered after the list, marked "sending", and the input is cleared |
| GroupChatScreen.Screen.MarkSent | client/components/GroupChatScreen.tsx:122-128 | the timeline becomes its status map to "sent" |
| GroupChatScreen.Screen.MarkDelivered | client/components/GroupChatScreen.tsx:130-136 | the timeline becomes its status map to "delivered" |
| GroupChatScreen.Screen.StartTyping | client/components/GroupChatScreen.tsx:139-141 | two members are shown typing |
| GroupChatScreen.Screen.ReceiveResponse | client/components/GroupChatScreen.tsx:143-170 | nobody is typing, and one reply is appended |
| MediaViewer.NextIndex | client/components/MediaViewer.tsx:57-60 | next stays in range and is (i + 1) mod n, wrapping from the last to 0 |
| MediaViewer.PrevIndex | client/components/MediaViewer.tsx:52-55 | previous stays in range and is (i - 1) mod n, wrapping from 0 to the last |
| MediaViewer.NextPrevInverse | client/components/MediaViewer.tsx:52-60 | next and previous undo each other |
| MediaViewer.ZoomIn | client/components/MediaViewer.tsx:62-64 | zoom rises by a half step, capped at 3, and stays in range |
| MediaViewer.ZoomOut | client/components/MediaViewer.tsx:66-68 | zoom falls by a half step, floored at 0.5, and stays in range |
| MediaViewer.ZoomInOut | client/components/MediaViewer.tsx:62-68 | in then out restores the zoom below the maximum, and out then in above the minimum |
| MediaViewer.ZoomButtonsDisabledAtLimits | client/components/MediaViewer.tsx:62-68 | pressing a zoom button changes nothing exactly at its limit |
| MediaViewer.ZoomPercent | client/components/MediaViewer.tsx:276 | the shown percentage is the zoom (h half-steps, h / 2) times 100, a multiple of 50 between 50 and 300 |
| MediaViewer.Viewer.constructor | client/components/MediaViewer.tsx:43-44 | the viewer opens on the given index at zoom 1 |
| MediaViewer.Viewer.Previous | client/components/MediaViewer.tsx:52-55 | the index steps back with wrap-around and zoom resets to 1 |
| MediaViewer.Viewer.Next | client/components/MediaViewer.tsx:57-60 | the index steps forward with wrap-around and zoom resets to 1 |
| MediaViewer.Viewer.ZoomInPressed | client/components/MediaViewer.tsx:62-64 | zoom takes one clamped step up |
| MediaViewer.Viewer.ZoomOutPressed | client/components/MediaViewer.tsx:66-68 | zoom takes one clamped step down |
| MediaViewer.Viewer.Delete | client/components/MediaViewer.tsx:98-107 | without `onDelete` nothing happens; otherwise the current id is reported, then the viewer closes on a single item or moves to the next item |
| MediaViewer.Viewer.Counter | client/components/MediaViewer.tsx:292-296 | "i of n" appears iff there is more than one item; i is the current index plus one and n the number of items, so 1 <= i <= n |
| StatusScreen.BarWidth | client/components/StatusScreen.tsx:142-148 | the width of one progress bar; BarWidthsDescend states the full, progress and empty cases and their order |
| StatusScreen.BarWidthsDescend | client/components/StatusScreen.tsx:142-148 | bars before the current story are full and those after it empty; with progress in [0, 100] widths are in range and never grow from left to right |
| StatusScreen.Screen.constructor | client/components/StatusScreen.tsx:55-60 | the viewer opens on the given index with progress 0, playing, and the reply box closed and empty |
| StatusScreen.Screen.HandleNext | client/components/StatusScreen.tsx:85-94 | with no contact nothing happens; before the last story it advances and resets progress; on the last story it hands off to `onNext`; an in-range index stays in range |
| StatusScreen.Screen.ProgressTick | client/components/StatusScreen.tsx:65-80 | without a current story or while paused nothing changes; at 100 or more `handleNext` runs and the bar restarts at 0; otherwise the bar grows by the increment; an in-range index stays in range and progress stays non-negative |
| StatusScreen.Screen.HandlePrevious | client/components/StatusScreen.tsx:96-103 | after the first story it steps back and resets progress; on the first one it hands off to `onPrevious`; an in-range index stays in range |
| StatusScreen.Screen.PauseToggle | client/components/StatusScreen.tsx:105-107 | the pause flag flips |
| StatusScreen.Screen.OpenReply | client/components/StatusScreen.tsx:286 | the reply box opens |
| StatusScreen.Screen.SetReplyText | client/components/StatusScreen.tsx:307 | the reply text becomes the input's value |
| StatusScreen.Screen.HandleReply | client/components/StatusScreen.tsx:116-123 | a blank reply does nothing; otherwise it is sent, the text is cleared and the box closes |
| CallScreen.FormatDuration | client/components/CallScreen.tsx:55-59 | the display is at least five characters: digits, a colon, and two digits |
| CallScreen.FormatDurationParses | client/components/CallScreen.tsx:55-59 | reading the display back gives seconds below 60, and minutes * 60 + seconds equals the duration |
| CallScreen.FormatDurationFiveChars | client/components/CallScreen.tsx:58 | below 6000 seconds the display is exactly five characters |
| CallScreen.StatusText | client/components/CallScreen.tsx:61-72 | `getCallStatusText`; StatusTextCases, ActiveStatusShowsDuration and StatusTextDistinguishes state its values |
| CallScreen.StatusTextCases | client/components/CallScreen.tsx:61-72 | incoming calls announce "video" or "voice"; outgoing calls say "Calling..." |
| CallScreen.ActiveStatusShowsDuration | client/components/CallScreen.tsx:61-72 | an active call's status line reads back as the elapsed duration |
| CallScreen.StatusTextDistinguishes | client/components/CallScreen.tsx:61-72 | equal status lines imply the same kind of call |
| CallScreen.Screen.constructor | client/components/CallScreen.tsx:40-44 | unmuted, speaker off, zero duration, not minimised, and the camera on exactly for a video call |
| CallScreen.Screen.StatusLine | client/components/CallScreen.tsx:85 | during an active call the shown line reads back as the elapsed duration |
| CallScreen.Screen.Tick | client/components/CallScreen.tsx:46-53 | the duration grows by exactly one per tick, and only during an active call |
| CallScreen.Screen.ToggleMute | client/components/CallScreen.tsx:194 | only the mute flag flips |
| CallScreen.Screen.ToggleSpeaker | client/components/CallScreen.tsx:216 | only the speaker flag flips |
| CallScreen.Screen.ToggleVideo | client/components/CallScreen.tsx:235 | only the camera flag flips |
| CallScreen.Screen.SetMinimized | client/components/CallScreen.tsx:88-135 | the minimise and maximise buttons set the flag |
| NotificationSettingsScreen.DefaultSettingsComplete | client/components/NotificationSettingsScreen.tsx:25-36 | the default record holds all ten keys, each on |
| NotificationSettingsScreen.Flip | client/components/NotificationSettingsScreen.tsx:44-49 | `updateSetting(key)` negates exactly that key and leaves every other key as it was |
| NotificationSettingsScreen.FlipTwice | client/components/NotificationSettingsScreen.tsx:44-49 | flipping the same key twice restores the record |
| NotificationSettingsScreen.FlipsCommute | client/components/NotificationSettingsScreen.tsx:44-49 | the order of two flips does not matter |
| NotificationSettingsScreen.SwitchedKeys | client/components/NotificationSettingsScreen.tsx:51-103 | eight keys have a switch on the screen; the LED and pop-up keys have none |
| NotificationSettingsScreen.FlipAll | client/components/NotificationSettingsScreen.tsx:44-49 | a run of switch presses keeps the record complete |
| NotificationSettingsScreen.SwitchesKeepLedAndPopup | client/components/NotificationSettingsScreen.tsx:51-103 | no sequence of switch presses changes the LED or pop-up flag, so only reset can |
| NotificationSettingsScreen.Screen.constructor | client/components/NotificationSettingsScreen.tsx:25-42 | every flag is on and quiet hours are off, 22:00 to 07:00 |
| NotificationSettingsScreen.Screen.UpdateSetting | client/components/NotificationSettingsScreen.tsx:44-49 | the record becomes its flip at the key, and quiet hours are untouched |
| NotificationSettingsScreen.Screen.SetQuietHoursEnabled | client/components/NotificationSettingsScreen.tsx:201-203 | only `enabled` changes |
| NotificationSettingsScreen.Screen.SetStartTime | client/components/NotificationSettingsScreen.tsx:215-220 | only `startTime` changes |
| NotificationSettingsScreen.Screen.SetEndTime | client/components/NotificationSettingsScreen.tsx:229-234 | only `endTime` changes |
| NotificationSettingsScreen.Screen.ResetToDefaults | client/components/NotificationSettingsScreen.tsx:268-287 | both records return to their initial values: every flag on, quiet hours off, 22:00 to 07:00 |

## Left out

- Rendering, styling, icons and animation are not modelled. The same goes for the screens that only navigate or show static content: routing, settings, profile, privacy, QR code, welcome, splash and bottom navigation.
- Timer delays and their interleaving are not modelled. Each `setTimeout` or `setInterval` body is one step method that a caller may invoke in any order.
- Randomness (the canned reply and the replying member) is an index parameter, so a proof holds for every choice.
- Clock strings (`toLocaleTimeString`) are a `now` parameter.
- Seed message texts are copied as the source file holds them, including the mis-encoded emoji at the end of the first group message.
- Unread counts are typed `nat`: every seed count is non-negative and no handler changes them, so the `unread > 0` and `unread === 0` tests of the source are complementary.
- Text is ASCII only. `toLowerCase` folds only A-Z, and `localeCompare` is code-point order, so locale collation and Unicode case mapping are not captured.
- The model renders `sort` as an insertion sort driven by the same comparator. It does not follow any engine's algorithm. Its insertion puts each element before its ties, which keeps equal elements in input order under a consistent comparator, but no stability lemma is stated.
- EnhancedMainAppScreen.FilteredChatsOrder: under the "time" sort the comparator is not a consistent order, so only the permutation property is claimed for that mode.
- StatusScreen.Screen.ProgressTick: the increment `(50 / (duration * 1000)) * 100` is a real parameter, so floating-point rounding and a zero duration are not modelled. The onboarding clip-path percentage is not modelled either. `progress` is an arbitrary real, and the bar rule is proved for every value.
- Photo upload through `FileReader`, video playback and muting in the media viewer, the story mute toggle, download and share, the media viewer's controls toggle, and the group info panel's visibility flag are browser or presentation state outside this model.
- MediaViewer.Viewer.constructor: it requires a non-empty list. `client/pages/Index.tsx:311` opens the viewer with an empty list. There `currentMedia` (client/components/MediaViewer.tsx:50) is undefined, and the first render throws at `currentMedia.sender` (client/components/MediaViewer.tsx:128). No counter is drawn and no handler can run, so that case is not modelled.
- `CallScreen` renders `Phone` at client/components/CallScreen.tsx:186 without importing it, which fails when an incoming call is drawn. The model covers only the state logic, which is unaffected.
- The accept, decline and end-call buttons only call parent callbacks and are not modelled.
- CallScreen.Screen.ToggleVideo: the camera button is only rendered for a video call. The method does not require one, because the handler itself does not check.
- NotificationSettingsScreen.Screen.SetStartTime: the "From" input is only rendered while quiet hours are enabled (client/components/NotificationSettingsScreen.tsx:208). The method does not require that, because the handler itself does not check.
- NotificationSettingsScreen.Screen.SetEndTime: the same holds for the "To" input.
- PhoneVerificationEnhanced.Screen.ConfirmYes: "Yes" sets the step to auto-verify and does not hide the popup (client/components/PhoneVerificationEnhanced.tsx:196). The model keeps `showConfirm` as it was, which is what the code does.
- The onboarding's "confirm" step is declared but never entered. It is kept out of the reachable states by the class invariant.
- State that is only displayed, or only picks which tab is drawn, and that no modelled handler reads or changes is not modelled: `selectedCountry` (shown at client/components/PhoneVerification.tsx:145, and on the enhanced screen), `oldNumber` (shown at client/components/ChangeNumberScreen.tsx:75), `activeTab` on the enhanced screen (it decides at client/components/EnhancedMainAppScreen.tsx:772 whether groups are drawn and at :958 which tab is drawn), and the unused `sortBy`, pinned and muted on the plain main screen and `showQuickActions` on the enhanced one.
- The Ctrl+K and Ctrl+N shortcuts only focus the search input or call a parent callback, and are not modelled.
- Inputs whose `onChange` only copies the value into state are modelled as setter methods.
- The notification record is a map from its ten keys to flags. The class invariant states that every key is present, which the object literal guarantees in the source.
