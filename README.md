# A model of the chat app's conversation logic and form validators

The app is a React Native client for a chat assistant. A user signs up or logs in,
opens a conversation ("room"), types prompts, and reads the AI's answers. Those
answers may carry a ticker graph or a data table. The model covers the parts of the
client that hold logic and not just layout:

- **Conversation synchronisation.** The conversation screen keeps the transcript of
  the active room in the Redux store. It appends the user's turn optimistically and
  emits `query:send` on the socket. It accepts a `query:response` only for its own
  room and merges pages of history in front of a snapshot. It pages backwards when
  the list is scrolled to the top. The home screen creates a room from a first
  message and adopts it on `room:created`. A conversation-list row selects, renames
  and deletes rooms.
- **The store.** This is the `global` slice: its initial state, each reducer as a
  pure function `Reduce`, and a `Store` class whose methods apply a reducer in place.
- **The response transforms** of the chat endpoints: the message page is reversed
  into chronological order, malformed payloads fall back to empty ones, and a
  refetch is decided by argument identity.
- **The validators and small state machines** of the screens:
  - the sign-up, login, password-change and profile-edit validators;
  - the six-slot OTP buffer of the two e-mail verification modals;
  - the table component's sort toggle, null-last stable sort, row filter and
    number-input acceptor;
  - the chat list's sort toggle and search filter;
  - the settings dialog's tab stages;
  - the two "initials" helpers;
  - the prompt box's height clamp and button enablement.

Pure JavaScript helpers become Dafny functions with contracts. Components and the
store become classes with methods:

- Each class has a `Local()` snapshot of its `useState` values.
- A method's `Local() == old(Local()).(…)` postcondition states its new state in
  full.
- The store's `Snapshot()` is stated both field by field and as `Reduce` of one
  action.

The socket is a `Socket` object that logs what is emitted. Other outside effects
become explicit parameters of the handler that receives them: a request's result,
a timer firing, an AsyncStorage value read back.

## Model

A function or predicate that only computes has no row of its own: the rows of the
lemmas and methods about it state what it means.

- `GlobalSlice.Reduce`: `SetterWritesOnlyItsField`, `IncrementOnlyMovesItsCounter`, `TogglesAreInvolutions`, `ClearUserDataKeepsSession`, `InitializeStateCases` and the `Store` methods.
- `Common.InitialsAsWritten`: `WhitespaceNameThrows`, `SingleSpaceThrows`, `AsWrittenAgreesElsewhere`.
- `ChatService.MessagesTransform`: `TransformMessages`, `MalformedMessagesBecomeEmpty`, `MessagesAreReversed`, `TransformTwiceRestores`.
- `ChatService.ForceRefetch`: `RefetchIsByIdentity`.
- `TableCreator.FilteredAndSorted`: `SortDirections`, `FilterAndSortRows`.
- `TableCreator.NumberInputAccepts`: `AcceptedSplits`, `SplitAccepted`, `NumberInputShape`.
- `ConversationItem.IsSelected` and `IsLastThree`: `AtMostOneRowSelected`, `LastThreeIsLastTwo`, and the `Item` handlers.
- `SignUpScreen.IsFormComplete`: `CompleteFormIsValid`, `EnabledSignUpIsValid`.
- `LoginScreen.SignInDisabled`: `SignInButtonAndGuard`.
- The `InputComponent` button predicates: `SendableHasClear`, `LoadingLocksInput`.
- `ConversationScreen.TotalPages`, `SeenAll` and `PageBelow`: `SeenAllExcludesPageBelow`, `TransformKeepsTotalPages`, `ScrollingStopsAtTotalPages`, and the `Screen` effects.

| member | source | states |
|---|---|---|
| GlobalSlice.DecimalValue | src/pages/ConversationScreen.js:654 | The number a digit string reads as under `<`; the empty string counts as 0 |
| GlobalSlice.PageNumber | src/pages/ConversationScreen.js:654 | `Number(page)`: a number page is itself, the page `''` is 0, a non-digit string is NaN |
| GlobalSlice.NextPage | src/slices/globalSlice.js:61-69 | `+= 1` raises a number page by one, and appends `"1"` to a string page (JS concatenation) |
| GlobalSlice.InitialState | src/slices/globalSlice.js:4-19 | Both page cursors start at 1, with no room, an empty transcript and the light theme |
| GlobalSlice.IncrementOnlyMovesItsCounter | src/slices/globalSlice.js:61-69 | `incrementPage` / `incrementRoomPage` raise their counter by exactly 1 and change no other field |
| GlobalSlice.SetterWritesOnlyItsField | src/slices/globalSlice.js:25-60 | Each setter stores its payload in its own field and leaves every other field as it was |
| GlobalSlice.TogglesAreInvolutions | src/slices/globalSlice.js:78-89 | Each toggle negates its flag, touches nothing else, and undoes itself |
| GlobalSlice.ClearUserDataKeepsSession | src/slices/globalSlice.js:98-108 | `clearUserData` empties the credentials, user, OTP flag, socket and transcript; it keeps room, pages, pending message and theme; it is idempotent |
| GlobalSlice.InitializeStateCases | src/slices/globalSlice.js:91-96 | The stored token is adopted only when truthy and the stored theme only when defined; nothing else changes |
| GlobalSlice.Store.constructor | src/slices/globalSlice.js:4-19 | The store starts in `initialState` |
| GlobalSlice.Store.SetEmail | src/slices/globalSlice.js:25-27 | Writes `email` only (the same as `Reduce` with `setEmail`) |
| GlobalSlice.Store.SetPassword | src/slices/globalSlice.js:28-30 | Writes `password` only |
| GlobalSlice.Store.SetAuthToken | src/slices/globalSlice.js:31-39 | Writes `authToken` only |
| GlobalSlice.Store.SetUserDetails | src/slices/globalSlice.js:40-42 | Writes `userDetails` only |
| GlobalSlice.Store.SetVerifyEmailOtp | src/slices/globalSlice.js:43-45 | Writes `verifyEmailOtp` only |
| GlobalSlice.Store.SetSocket | src/slices/globalSlice.js:46-48 | Writes `socket` only |
| GlobalSlice.Store.SetNewMessage | src/slices/globalSlice.js:49-51 | Writes `newMessage` only |
| GlobalSlice.Store.SetRoomId | src/slices/globalSlice.js:52-54 | Writes `roomId` only |
| GlobalSlice.Store.SetAllChat | src/slices/globalSlice.js:55-57 | Writes `allChat` only |
| GlobalSlice.Store.SetPage | src/slices/globalSlice.js:58-60 | Writes `page` only |
| GlobalSlice.Store.IncrementPage | src/slices/globalSlice.js:61-63 | `page` becomes `NextPage(page)`; nothing else changes |
| GlobalSlice.Store.SetRoomPage | src/slices/globalSlice.js:64-66 | Writes `roomPage` only |
| GlobalSlice.Store.IncrementRoomPage | src/slices/globalSlice.js:67-69 | `roomPage` becomes `NextPage(roomPage)`; nothing else changes |
| GlobalSlice.Store.SetIsMobile | src/slices/globalSlice.js:70-72 | Writes `isMobile` only |
| GlobalSlice.Store.SetDarkMode | src/slices/globalSlice.js:73-77 | Writes `isDarkMode` only |
| GlobalSlice.Store.ToggleDarkMode | src/slices/globalSlice.js:78-82 | Negates `isDarkMode` only |
| GlobalSlice.Store.SetSidebarState | src/slices/globalSlice.js:84-86 | Writes `sidebarCollapsed` only |
| GlobalSlice.Store.ToggleSidebarState | src/slices/globalSlice.js:87-89 | Negates `sidebarCollapsed` only |
| GlobalSlice.Store.InitializeState | src/slices/globalSlice.js:91-96 | Conditional adoption of token and theme, as `Reduce` states it |
| GlobalSlice.Store.ClearUserData | src/slices/globalSlice.js:98-108 | The seven-field reset, as `Reduce` states it |
| SocketLink.Socket.Send | src/pages/HomeScreenPage.js:47 | `socket.emit` appends exactly one event to the socket's log |
| JsArray.Reversed | src/services/chat.js:83 | The reversal has the input's length |
| JsArray.ReversedAt | src/services/chat.js:83 | Position k of the reversal holds position n-1-k of the original |
| JsArray.ReversedTwice | src/services/chat.js:83 | Reversing twice restores the order |
| JsArray.ReversedSameElements | src/assets/components/TableCreator/TableCreator.js:393-395 | The reversal is a permutation of the input |
| JsArray.ReverseInPlace | src/assets/components/TableCreator/TableCreator.js:394 | `array.reverse()` in place leaves the array holding `Reversed` of its old contents |
| JsText.Trim | src/pages/ConversationScreen.js:578 | `trim()` is empty exactly for all-whitespace input, and otherwise starts and ends with a non-whitespace character |
| JsText.TrimStartDropsWhitespace | src/pages/ConversationScreen.js:578 | Removing leading whitespace keeps a suffix, and everything removed is whitespace |
| JsText.TrimEndDropsWhitespace | src/pages/ConversationScreen.js:578 | Removing trailing whitespace keeps a prefix, and everything removed is whitespace |
| JsText.BlankIsEmptyTrim | src/pages/ConversationScreen.js:578 | A string counts as blank exactly when its `trim()` is `''` |
| JsText.TrimIgnoresPadding | src/assets/components/ConversationItem.js:73 | Whitespace around a string does not change its trim |
| JsText.Includes | src/assets/components/ChatHistory.js:71 | `includes` holds exactly when the query occurs at some index |
| JsText.LastChar | src/pages/VeifyEmailModal.js:63 | `slice(-1)` is the last character, or `''` for the empty string |
| JsText.Upper | src/assets/components/ProfileSection.js:160 | `toUpperCase` maps each character by the ASCII case rule and keeps the length |
| JsText.Lower | src/assets/components/ChatHistory.js:71 | `toLowerCase` maps each character by the ASCII case rule and keeps the length |
| ChatService.TransformMessages | src/services/chat.js:73-86 | Returns exactly `MessagesTransform`. On a well-formed page the response's own message array is reversed in place and is the result's message list; a malformed response leaves it alone |
| ChatService.MalformedMessagesBecomeEmpty | src/services/chat.js:73-77 | A missing body, `data` or `messages` yields `{data: {messages: []}}` and nothing else |
| ChatService.MessagesAreReversed | src/services/chat.js:79-85 | A well-formed page keeps every other key of the response and of `data`; its messages are the server's in reverse order |
| ChatService.TransformTwiceRestores | src/services/chat.js:83 | The output always has a message list, and transforming a well-formed page twice gives back the server's page |
| ChatService.RoomsTransform | src/services/chat.js:25-32 | The result always has `data` |
| ChatService.RoomsTransformCases | src/services/chat.js:25-32 | The response passes unchanged exactly when it has `data`; otherwise the result is `{data: []}`; the transform is idempotent |
| ChatService.QueryArg.constructor | src/assets/components/ChatHistory.js:32 | Each render builds a fresh `{sort}` argument object |
| ChatService.RefetchIsByIdentity | src/services/chat.js:17-19 | `forceRefetch` is true exactly when the two arguments are different objects, even when they have equal `sort`; it is false for the same object |
| ConversationScreen.AiTurn | src/pages/ConversationScreen.js:526-535 | The AI turn has sender `AI` and the response's ticker as graph and its table; its message is the response's message, or `''` when that is falsy |
| ConversationScreen.RecordToTurn | src/pages/ConversationScreen.js:612-619 | A fetched record maps to a turn with the same four fields |
| ConversationScreen.MapRecords | src/pages/ConversationScreen.js:612-619 | Mapping keeps the length and maps each record in place |
| ConversationScreen.Merged | src/pages/ConversationScreen.js:620 | The merge is the mapped page followed by the snapshot; its length is the sum of the two |
| ConversationScreen.HistoryQueryFor | src/pages/ConversationScreen.js:193-198 | The history query runs exactly when the room id and page are truthy, with `{roomId, page, limit: 10}` |
| ConversationScreen.MergeDropsTurnsAfterSnapshot | src/pages/ConversationScreen.js:605-622 | The merge is shorter than page plus live transcript by exactly the turns appended after the snapshot, and each such turn that is neither in the snapshot nor on the page is absent from it |
| ConversationScreen.MergeRepeatsAnOverlap | src/pages/ConversationScreen.js:605-622 | Merging a page into a snapshot that already starts with it holds those turns twice |
| ConversationScreen.SeenAllExcludesPageBelow | src/pages/ConversationScreen.js:640-658 | `totalPages === page` and `page < totalPages` never both hold; a string page is never "seen all"; a number page is at, below or past the last page |
| ConversationScreen.TransformKeepsTotalPages | src/pages/ConversationScreen.js:641-654 | The page count read from a transformed page is the server's; the malformed-page fallback has none, so no scroll fetches after it |
| ConversationScreen.ScrollingStopsAtTotalPages | src/pages/ConversationScreen.js:649-658 | From a page not past `totalPages`, any number of scroll-to-top events reaches `min(p + n, totalPages)`, never more |
| ConversationScreen.InputVerdict | src/pages/ConversationScreen.js:577-587 | Input is accepted exactly when it is not blank and at most 200 characters long, untrimmed; otherwise it gets the matching error |
| ConversationScreen.SendOutcome | src/pages/ConversationScreen.js:480-492 | `sendMessage` proceeds exactly with a socket and a truthy room id; otherwise it gets the connection or no-room error |
| ConversationScreen.Screen.constructor | src/pages/ConversationScreen.js:57-63 | The screen's state starts as its `useState` initial values |
| ConversationScreen.Screen.RoomSetEffect | src/pages/ConversationScreen.js:175-186 | A truthy route room id is stored, and entering a room other than the stored one also empties the transcript; an absent id changes nothing |
| ConversationScreen.Screen.SendMessage | src/pages/ConversationScreen.js:480-503 | Missing socket or room: an error and no emit. Otherwise the socket loader goes up and one `query:send` with message, room and transcript is emitted. The store is unchanged |
| ConversationScreen.Screen.HandleResponse | src/pages/ConversationScreen.js:506-545 | A response for another room leaves the transcript alone and clears both loaders; one for this room appends exactly one AI turn after the unchanged old transcript |
| ConversationScreen.Screen.LoaderTimeout | src/pages/ConversationScreen.js:538-542 | The 500 ms timer clears both loaders and nothing else |
| ConversationScreen.Screen.NewMessageEffect | src/pages/ConversationScreen.js:568-575 | A pending home-screen message is sent once socket and room exist; otherwise nothing happens |
| ConversationScreen.Screen.HandleSendMessage | src/pages/ConversationScreen.js:577-603 | Rejected input sets the error and touches neither transcript nor socket. Accepted input appends exactly one user turn before sending, and it stays even when the send bails. The send gets the transcript from before the append |
| ConversationScreen.Screen.HistoryMerge | src/pages/ConversationScreen.js:605-622 | A non-empty page with no fetch in flight replaces the transcript with `Merged(page, snapshot)` and changes no other store field; otherwise nothing changes |
| ConversationScreen.Screen.UnmountCleanup | src/pages/ConversationScreen.js:625-630 | Unmounting empties the transcript and changes no other store field |
| ConversationScreen.Screen.EmptyChatEffect | src/pages/ConversationScreen.js:633-637 | An empty transcript empties the snapshot; otherwise nothing changes |
| ConversationScreen.Screen.SeenAllEffect | src/pages/ConversationScreen.js:640-646 | `seenAllChat` becomes `totalPages === page` |
| ConversationScreen.Screen.HandleScrollToTop | src/pages/ConversationScreen.js:649-658 | Acts only at offset at most 0, with no fetch in flight and not everything seen; then it raises the page by one only when the page is below `totalPages`, so the page never passes it |
| HomeScreen.Home.constructor | src/pages/HomeScreenPage.js:24-28 | The home screen's state starts as its `useState` initial values |
| HomeScreen.Home.SendMessage | src/pages/HomeScreenPage.js:41-51 | Returns true exactly with a socket, emitting one `room:create` with the message; without one it sets the connection error and emits nothing |
| HomeScreen.Home.HandleSendPress | src/pages/HomeScreenPage.js:53-65 | A blank prompt changes nothing. Otherwise `newMessage` becomes the prompt whether or not the send worked, and the prompt is cleared. A failed send ends with `loading` false and the 'Failed to connect to server' error |
| HomeScreen.Home.RoomCreated | src/pages/HomeScreenPage.js:32-36 | `roomId` becomes the payload's id, the API cache is reset once, and the route is Room with that same id |
| ConversationItem.LastThreeIsLastTwo | src/assets/components/ConversationItem.js:43 | `isLastThree` holds exactly for indices n-2 and n-1 of a list of five or more, and for no index of a shorter list |
| ConversationItem.AtMostOneRowSelected | src/assets/components/ConversationItem.js:40 | In a list of distinct rooms `isSelected` holds for at most one row, and for exactly one when the store's room id is in the list |
| ConversationItem.RenameTo | src/assets/components/ConversationItem.js:73-83 | A rename is sent exactly when the trimmed name has at least 3 characters, and it sends the trimmed name |
| ConversationItem.RenameSendsTrimmedName | src/assets/components/ConversationItem.js:73-83 | A sent name has no whitespace at either end, and surrounding whitespace does not change the outcome |
| ConversationItem.Item.constructor | src/assets/components/ConversationItem.js:22-32 | The row starts with its menu closed, its name as the edit text, no rename input and no modal open; whether `onSelect` was passed is fixed for the row's life |
| ConversationItem.Item.ToggleMenu | src/assets/components/ConversationItem.js:198 | The menu button flips `isMenuOpen` and changes nothing else |
| ConversationItem.Item.HandleRename | src/assets/components/ConversationItem.js:66-69 | Rename closes the menu and opens the rename input |
| ConversationItem.Item.EditName | src/assets/components/ConversationItem.js:162 | Typing replaces the edit text and nothing else |
| ConversationItem.Item.CancelRename | src/assets/components/ConversationItem.js:173 | The close button hides the rename input and keeps the edit text |
| ConversationItem.Item.HandleShare | src/assets/components/ConversationItem.js:100-104 | Share closes the menu and shows the placeholder alert, with no request |
| ConversationItem.Item.HandleDelete | src/assets/components/ConversationItem.js:107-110 | Delete closes the menu and opens the confirmation modal, with no request yet |
| ConversationItem.Item.CancelDelete | src/assets/components/ConversationItem.js:257-286 | Cancel, and the modal's request to close, hide the modal with no request |
| ConversationItem.Item.HandleSelectConversation | src/assets/components/ConversationItem.js:46-63 | Selecting the selected room changes nothing. Selecting another room ends with its id, page 1 and an empty transcript, calls `onSelect` only when the prop was passed, and navigates to the room; the menu is left as it was |
| ConversationItem.Item.SaveNewName | src/assets/components/ConversationItem.js:72-97 | A name too short after trimming raises the error alert with no request; otherwise the trimmed name is requested, and the alert tells the outcome |
| ConversationItem.Item.ConfirmDelete | src/assets/components/ConversationItem.js:113-135 | Deleting the current room sets `roomId` and `page` to `''` and goes Home; deleting another room leaves both unchanged |
| ChatHistory.Toggled | src/assets/components/ChatHistory.js:76-78 | `'new'` becomes `'old'`, anything else becomes `'new'` |
| ChatHistory.ToggleTwiceRestores | src/assets/components/ChatHistory.js:76-78 | Toggling twice restores the sort exactly when it was `'new'` or `'old'` |
| ChatHistory.FilterRooms | src/assets/components/ChatHistory.js:70-72 | The result is an order-preserving sub-list of the rooms, holding exactly the rooms whose lower-cased name contains the lower-cased query |
| ChatHistory.FilterRoomsCounts | src/assets/components/ChatHistory.js:70-72 | Counting with repetition, the result holds each matching room as often as the list does and no other room |
| ChatHistory.FilteredConversations | src/assets/components/ChatHistory.js:67-73 | With no room list the result is empty; otherwise it is the filtered list |
| ChatHistory.EmptyQueryKeepsAll | src/assets/components/ChatHistory.js:70-72 | The empty query keeps every room |
| ChatHistory.FallbackListIsEmpty | src/services/chat.js:29 | The fallback room payload `{data: []}` lists nothing |
| ChatHistory.History.constructor | src/assets/components/ChatHistory.js:16-18 | The sort starts at `'new'` |
| ChatHistory.History.LoadSortPreference | src/assets/components/ChatHistory.js:35-51 | A stored `'new'` or `'old'` is adopted with no write-back; anything else keeps the sort and writes the default back |
| ChatHistory.History.ToggleSort | src/assets/components/ChatHistory.js:76-78 | The sort becomes `Toggled(sort)` |
| TableCreator.FormatIsError | src/assets/components/TableCreator/TableCreator.js:15-20 | `'1'` reads 'Failed' and any other value 'Success' |
| TableCreator.HandleSort | src/assets/components/TableCreator/TableCreator.js:326-336 | The key becomes the column. A new column sorts ascending; the current column flips `asc` to `desc` and anything else to `asc` |
| TableCreator.SameHeaderTwiceCycles | src/assets/components/TableCreator/TableCreator.js:326-336 | Three presses on one header equal one press, and two presses on the current column restore its direction |
| TableCreator.FilterRows | src/assets/components/TableCreator/TableCreator.js:340-367 | The result is an order-preserving sub-list of the rows, holding exactly the rows that pass every filter |
| TableCreator.FilterRowsCounts | src/assets/components/TableCreator/TableCreator.js:340-367 | Counting with repetition, the result holds each passing row as often as the table does and no other row |
| TableCreator.BlankFiltersKeepAll | src/assets/components/TableCreator/TableCreator.js:342-343 | Filters without a number keep every row, in order |
| TableCreator.FilterDropsMissing | src/assets/components/TableCreator/TableCreator.js:345-346 | A filter with a number drops every row that lacks its column |
| TableCreator.InsertLastAddsOne | src/assets/components/TableCreator/TableCreator.js:371-391 | One insertion adds exactly the inserted row and keeps every other row as often |
| TableCreator.SortByKey | src/assets/components/TableCreator/TableCreator.js:371-391 | The sort keeps the length |
| TableCreator.InsertLastSorted | src/assets/components/TableCreator/TableCreator.js:371-391 | Inserting into a sorted list keeps it sorted |
| TableCreator.SortByKeySortsAndPermutes | src/assets/components/TableCreator/TableCreator.js:371-391 | The sort is a permutation. Values come out non-decreasing, and every row without a value comes after every row with one |
| TableCreator.SortDirections | src/assets/components/TableCreator/TableCreator.js:369-397 | With no sort key the filtered rows keep their order; `desc` is exactly the reverse of `asc`, and both are permutations of the filtered rows |
| TableCreator.InsertLastAt | src/assets/components/TableCreator/TableCreator.js:371-391 | The insertion puts the row right after the last row that does not come after it |
| TableCreator.ShiftLarger | src/assets/components/TableCreator/TableCreator.js:371-391 | The inner loop shifts exactly the rows after the new one up by one slot, and stops where the new row belongs |
| TableCreator.InsertStep | src/assets/components/TableCreator/TableCreator.js:371-391 | One outer step leaves the prefix equal to `InsertLast` of the sorted prefix and the new row |
| TableCreator.SortInPlace | src/assets/components/TableCreator/TableCreator.js:371-391 | `result.sort(comparator)` leaves the array holding `SortByKey` of its old contents |
| TableCreator.FilterAndSortRows | src/assets/components/TableCreator/TableCreator.js:338-398 | Filtering into a copy and then sorting and reversing it in place yields exactly `FilteredAndSorted` |
| TableCreator.AcceptedSplits | src/assets/components/TableCreator/TableCreator.js:287 | An accepted input reads as optional `-`, digits, optional `.`, digits |
| TableCreator.SplitAccepted | src/assets/components/TableCreator/TableCreator.js:287 | Every text of that form is accepted |
| TableCreator.NumberInputShape | src/assets/components/TableCreator/TableCreator.js:287 | The number input accepts exactly the texts of that form |
| EmailPatterns.AuthEmailShape | src/pages/SignUpScreen.js:34 | `^\S+@\S+$` accepts exactly non-space characters, `@`, non-space characters, with both sides non-empty |
| EmailPatterns.ProfileEmailAcceptedSplit | src/assets/components/ProfileManagement.js:153 | An accepted profile e-mail splits as local `@` host `.` label, each non-empty and free of whitespace and `@` |
| EmailPatterns.ProfileEmailSplitAccepted | src/assets/components/ProfileManagement.js:153 | Every such split is accepted |
| EmailPatterns.ProfileEmailShape | src/assets/components/ProfileManagement.js:153 | The profile pattern accepts exactly the strings of that form |
| EmailPatterns.ProfileEmailOneAt | src/assets/components/ProfileManagement.js:153-155 | An accepted profile e-mail has exactly one `@` and no whitespace |
| SignUpScreen.FullNameError | src/pages/SignUpScreen.js:152-163 | No error exactly for letters and spaces, at most 30 characters. Otherwise the first failing check gives its message: required, then alphabet-only, then length |
| SignUpScreen.EmailError | src/pages/SignUpScreen.js:166-175 | No error exactly for non-space `@` non-space; required when empty, 'Invalid email format' otherwise |
| SignUpScreen.CheckPasswordStrength | src/pages/SignUpScreen.js:178-188 | The five flags are length at least 8, a lower-case letter, an upper-case letter, a digit, and one of `@$!%*#?&` |
| SignUpScreen.RegexAndFlags | src/pages/SignUpScreen.js:35-36 | A password the pattern accepts has all five flags. With all five flags, the pattern accepts exactly when every character is in `[A-Za-z\d@$!%*#?&]` |
| SignUpScreen.FlagsDoNotImplyRegex | src/pages/SignUpScreen.js:35-36 | `Aa1@aaaa~` meets all five checks but the pattern refuses it |
| SignUpScreen.PasswordError | src/pages/SignUpScreen.js:191-201 | No error exactly when the pattern accepts; required when empty, 'Password does not meet requirements' otherwise |
| SignUpScreen.ConfirmError | src/pages/SignUpScreen.js:210-219 | No error exactly for a non-empty copy of the password; required when empty, mismatch otherwise |
| SignUpScreen.TermsError | src/pages/SignUpScreen.js:222-229 | No error exactly when the terms are accepted |
| SignUpScreen.CompleteFormIsValid | src/pages/SignUpScreen.js:244-253 | A complete form whose errors are its fields' own has a valid name, an `x@y` e-mail, a password the pattern accepts with all five flags, and a matching confirmation |
| SignUpScreen.EnabledSignUpIsValid | src/pages/SignUpScreen.js:682-687 | An enabled Sign Up button on a consistent form means no request is in flight and the name, e-mail, password and confirmation are valid; a shown e-mail or password error disables it |
| SignUpScreen.SignUpForm.constructor | src/pages/SignUpScreen.js:50-64 | The form starts empty with no errors shown |
| SignUpScreen.SignUpForm.ValidateFullName | src/pages/SignUpScreen.js:152-163 | Stores the name and `FullNameError` of it |
| SignUpScreen.SignUpForm.ValidateEmail | src/pages/SignUpScreen.js:166-175 | Stores the e-mail and `EmailError` of it |
| SignUpScreen.SignUpForm.ValidateConfirmPassword | src/pages/SignUpScreen.js:210-219 | Stores the confirmation and its error against the password passed in |
| SignUpScreen.SignUpForm.ValidatePassword | src/pages/SignUpScreen.js:191-207 | Stores the password, its flags and its error. An entered confirmation is checked again against the new password; an empty one is left as it was |
| SignUpScreen.SignUpForm.ValidateTerms | src/pages/SignUpScreen.js:222-229 | Stores the checkbox and `TermsError` of it |
| SignUpScreen.SignUpForm.HandleSignUp | src/pages/SignUpScreen.js:256-290 | An incomplete form runs every validator again, sends nothing and leaves the store alone. A complete form stores e-mail and password, opens the verify modal and sends exactly one request with the entered values |
| SignUpScreen.SignUpForm.SignUpSettled | src/pages/SignUpScreen.js:291-357 | After the request chain only the modal can change. An open modal stays open for a created account, whether or not its OTP was sent, and for a 409 whose OTP was sent; every other outcome closes it, and a closed modal stays closed |
| SignUpScreen.SignUpForm.CloseVerifyModal | src/pages/SignUpScreen.js:360-363 | Hides the verify modal and nothing else |
| LoginScreen.LoginEmailError | src/pages/LoginScreen.js:71-80 | No error exactly when `^\S+@\S+$` accepts; required when empty, 'Invalid email format' otherwise |
| LoginScreen.LoginPasswordError | src/pages/LoginScreen.js:83-92 | No error exactly for at least 6 characters; required when empty, the length message otherwise |
| LoginScreen.ProceedsOnlyWhenValid | src/pages/LoginScreen.js:95-107 | With the fields' own errors shown, the login starts exactly for an accepted e-mail and a password of at least 6 characters |
| LoginScreen.SignInButtonAndGuard | src/pages/LoginScreen.js:291 | With nothing loading, a login the guard lets through had an enabled button and a disabled button means the guard refuses; an enabled button can still be refused (`a` with `123456`) |
| LoginScreen.LoginForm.constructor | src/pages/LoginScreen.js:45-53 | The form starts empty, not loading, with no errors |
| LoginScreen.LoginForm.ValidateEmail | src/pages/LoginScreen.js:71-80 | Stores the e-mail and `LoginEmailError` of it |
| LoginScreen.LoginForm.ValidatePassword | src/pages/LoginScreen.js:83-92 | Stores the password and `LoginPasswordError` of it |
| LoginScreen.LoginForm.HandleLogin | src/pages/LoginScreen.js:95-150 | Empty fields get their "required" error, and the guard reads the errors from before. A blocked login dispatches nothing; a proceeding one starts loading and schedules the mock login with the e-mail and theme of that moment |
| LoginScreen.LoginForm.LoginTimerFires | src/pages/LoginScreen.js:109-150 | The mock login stores `fake-jwt-token`, the captured e-mail, the user `User Name` and the captured theme, stops loading and goes Home; with nothing scheduled nothing changes |
| OtpSlots.Cleared | src/pages/VeifyEmailModal.js:22 | Six empty slots |
| OtpSlots.JoinCountsFilledSlots | src/pages/VeifyEmailModal.js:119-122 | The joined code is digits, at most one per slot, and six long exactly when every slot is filled |
| OtpSlots.FocusAfterInput | src/pages/VeifyEmailModal.js:67-69 | Focus moves to the next slot exactly for a non-empty digit value below the last slot |
| OtpSlots.FocusOnBackspace | src/pages/VeifyEmailModal.js:72-77 | Backspace moves focus back one slot exactly from an empty slot that is not the first |
| OtpSlots.Slots.constructor | src/pages/VeifyEmailModal.js:22 | The buffer starts as six empty slots |
| OtpSlots.Slots.InputChange | src/pages/VeifyEmailModal.js:55-70 | A value with a non-digit changes nothing. A digit value writes only slot `index`, to its last character or `''`; the buffer stays six long and well formed. The focus is `FocusAfterInput` |
| OtpSlots.Slots.Backspace | src/pages/VeifyEmailModal.js:72-77 | The slots are unchanged and the focus is `FocusOnBackspace` |
| OtpSlots.Slots.Reset | src/pages/VeifyEmailModal.js:51 | All six slots become `''` |
| VerifyEmailPage.PageModal.constructor | src/pages/VeifyEmailModal.js:22 | The modal starts with six empty slots and no requests |
| VerifyEmailPage.PageModal.VisibilityChanged | src/pages/VeifyEmailModal.js:49-53 | Hiding the modal clears the slots; showing it keeps them |
| VerifyEmailPage.PageModal.ResendCode | src/pages/VeifyEmailModal.js:79-115 | With no stored e-mail there is no request and no change. Otherwise one `sendOtp` request goes out, and only a successful one clears the slots |
| VerifyEmailPage.PageModal.VerifyCode | src/pages/VeifyEmailModal.js:117-177 | A request goes out exactly when the e-mail is set and all six slots are filled, carrying the six-digit code; success closes the modal and goes to Login |
| VerifyEmailComponent.ComponentModal.constructor | src/assets/components/VerifyEmailModal.js:21-22 | The modal starts with six empty slots, not loading |
| VerifyEmailComponent.ComponentModal.VisibilityChanged | src/assets/components/VerifyEmailModal.js:45-49 | Hiding the modal clears the slots; showing it keeps them |
| VerifyEmailComponent.ComponentModal.ResendCode | src/assets/components/VerifyEmailModal.js:75-87 | The slots are always cleared |
| VerifyEmailComponent.ComponentModal.VerifyCode | src/assets/components/VerifyEmailModal.js:89-103 | A code that is not six characters changes nothing; a complete one starts loading and the mock timer |
| VerifyEmailComponent.ComponentModal.VerifyTimerFires | src/assets/components/VerifyEmailModal.js:107-115 | The timer stops loading, closes the modal and goes to Login; with no timer pending nothing changes |
| AccountSetting.SubmitError | src/assets/components/AccountSetting.js:27-43 | Submits exactly when all three fields are filled and the new password equals the confirmation; an empty field gives 'All fields are required', else a mismatch gives its error |
| AccountSetting.PasswordChangeForm.constructor | src/assets/components/AccountSetting.js:21-24 | The form starts empty, with no error and no submission |
| AccountSetting.PasswordChangeForm.Edit | src/assets/components/AccountSetting.js:21-23 | Stores the three fields |
| AccountSetting.PasswordChangeForm.HandleSubmit | src/assets/components/AccountSetting.js:27-43 | A rejected form sets the error and submits nothing; an accepted one passes `onSubmit` exactly the three entered values |
| AccountSetting.AccountPanel.constructor | src/assets/components/AccountSetting.js:246-248 | The panel starts with both modals hidden |
| AccountSetting.AccountPanel.PasswordSaved | src/assets/components/AccountSetting.js:254-265 | Success hides the modal and shows the success note; failure alerts 'Failed to change password. Please try again.' |
| AccountSetting.AccountPanel.PasswordSuccessTimerFires | src/assets/components/AccountSetting.js:259 | Three seconds after a successful change the success note hides, and nothing else changes |
| AccountSetting.AccountPanel.HandleConfirmDelete | src/assets/components/AccountSetting.js:267-281 | A truthy response clears the token and the user details and hides the modal. A falsy one changes nothing. An error alerts its message, or 'Failed to delete account' |
| ProfileManagement.NameSaveError | src/assets/components/ProfileManagement.js:29-34 | A name saves exactly when its trim is non-empty |
| ProfileManagement.EmailSaveError | src/assets/components/ProfileManagement.js:146-158 | An e-mail saves exactly when the pattern accepts the untrimmed text; a blank one gets 'Email cannot be empty', another gets the invalid-address error |
| ProfileManagement.BlankEmailRejected | src/assets/components/ProfileManagement.js:147-155 | A blank e-mail never matches the pattern |
| ProfileManagement.SavedEmailShape | src/assets/components/ProfileManagement.js:153-157 | A saved e-mail has one `@`, no whitespace (none at either end), and a dotted domain |
| ProfileManagement.EditModal.constructor | src/assets/components/ProfileManagement.js:24-26 | The edit text starts as the current value, or `''` |
| ProfileManagement.EditModal.Edit | src/assets/components/ProfileManagement.js:24 | Stores the edit text |
| ProfileManagement.EditModal.HandleSave | src/assets/components/ProfileManagement.js:29-49 | A rejected text sets its error and nothing else; an accepted one clears the error, starts loading and schedules the mock save of that text |
| ProfileManagement.EditModal.SaveTimerFires | src/assets/components/ProfileManagement.js:40-44 | The mock save reports the scheduled text, stops loading and closes with success |
| ProfileManagement.ProfilePanel.constructor | src/assets/components/ProfileManagement.js:261-270 | Name and e-mail start as `Eddie Lake` and `eddie_lake@gmail.com` |
| ProfileManagement.ProfilePanel.UserDataLoaded | src/assets/components/ProfileManagement.js:273-278 | With a `data` object, name and e-mail are replaced, each defaulting to `''`; otherwise nothing changes |
| ProfileManagement.ProfilePanel.OpenModal | src/assets/components/ProfileManagement.js:353-379 | A row press opens its own modal |
| ProfileManagement.ProfilePanel.Updated | src/assets/components/ProfileManagement.js:400 | The saved value replaces the shown name or e-mail |
| ProfileManagement.ProfilePanel.ModalClosed | src/assets/components/ProfileManagement.js:392-415 | Closing hides the modal, and a success shows its message |
| ProfileManagement.ProfilePanel.SuccessTimerFires | src/assets/components/ProfileManagement.js:396-411 | Three seconds after a successful close, that modal's success message hides; the other message and everything else are unchanged |
| ChatSetting.Flipped | src/assets/components/ChatSetting.js:88 | A flip is always a loaded flag, whose truthiness is the negation of the old one |
| ChatSetting.FlipTwice | src/assets/components/ChatSetting.js:88 | Flipping twice restores a loaded flag, and makes an unloaded one `false` |
| ChatSetting.LoadedAsWritten | src/assets/components/ChatSetting.js:28-35 | As written: Conversation Tags takes `displayChatHistory`, Display History takes `conversationTags`, Clear History takes `clearChatHistory` |
| ChatSetting.Loaded | src/assets/components/ChatSetting.js:28-35 | As intended: the payload of the loaded switches is exactly the loaded settings |
| ChatSetting.Payload | src/assets/components/ChatSetting.js:39-43 | The body maps the three switches to their three server fields |
| ChatSetting.LoadThenSaveSwaps | src/assets/components/ChatSetting.js:31-43 | As written, an untouched load-then-save sends `conversationTags` and `displayChatHistory` swapped |
| ChatSetting.LoadThenSaveChangesSettings | src/assets/components/ChatSetting.js:31-43 | So settings whose two fields differ come back changed |
| ChatSetting.LoadThenSaveRoundTrips | src/assets/components/ChatSetting.js:31-43 | With the intended load, an untouched save writes back what was loaded |
| ChatSetting.SettingsPanel.constructor | src/assets/components/ChatSetting.js:23-26 | All three switches start `false` |
| ChatSetting.SettingsPanel.SettingsLoaded | src/assets/components/ChatSetting.js:28-35 | A response fills all three switches, by the intended mapping; none changes nothing |
| ChatSetting.SettingsPanel.Toggle | src/assets/components/ChatSetting.js:88-143 | Each handler flips only its own switch |
| ChatSetting.SettingsPanel.HandleSave | src/assets/components/ChatSetting.js:37-55 | Sends exactly `Payload(switches)`; a response with `data` shows the success note, and an error alerts 'Failed to save settings' |
| ChatSetting.SettingsPanel.SuccessTimerFires | src/assets/components/ChatSetting.js:48 | Three seconds after a save with `data` the success note hides, and nothing else changes |
| ProfileModal.InitialStage | src/assets/components/ProfileModal.js:30-40 | `chat_settings` gives 2, `account_settings` gives 3, anything else gives 1 |
| ProfileModal.OnePanePerStage | src/assets/components/ProfileModal.js:190-192 | Each stage 1 to 3 renders exactly one pane, each its own |
| ProfileModal.SettingsDialog.constructor | src/assets/components/ProfileModal.js:42 | The stage starts at `getInitialStage(dialog)` |
| ProfileModal.SettingsDialog.DialogChanged | src/assets/components/ProfileModal.js:48-50 | The stage follows a new dialog key and stays in 1..3 |
| ProfileModal.SettingsDialog.SelectTab | src/assets/components/ProfileModal.js:86-154 | A tab press sets its stage, in 1..3 |
| ProfileModal.SettingsDialog.Close | src/assets/components/ProfileModal.js:57-60 | Closing calls `onClose(false)` once and resets the stage to `getInitialStage(dialog)` |
| ProfileSection.SplitOnSpace | src/assets/components/ProfileSection.js:157 | `split(' ')` gives at least one piece, none holding a space |
| ProfileSection.SplitJoinRoundTrip | src/assets/components/ProfileSection.js:157 | Joining the pieces with `' '` gives the name back |
| ProfileSection.CharAt0 | src/assets/components/ProfileSection.js:158 | `charAt(0)` is the first character, or `''` for an empty piece |
| ProfileSection.FirstCharsAreWordStarts | src/assets/components/ProfileSection.js:157-159 | The joined first characters are exactly the characters that start a word; empty pieces from repeated spaces add nothing |
| ProfileSection.Initials | src/assets/components/ProfileSection.js:154-162 | A falsy name gives `?`. Otherwise the result is the upper-cased word starts cut to at most two characters |
| ProfileSection.Section.constructor | src/assets/components/ProfileSection.js:145-147 | The dropdown and the modal start closed, with the profile dialog selected |
| ProfileSection.Section.ToggleDropdown | src/assets/components/ProfileSection.js:165-167 | Flips the dropdown's visibility and nothing else |
| ProfileSection.Section.OpenSettings | src/assets/components/ProfileSection.js:21-52 | Sets the dialog to its menu key, opens the modal and closes the dropdown |
| ProfileSection.Section.DarkModeToggle | src/assets/components/ProfileSection.js:55-58 | Dispatches `toggleDarkMode` and leaves the dropdown open |
| ProfileSection.Section.Logout | src/assets/components/ProfileSection.js:60-66 | Dispatches `clearUserData`, navigates to Login and closes the dropdown |
| ProfileSection.Section.CloseDropdown | src/assets/components/ProfileSection.js:189 | Closes the dropdown |
| ProfileSection.Section.CloseModal | src/assets/components/ProfileSection.js:198 | Closes the modal |
| InputComponent.ClampHeight | src/assets/components/InputComponent.js:67-71 | The height is clamped into 40..180: kept inside it, raised to 40 below it, cut to 180 above it |
| InputComponent.ClampIdempotent | src/assets/components/InputComponent.js:69 | Clamping twice equals clamping once |
| InputComponent.SendableHasClear | src/assets/components/InputComponent.js:82-183 | An enabled send button always has an enabled clear button next to it, and a blank prompt cannot be sent |
| InputComponent.LoadingLocksInput | src/assets/components/InputComponent.js:82-183 | While loading nothing can be sent, the microphone is locked and clear works only to stop a recording; otherwise clear and microphone work and a prompt is sendable exactly when not blank |
| InputComponent.PromptBox.constructor | src/assets/components/InputComponent.js:26 | The height starts at 40 |
| InputComponent.PromptBox.ContentSizeChanged | src/assets/components/InputComponent.js:67-71 | The height becomes `ClampHeight` of the content height |
| InputComponent.PromptBox.ClearPressed | src/assets/components/InputComponent.js:84-95 | While recording it stops recording and empties the prompt; otherwise it empties the prompt and resets the height to 40; either way send is then disabled |
| InputComponent.PromptBox.MicPressed | src/assets/components/InputComponent.js:152-166 | While recording it stops recording and empties the prompt; otherwise it starts recording |
| InputComponent.PromptBox.TextChanged | src/assets/components/InputComponent.js:123 | Stores the typed text |
| Common.TakeWordIsLeadingRun | src/utils/Common.js:52 | The first word is a prefix without whitespace, followed by whitespace or the end |
| Common.SplitRuns | src/utils/Common.js:52 | `split(/\s+/)` gives at least one piece; `''` gives `['']` |
| Common.SplitRunsHaveNoWhitespace | src/utils/Common.js:52 | No piece of `split(/\s+/)` holds whitespace |
| Common.TrimmedSplitHasNoEmptyWord | src/utils/Common.js:51-52 | A trimmed non-empty name splits into non-empty words only |
| Common.WhitespaceNameThrows | src/utils/Common.js:51-55 | As written, every non-empty all-whitespace name throws |
| Common.SingleSpaceThrows | src/utils/Common.js:51-55 | As written, `' '` throws |
| Common.Initials | src/utils/Common.js:47-61 | As intended, the initials are at most two characters |
| Common.InitialsMeaning | src/utils/Common.js:47-61 | As intended: `''` for a non-string, empty or blank name. Otherwise the upper-cased first letter of the single word, or of each of the first two words |
| Common.WordInitials | src/utils/Common.js:54-57 | One word gives one character and two or more give two, each the upper-cased first letter of its word |
| Common.AsWrittenAgreesElsewhere | src/utils/Common.js:47-61 | Except on non-empty all-whitespace names, the code as written returns exactly the intended initials |
| Common.InitialsIgnorePadding | src/utils/Common.js:51 | Whitespace around a name does not change its initials |

## Left out

- Rendering and styling: every JSX tree and style sheet, the HTML renderers, animations and toasts. Only the `disabled` and visibility expressions of the prompt box and the sign-in button are modelled.
- The socket library: connecting, `socket.on`/`off` and reconnection. An incoming event is a method call (`HandleResponse`, `RoomCreated`). An emitted event is an entry in `SocketLink.Socket`.
- RTK Query: the hooks, their caching and `baseQuery.js` (token refresh, retry). A request's outcome is a parameter of the handler that receives it. A query's data is an argument.
- AsyncStorage: the reducers' writes and the sort-preference read. The read is a parameter of `ChatHistory.History.LoadSortPreference`, and the write-back is its result.
- Timers. Each `setTimeout` callback is a method of its own, called when the timer fires: `LoaderTimeout`, `LoginTimerFires`, `VerifyTimerFires`, `SaveTimerFires` and the three-second success-note resets (`ChatSetting.SettingsPanel.SuccessTimerFires`, `ProfileManagement.ProfilePanel.SuccessTimerFires`, `AccountSetting.AccountPanel.PasswordSuccessTimerFires`). The delay itself, and which timer fires first when several are pending, is up to the caller.
- Focus movement on resend and on open (the `inputRefs` calls), and keyboard dismissal.
- Voice recording, device lookups in the sign-up screen, and screen dimensions.
- Floating point. Heights and scroll offsets are integers. The table filter's values are already-parsed integers, so the `toFixed` rounding and `parseFloat` of the filter text are not modelled. `localeCompare` on string cells is not modelled either.
- TableCreator.SortByKey: the source's comparator returns 1 for two missing values, which is not a consistent order. The model keeps missing values in their input order (a stable sort).
- Case mapping covers ASCII letters only; other characters are kept as they are.
- JavaScript string length counts UTF-16 code units. The model counts characters, which differs only outside the Basic Multilingual Plane.
- `room:created` and `query:response` payloads are assumed to carry a string `roomId`. Room records are assumed to carry a `roomName` string.
- The user-details object's `id` and `isDarkMode` fields and the system colour scheme are not part of the stored user. The login screen's effective theme is the store's flag.
- ChatService.TransformMessages: the in-place `reverse()` is modelled on the array `raw` passed in. Other holders of the raw response, such as the fetch layer's cache, are not modelled, so what they see afterwards is stated only through `raw`.
- ConversationScreen.Screen: `conversationId`, the route's room id, is a constant of the screen. A route-parameter change while the screen stays mounted is not modelled; entering a room is a new `Screen`.
- LoginScreen.LoginForm.HandleLogin: the password field's `onSubmitEditing` (src/pages/LoginScreen.js:232) is not disabled while loading, so a second submit schedules a second timer. The model keeps one pending login: a second submit replaces the first, and only one timer fires.
- ConversationScreen.Screen.HistoryMerge: the merge does not re-append the live turns added since the snapshot, matching the code. `MergeDropsTurnsAfterSnapshot` proves they are lost.
- ChatSetting.SettingsPanel.SettingsLoaded uses the corrected field mapping. The mapping as written is `ChatSetting.LoadedAsWritten` (see Findings).
- `checkLogin`, `formatPrice`, `formatNumber`, `formatCellValue`, `formatDateTime` and `simpleSanitizeHtml` are not part of this model.

## Findings

| source | as written | input that shows it | evidently intended | confidence | as-written member | corrected member |
|---|---|---|---|---|---|---|
| src/assets/components/ChatSetting.js:31-33 | The load sets the Conversation Tags switch from `displayChatHistory` and the Display History switch from `conversationTags` | Stored settings `{conversationTags: true, displayChatHistory: false, clearChatHistory: false}`, loaded and saved untouched, come back with the first two swapped | Each switch loads the field that `handleSave` writes it to, so an untouched save is a no-op | not executed | ChatSetting.LoadThenSaveChangesSettings | ChatSetting.LoadThenSaveRoundTrips |
| src/utils/Common.js:51-55 | A non-empty name made only of whitespace trims to `''`, which splits into `['']`, and `words[0][0].toUpperCase()` then throws | `getInitials(' ')` | A blank name gives `''`, like an empty one | not executed | Common.SingleSpaceThrows | Common.InitialsMeaning |
