# Chat fan-out and conversation lists — a Dafny model

This project models the logic of a SwiftUI one-to-one chat client that sits
under its screens and its calls into a hosted document database:

- **Sending a message** (`ChatLogViewModel.handleSend` with
  `persistRecentMessage`). One send makes four independent writes, in this
  order:
  1. the sender's copy of the message under `messages/{from}/{to}`;
  2. the sender's recent row `recent_messages/{from}/messages/{to}`;
  3. the recipient's recent row `recent_messages/{to}/messages/{from}`;
  4. the recipient's copy under `messages/{to}/{from}`.

  Both copies come from one dictionary and both rows from another. A failed
  write only sets the error message. The draft is always cleared and the
  scroll counter always advances. The model is one pure transition over an
  abstract store: `messages: map<(owner, peer), seq<StoredMessage>>` and
  `recent: map<(owner, peer), RecentEntry>`.
- **The chat screen's listener** (`fetchMessages`): each delivered change is
  decoded with field defaults (`ChatMessage.init`) and appended. There is no
  de-duplication.
- **The recent-conversations listener** (`fetchRecentMessages`): each change
  removes the first entry with the same id and, when the document decodes,
  puts the new entry at the front.
- **The partner picker** (`fetchAllUsers`): an order-preserving filter that
  drops the signed-in user's own profile.
- **Small pieces of the main screen**: the three outcomes of
  `fetchCurrentUser`, the sign-out toggle, and the header email with
  `"@gmail.com"` removed.

Modules: `Wrappers` (Option), `Firestore` (field values, query and write
outcomes), `Users` (`ChatUser`), `MessageStore` (the store and its two
updates), `ChatLog`, `ChatSend`, `RecentMessages`, `MainMessages`, `Text`
(`replacingOccurrences` with an empty replacement), `NewMessage`, and
`Conversation` (lemmas that join a send to what the listeners deliver).

The central invariant is `MessageStore.Mirrored`: for every pair of users, both
users see the same log and the same recent row. A send in which every write
lands preserves it (`ChatSend.FanOutPreservesMirror`). A send in which only the
recipient's copy fails breaks it, and all that is left of the failure is the
error message (`ChatSend.PartialFailureBreaksMirror`).

The model follows the code on these points, where one might expect otherwise:

- Both message copies are the same dictionary, so they carry the same
  timestamp. The copies are not stamped independently.
- The draft is not checked: an empty draft is sent like any other.
- The chat screen appends every delivered change, so a change delivered twice
  appears twice.
- The writes go in this order: the sender's copy, both recent rows, then the recipient's copy.
- Both recent rows carry the chat partner's email and avatar. So the
  recipient's row shows the recipient's own profile
  (`Conversation.RecipientRowShowsOwnProfile`).

## Model

| member | source | states |
|---|---|---|
| ChatLog.Decode | LBTASwiftUIFirebaseChat/MainMessages/ChatLogView.swift:28-33 | decoding never fails; the id is the document id; each of fromId, toId and text is the field's string, or "" when the field is missing or not a string |
| ChatLog.DecodeReadsOnlyStringFields | LBTASwiftUIFirebaseChat/MainMessages/ChatLogView.swift:28-33 | two documents that agree on the three string fields decode to the same message, whatever else they hold |
| ChatLog.DecodeMessageData | LBTASwiftUIFirebaseChat/MainMessages/ChatLogView.swift:75-76 | the dictionary a send writes decodes back to the sender, recipient and text it was written with |
| ChatLog.DecodeChanges | LBTASwiftUIFirebaseChat/MainMessages/ChatLogView.swift:59-62 | a batch of changes decodes to exactly one message per change, in delivery order |
| ChatLog.AppendChanges | LBTASwiftUIFirebaseChat/MainMessages/ChatLogView.swift:59-62 | the listener loop keeps the old list as a prefix and adds one decoded message per change, in order; the result is the old list followed by the decoded batch |
| ChatLog.ListenedKey | LBTASwiftUIFirebaseChat/MainMessages/ChatLogView.swift:51-53 | a listener exists exactly when both a signed-in uid and a partner exist, and it listens to the key (uid, partner uid) |
| ChatLog.ApplyMessageEvent | LBTASwiftUIFirebaseChat/MainMessages/ChatLogView.swift:53-66 | an error sets errorMessage and leaves the list, draft and counter alone; a snapshot keeps errorMessage, appends the decoded changes after the old list and bumps the counter by one, even when the snapshot is absent |
| ChatLog.RedeliveryDuplicates | LBTASwiftUIFirebaseChat/MainMessages/ChatLogView.swift:59-62 | a change delivered twice yields two equal messages at the end of the list: there is no de-duplication |
| MessageStore.MessageData | LBTASwiftUIFirebaseChat/MainMessages/ChatLogView.swift:76 | the message dictionary has exactly the four keys, holds fromId, toId and text as string values (so they read back even when empty) and the timestamp as a timestamp value |
| MessageStore.AddMessage | LBTASwiftUIFirebaseChat/MainMessages/ChatLogView.swift:75-77 | writing a new auto-id document appends to the log under its key; every other key's log and all recent rows are unchanged |
| MessageStore.SetRecent | LBTASwiftUIFirebaseChat/MainMessages/ChatLogView.swift:114-127 | a recent-row write overwrites the row under its key and leaves every other row and all logs unchanged |
| ChatSend.ErrorAfterSend | LBTASwiftUIFirebaseChat/MainMessages/ChatLogView.swift:77-127 | with no failed write the error message is untouched; otherwise it is the message of the last failed write in issue order: "Failed to save message into Firestore: " plus the description for a message copy, the bare description for a recent row |
| ChatSend.FanOut | LBTASwiftUIFirebaseChat/MainMessages/ChatLogView.swift:93-94 | whatever the writes do, the draft becomes "", the counter grows by exactly one, the message list is unchanged, and the error message is the one the write handlers leave |
| ChatSend.FanOutTouchesOnlyConversation | LBTASwiftUIFirebaseChat/MainMessages/ChatLogView.swift:75-121 | a send changes no log and no recent row outside the keys (from, to) and (to, from) |
| ChatSend.FanOutAppendsCopies | LBTASwiftUIFirebaseChat/MainMessages/ChatLogView.swift:75-87 | each log gains exactly one record {from, to, pre-send draft, message time} when its write lands and nothing when it fails; both copies are the same record |
| ChatSend.FanOutOverwritesRecentRows | LBTASwiftUIFirebaseChat/MainMessages/ChatLogView.swift:101-127 | a landed row write overwrites the row with the one shared record: the pre-send draft, status true, and the partner's email and avatar; a failed row write leaves the row as it was |
| ChatSend.FanOutPreservesMirror | LBTASwiftUIFirebaseChat/MainMessages/ChatLogView.swift:75-121 | when every write lands, a store in which both participants see identical logs and rows stays so |
| ChatSend.SuccessfulHistoryMirrored | LBTASwiftUIFirebaseChat/MainMessages/ChatLogView.swift:75-121 | starting from an empty database, any history of sends in which every write lands leaves both participants of every conversation with identical logs and rows |
| ChatSend.PartialFailureBreaksMirror | LBTASwiftUIFirebaseChat/MainMessages/ChatLogView.swift:86-92 | for any send to someone else from a store where both sides agree, if only the recipient's copy fails, the sender's log gains the message, the recipient's stays as it was, the views no longer agree, and the error message is the prefixed failure description |
| ChatSend.EmptyDraftIsSent | LBTASwiftUIFirebaseChat/MainMessages/ChatLogView.swift:70-95 | an empty draft is not rejected: both logs gain a record with text "" |
| ChatSend.HandleSend | LBTASwiftUIFirebaseChat/MainMessages/ChatLogView.swift:72-73 | without a signed-in uid or a partner nothing is written and the view model is unchanged; otherwise the draft is cleared and the counter advances |
| RecentMessages.FirstIndex | LBTASwiftUIFirebaseChat/MainMessages/MainMessagesView.swift:47 | finds an index exactly when some entry has the id, and it is the first such index |
| RecentMessages.RemoveFirst | LBTASwiftUIFirebaseChat/MainMessages/MainMessagesView.swift:47-49 | an absent id leaves the list unchanged; a present id removes exactly the entry at its first index, as a multiset; nothing is added |
| RecentMessages.RemoveFirstKeepsOthers | LBTASwiftUIFirebaseChat/MainMessages/MainMessagesView.swift:47-49 | removal keeps every entry with another id, in the same relative order |
| RecentMessages.RemoveFirstUnique | LBTASwiftUIFirebaseChat/MainMessages/MainMessagesView.swift:47-49 | in a list with unique ids, removal leaves no entry with the id and the ids stay unique |
| RecentMessages.ApplyRecentChange | LBTASwiftUIFirebaseChat/MainMessages/MainMessagesView.swift:46-52 | a decoded change ends at index 0; an undecodable change only removes; the length changes by +1, 0 or -1 depending on decoding and on whether the id was present |
| RecentMessages.ApplyKeepsOthers | LBTASwiftUIFirebaseChat/MainMessages/MainMessagesView.swift:47-52 | entries with other ids keep their relative order across a change |
| RecentMessages.ApplyKeepsIdsUnique | LBTASwiftUIFirebaseChat/MainMessages/MainMessagesView.swift:47-52 | unique ids stay unique; an undecodable change leaves no entry with its id |
| RecentMessages.ApplyRecentChanges | LBTASwiftUIFirebaseChat/MainMessages/MainMessagesView.swift:45-53 | after a snapshot every entry was already listed or is the decoded row of one of its changes under that document id; at most one entry per change is added; the last change, when it decodes, is first |
| RecentMessages.ApplySnapshot | LBTASwiftUIFirebaseChat/MainMessages/MainMessagesView.swift:45-53 | the listener loop applies the changes one after another, in delivery order |
| RecentMessages.ApplyAllKeepsIdsUnique | LBTASwiftUIFirebaseChat/MainMessages/MainMessagesView.swift:45-53 | a whole snapshot keeps ids unique |
| RecentMessages.FromEmptyReversesDelivery | LBTASwiftUIFirebaseChat/MainMessages/MainMessagesView.swift:45-53 | from an empty list, decodable changes with distinct ids give their entries in reverse delivery order |
| RecentMessages.BuiltFromEarlier | LBTASwiftUIFirebaseChat/MainMessages/MainMessagesView.swift:45-53 | with distinct ids and ascending decoded timestamps, the list built before the last change holds no entry with its id and none newer than it |
| RecentMessages.PrependNewestFirst | LBTASwiftUIFirebaseChat/MainMessages/MainMessagesView.swift:47-52 | a change with a new id and an entry at least as new as every listed one keeps a newest-first list newest first |
| RecentMessages.AscendingDeliveryShowsNewestFirst | LBTASwiftUIFirebaseChat/MainMessages/MainMessagesView.swift:39-53 | changes with distinct ids whose decodable documents are delivered in ascending timestamp order give, from an empty list, a list newest first; documents that do not decode are skipped and do not disturb the order |
| MainMessages.Initial | LBTASwiftUIFirebaseChat/MainMessages/MainMessagesView.swift:29-32 | the signed-out flag starts true exactly when no uid is signed in |
| MainMessages.ApplyRecentEvent | LBTASwiftUIFirebaseChat/MainMessages/MainMessagesView.swift:39-54 | a listener error sets errorMessage and leaves the list unchanged; an absent snapshot changes nothing; a snapshot replaces the list by its changes applied in delivery order and touches nothing else |
| MainMessages.RecentListenerKeepsIdsUnique | LBTASwiftUIFirebaseChat/MainMessages/MainMessagesView.swift:45-53 | whatever the listener delivers, ids in the list stay unique |
| MainMessages.FetchCurrentUser | LBTASwiftUIFirebaseChat/MainMessages/MainMessagesView.swift:57-70 | no uid changes nothing; an error sets the failure-prefixed message; no data sets "No data found."; data sets the profile and nothing else |
| MainMessages.FetchFailuresDistinguishable | LBTASwiftUIFirebaseChat/MainMessages/MainMessagesView.swift:60-67 | the two failure outcomes leave different error messages |
| MainMessages.SignOut | LBTASwiftUIFirebaseChat/MainMessages/MainMessagesView.swift:73-76 | sign-out flips the signed-out flag and changes nothing else |
| MainMessages.SignOutTwiceRestores | LBTASwiftUIFirebaseChat/MainMessages/MainMessagesView.swift:74 | as a toggle, two sign-outs restore the state |
| MainMessages.HeaderEmail | LBTASwiftUIFirebaseChat/MainMessages/MainMessagesView.swift:118 | no profile shows ""; a profile's header is never longer than its email |
| MainMessages.HeaderEmailOtherDomain | LBTASwiftUIFirebaseChat/MainMessages/MainMessagesView.swift:118 | an email without "@gmail.com" is shown unchanged |
| MainMessages.HeaderEmailStripsGmail | LBTASwiftUIFirebaseChat/MainMessages/MainMessagesView.swift:118 | "x@gmail.com" is shown as "x", for an x that does not itself contain "@gmail.com" |
| Text.RemoveAllWithoutOccurrence | LBTASwiftUIFirebaseChat/MainMessages/MainMessagesView.swift:118 | removing a pattern that does not occur returns the string unchanged |
| Text.RemoveAll | LBTASwiftUIFirebaseChat/MainMessages/MainMessagesView.swift:118 | deleting the occurrences found scanning left to right never lengthens the string and never introduces a character it did not have |
| Text.RemoveAllTrailing | LBTASwiftUIFirebaseChat/MainMessages/MainMessagesView.swift:118 | for a pattern whose first character does not recur, appending the pattern to a string does not change what removal returns |
| NewMessage.ExcludeCurrent | LBTASwiftUIFirebaseChat/NewMessage/CreateNewMessageView.swift:25-31 | the filter keeps no more profiles than were fetched |
| NewMessage.ExcludeCurrentMembers | LBTASwiftUIFirebaseChat/NewMessage/CreateNewMessageView.swift:28 | a profile is kept exactly when it was fetched and its uid is not the signed-in uid |
| NewMessage.Keeps | LBTASwiftUIFirebaseChat/NewMessage/CreateNewMessageView.swift:28 | comparing a uid with an optional signed-in uid: with nobody signed in every profile passes; otherwise exactly those with another uid |
| NewMessage.ExcludeCurrentCounts | LBTASwiftUIFirebaseChat/NewMessage/CreateNewMessageView.swift:25-31 | each kept profile appears exactly as often as it was fetched, each excluded one never |
| NewMessage.ExcludeCurrentKeepsOrder | LBTASwiftUIFirebaseChat/NewMessage/CreateNewMessageView.swift:25-31 | the kept profiles are a subsequence of the fetched ones |
| NewMessage.SignedOutKeepsAll | LBTASwiftUIFirebaseChat/NewMessage/CreateNewMessageView.swift:28 | with nobody signed in every fetched profile is kept |
| NewMessage.AppendUsers | LBTASwiftUIFirebaseChat/NewMessage/CreateNewMessageView.swift:25-31 | the loop appends exactly the filtered profiles after the old list |
| NewMessage.FetchAllUsers | LBTASwiftUIFirebaseChat/NewMessage/CreateNewMessageView.swift:19-33 | an error leaves the list unchanged; the old list stays a prefix; the appended profiles are the fetched non-self ones, in order and with their multiplicities; with nobody signed in all are appended |
| Conversation.SentMessageReachesSenderScreen | LBTASwiftUIFirebaseChat/MainMessages/ChatLogView.swift:53-77 | the chat screen listens to the log the sender's copy lands in, and delivering that copy appends a message carrying the pre-send draft |
| Conversation.SendMovesConversationToFront | LBTASwiftUIFirebaseChat/MainMessages/MainMessagesView.swift:45-52 | delivering the sender's new recent row puts the conversation first with the pre-send draft, status true and the sender as fromId |
| Conversation.RecipientRowShowsOwnProfile | LBTASwiftUIFirebaseChat/MainMessages/ChatLogView.swift:102-121 | the recipient's row, once delivered, carries the recipient's own email and avatar |
| Conversation.SendHiScenario | LBTASwiftUIFirebaseChat/MainMessages/ChatLogView.swift:70-127 | u1 sending "hi" to u2 at time 100 gives both logs the same single record and both rows the same summary, and the two views agree |

## Left out

- Text.RemoveAll: its contract does not say which occurrences the left-to-right scan deletes when occurrences overlap; only a string without the pattern and a trailing copy of a non-self-overlapping pattern (the "@gmail.com" case) are pinned down, by the two lemmas about it.
- Firestore SDK behaviour is an input. This covers listener delivery, the
  server's `order(by: "timestamp")`, `Timestamp()` readings and
  `data(as: RecentMessage.self)` decoding. Clock readings are `int`
  parameters. A recent change carries its decode outcome as an `Option`.
- `ChatUser` and its `init(data:)` are not part of this model. Profiles arrive
  already decoded as `{uid, email, profileImageURL}`. The signed-in user is an
  `Option<string>` uid.
- Asynchrony is not modelled. A send is one sequential transition. The write
  handlers are taken to complete in the order the writes were issued, so the
  last failure in that order sets the error message. The chat-log listener's
  `DispatchQueue.main.async` counter bump (ChatLogView.swift:63-65) is folded
  into the same transition as the batch it follows (`ChatLog.ApplyMessageEvent`).
  `MainMessages.Initial` gives the signed-out flag the value that the
  dispatched assignment at MainMessagesView.swift:30-32 sets later.
- Concurrent sends are not modelled: interleaved sends and last-write-wins on a
  shared recent row fall outside a sequential model.
- `persistRecentMessage`'s own guards (ChatLogView.swift:98-100) are not
  modelled separately, because `handleSend` has already passed the same checks.
- A message log is a sequence in write order. In the database it is a set of
  auto-id documents that a query orders by timestamp.
- `RecentMessage.id` is `String?` in the app. A decoded entry always carries its
  document id, so the model's entries have a plain string id.
- Strings are compared character by character: in the header email search,
  in the uid comparison of the partner filter (CreateNewMessageView.swift:28)
  and in the document-id comparison of the recent list
  (MainMessagesView.swift:47). Swift's Unicode canonical equivalence in
  string comparison and search is not modelled.
- Not modelled: `print` output, the `signOut()` call and the error it may throw
  (ignored by `try?`), listener cancellation, the SwiftUI views, navigation,
  `ChatBubbleShape` geometry, the login and registration flow, and app bootstrap.
  These are presentation or SDK calls with no local logic.
- ChatSend.FanOutAppendsCopies: states nothing about a send to oneself (from equal to to), where both copies land in one log; the picker never offers the user's own profile.
- ChatSend.FanOutOverwritesRecentRows: the failed-write clause is stated only for a send to someone else, since for a send to oneself both writes target one row.
