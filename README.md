# Social layer of a Unity game over a realtime tree store

The game's social scripts keep lists on screen in step with a remote tree
store (a realtime database): friend requests received (the inbox) and sent
(the outbox), the friends list, the users online, match requests, friends'
presence notifications and a score leaderboard. Each list controller
subscribes to one part of the store once its token check passes. It loads
that part once and seeds its rows from it. After that it applies the child
events the store delivers.

Listener callbacks run off the main thread. Most controllers therefore queue
their row changes and run the queue in `Update`. Signing in, signing out and
switching users tear the subscriptions down and set them up again. Row and
button scripts send requests, answer them and cancel them by writing store
entries.

The model has one Dafny module per script. Where a script is mostly
decisions, its module has a value-level model (a state datatype, its
transition functions and the invariants they keep). Beside it is a class
module whose class has the script's fields and methods. Every method of that
class is proved to move its fields exactly as the matching transition
function moves the datatype.

How the scripts' side effects are modelled:

- The store is a map from paths to values.
- A write becomes a `StoreOp`, and the writes an operation issues are
  returned in issue order.
- The outcome of each awaited call is an input: a token check, a read, a
  load, or a write that completes or fails.
- An `async` method is split at its awaits. The synchronous prefix and each
  continuation are separate methods, so any order of continuations and
  `Update` calls can be stated.
- The listeners a controller has registered are kept as a multiset of paths.

Shared modules:

- `Wrappers`: the Option datatype.
- `Text`: `ToString` and `int.TryParse`.
- `Store`: values, snapshots, paths and writes.
- `Auth`: the token check that every controller repeats.
- `Labels`: the shortened-uid label.
- `RowCache`: per-uid row dictionaries and replayed events.
- `MainQueue`: the bookkeeping for `Update` drains.

## Model

Paths below are relative to the repository root.

| member | source | states |
|---|---|---|
| Text.NatToString | FirebaseApp-2025-2/Assets/Scripts/Firebase/FriendRequest/InboxController.cs:306-310 | the decimal text of a count is non-empty, all digits, and starts with '0' only for zero |
| Text.DigitsValueOfNatToString | FirebaseApp-2025-2/Assets/Scripts/Firebase/FriendRequest/InboxController.cs:306-310 | reading the printed digits of n back gives n |
| Text.IntToString | FirebaseApp-2025-2/Assets/Scripts/Firebase/LeaderBoardManager.cs:65-70 | `ToString()` of an integer ends in a digit, starts with '-' exactly for a negative value, and is all digits otherwise |
| Text.TryParseInt32 | FirebaseApp-2025-2/Assets/Scripts/Firebase/LeaderboardUIManager.cs:54 | `int.TryParse` succeeds only with a 32-bit value, and only on text that holds a digit |
| Text.ParseIntOrZero | FirebaseApp-2025-2/Assets/Scripts/Game/GameManager.cs:113-118 | the parsed value when the parse succeeds, and the 0 that `TryParse` leaves otherwise |
| Text.SignedValueOfIntToString | FirebaseApp-2025-2/Assets/Scripts/Firebase/LeaderBoardManager.cs:56-58 | the sign and digits of `ToString()` read back as the same integer |
| Text.TryParseOfIntToString | FirebaseApp-2025-2/Assets/Scripts/Firebase/LeaderBoardManager.cs:56-58 | a stored integer parses back to itself exactly when it fits in 32 bits, and fails otherwise |
| Text.NoDigitsNoNumber | FirebaseApp-2025-2/Assets/Scripts/Game/GameManager.cs:113-118 | text with no digit (such as "True") never parses, so its score is 0 |
| Store.DictionaryTextNoNumber | FirebaseApp-2025-2/Assets/Scripts/Game/GameManager.cs:113-118 | a dictionary's type name, whose one digit sits inside the name, does not parse as a number |
| Game.RecordScoreIsZero | FirebaseApp-2025-2/Assets/Scripts/Game/GameManager.cs:113-118 | a stored score that is a record reads as 0 |
| Leaderboard.EntryOfRecordScore | FirebaseApp-2025-2/Assets/Scripts/Firebase/LeaderBoardManager.cs:56-58 | a child whose score is a record is ranked with score 0 |
| Store.Display | FirebaseApp-2025-2/Assets/Scripts/Firebase/FriendRequest/OutboxController.cs:73 | `Value.ToString()`: a string is itself, an integer its decimal text, a dictionary its type name |
| Store.Child | FirebaseApp-2025-2/Assets/Scripts/Firebase/FriendRequest/InboxController.cs:221 | `Child(name)` exists exactly when the value is a dictionary that has that field |
| Auth.EnsureAuthToken | FirebaseApp-2025-2/Assets/Scripts/Firebase/FriendRequest/InboxController.cs:404-435 | at most two token calls, the cached one first; none without a user; a forced refresh only after the cached call throws and with a user still signed in; success iff one of the calls succeeds |
| Auth.EnsureAuthTokenVerdict | FirebaseApp-2025-2/Assets/Scripts/Firebase/FriendRequest/OutboxController.cs:364-391 | the check passes iff a user is signed in and either the cached call or the one forced refresh succeeds |
| Labels.ShortUid | FirebaseApp-2025-2/Assets/Scripts/Firebase/FriendRequest/OutboxController.cs:317-321 | "sin-id" for an empty uid, a uid of at most eight characters unchanged, otherwise its first eight characters then "..." |
| Labels.ShortUidIdempotent | FirebaseApp-2025-2/Assets/Scripts/Firebase/MatchRowController.cs:37-41 | shortening an already shortened label changes nothing |
| Labels.ShortUidInjectiveOnShort | FirebaseApp-2025-2/Assets/Scripts/Firebase/IncomingMatchRowController.cs:45-49 | two non-empty uids of at most eight characters with the same label are the same uid |
| RowCache.Add | FirebaseApp-2025-2/Assets/Scripts/Firebase/OnlineUsersManager.cs:150-156 | the dictionary step of `AddRowSafe` once its empty-uid and prefab guards pass (`OnlineUsers.WithRowAdds` applies them): a uid that already has a row keeps it (first write wins); otherwise exactly one row is added; every other row is unchanged |
| RowCache.Remove | FirebaseApp-2025-2/Assets/Scripts/Firebase/OnlineUsersManager.cs:176-182 | exactly the uid's row goes, if it has one; the count drops by one only then |
| RowCache.AddIdempotent | FirebaseApp-2025-2/Assets/Scripts/Firebase/FriendRequest/FriendListController.cs:148-159 | adding the same uid twice is adding it once |
| RowCache.AddAll | FirebaseApp-2025-2/Assets/Scripts/Firebase/OnlineUsersManager.cs:90-96 | seeding from a load keeps the existing rows and adds exactly the keys of the loaded entries |
| RowCache.AddAllReplays | FirebaseApp-2025-2/Assets/Scripts/Firebase/OnlineUsersManager.cs:90-96 | seeding a batch is replaying its added events in order |
| RowCache.ReplayAppend | FirebaseApp-2025-2/Assets/Scripts/Firebase/OnlineUsersManager.cs:184-194 | replaying two batches one after the other is replaying their concatenation |
| RowCache.KeyReplayNoRemove | FirebaseApp-2025-2/Assets/Scripts/Firebase/OnlineUsersManager.cs:148-182 | without a removal of a uid, its row after a batch is the old row, or else the first one added; one half of `RowCache.ReplayTwice` |
| RowCache.KeyReplayForgets | FirebaseApp-2025-2/Assets/Scripts/Firebase/OnlineUsersManager.cs:148-182 | once a batch removes a uid, what the uid held before the batch no longer matters; the other half of `RowCache.ReplayTwice` |
| RowCache.ReplayTwice | FirebaseApp-2025-2/Assets/Scripts/Firebase/OnlineUsersManager.cs:108-182 | delivering a batch of added and removed events a second time leaves the rows of a single delivery; `OnlineUsers.DeliveredTwice` applies it to the online list |
| MainQueue.FirstFault | FirebaseApp-2025-2/Assets/Scripts/Firebase/FriendRequest/InboxController.cs:177-183 | a drain without a catch stops at the first task that throws: every earlier task ran |
| MainQueue.Completed | FirebaseApp-2025-2/Assets/Scripts/Firebase/FriendRequest/OutboxController.cs:134-144 | a drain that catches per task completes no more tasks than were queued, and only queued ones |
| MainQueue.CompletedWithoutFaults | FirebaseApp-2025-2/Assets/Scripts/Firebase/OnlineUsersManager.cs:184-194 | with no throwing task the whole queue runs, in order |
| FriendRequests.ParseFriendResponse | FirebaseApp-2025-2/Assets/Scripts/Firebase/FriendRequest/FriendRequestManager.cs:190-196 | a response is read only from an existing dictionary record; it carries the entry's key; a missing or non-integer status counts as pending |
| FriendRequests.OutboxRecordReadsBack | FirebaseApp-2025-2/Assets/Scripts/Firebase/FriendRequest/FriendRequestManager.cs:68-93 | the outbox record a send writes reads back as a pending response carrying the sender's name |
| FriendRequests.SaveFriendOps | FirebaseApp-2025-2/Assets/Scripts/Firebase/FriendRequest/FriendRequestManager.cs:147-151 | no write without a user; otherwise one write of the friend's entry under the own friends list |
| FriendRequests.ProcessFriendResponseOps | FirebaseApp-2025-2/Assets/Scripts/Firebase/FriendRequest/FriendRequestManager.cs:198-213 | pending: no writes; accepted: save the friend, then delete the outbox entry; any other status: only the delete; every write stays in the own subtree |
| FriendRequests.ResponseAddedOps | FirebaseApp-2025-2/Assets/Scripts/Firebase/FriendRequest/FriendRequestManager.cs:175-186 | a failed delivery writes nothing; a delivered one is processed as a response |
| FriendRequests.PendingIsIgnored | FirebaseApp-2025-2/Assets/Scripts/Firebase/FriendRequest/FriendRequestManager.cs:168-186 | the sender's own pending record, when delivered as added or changed, causes no write |
| FriendRequests.SendOps | FirebaseApp-2025-2/Assets/Scripts/Firebase/FriendRequest/FriendRequestManager.cs:68-93 | the writes that take effect: none without a user or when the inbox write fails; otherwise the recipient's inbox entry first, then the own outbox record (an empty `userId`, the sender's name, the pending status) when that write succeeds |
| FriendRequests.RespondOps | FirebaseApp-2025-2/Assets/Scripts/Firebase/FriendRequest/FriendRequestManager.cs:95-140 | accepting writes the friend entry first; any other answer only deletes; the inbox entry's delete is among the writes iff it succeeds, and is then the last; at most two writes |
| FriendRequests.RespondStaysInOwnSubtree | FirebaseApp-2025-2/Assets/Scripts/Firebase/FriendRequest/FriendRequestManager.cs:95-140 | answering a request writes only under the answering user's own subtree |
| FriendRequests.UsernameFrom | FirebaseApp-2025-2/Assets/Scripts/Firebase/FriendRequest/FriendRequestManager.cs:153-165 | the stored name's text, or "" without a uid, on a failed read or for a missing value |
| FriendRequests.AcceptedHandshake | FirebaseApp-2025-2/Assets/Scripts/Firebase/FriendRequest/FriendRequestManager.cs:68-213 | send, accept and the sender's processing of the accepted record leave both friend edges and neither request entry |
| FriendRequests.SendWrites | FirebaseApp-2025-2/Assets/Scripts/Firebase/FriendRequest/FriendRequestManager.cs:68-93 | after a successful send the recipient's inbox holds the sender's name and the sender's outbox holds a pending record |
| FriendRequests.AcceptWrites | FirebaseApp-2025-2/Assets/Scripts/Firebase/FriendRequest/FriendRequestManager.cs:95-140 | a successful accept is the friend write followed by the inbox delete |
| FriendRequests.AcceptThenRecord | FirebaseApp-2025-2/Assets/Scripts/Firebase/FriendRequest/FriendRequestManager.cs:95-140 | after an accept and the accepted record, the recipient holds the friend edge and no inbox entry |
| FriendRequests.AcceptedChangeAfterAccept | FirebaseApp-2025-2/Assets/Scripts/Firebase/FriendRequest/FriendRequestManager.cs:168-213 | the sender's processing then adds its own friend edge, drops the outbox entry, and leaves the recipient's side as it was |
| FriendRequests.AcceptedChangeWrites | FirebaseApp-2025-2/Assets/Scripts/Firebase/FriendRequest/FriendRequestManager.cs:168-213 | the sender's processing of an accepted record writes the friend edge and then deletes the outbox entry |
| FriendRequests.FriendRequestManager.constructor | FirebaseApp-2025-2/Assets/Scripts/Firebase/FriendRequest/FriendRequestManager.cs:9-11 | a new manager has no user and no name, has not started, waits for no sign-in and has no listeners |
| FriendRequests.FriendRequestManager.Start | FirebaseApp-2025-2/Assets/Scripts/Firebase/FriendRequest/FriendRequestManager.cs:20-33 | with nobody signed in, only the auth handler is registered; with a user, its uid is set and the name read starts; the manager stays set up for one user at most |
| FriendRequests.FriendRequestManager.InitializeForUser | FirebaseApp-2025-2/Assets/Scripts/Firebase/FriendRequest/FriendRequestManager.cs:43-47 | the uid is set before the name read starts; the name and the listeners stay as they were until the read completes |
| FriendRequests.FriendRequestManager.AfterUsernameRead | FirebaseApp-2025-2/Assets/Scripts/Firebase/FriendRequest/FriendRequestManager.cs:47-61 | with a read in flight, the name is the one read (or "") and the inbox and outbox listeners are registered once, for the current uid; without one nothing changes |
| FriendRequests.FriendRequestManager.OnAuthStateChanged | FirebaseApp-2025-2/Assets/Scripts/Firebase/FriendRequest/FriendRequestManager.cs:35-41 | acts only while registered: a sign-out changes nothing; the first signed-in user unregisters the handler, sets the uid and starts the name read; a later change of user reaches nothing |
| FriendRequests.SignInThenSwitch | FirebaseApp-2025-2/Assets/Scripts/Firebase/FriendRequest/FriendRequestManager.cs:20-61 | started before any sign-in, the manager binds to the first user: after a switch to another user its uid, its name and its one set of listeners are still the first user's |
| FriendRequests.FriendRequestManager.SendFriendRequest | FirebaseApp-2025-2/Assets/Scripts/Firebase/FriendRequest/FriendRequestManager.cs:68-93 | the writes are the send's; the send reports success iff a user is set and both writes succeed |
| FriendRequests.FriendRequestManager.RespondFriendRequestAsync | FirebaseApp-2025-2/Assets/Scripts/Firebase/FriendRequest/FriendRequestManager.cs:95-140 | a missing uid is taken from the signed-in user; without one nothing is written; the inbox row is reported removed iff the delete succeeded |
| FriendRequests.FriendRequestManager.HandleFriendResponseAdded | FirebaseApp-2025-2/Assets/Scripts/Firebase/FriendRequest/FriendRequestManager.cs:175-186 | the writes are those of processing the delivered response |
| FriendRequests.FriendRequestManager.HandleFriendResponseChanged | FirebaseApp-2025-2/Assets/Scripts/Firebase/FriendRequest/FriendRequestManager.cs:168-173 | the writes are those of processing the changed response |
| FriendRequests.FriendRequestManager.HandleFriendRequestAdded | FirebaseApp-2025-2/Assets/Scripts/Firebase/FriendRequest/FriendRequestManager.cs:216-225 | an added request is announced iff it was delivered and exists, with its key and the text of its value |
| FriendRequests.FriendRequestManager.HandleFriendRequestRemoved | FirebaseApp-2025-2/Assets/Scripts/Firebase/FriendRequest/FriendRequestManager.cs:227-234 | a removal is announced iff it was delivered, with its key |
| SentRequestRow.CancelOps | FirebaseApp-2025-2/Assets/Scripts/Firebase/FriendRequest/SentRequestRowController.cs:31-57 | only deletes: the own outbox entry, then the recipient's inbox entry only if the first succeeded |
| SentRequestRow.CancelUndoesSend | FirebaseApp-2025-2/Assets/Scripts/Firebase/FriendRequest/SentRequestRowController.cs:31-57 | a successful cancel after a successful send leaves neither request entry |
| SentRequestRow.SentRequestRowController.constructor | FirebaseApp-2025-2/Assets/Scripts/Firebase/FriendRequest/SentRequestRowController.cs:13-29 | a row before `Init` has an empty label and target and is not destroyed |
| SentRequestRow.SentRequestRowController.Init | FirebaseApp-2025-2/Assets/Scripts/Firebase/FriendRequest/SentRequestRowController.cs:13-29 | the label is the name, else the shortened uid; the cancel button is shown and enabled |
| SentRequestRow.SentRequestRowController.UpdateUsername | FirebaseApp-2025-2/Assets/Scripts/Firebase/FriendRequest/SentRequestRowController.cs:59-64 | an empty name falls back to the shortened uid |
| SentRequestRow.SentRequestRowController.OnCancelClicked | FirebaseApp-2025-2/Assets/Scripts/Firebase/FriendRequest/SentRequestRowController.cs:31-57 | nothing without both uids; otherwise the cancel's deletes; the row is destroyed iff both succeed, and otherwise the button is enabled again |
| RequestRow.RequestRowController.constructor | FirebaseApp-2025-2/Assets/Scripts/Firebase/FriendRequest/RequestRowController.cs:17-43 | a row before `Init` has no manager, no parent list and empty texts |
| RequestRow.RequestRowController.Init | FirebaseApp-2025-2/Assets/Scripts/Firebase/FriendRequest/RequestRowController.cs:17-43 | the label is the name, else the uid; both buttons are shown and enabled |
| RequestRow.RequestRowController.Respond | FirebaseApp-2025-2/Assets/Scripts/Firebase/FriendRequest/RequestRowController.cs:45-57 | without a manager nothing happens; otherwise the manager's answer is sent and the inbox list loses exactly this row |
| RequestRow.RequestRowController.OnAcceptClicked | FirebaseApp-2025-2/Assets/Scripts/Firebase/FriendRequest/RequestRowController.cs:45-50 | answers with status 1 and removes the row from the inbox list |
| RequestRow.RequestRowController.OnRejectClicked | FirebaseApp-2025-2/Assets/Scripts/Firebase/FriendRequest/RequestRowController.cs:52-57 | answers with status 2 and removes the row from the inbox list |
| UserRow.ButtonFor | FirebaseApp-2025-2/Assets/Scripts/Firebase/UserRowController.cs:74-107 | hidden and otherwise untouched for the own row and for a friend; otherwise shown, with "No disponible", "Enviado" or "Agregar" and enabled only for "Agregar" |
| UserRow.ClickableExactly | FirebaseApp-2025-2/Assets/Scripts/Firebase/UserRowController.cs:74-107 | the button is shown and clickable iff the row is a stranger's, a manager is set and nothing is pending |
| UserRow.ButtonForIdempotent | FirebaseApp-2025-2/Assets/Scripts/Firebase/UserRowController.cs:74-107 | re-applying the button state changes nothing |
| UserRow.UserRowController.constructor | FirebaseApp-2025-2/Assets/Scripts/Firebase/UserRowController.cs:28-63 | a row before `Init` has the prefab's button, no manager and no flags set |
| UserRow.UserRowController.Init | FirebaseApp-2025-2/Assets/Scripts/Firebase/UserRowController.cs:28-63 | the given manager or else the scene's; the label is name-or-uid with the own-row mark; the button follows the state table |
| UserRow.UserRowController.UpdateState | FirebaseApp-2025-2/Assets/Scripts/Firebase/UserRowController.cs:66-72 | the three flags are replaced and the button re-applied; label, uid and manager are unchanged |
| UserRow.UserRowController.ApplyButtonState | FirebaseApp-2025-2/Assets/Scripts/Firebase/UserRowController.cs:74-107 | the button becomes the state table's entry for the current flags |
| UserRow.UserRowController.OnSendFriendClicked | FirebaseApp-2025-2/Assets/Scripts/Firebase/UserRowController.cs:109-153 | nothing without a manager or uid; otherwise the send's writes; success marks the row pending, failure re-enables the button with the retry caption |
| UserRow.SendThenLocked | FirebaseApp-2025-2/Assets/Scripts/Firebase/UserRowController.cs:109-153 | after a successful send from a stranger's row the button shows "Enviado" and cannot be clicked |
| Inbox.RequestName | FirebaseApp-2025-2/Assets/Scripts/Firebase/FriendRequest/InboxController.cs:221 | a string value is the name; for a record, its "username" field's text; "" otherwise |
| Inbox.WithRow | FirebaseApp-2025-2/Assets/Scripts/Firebase/FriendRequest/InboxController.cs:268-295 | a new uid gets one row labelled name-or-uid (given a prefab); existing rows are unchanged; the counter follows any change; nothing else changes |
| Inbox.WithoutRow | FirebaseApp-2025-2/Assets/Scripts/Firebase/FriendRequest/InboxController.cs:297-304 | an absent uid changes nothing; otherwise exactly its row goes and the counter follows |
| Inbox.ListenersDetached | FirebaseApp-2025-2/Assets/Scripts/Firebase/FriendRequest/InboxController.cs:318-334 | the registered listener goes and the ref is forgotten; rows, counter and uid stay |
| Inbox.CleanedUp | FirebaseApp-2025-2/Assets/Scripts/Firebase/FriendRequest/InboxController.cs:336-348 | listeners detached, every row gone, counter at zero, uid kept |
| Inbox.SeededFrame | FirebaseApp-2025-2/Assets/Scripts/Firebase/FriendRequest/InboxController.cs:145-170 | the initial load changes only the rows and the counter |
| Inbox.SeededKeepsConsistent | FirebaseApp-2025-2/Assets/Scripts/Firebase/FriendRequest/InboxController.cs:145-170 | seeding keeps the invariant (a non-empty list's counter shows its size, no rows without a prefab, a subscription has a ref) |
| Inbox.RunKeepsConsistent | FirebaseApp-2025-2/Assets/Scripts/Firebase/FriendRequest/InboxController.cs:196-348 | every queued task keeps that invariant |
| Inbox.RunAllKeepsConsistent | FirebaseApp-2025-2/Assets/Scripts/Firebase/FriendRequest/InboxController.cs:177-183 | any sequence of queued tasks keeps that invariant |
| Inbox.UnauthorizedDeliveriesIgnored | FirebaseApp-2025-2/Assets/Scripts/Firebase/FriendRequest/InboxController.cs:190-249 | seeding and listener deliveries change nothing unless the signed-in user is the one the inbox was set up for |
| Inbox.WithRowTwice | FirebaseApp-2025-2/Assets/Scripts/Firebase/FriendRequest/InboxController.cs:268-295 | adding a sender twice keeps the first row |
| Inbox.AuthorizedAddShowsRow | FirebaseApp-2025-2/Assets/Scripts/Firebase/FriendRequest/InboxController.cs:196-225 | an authorised, existing added request always has a row afterwards |
| Inbox.SeedShowsEveryChild | FirebaseApp-2025-2/Assets/Scripts/Firebase/FriendRequest/InboxController.cs:145-170 | after an authorised seed every loaded request has a row and the counter shows the row count |
| Inbox.SeededKeys | FirebaseApp-2025-2/Assets/Scripts/Firebase/FriendRequest/InboxController.cs:155-165 | with a prefab, seeding keeps every row and adds one for every loaded child |
| InboxControllers.InboxController.constructor | FirebaseApp-2025-2/Assets/Scripts/Firebase/FriendRequest/InboxController.cs:12-21 | no rows, no uid, no ref, not subscribed, no listener and an empty queue |
| InboxControllers.InboxController.EnqueueOnMainThread | FirebaseApp-2025-2/Assets/Scripts/Firebase/FriendRequest/InboxController.cs:185-188 | the task joins the back of the queue; nothing else changes |
| InboxControllers.InboxController.UpdateCounter | FirebaseApp-2025-2/Assets/Scripts/Firebase/FriendRequest/InboxController.cs:306-310 | the counter shows "Solicitudes (n)" for the row count |
| InboxControllers.InboxController.AddRow | FirebaseApp-2025-2/Assets/Scripts/Firebase/FriendRequest/InboxController.cs:268-295 | the fields move as `Inbox.WithRow` says |
| InboxControllers.InboxController.RemoveRow | FirebaseApp-2025-2/Assets/Scripts/Firebase/FriendRequest/InboxController.cs:297-304 | the fields move as `Inbox.WithoutRow` says |
| InboxControllers.InboxController.OnResponded | FirebaseApp-2025-2/Assets/Scripts/Firebase/FriendRequest/InboxController.cs:312-315 | an answered request's row is removed |
| InboxControllers.InboxController.UnsubscribeFromInboxListeners | FirebaseApp-2025-2/Assets/Scripts/Firebase/FriendRequest/InboxController.cs:318-334 | the fields move as `Inbox.ListenersDetached` says |
| InboxControllers.InboxController.UnsubscribeFromInbox | FirebaseApp-2025-2/Assets/Scripts/Firebase/FriendRequest/InboxController.cs:336-348 | the fields move as `Inbox.CleanedUp` says |
| InboxControllers.InboxController.RunTask | FirebaseApp-2025-2/Assets/Scripts/Firebase/FriendRequest/InboxController.cs:146-266 | running a queued task moves the fields as `Inbox.Run` says |
| InboxControllers.InboxController.Update | FirebaseApp-2025-2/Assets/Scripts/Firebase/FriendRequest/InboxController.cs:177-183 | the tasks before the first that throws run in queue order; the queue keeps what follows it |
| InboxControllers.InboxController.HandleChildAdded | FirebaseApp-2025-2/Assets/Scripts/Firebase/FriendRequest/InboxController.cs:196-225 | a delivery queues its addition; a permission error queues a listener detach; another error queues nothing |
| InboxControllers.InboxController.HandleChildRemoved | FirebaseApp-2025-2/Assets/Scripts/Firebase/FriendRequest/InboxController.cs:227-249 | a delivery queues its removal; a permission error queues a listener detach |
| InboxControllers.InboxController.OnInboxRequestAddedFallback | FirebaseApp-2025-2/Assets/Scripts/Firebase/FriendRequest/InboxController.cs:252-258 | the manager's announcement is queued as a guarded addition |
| InboxControllers.InboxController.OnInboxRequestRemovedFallback | FirebaseApp-2025-2/Assets/Scripts/Firebase/FriendRequest/InboxController.cs:260-266 | the manager's announcement is queued as a guarded removal |
| InboxControllers.InboxController.InitializeForUser | FirebaseApp-2025-2/Assets/Scripts/Firebase/FriendRequest/InboxController.cs:77-85 | the uid switches at once; a listener detach is only queued, and only when subscribed |
| InboxControllers.InboxController.AfterTokenCheck | FirebaseApp-2025-2/Assets/Scripts/Firebase/FriendRequest/InboxController.cs:87-137 | proceeds iff the token check passes; attaches the new uid's inbox only when not already counted as subscribed |
| InboxControllers.InboxController.InitializeForUserDetachingFirst | FirebaseApp-2025-2/Assets/Scripts/Firebase/FriendRequest/InboxController.cs:77-85 | the corrected start: detach at once, then switch uid; nothing is queued |
| InboxControllers.InboxController.AfterInitialLoad | FirebaseApp-2025-2/Assets/Scripts/Firebase/FriendRequest/InboxController.cs:145-174 | a load queues the seed; a failed load queues a listener detach |
| InboxControllers.InboxController.OnAuthStateChanged | FirebaseApp-2025-2/Assets/Scripts/Firebase/FriendRequest/InboxController.cs:57-75 | sign-out queues a full cleanup and forgets the uid; the same subscribed user is ignored; any other user is initialised |
| InboxControllers.InboxController.Start | FirebaseApp-2025-2/Assets/Scripts/Firebase/FriendRequest/InboxController.cs:23-55 | initialises iff a user is signed in |
| InboxControllers.InboxController.OnDestroy | FirebaseApp-2025-2/Assets/Scripts/Firebase/FriendRequest/InboxController.cs:350-373 | queues a full cleanup |
| InboxControllers.SwitchUserBeforeDrain | FirebaseApp-2025-2/Assets/Scripts/Firebase/FriendRequest/InboxController.cs:77-137 | as written: a direct switch whose token check finishes before `Update` leaves the old user's inbox listened to and the new one's not |
| InboxControllers.SwitchUserDetachingFirst | FirebaseApp-2025-2/Assets/Scripts/Firebase/FriendRequest/InboxController.cs:77-137 | corrected: the same switch listens to the new user's inbox only |
| Outbox.ParseUsername | FirebaseApp-2025-2/Assets/Scripts/Firebase/FriendRequest/OutboxController.cs:209-227 | a string value is the name; a non-empty name read from a record is its "username" string; a number, a boolean or a missing value gives "" |
| Outbox.ParseStatus | FirebaseApp-2025-2/Assets/Scripts/Firebase/FriendRequest/OutboxController.cs:229-243 | a record's integer "status", and 0 in every other case |
| Outbox.TargetName | FirebaseApp-2025-2/Assets/Scripts/Firebase/FriendRequest/OutboxController.cs:160-163 | the entry's name, blanked when it equals the sender's own name |
| Outbox.Resolve | FirebaseApp-2025-2/Assets/Scripts/Firebase/FriendRequest/OutboxController.cs:327-340 | a cached non-empty name relabels the row at once; otherwise a read of the target's name is started |
| Outbox.Relabelled | FirebaseApp-2025-2/Assets/Scripts/Firebase/FriendRequest/OutboxController.cs:245-299 | an existing row is relabelled name-or-short-uid unless a cached name is used; no row is added or dropped, other rows and the counter stay |
| Outbox.Added | FirebaseApp-2025-2/Assets/Scripts/Firebase/FriendRequest/OutboxController.cs:245-299 | a new row joins the others unchanged, labelled name-or-short-uid unless a cached name is used, and the counter shows the new count |
| Outbox.AddOrUpdate | FirebaseApp-2025-2/Assets/Scripts/Firebase/FriendRequest/OutboxController.cs:245-299 | an empty uid changes nothing; with a prefab the uid has a row, labelled name-or-short-uid unless a cached name is used; other rows are unchanged; the counter follows a change in the row set |
| Outbox.WithoutRow | FirebaseApp-2025-2/Assets/Scripts/Firebase/FriendRequest/OutboxController.cs:301-309 | exactly that row goes, if present, and the counter follows |
| Outbox.CleanedUp | FirebaseApp-2025-2/Assets/Scripts/Firebase/FriendRequest/OutboxController.cs:393-411 | the listener goes only if subscribed; the ref and every row go; the counter reads zero; the name cache and uid stay |
| Outbox.NameRead | FirebaseApp-2025-2/Assets/Scripts/Firebase/FriendRequest/OutboxController.cs:344-350 | the read name is cached for the uid; a row still present shows it (or the short uid for an empty name); no other row changes |
| Outbox.Resolved | FirebaseApp-2025-2/Assets/Scripts/Firebase/FriendRequest/OutboxController.cs:341-362 | a read name is cached and relabels a row still present; a failed read only ends the read |
| Outbox.SeededKeepsConsistent | FirebaseApp-2025-2/Assets/Scripts/Firebase/FriendRequest/OutboxController.cs:107-125 | the initial load keeps the invariant (a non-empty list's counter shows its size, no rows without a prefab, a subscription has a ref, no row for the empty uid) and changes nothing beyond rows and counter |
| Outbox.RunKeepsConsistent | FirebaseApp-2025-2/Assets/Scripts/Firebase/FriendRequest/OutboxController.cs:148-206 | every queued task keeps that invariant |
| Outbox.RunAllKeepsConsistent | FirebaseApp-2025-2/Assets/Scripts/Firebase/FriendRequest/OutboxController.cs:134-144 | any drain keeps that invariant |
| Outbox.ResolvedKeepsConsistent | FirebaseApp-2025-2/Assets/Scripts/Firebase/FriendRequest/OutboxController.cs:327-362 | a completed name read keeps that invariant |
| Outbox.ChangedStatusRule | FirebaseApp-2025-2/Assets/Scripts/Firebase/FriendRequest/OutboxController.cs:167-191 | an answered entry (status not 0) never keeps a row; a pending one always has one |
| Outbox.OwnNameNotShown | FirebaseApp-2025-2/Assets/Scripts/Firebase/FriendRequest/OutboxController.cs:148-165 | an entry carrying the sender's own name is shown by short uid instead |
| Outbox.AddOrUpdateTwiceOneRow | FirebaseApp-2025-2/Assets/Scripts/Firebase/FriendRequest/OutboxController.cs:245-299 | adding or updating the same target twice leaves one row |
| OutboxControllers.OutboxController.constructor | FirebaseApp-2025-2/Assets/Scripts/Firebase/FriendRequest/OutboxController.cs:13-27 | no rows, no uid, an empty own name, no ref, not subscribed, no listener, an empty name cache and queue |
| OutboxControllers.OutboxController.EnqueueOnMainThread | FirebaseApp-2025-2/Assets/Scripts/Firebase/FriendRequest/OutboxController.cs:146 | the task joins the back of the queue |
| OutboxControllers.OutboxController.UpdateCounter | FirebaseApp-2025-2/Assets/Scripts/Firebase/FriendRequest/OutboxController.cs:311-315 | the counter shows "Enviadas (n)" |
| OutboxControllers.OutboxController.ResolveAndSetTargetName | FirebaseApp-2025-2/Assets/Scripts/Firebase/FriendRequest/OutboxController.cs:327-340 | the fields move as `Outbox.Resolve` says |
| OutboxControllers.OutboxController.OnTargetNameRead | FirebaseApp-2025-2/Assets/Scripts/Firebase/FriendRequest/OutboxController.cs:341-362 | the fields move as `Outbox.Resolved` says |
| OutboxControllers.OutboxController.ShowReadName | FirebaseApp-2025-2/Assets/Scripts/Firebase/FriendRequest/OutboxController.cs:344-350 | the fields move as `Outbox.NameRead` says |
| OutboxControllers.OutboxController.AddOrUpdateRow | FirebaseApp-2025-2/Assets/Scripts/Firebase/FriendRequest/OutboxController.cs:245-299 | the fields move as `Outbox.AddOrUpdate` says |
| OutboxControllers.OutboxController.RemoveRow | FirebaseApp-2025-2/Assets/Scripts/Firebase/FriendRequest/OutboxController.cs:301-309 | the fields move as `Outbox.WithoutRow` says |
| OutboxControllers.OutboxController.DetachListeners | FirebaseApp-2025-2/Assets/Scripts/Firebase/FriendRequest/OutboxController.cs:395-405 | only a registered listener is detached |
| OutboxControllers.OutboxController.UnsubscribeFromOutbox | FirebaseApp-2025-2/Assets/Scripts/Firebase/FriendRequest/OutboxController.cs:393-411 | the fields move as `Outbox.CleanedUp` says |
| OutboxControllers.OutboxController.RunTask | FirebaseApp-2025-2/Assets/Scripts/Firebase/FriendRequest/OutboxController.cs:108-206 | a queued task moves the fields as `Outbox.Run` says |
| OutboxControllers.OutboxController.Update | FirebaseApp-2025-2/Assets/Scripts/Firebase/FriendRequest/OutboxController.cs:134-144 | every queued task that does not throw runs, in order; the queue ends empty |
| OutboxControllers.OutboxController.HandleChildAdded | FirebaseApp-2025-2/Assets/Scripts/Firebase/FriendRequest/OutboxController.cs:148-165 | a delivery queues its addition; a permission error queues the full cleanup |
| OutboxControllers.OutboxController.HandleChildChanged | FirebaseApp-2025-2/Assets/Scripts/Firebase/FriendRequest/OutboxController.cs:167-191 | a delivery queues the change; an error is only logged |
| OutboxControllers.OutboxController.HandleChildRemoved | FirebaseApp-2025-2/Assets/Scripts/Firebase/FriendRequest/OutboxController.cs:193-206 | a delivery queues the removal; an error is only logged |
| OutboxControllers.OutboxController.InitializeForUser | FirebaseApp-2025-2/Assets/Scripts/Firebase/FriendRequest/OutboxController.cs:63-66 | the uid switches at once; a full cleanup is only queued, and only when subscribed |
| OutboxControllers.OutboxController.AfterUsernameRead | FirebaseApp-2025-2/Assets/Scripts/Firebase/FriendRequest/OutboxController.cs:68-81 | the own name is the stored text, or "" when missing or unreadable |
| OutboxControllers.OutboxController.AfterTokenCheck | FirebaseApp-2025-2/Assets/Scripts/Firebase/FriendRequest/OutboxController.cs:83-104 | proceeds iff the token check passes, and then attaches the current uid's outbox |
| OutboxControllers.OutboxController.InitializeForUserCleaningFirst | FirebaseApp-2025-2/Assets/Scripts/Firebase/FriendRequest/OutboxController.cs:63-66 | the corrected start: clean up at once, then switch uid |
| OutboxControllers.OutboxController.AfterInitialLoad | FirebaseApp-2025-2/Assets/Scripts/Firebase/FriendRequest/OutboxController.cs:105-131 | a load queues the seed; a permission failure queues the full cleanup |
| OutboxControllers.OutboxController.OnAuthStateChanged | FirebaseApp-2025-2/Assets/Scripts/Firebase/FriendRequest/OutboxController.cs:49-61 | sign-out queues the cleanup and forgets uid and name; the same subscribed user is ignored; another is initialised |
| OutboxControllers.OutboxController.OnDestroy | FirebaseApp-2025-2/Assets/Scripts/Firebase/FriendRequest/OutboxController.cs:413-417 | queues the full cleanup |
| OutboxControllers.OutboxSwitchUserBeforeDrain | FirebaseApp-2025-2/Assets/Scripts/Firebase/FriendRequest/OutboxController.cs:63-104 | as written: a direct switch attached before `Update` ends listening to the old user's outbox and not the new one's |
| OutboxControllers.OutboxSwitchUserCleaningFirst | FirebaseApp-2025-2/Assets/Scripts/Firebase/FriendRequest/OutboxController.cs:63-104 | corrected: the same switch listens to the new user's outbox only |
| OnlineUsers.NewRow | FirebaseApp-2025-2/Assets/Scripts/Firebase/OnlineUsersManager.cs:148-174 | the row is marked own exactly for the signed-in uid; the own row's button is hidden; another row's button is enabled iff a manager is set |
| OnlineUsers.WithRow | FirebaseApp-2025-2/Assets/Scripts/Firebase/OnlineUsersManager.cs:148-174 | an empty or listed uid, or no prefab, changes nothing; otherwise exactly one new row, with the manager looked up in the scene |
| OnlineUsers.WithoutRow | FirebaseApp-2025-2/Assets/Scripts/Firebase/OnlineUsersManager.cs:176-182 | exactly that row goes, if present |
| OnlineUsers.ListenersDetached | FirebaseApp-2025-2/Assets/Scripts/Firebase/OnlineUsersManager.cs:199-212 | the listener goes and the ref is forgotten; rows stay |
| OnlineUsers.CleanedUp | FirebaseApp-2025-2/Assets/Scripts/Firebase/OnlineUsersManager.cs:214-221 | the listeners, then every row |
| OnlineUsers.SeededKeepsConsistent | FirebaseApp-2025-2/Assets/Scripts/Firebase/OnlineUsersManager.cs:87-100 | the seed keeps the invariant (no row for the empty uid, no rows without a prefab, a subscription has a ref, the own row's button hidden and every other row's shown) and changes nothing but rows |
| OnlineUsers.RunKeepsConsistent | FirebaseApp-2025-2/Assets/Scripts/Firebase/OnlineUsersManager.cs:108-221 | every queued task keeps that invariant |
| OnlineUsers.RunAllKeepsConsistent | FirebaseApp-2025-2/Assets/Scripts/Firebase/OnlineUsersManager.cs:184-194 | any drain keeps that invariant |
| OnlineUsers.SeededKeepsRows | FirebaseApp-2025-2/Assets/Scripts/Firebase/OnlineUsersManager.cs:87-100 | the seed never drops or relabels a listed user |
| OnlineUsers.SeedListsEveryChild | FirebaseApp-2025-2/Assets/Scripts/Firebase/OnlineUsersManager.cs:87-100 | with a prefab, every loaded non-empty key has a row |
| OnlineUsers.AddedTwice | FirebaseApp-2025-2/Assets/Scripts/Firebase/OnlineUsersManager.cs:108-174 | the same added entry delivered twice gives the list of one delivery |
| OnlineUsers.WithRowAdds | FirebaseApp-2025-2/Assets/Scripts/Firebase/OnlineUsersManager.cs:148-174 | on the rows, `AddRowSafe` ignores the empty uid and a missing prefab, and otherwise adds the new row as `RowCache.Add` does |
| OnlineUsers.SeededFrame | FirebaseApp-2025-2/Assets/Scripts/Firebase/OnlineUsersManager.cs:90-96 | the load changes nothing but the rows and the manager field, and keeps the flags a new row depends on |
| OnlineUsers.SeededAddsAll | FirebaseApp-2025-2/Assets/Scripts/Firebase/OnlineUsersManager.cs:90-96 | the load's rows are `RowCache.AddAll` of its non-empty keys when a prefab is assigned, each with the row `Init` sets up |
| OnlineUsers.RunFrame | FirebaseApp-2025-2/Assets/Scripts/Firebase/OnlineUsersManager.cs:90-146 | a delivery (load, child added, child removed) changes nothing but the rows and the manager field |
| OnlineUsers.RunReplays | FirebaseApp-2025-2/Assets/Scripts/Firebase/OnlineUsersManager.cs:90-146 | a delivery changes the rows as replaying its row events does: one added row per existing non-empty key with a prefab, one removal per existing non-empty key |
| OnlineUsers.RunAllReplays | FirebaseApp-2025-2/Assets/Scripts/Firebase/OnlineUsersManager.cs:184-194 | a drain of deliveries changes the rows as replaying all their events in order does, and nothing else but the manager field |
| OnlineUsers.DeliveredTwice | FirebaseApp-2025-2/Assets/Scripts/Firebase/OnlineUsersManager.cs:90-194 | draining the same deliveries a second time leaves the rows, and everything but the manager field, of a single drain |
| OnlineUsers.SelfMarkIsFixedAtCreation | FirebaseApp-2025-2/Assets/Scripts/Firebase/OnlineUsersManager.cs:44-106 | after a switch to another user the rows keep their old own-row marks, since the listeners-only detach keeps them |
| OnlineUsersControllers.OnlineUsersManager.constructor | FirebaseApp-2025-2/Assets/Scripts/Firebase/OnlineUsersManager.cs:10-18 | no rows, no uid, no ref, not subscribed, no listener, an empty queue; the manager as assigned in the inspector |
| OnlineUsersControllers.OnlineUsersManager.EnqueueOnMainThread | FirebaseApp-2025-2/Assets/Scripts/Firebase/OnlineUsersManager.cs:196-197 | the task joins the back of the queue |
| OnlineUsersControllers.OnlineUsersManager.AddRowSafe | FirebaseApp-2025-2/Assets/Scripts/Firebase/OnlineUsersManager.cs:148-174 | the fields move as `OnlineUsers.WithRow` says |
| OnlineUsersControllers.OnlineUsersManager.RemoveRowSafe | FirebaseApp-2025-2/Assets/Scripts/Firebase/OnlineUsersManager.cs:176-182 | the fields move as `OnlineUsers.WithoutRow` says |
| OnlineUsersControllers.OnlineUsersManager.UnsubscribeFromOnlineListeners | FirebaseApp-2025-2/Assets/Scripts/Firebase/OnlineUsersManager.cs:199-212 | the fields move as `OnlineUsers.ListenersDetached` says |
| OnlineUsersControllers.OnlineUsersManager.UnsubscribeFromOnline | FirebaseApp-2025-2/Assets/Scripts/Firebase/OnlineUsersManager.cs:214-221 | the fields move as `OnlineUsers.CleanedUp` says |
| OnlineUsersControllers.OnlineUsersManager.RunTask | FirebaseApp-2025-2/Assets/Scripts/Firebase/OnlineUsersManager.cs:87-146 | a queued task moves the fields as `OnlineUsers.Run` says |
| OnlineUsersControllers.OnlineUsersManager.Update | FirebaseApp-2025-2/Assets/Scripts/Firebase/OnlineUsersManager.cs:184-194 | every task that does not throw runs, in order; the queue ends empty |
| OnlineUsersControllers.OnlineUsersManager.HandleChildAdded | FirebaseApp-2025-2/Assets/Scripts/Firebase/OnlineUsersManager.cs:108-126 | a delivery queues its addition; a permission error queues a listener detach |
| OnlineUsersControllers.OnlineUsersManager.HandleChildRemoved | FirebaseApp-2025-2/Assets/Scripts/Firebase/OnlineUsersManager.cs:128-146 | a delivery queues its removal; a permission error queues a listener detach |
| OnlineUsersControllers.OnlineUsersManager.InitializeForUser | FirebaseApp-2025-2/Assets/Scripts/Firebase/OnlineUsersManager.cs:44-55 | the uid switches; a listener detach is queued when subscribed |
| OnlineUsersControllers.OnlineUsersManager.AfterTokenCheck | FirebaseApp-2025-2/Assets/Scripts/Firebase/OnlineUsersManager.cs:56-80 | proceeds iff the token check passes, and then attaches "users-online" |
| OnlineUsersControllers.OnlineUsersManager.AfterInitialLoad | FirebaseApp-2025-2/Assets/Scripts/Firebase/OnlineUsersManager.cs:85-105 | a load queues the seed; a permission failure queues a listener detach |
| OnlineUsersControllers.OnlineUsersManager.Start | FirebaseApp-2025-2/Assets/Scripts/Firebase/OnlineUsersManager.cs:20-29 | takes the scene's manager when none is set; initialises iff a user is signed in |
| OnlineUsersControllers.OnlineUsersManager.OnAuthStateChanged | FirebaseApp-2025-2/Assets/Scripts/Firebase/OnlineUsersManager.cs:31-42 | sign-out queues the full cleanup; the same subscribed user is ignored; another is initialised |
| OnlineUsersControllers.OnlineUsersManager.OnDestroy | FirebaseApp-2025-2/Assets/Scripts/Firebase/OnlineUsersManager.cs:223-227 | queues the full cleanup |
| FriendList.WithRow | FirebaseApp-2025-2/Assets/Scripts/Firebase/FriendRequest/FriendListController.cs:148-159 | a listed uid, or no prefab, changes nothing; otherwise one row with the name as given and the counter one higher |
| FriendList.WithoutRow | FirebaseApp-2025-2/Assets/Scripts/Firebase/FriendRequest/FriendListController.cs:161-167 | exactly that row goes, if present, and the counter one lower |
| FriendList.CleanedUp | FirebaseApp-2025-2/Assets/Scripts/Firebase/FriendRequest/FriendListController.cs:192-209 | the listener goes only if subscribed; the ref and every row go; the counter reads zero |
| FriendList.UnfriendOps | FirebaseApp-2025-2/Assets/Scripts/Firebase/FriendRequest/FriendListController.cs:175-180 | nothing without both uids; otherwise the delete of both friend edges |
| FriendList.UnfriendRemovesBothEdges | FirebaseApp-2025-2/Assets/Scripts/Firebase/FriendRequest/FriendListController.cs:175-180 | after an unfriend neither edge exists and no other entry changed |
| FriendList.SeededFrame | FirebaseApp-2025-2/Assets/Scripts/Firebase/FriendRequest/FriendListController.cs:69-80 | the initial load changes only rows and counter |
| FriendList.SeededKeepsConsistent | FirebaseApp-2025-2/Assets/Scripts/Firebase/FriendRequest/FriendListController.cs:69-80 | the seed keeps the invariant (a non-empty list's counter shows its size, no rows without a prefab, a subscription has a ref) |
| FriendList.RunKeepsConsistent | FirebaseApp-2025-2/Assets/Scripts/Firebase/FriendRequest/FriendListController.cs:95-167 | every queued task keeps that invariant |
| FriendList.RunAllKeepsConsistent | FirebaseApp-2025-2/Assets/Scripts/Firebase/FriendRequest/FriendListController.cs:85-91 | any drain keeps that invariant |
| FriendList.UnauthorizedDeliveriesIgnored | FirebaseApp-2025-2/Assets/Scripts/Firebase/FriendRequest/FriendListController.cs:187-190 | deliveries change nothing unless the signed-in user is the one the list was set up for |
| FriendList.AddThenRemove | FirebaseApp-2025-2/Assets/Scripts/Firebase/FriendRequest/FriendListController.cs:95-146 | a friend added and then removed leaves the rows as they were |
| FriendList.WithRowTwice | FirebaseApp-2025-2/Assets/Scripts/Firebase/FriendRequest/FriendListController.cs:148-159 | adding a uid twice keeps the first row |
| FriendListControllers.FriendsListController.constructor | FirebaseApp-2025-2/Assets/Scripts/Firebase/FriendRequest/FriendListController.cs:12-20 | no rows, no uid, no ref, not subscribed, no listener and an empty queue |
| FriendListControllers.FriendsListController.EnqueueOnMainThread | FirebaseApp-2025-2/Assets/Scripts/Firebase/FriendRequest/FriendListController.cs:93 | the task joins the back of the queue |
| FriendListControllers.FriendsListController.UpdateCounter | FirebaseApp-2025-2/Assets/Scripts/Firebase/FriendRequest/FriendListController.cs:169-173 | the counter shows "Amigos (n)" |
| FriendListControllers.FriendsListController.AddRow | FirebaseApp-2025-2/Assets/Scripts/Firebase/FriendRequest/FriendListController.cs:148-159 | the fields move as `FriendList.WithRow` says |
| FriendListControllers.FriendsListController.RemoveRow | FirebaseApp-2025-2/Assets/Scripts/Firebase/FriendRequest/FriendListController.cs:161-167 | the fields move as `FriendList.WithoutRow` says |
| FriendListControllers.FriendsListController.UnsubscribeFromFriends | FirebaseApp-2025-2/Assets/Scripts/Firebase/FriendRequest/FriendListController.cs:192-209 | the fields move as `FriendList.CleanedUp` says |
| FriendListControllers.FriendsListController.Unfriend | FirebaseApp-2025-2/Assets/Scripts/Firebase/FriendRequest/FriendListController.cs:175-180 | the writes are the two edge deletes; the rows change only when the removal is delivered |
| FriendListControllers.FriendsListController.RunTask | FirebaseApp-2025-2/Assets/Scripts/Firebase/FriendRequest/FriendListController.cs:95-167 | a queued task moves the fields as `FriendList.Run` says |
| FriendListControllers.FriendsListController.Update | FirebaseApp-2025-2/Assets/Scripts/Firebase/FriendRequest/FriendListController.cs:85-91 | the tasks before the first that throws run in order; the queue keeps what follows it |
| FriendListControllers.FriendsListController.HandleChildAdded | FirebaseApp-2025-2/Assets/Scripts/Firebase/FriendRequest/FriendListController.cs:95-120 | a delivery queues its addition; a permission error queues the cleanup |
| FriendListControllers.FriendsListController.HandleChildRemoved | FirebaseApp-2025-2/Assets/Scripts/Firebase/FriendRequest/FriendListController.cs:122-146 | a delivery queues its removal; a permission error queues the cleanup |
| FriendListControllers.FriendsListController.Start | FirebaseApp-2025-2/Assets/Scripts/Firebase/FriendRequest/FriendListController.cs:22-50 | no user: nothing; otherwise the uid is set and the start goes on iff a prefab and content are assigned |
| FriendListControllers.FriendsListController.AfterTokenCheck | FirebaseApp-2025-2/Assets/Scripts/Firebase/FriendRequest/FriendListController.cs:51-66 | proceeds iff the token check passes, and then attaches the own friends list |
| FriendListControllers.FriendsListController.AfterInitialLoad | FirebaseApp-2025-2/Assets/Scripts/Firebase/FriendRequest/FriendListController.cs:67-83 | a load queues the seed; a failure is only logged |
| FriendListControllers.FriendsListController.OnDestroy | FirebaseApp-2025-2/Assets/Scripts/Firebase/FriendRequest/FriendListController.cs:182-185 | cleans up at once, not through the queue |
| FriendListControllers.NoListenerWithoutToken | FirebaseApp-2025-2/Assets/Scripts/Firebase/FriendRequest/FriendListController.cs:22-66 | without a user or with a failed token check no listener is attached |
| Matchmaking.RowLabel | FirebaseApp-2025-2/Assets/Scripts/Firebase/MatchRowController.cs:19 | the name, else the shortened uid |
| Matchmaking.IncomingName | FirebaseApp-2025-2/Assets/Scripts/Firebase/MatchmakingManager.cs:166-182 | a request's value text, or "" without a value |
| Matchmaking.RecordRequestShowsDictionaryText | FirebaseApp-2025-2/Assets/Scripts/Firebase/MatchmakingManager.cs:166-182 | a request stored as a record is labelled with the dictionary's type name, not a user name |
| Matchmaking.WithOnlineRow | FirebaseApp-2025-2/Assets/Scripts/Firebase/MatchmakingManager.cs:201-211 | an empty, listed or own uid, or no prefab, changes nothing; otherwise one row labelled name-or-short-uid |
| Matchmaking.WithoutOnlineRow | FirebaseApp-2025-2/Assets/Scripts/Firebase/MatchmakingManager.cs:213-219 | exactly that row goes, if present |
| Matchmaking.WithIncomingRow | FirebaseApp-2025-2/Assets/Scripts/Firebase/MatchmakingManager.cs:221-231 | an empty or listed uid, or no prefab, changes nothing; otherwise one row |
| Matchmaking.WithoutIncomingRow | FirebaseApp-2025-2/Assets/Scripts/Firebase/MatchmakingManager.cs:233-239 | exactly that row goes, if present |
| Matchmaking.OnlineDetached | FirebaseApp-2025-2/Assets/Scripts/Firebase/MatchmakingManager.cs:313-325 | a set ref's listener goes and the ref is forgotten; no ref: nothing changes |
| Matchmaking.IncomingDetached | FirebaseApp-2025-2/Assets/Scripts/Firebase/MatchmakingManager.cs:327-339 | the same for the match-request list |
| Matchmaking.TornDown | FirebaseApp-2025-2/Assets/Scripts/Firebase/MatchmakingManager.cs:302-311 | both subscriptions detached, both row maps empty; uid and name kept |
| Matchmaking.SeededOnlineKeepsConsistent | FirebaseApp-2025-2/Assets/Scripts/Firebase/MatchmakingManager.cs:89-100 | seeding the online rows keeps the invariant and changes nothing else |
| Matchmaking.SeededIncomingKeepsConsistent | FirebaseApp-2025-2/Assets/Scripts/Firebase/MatchmakingManager.cs:113-124 | seeding the request rows keeps the invariant and changes nothing else |
| Matchmaking.RunKeepsConsistent | FirebaseApp-2025-2/Assets/Scripts/Firebase/MatchmakingManager.cs:134-239 | every queued task keeps the empty uid out of the rows and leaves unconfigured lists empty |
| Matchmaking.RunAllKeepsConsistent | FirebaseApp-2025-2/Assets/Scripts/Firebase/MatchmakingManager.cs:292-298 | any drain keeps that invariant |
| Matchmaking.SeededOnlineExcludesSelf | FirebaseApp-2025-2/Assets/Scripts/Firebase/MatchmakingManager.cs:89-100 | the own uid never gets an online row from the seed |
| Matchmaking.SeededOnlineFrame | FirebaseApp-2025-2/Assets/Scripts/Firebase/MatchmakingManager.cs:89-100 | the seed keeps the uid |
| Matchmaking.Payload | FirebaseApp-2025-2/Assets/Scripts/Firebase/MatchmakingManager.cs:248 | the own name, else the own uid |
| Matchmaking.SendMatchRequestOps | FirebaseApp-2025-2/Assets/Scripts/Firebase/MatchmakingManager.cs:242-263 | nothing without both uids or when the request write fails; the target's request entry first, then the own mirror entry |
| Matchmaking.RespondMatchRequestOps | FirebaseApp-2025-2/Assets/Scripts/Firebase/MatchmakingManager.cs:264-290 | the request's delete first; the match is created iff the answer is accept, the delete succeeded, the create succeeded and the sender is not the user itself (a participants dictionary with one key twice throws, and the handler only logs); at most two writes |
| Matchmaking.SelfAcceptOnlyDeletes | FirebaseApp-2025-2/Assets/Scripts/Firebase/MatchmakingManager.cs:264-290 | accepting a request from the own uid writes only the request's delete |
| Matchmaking.RejectCreatesNoMatch | FirebaseApp-2025-2/Assets/Scripts/Firebase/MatchmakingManager.cs:265-290 | a rejection only removes entries: it creates or changes none |
| Matchmaking.AcceptedMatchHandshake | FirebaseApp-2025-2/Assets/Scripts/Firebase/MatchmakingManager.cs:242-290 | a request from one user accepted by another: the request entry is gone and a pending match of both users, created by the one who accepted, exists |
| MatchmakingControllers.MatchmakingManager.constructor | FirebaseApp-2025-2/Assets/Scripts/Firebase/MatchmakingManager.cs:13-28 | no rows in either list, no uid, an empty own name, no refs, no listener and an empty queue |
| MatchmakingControllers.MatchmakingManager.Enqueue | FirebaseApp-2025-2/Assets/Scripts/Firebase/MatchmakingManager.cs:300 | the task joins the back of the queue |
| MatchmakingControllers.MatchmakingManager.AddOnlineRowSafe | FirebaseApp-2025-2/Assets/Scripts/Firebase/MatchmakingManager.cs:201-211 | the fields move as `Matchmaking.WithOnlineRow` says |
| MatchmakingControllers.MatchmakingManager.RemoveOnlineRowSafe | FirebaseApp-2025-2/Assets/Scripts/Firebase/MatchmakingManager.cs:213-219 | the fields move as `Matchmaking.WithoutOnlineRow` says |
| MatchmakingControllers.MatchmakingManager.AddIncomingRowSafe | FirebaseApp-2025-2/Assets/Scripts/Firebase/MatchmakingManager.cs:221-231 | the fields move as `Matchmaking.WithIncomingRow` says |
| MatchmakingControllers.MatchmakingManager.RemoveIncomingRowSafe | FirebaseApp-2025-2/Assets/Scripts/Firebase/MatchmakingManager.cs:233-239 | the fields move as `Matchmaking.WithoutIncomingRow` says |
| MatchmakingControllers.MatchmakingManager.UnsubscribeOnlineSafe | FirebaseApp-2025-2/Assets/Scripts/Firebase/MatchmakingManager.cs:313-325 | the fields move as `Matchmaking.OnlineDetached` says |
| MatchmakingControllers.MatchmakingManager.UnsubscribeIncomingSafe | FirebaseApp-2025-2/Assets/Scripts/Firebase/MatchmakingManager.cs:327-339 | the fields move as `Matchmaking.IncomingDetached` says |
| MatchmakingControllers.MatchmakingManager.Teardown | FirebaseApp-2025-2/Assets/Scripts/Firebase/MatchmakingManager.cs:302-311 | the fields move as `Matchmaking.TornDown` says |
| MatchmakingControllers.MatchmakingManager.SeedOnlineRows | FirebaseApp-2025-2/Assets/Scripts/Firebase/MatchmakingManager.cs:89-98 | the loop over the first online snapshot moves the fields as `Matchmaking.SeededOnline` says |
| MatchmakingControllers.MatchmakingManager.SeedIncomingRows | FirebaseApp-2025-2/Assets/Scripts/Firebase/MatchmakingManager.cs:113-124 | the loop over the first incoming snapshot moves the fields as `Matchmaking.SeededIncoming` says |
| MatchmakingControllers.MatchmakingManager.RunTask | FirebaseApp-2025-2/Assets/Scripts/Firebase/MatchmakingManager.cs:89-198 | a queued task moves the fields as `Matchmaking.Run` says |
| MatchmakingControllers.MatchmakingManager.Update | FirebaseApp-2025-2/Assets/Scripts/Firebase/MatchmakingManager.cs:292-298 | the tasks before the first that throws run in order; the queue keeps what follows it |
| MatchmakingControllers.MatchmakingManager.OnlineAddedEvent | FirebaseApp-2025-2/Assets/Scripts/Firebase/MatchmakingManager.cs:134-148 | a delivery queues its addition; a permission error queues the online detach |
| MatchmakingControllers.MatchmakingManager.OnlineRemovedEvent | FirebaseApp-2025-2/Assets/Scripts/Firebase/MatchmakingManager.cs:150-164 | a delivery queues its removal; a permission error queues the online detach |
| MatchmakingControllers.MatchmakingManager.IncomingAddedEvent | FirebaseApp-2025-2/Assets/Scripts/Firebase/MatchmakingManager.cs:166-182 | a delivery queues its addition; a permission error queues the request-list detach |
| MatchmakingControllers.MatchmakingManager.IncomingRemovedEvent | FirebaseApp-2025-2/Assets/Scripts/Firebase/MatchmakingManager.cs:184-198 | a delivery queues its removal; a permission error queues the request-list detach |
| MatchmakingControllers.MatchmakingManager.InitializeForUser | FirebaseApp-2025-2/Assets/Scripts/Firebase/MatchmakingManager.cs:50-55 | a teardown is queued on every start, subscribed or not, and the uid switches at once |
| MatchmakingControllers.MatchmakingManager.InitializeForUserTearingDownFirst | FirebaseApp-2025-2/Assets/Scripts/Firebase/MatchmakingManager.cs:50-55 | the corrected start: tear down at once, then switch uid |
| MatchmakingControllers.MatchmakingManager.AfterUsernameRead | FirebaseApp-2025-2/Assets/Scripts/Firebase/MatchmakingManager.cs:74-87 | the own name is the stored text or ""; "users-online" is attached |
| MatchmakingControllers.MatchmakingManager.AfterOnlineLoad | FirebaseApp-2025-2/Assets/Scripts/Firebase/MatchmakingManager.cs:89-111 | a load queues the online seed; the own request list is attached either way |
| MatchmakingControllers.MatchmakingManager.AfterIncomingLoad | FirebaseApp-2025-2/Assets/Scripts/Firebase/MatchmakingManager.cs:113-130 | a load queues the request seed; a failure queues nothing |
| MatchmakingControllers.MatchmakingManager.OnAuthStateChanged | FirebaseApp-2025-2/Assets/Scripts/Firebase/MatchmakingManager.cs:37-48 | sign-out queues a teardown and forgets the uid; the same uid is ignored; another is initialised |
| MatchmakingControllers.MatchmakingManager.SendMatchRequest | FirebaseApp-2025-2/Assets/Scripts/Firebase/MatchmakingManager.cs:242-263 | the writes are `Matchmaking.SendMatchRequestOps` for the manager's uid and name |
| MatchmakingControllers.MatchmakingManager.RespondMatchRequest | FirebaseApp-2025-2/Assets/Scripts/Firebase/MatchmakingManager.cs:264-290 | the writes are `Matchmaking.RespondMatchRequestOps` for the manager's uid: no match for the user's own request |
| MatchmakingControllers.MatchmakingManager.OnDestroy | FirebaseApp-2025-2/Assets/Scripts/Firebase/MatchmakingManager.cs:341-345 | tears down at once |
| MatchmakingControllers.FirstSignInBeforeDrain | FirebaseApp-2025-2/Assets/Scripts/Firebase/MatchmakingManager.cs:50-131 | as written: a first sign-in whose continuations finish before `Update` ends with no subscription |
| MatchmakingControllers.FirstSignInTearingDownFirst | FirebaseApp-2025-2/Assets/Scripts/Firebase/MatchmakingManager.cs:50-131 | corrected: the same sign-in keeps both subscriptions |
| MatchRow.MatchRowController.constructor | FirebaseApp-2025-2/Assets/Scripts/Firebase/MatchRowController.cs:14-25 | a row before `Init` is empty and its challenge button is enabled |
| MatchRow.MatchRowController.Init | FirebaseApp-2025-2/Assets/Scripts/Firebase/MatchRowController.cs:14-25 | the row keeps uid, name and manager; with a label, it shows name-or-short-uid |
| MatchRow.MatchRowController.OnChallengeClicked | FirebaseApp-2025-2/Assets/Scripts/Firebase/MatchRowController.cs:27-35 | with a manager and a uid the button locks and the manager's request writes are made; the first write is the target's request entry; otherwise nothing |
| MatchRow.ClickedRowStaysLocked | FirebaseApp-2025-2/Assets/Scripts/Firebase/MatchRowController.cs:27-35 | a clicked row's challenge button stays locked, whatever the writes did |
| IncomingMatchRow.IncomingMatchRowController.constructor | FirebaseApp-2025-2/Assets/Scripts/Firebase/IncomingMatchRowController.cs:15-31 | a row before `Init` is empty and not destroyed |
| IncomingMatchRow.IncomingMatchRowController.Init | FirebaseApp-2025-2/Assets/Scripts/Firebase/IncomingMatchRowController.cs:15-31 | the row keeps sender and manager; with a label, it shows name-or-short-uid |
| IncomingMatchRow.IncomingMatchRowController.Answer | FirebaseApp-2025-2/Assets/Scripts/Firebase/IncomingMatchRowController.cs:33-43 | the row is always destroyed; without a manager nothing is written; otherwise the manager's answer |
| IncomingMatchRow.IncomingMatchRowController.OnAccept | FirebaseApp-2025-2/Assets/Scripts/Firebase/IncomingMatchRowController.cs:33-37 | answers accept and destroys the row; a request from the own uid gets only its delete, as `Matchmaking.RespondMatchRequestOps` says |
| IncomingMatchRow.IncomingMatchRowController.OnReject | FirebaseApp-2025-2/Assets/Scripts/Firebase/IncomingMatchRowController.cs:39-43 | destroys the row; writes at most the request's delete and never a match |
| Presence.NoRepeatWithinCooldown | FirebaseApp-2025-2/Assets/Scripts/Firebase/FriendRequest/FriendPresenceNotifier.cs:187-202 | once a notification for a uid is allowed, none for it is allowed again within the cooldown |
| Presence.RefusalKeepsWindow | FirebaseApp-2025-2/Assets/Scripts/Firebase/FriendRequest/FriendPresenceNotifier.cs:187-202 | a refused attempt does not extend the window, and the next is allowed once the cooldown has passed |
| Presence.CooldownPerUid | FirebaseApp-2025-2/Assets/Scripts/Firebase/FriendRequest/FriendPresenceNotifier.cs:187-202 | the cooldown of one uid never affects another |
| Presence.DisconnectName | FirebaseApp-2025-2/Assets/Scripts/Firebase/FriendRequest/FriendPresenceNotifier.cs:166-175 | the name last seen online, else the entry's value text, else the uid |
| Presence.SeededNamesShape | FirebaseApp-2025-2/Assets/Scripts/Firebase/FriendRequest/FriendPresenceNotifier.cs:102-115 | the initial load keeps every known uid; every new or changed name is non-empty and comes from a loaded entry |
| PresenceControllers.FriendPresenceNotifier.constructor | FirebaseApp-2025-2/Assets/Scripts/Firebase/FriendRequest/FriendPresenceNotifier.cs:19-33 | the cooldown and suppression settings as given; no uid, friends, names, times, refs, listener or announcement; the initial load not done |
| PresenceControllers.FriendPresenceNotifier.CanNotifyNow | FirebaseApp-2025-2/Assets/Scripts/Firebase/FriendRequest/FriendPresenceNotifier.cs:187-202 | allowed iff there is no earlier notice for the uid or the cooldown has passed; the time is recorded only when allowed |
| PresenceControllers.FriendPresenceNotifier.Teardown | FirebaseApp-2025-2/Assets/Scripts/Firebase/FriendRequest/FriendPresenceNotifier.cs:229-245 | detaches the online listener and clears friends, names, times and the load flag; keeps the uid and the refs |
| PresenceControllers.FriendPresenceNotifier.InitializeForUser | FirebaseApp-2025-2/Assets/Scripts/Firebase/FriendRequest/FriendPresenceNotifier.cs:63-73 | tears down, then points at the new user's friends list |
| PresenceControllers.FriendPresenceNotifier.AfterFriendsLoad | FirebaseApp-2025-2/Assets/Scripts/Firebase/FriendRequest/FriendPresenceNotifier.cs:74-97 | the friends are exactly the loaded keys (kept on failure); "users-online" is attached; without suppression the initial load counts as done |
| PresenceControllers.FriendPresenceNotifier.AfterInitialOnlineLoad | FirebaseApp-2025-2/Assets/Scripts/Firebase/FriendRequest/FriendPresenceNotifier.cs:98-123 | the loaded names are recorded and the initial load counts as done |
| PresenceControllers.FriendPresenceNotifier.HandleUserOnlineAdded | FirebaseApp-2025-2/Assets/Scripts/Firebase/FriendRequest/FriendPresenceNotifier.cs:131-156 | the name is recorded; a friend, once the initial load is done, gets a "se ha conectado" notice iff the cooldown allows it |
| PresenceControllers.FriendPresenceNotifier.HandleUserOnlineRemoved | FirebaseApp-2025-2/Assets/Scripts/Firebase/FriendRequest/FriendPresenceNotifier.cs:158-185 | the name is forgotten; a friend gets a "se ha desconectado" notice with the last seen name iff the cooldown allows it |
| PresenceControllers.FriendPresenceNotifier.OnAuthStateChanged | FirebaseApp-2025-2/Assets/Scripts/Firebase/FriendRequest/FriendPresenceNotifier.cs:49-61 | sign-out tears down but keeps the uid; a different uid initialises; the same uid changes nothing |
| PresenceControllers.FriendPresenceNotifier.OnAuthStateChangedForgettingUser | FirebaseApp-2025-2/Assets/Scripts/Firebase/FriendRequest/FriendPresenceNotifier.cs:49-61 | corrected: sign-out also forgets the uid |
| PresenceControllers.FriendPresenceNotifier.OnDestroy | FirebaseApp-2025-2/Assets/Scripts/Firebase/FriendRequest/FriendPresenceNotifier.cs:247-251 | tears down |
| PresenceControllers.LoadedFriendKeys | FirebaseApp-2025-2/Assets/Scripts/Firebase/FriendRequest/FriendPresenceNotifier.cs:78-82 | the friends are the set of the loaded keys |
| PresenceControllers.SeedNames | FirebaseApp-2025-2/Assets/Scripts/Firebase/FriendRequest/FriendPresenceNotifier.cs:102-115 | the loop records exactly `Presence.SeededNames` |
| PresenceControllers.SignOutThenSameUser | FirebaseApp-2025-2/Assets/Scripts/Firebase/FriendRequest/FriendPresenceNotifier.cs:49-61 | as written: sign-out then sign-in as the same user leaves the notifier detached |
| PresenceControllers.SignOutThenSameUserForgetting | FirebaseApp-2025-2/Assets/Scripts/Firebase/FriendRequest/FriendPresenceNotifier.cs:49-61 | corrected: the same sequence initialises again and listens |
| Game.ExistingScore | FirebaseApp-2025-2/Assets/Scripts/Game/GameManager.cs:113-118 | a missing score is 0; a stored one is its text parsed, or 0 |
| Game.StoredScoreRead | FirebaseApp-2025-2/Assets/Scripts/Game/GameManager.cs:113-118 | a stored 32-bit score reads back as itself |
| Game.ScoreWrites | FirebaseApp-2025-2/Assets/Scripts/Game/GameManager.cs:90-139 | no user: nothing; a failed read: the score is written; otherwise written only if higher than the stored one |
| Game.HighScoreKept | FirebaseApp-2025-2/Assets/Scripts/Game/GameManager.cs:120-136 | with a 32-bit stored score the stored value becomes the maximum of the two and nothing else changes |
| Game.FirstScoreWrittenWhenPositive | FirebaseApp-2025-2/Assets/Scripts/Game/GameManager.cs:113-136 | without a stored score, a score is written iff it is positive |
| Game.FailedReadOverwrites | FirebaseApp-2025-2/Assets/Scripts/Game/GameManager.cs:103-110 | after a failed read the stored score is the new one, even a lower one |
| GameControllers.GameManager.constructor | FirebaseApp-2025-2/Assets/Scripts/Game/GameManager.cs:22-34 | a manager starts with its score, not destroyed and with no game-over screen |
| GameControllers.GameManager.Awake | FirebaseApp-2025-2/Assets/Scripts/Game/GameManager.cs:22-34 | the first manager becomes the instance; a later one destroys itself |
| GameControllers.GameManager.ShowGameOverScreen | FirebaseApp-2025-2/Assets/Scripts/Game/GameManager.cs:42-46 | the current score is saved and the game-over screen is shown |
| GameControllers.GameManager.SaveScoreToFirebase | FirebaseApp-2025-2/Assets/Scripts/Game/GameManager.cs:90-139 | the writes are `Game.ScoreWrites` |
| GameControllers.TwoManagersAwake | FirebaseApp-2025-2/Assets/Scripts/Game/GameManager.cs:22-34 | of two managers, the first stays the instance and the second is destroyed |
| Leaderboard.EntryOf | FirebaseApp-2025-2/Assets/Scripts/Firebase/LeaderBoardManager.cs:48-61 | the key; the "username" text or "Unknown"; a score of 0 when missing, and always within 32 bits |
| Leaderboard.EntryOfStoredScore | FirebaseApp-2025-2/Assets/Scripts/Firebase/LeaderBoardManager.cs:56-58 | a stored 32-bit score is read back exactly |
| Leaderboard.Collected | FirebaseApp-2025-2/Assets/Scripts/Firebase/LeaderBoardManager.cs:46-61 | one entry per child |
| Leaderboard.CollectedAt | FirebaseApp-2025-2/Assets/Scripts/Firebase/LeaderBoardManager.cs:46-61 | the i-th entry is read from the i-th child, so snapshot order is kept |
| Leaderboard.Take | FirebaseApp-2025-2/Assets/Scripts/Firebase/LeaderBoardManager.cs:63 | `Take(n)`: the first min(n, length) entries, none for n <= 0 |
| Leaderboard.SortDescCorrect | FirebaseApp-2025-2/Assets/Scripts/Firebase/LeaderBoardManager.cs:63 | `OrderByDescending` by score: sorted, a permutation, and stable (equal scores keep their order) |
| Leaderboard.TopCorrect | FirebaseApp-2025-2/Assets/Scripts/Firebase/LeaderBoardManager.cs:63 | the top list has min(n, count) entries, sorted, all drawn from the input |
| Leaderboard.TopSeparates | FirebaseApp-2025-2/Assets/Scripts/Firebase/LeaderBoardManager.cs:63 | the kept and the left-out entries together are the input, and no left-out score beats a kept one |
| Leaderboard.TopKeepsTies | FirebaseApp-2025-2/Assets/Scripts/Firebase/LeaderBoardManager.cs:63 | when all fit, equal scores appear in input order |
| Leaderboard.RankingCorrect | FirebaseApp-2025-2/Assets/Scripts/Firebase/LeaderboardUIManager.cs:51-58 | the ranking of a snapshot has the right length, is sorted, and holds only the children's entries |
| Leaderboard.TiesKeepSnapshotOrder | FirebaseApp-2025-2/Assets/Scripts/Firebase/LeaderboardUIManager.cs:58 | when all fit, equal scores appear in snapshot order |
| Leaderboard.RankLine | FirebaseApp-2025-2/Assets/Scripts/Firebase/LeaderBoardManager.cs:65-70 | line i starts with the rank i+1 in decimal |
| Leaderboard.RankLines | FirebaseApp-2025-2/Assets/Scripts/Firebase/LeaderBoardManager.cs:65-70 | one line per entry, in ranking order |
| Leaderboard.CollectEntries | FirebaseApp-2025-2/Assets/Scripts/Firebase/LeaderBoardManager.cs:46-61 | the loop collects exactly `Leaderboard.Collected` |
| LeaderBoardManagers.LeaderBoardManager.constructor | FirebaseApp-2025-2/Assets/Scripts/Firebase/LeaderBoardManager.cs:13-21 | no query, no subscription and nothing printed yet |
| LeaderBoardManagers.LeaderBoardManager.Start | FirebaseApp-2025-2/Assets/Scripts/Firebase/LeaderBoardManager.cs:13-21 | the query is made and subscribed |
| LeaderBoardManagers.LeaderBoardManager.OnDestroy | FirebaseApp-2025-2/Assets/Scripts/Firebase/LeaderBoardManager.cs:23-27 | unsubscribes when the query exists |
| LeaderBoardManagers.LeaderBoardManager.PrintRanking | FirebaseApp-2025-2/Assets/Scripts/Firebase/LeaderBoardManager.cs:65-70 | the loop prints exactly `Leaderboard.RankLines` |
| LeaderBoardManagers.LeaderBoardManager.HandleLeaderboardValueChanged | FirebaseApp-2025-2/Assets/Scripts/Firebase/LeaderBoardManager.cs:29-71 | an error prints nothing to the ranking output; a missing snapshot prints "Leaderboard vacío."; otherwise the heading and the ranked lines |
| LeaderboardUI.ViewOf | FirebaseApp-2025-2/Assets/Scripts/Firebase/LeaderboardUIManager.cs:73-84 | with a prefab that has both texts, the entry shows the name and the score's text; otherwise it stays blank |
| LeaderboardUI.LeaderboardUIManager.constructor | FirebaseApp-2025-2/Assets/Scripts/Firebase/LeaderboardUIManager.cs:19-27 | no query, no subscription and no entries yet |
| LeaderboardUI.LeaderboardUIManager.Start | FirebaseApp-2025-2/Assets/Scripts/Firebase/LeaderboardUIManager.cs:19-27 | the query is made and subscribed |
| LeaderboardUI.LeaderboardUIManager.OnDestroy | FirebaseApp-2025-2/Assets/Scripts/Firebase/LeaderboardUIManager.cs:29-33 | unsubscribes when the query exists |
| LeaderboardUI.LeaderboardUIManager.ClearEntries | FirebaseApp-2025-2/Assets/Scripts/Firebase/LeaderboardUIManager.cs:62-67 | every spawned entry is destroyed |
| LeaderboardUI.LeaderboardUIManager.UpdateLeaderboardUI | FirebaseApp-2025-2/Assets/Scripts/Firebase/LeaderboardUIManager.cs:69-85 | the old entries are destroyed and one entry per ranked item is spawned, in order |
| LeaderboardUI.LeaderboardUIManager.HandleLeaderboardValueChanged | FirebaseApp-2025-2/Assets/Scripts/Firebase/LeaderboardUIManager.cs:35-60 | an error changes nothing; a missing snapshot clears; otherwise the entries show the ranking |

## Left out

- Threads and the queue's lock: listener callbacks and continuations are inputs that may come in any order. Only the interleavings written out as scenario methods are stated.
- UI references (counter texts, buttons, labels) are taken as assigned. Where a script checks a prefab or a text for null and acts differently, that check is a flag on the controller (`configured`, `hasUsernameText`, `prefabHasTexts`).
- Row game objects are kept as values (their label and button state), not as objects. `Instantiate` and `Destroy` are not modelled beyond that; `LeaderboardUI` counts destroyed entries.
- Scene lookups (`FindObjectOfType`) become parameters, such as `sceneManager` and `sceneHasManager`.
- Event wiring between scripts (`OnInboxRequestAdded`, `OnResponded`) becomes returned values and direct calls.
- Awaited calls are inputs: token checks, reads, loads and write outcomes. An exception is modelled where the script catches it: a failed task in a drain, or a failed read.
- Exceptions thrown by subscribing a listener are not modelled.
- The writes `Unfriend` and `SaveFriend` do not await are returned without an outcome.
- A null `myUid` used to build a path becomes "" in the path.
- JSON text (`SetRawJsonValueAsync`) is written as the dictionary value it denotes, with every public field of the serialised class and a null string as "".
- `DebugDump` and every `Debug.Log` line are left out, except the leaderboard's: its heading, rank lines and "Leaderboard vacío." are kept as `printed`. Its `Debug.LogError` line for a database error is not.
- `ShowNotification` records the message in `shown` whether it becomes a toast or a log line. `notificationDuration` and the toast's fading are not modelled.
- The leaderboard query's server-side ordering and limit (`OrderByChild`, `LimitToLast`) are not modelled. The delivered children are taken as given.
- Timers: the cooldown is a whole number of seconds, and the clock is an integer input.
- The gameplay (score growth, speed, obstacles) is not modelled. The score is a field.
- `FriendRowController` is not part of this model.
- `FriendRequests.FriendRequestManager.AfterUsernameRead`: the signed-in uid is taken as non-empty; the listener registration under an empty uid, which the database reference would reject inside the logged `try`, is not modelled.
- `FriendRequestManager`'s `HandleFriendResponseRemoved` has an empty body; its registration is counted among the listeners, and it has no method.
- `Start` of `MatchmakingManager` and `FriendPresenceNotifier` only registers the auth listener and, with a user signed in, initialises. That is the `OnAuthStateChanged` path with a new uid, so it has no method of its own.
- `Leaderboard.RankLine`: only the rank prefix is stated. The rest of the line is the name and the score text.
- `MatchRow.MatchRowController.OnChallengeClicked`: the challenge button is taken as assigned.

## Findings

| source | as written | input that shows it | evidently intended | confidence | as-written member | corrected member |
|---|---|---|---|---|---|---|
| FirebaseApp-2025-2/Assets/Scripts/Firebase/FriendRequest/InboxController.cs:77-137 | a user switch only queues the listener detach; the attach that follows is skipped because `dbSubscribed` is still true | signed in as a, switch to b; b's token check completes before the next `Update` | detach a's listener before attaching b's | not executed; depends on the token check finishing before the next frame | InboxControllers.SwitchUserBeforeDrain | InboxControllers.SwitchUserDetachingFirst |
| FirebaseApp-2025-2/Assets/Scripts/Firebase/FriendRequest/OutboxController.cs:63-104 | a user switch queues the full cleanup, which runs after b's listener is attached, while the ref already points at b | signed in as a, switch to b; b's name read and token check complete before the next `Update` | clean up a's subscription before subscribing for b | not executed; depends on the continuations finishing before the next frame | OutboxControllers.OutboxSwitchUserBeforeDrain | OutboxControllers.OutboxSwitchUserCleaningFirst |
| FirebaseApp-2025-2/Assets/Scripts/Firebase/MatchmakingManager.cs:50-131 | every start queues a teardown, even the first one, and the teardown runs after the new subscriptions are set up | first sign-in of a; the token check, the name read and both loads complete before the next `Update` | tear down the old subscriptions at once, before subscribing | not executed; depends on the continuations finishing before the next frame | MatchmakingControllers.FirstSignInBeforeDrain | MatchmakingControllers.FirstSignInTearingDownFirst |
| FirebaseApp-2025-2/Assets/Scripts/Firebase/FriendRequest/FriendPresenceNotifier.cs:49-61 | sign-out tears down but keeps `myUid`; a sign-in is acted on only for a different uid | a signs in, signs out, and signs in again | the second sign-in re-subscribes | not executed; no timing needed | PresenceControllers.SignOutThenSameUser | PresenceControllers.FriendPresenceNotifier.OnAuthStateChangedForgettingUser |
