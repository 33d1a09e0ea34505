# homogrape engine core, in Dafny

This project models the Telegram session engine behind the homogrape host
bindings: the `Backend` object (`src/tg/mod.rs`) and the operations the
host calls on it.

- `types.dfy` (module `Types`) covers the value types of `src/tg/types.rs`:
  - `MediaType::from`;
  - the message, chat-summary and seen-chat constructors;
  - the hand-written `Hash`, `PartialOrd` and `Ord` of `NativeMessage`.
- `utils.dfy` (module `Utils`) covers the path helpers of `src/tg/utils.rs`:
  the media path, the download directory and the numbering of profile
  photos. Decimal printing and Rust's `i64` parsing are written out in it.
- `backend.dfy` (module `Tg`) holds `class Backend` with the fields of the
  Rust struct:
  - the login fields;
  - the seen-handle map and the chat-summary map;
  - the four host callbacks;
  - the run-loop handle slot;
  - the set of chats whose profile photo is being fetched.

  An append-only `log` records what the engine does outside itself:
  spawned background saves, client requests, callback invocations and
  session-file writes. The same file has the constructor, the register,
  insert and session-save methods, and the pure forms of `is_logged_in`,
  `sign_out` and `register_device`.
- `login.dfy` (module `Login`) covers the login state machine of
  `src/tg/login.rs`. Each step is a pure function over the four login
  fields, and each method is proved to perform its step.
- `message.dfy` (module `Message`) covers `src/tg/message.rs`:
  - the resumable message load, with its 100-message window, its stop at
    the first message at or below the resume bound, and its id-ordered map;
  - the live-message handler;
  - `get_sorted_messages`;
  - the lookup and caption rules of `send_message`;
  - `download_media_from_message`.
- `chat.dfy` (module `Chat`) covers `src/tg/chat.rs`:
  - the dialog scan with its early stop and per-dialog resume bound;
  - the cache bootstrap from the host's database;
  - the profile-photo functions and their in-flight set.
- `run.dfy` (module `Run`) covers the update loop and its handle slot
  (`src/tg/run.rs`).
- `lib.dfy` (module `Lib`) covers the host entry points of `src/lib.rs`
  that add logic of their own:
  - the `run`/`stop` guard over the handle slot;
  - the conversion of the host's string-keyed offsets into the scan's
    offset map.

Every method that changes the backend is proved equal to a value-level
function of the old state, such as `Chat.LoadChats`, `Message.LoadMessages`,
`Run.RunUpdates` or `Chat.Bootstrap`. The engine's promises are then proved
as lemmas about those functions. The methods follow the source as written,
including the two defects listed under "## Findings"; each correction is a
separate function with its intended property proved beside it.

A backend is valid (`Tg.Backend.Valid`) when each waiting login state has
the token it needs and every summary is stored under its own chat id. The
constructor establishes it, and every method that changes the login fields
or the summaries keeps it.

The client library (grammers) is not modelled; its answers are inputs. A
dialog listing is a `DialogFeed`: the dialogs it yields, then how it ends.
A message listing is a `MessageFeed`. The update stream is an
`UpdateStream`. Each request the engine makes has its outcome passed in:
the code request, sign-in, password check, unpack, download and
message-by-id lookup.

A Rust panic (an `unwrap` on `None`, an explicit `panic!`) is modelled as
`Err(Panicked(..))`. The state is left as it was at the point of the panic.

## Model

| member | source | states |
|---|---|---|
| Types.MediaTypeFrom | src/tg/types.rs:34-52 | the result is `NoMedia` exactly when there is no media or the variant is not one of the ten listed |
| Types.MediaTypeFromInjectiveOnListed | src/tg/types.rs:37-47 | two different listed media variants never map to the same `MediaType` |
| Types.PhotoDownloadable | src/tg/chat.rs:195 | the client's `photo_downloadable` as this model assumes it: a photo can be downloaded exactly when the chat has one, and it is addressed by the chat's own id and the requested size |
| Types.Pack | src/tg/types.rs:276 | a packed handle carries the chat's own id and kind |
| Types.MessageFromRaw | src/tg/types.rs:79-101 | the message keeps its id and chat id; with no sender the sender id is -1 and the name empty, otherwise they are the sender's; the media kind is `MediaType::from` of the raw media |
| Types.HashIgnoresUnhashedFields | src/tg/types.rs:103-113 | messages that differ only in pin flag, media kind, edit time, album id or reply target hash alike |
| Types.Cmp | src/tg/types.rs:123-134 | the ordering looks at `chat_id` alone: `Equal` iff the chat ids are equal, `Less` iff the first chat id is larger |
| Types.PartialCmp | src/tg/types.rs:117-121 | the partial order is always defined and agrees with `cmp` |
| Types.CmpIsTotalPreorder | src/tg/types.rs:123-134 | `cmp` is reflexive, reverses when its arguments are swapped, and is transitive |
| Types.CmpEqualDoesNotImplyEquality | src/tg/types.rs:103-134 | two different messages of one chat compare `Equal`, yet they are unequal and hash differently |
| Types.ChatFromRaw | src/tg/types.rs:175-203 | the new summary has the chat's id, type and name, is unpinned, and has zero and empty last-message fields; it is a megagroup iff the chat is a megagroup, and a forum iff it is a megagroup whose channel record has the forum flag |
| Types.ChatFromDialog | src/tg/types.rs:205-241 | the pin flag comes from the dialog; last-message fields come from the dialog's last message, or are zero and empty without one; only a megagroup is a forum |
| Types.ChatFromDialogAgreesWithFromRaw | src/tg/types.rs:175-241 | both summary constructors agree on id, type, name, megagroup and forum |
| Types.SeenFromUser | src/tg/types.rs:272-289 | a user record has the user type and id, is never a forum, and has no bio or birth date |
| Types.SeenFromGroup | src/tg/types.rs:291-308 | a group record is no contact, has no phone, username or last name, and uses the title as both names |
| Types.SeenFromChannel | src/tg/types.rs:310-327 | a channel record takes its forum flag from the channel, is no contact, and uses the title as both names |
| Types.SeenFromRaw | src/tg/types.rs:264-271 | the record carries the chat's id, type, packed handle and photo thumbnail; only a channel can be a forum |
| Utils.Dec | src/tg/utils.rs:8 | the decimal form of an integer is non-empty digits, with a leading `-` only for negatives |
| Utils.DecInjective | src/tg/utils.rs:8 | different integers print differently |
| Utils.ParseI64 | src/lib.rs:147 | a parsed key is always within the `i64` range, and the empty string does not parse |
| Utils.ParseDecRoundTrip | src/lib.rs:147 | parsing the decimal form of any `i64` gives it back |
| Utils.ParseCollapsesLeadingZeros | src/lib.rs:147 | "7", "07" and "+7" all parse to 7; "", "-" and "7a" do not parse |
| Utils.DownloadDir | src/tg/utils.rs:7-9 | the download directory is the media directory, a separator, the chat id in decimal and a closing separator |
| Utils.DownloadDirInjective | src/tg/utils.rs:7-9 | different chats get different download directories |
| Utils.MediaPath | src/tg/utils.rs:11-13 | the media path starts with the chat's download directory, ends in `.jpg`, and its stem is the message id in decimal |
| Utils.MediaPathInDownloadDir | src/tg/utils.rs:7-13 | the media path is inside the chat's download directory, and different message ids give different paths |
| Utils.AsI32 | src/tg/utils.rs:47 | the `usize as i32` cast stays in the `i32` range and is the identity below 2^31 |
| Utils.ProfilePhotoPathFor | src/tg/utils.rs:32-49 | fails exactly when the directory cannot be made or read; photos are numbered from 1, so with n entries there is no current photo iff n = 0; `current` names file n, `next` names file n+1, and the two differ; both lie in the chat's photo directory |
| Utils.NextIsNewFile | src/tg/utils.rs:44-46 | the next file's name differs from every lower-numbered file |
| Utils.NextBecomesCurrent | src/tg/utils.rs:41-46 | once the next photo is written, it becomes the current one, and the new `next` names none of the photos already there |
| Tg.Backend.constructor | src/tg/mod.rs:161-177 | a new backend has empty caches, no login state, tokens or user, no callbacks and no run handle |
| Tg.Backend.SaveSession | src/tg/mod.rs:180-203 | saving never fails; it only records whether the file was written |
| Tg.Backend.RegisterLoadChatsCallback | src/tg/mod.rs:229-231 | the load-chats callback is now set |
| Tg.Backend.RegisterCacheSeenChatCallback | src/tg/mod.rs:233-235 | the cache-seen-chat callback is now set |
| Tg.Backend.RegisterUpdateChatCallback | src/tg/mod.rs:237-239 | the update-chat callback is now set |
| Tg.Backend.RegisterIncomingMessageCallback | src/tg/mod.rs:241-243 | the incoming-message callback is now set |
| Tg.Backend.InsertChatTo | src/tg/mod.rs:268-271 | the summary is stored under its own chat id, with every other entry kept, so summaries stay keyed by their ids |
| Tg.Backend.InsertSeenPackedChat | src/tg/mod.rs:273-276 | the handle is stored under its own id, with every other entry kept, so handles stay keyed by their ids |
| Tg.IsLoggedIn | src/tg/mod.rs:247-250 | the client's answer is passed through; a client error panics |
| Tg.SignOut | src/tg/mod.rs:252-261 | true exactly when the client's sign-out succeeded |
| Tg.RegisterDevice | src/tg/mod.rs:205-227 | never an error: `Ok(true)` exactly when the request succeeded, `Ok(false)` otherwise |
| Login.LoginWithPhone | src/tg/login.rs:8-32 | the login fields, result and log afterwards are those of the `login_with_phone` step; a valid backend stays valid |
| Login.ProvideVerifyCode | src/tg/login.rs:34-71 | the login fields, result and log afterwards are those of the `provide_verify_code` step; a valid backend stays valid |
| Login.ProvidePassword | src/tg/login.rs:73-99 | the login fields, result and log afterwards are those of the `provide_password` step; a valid backend stays valid |
| Login.LoginWhenAuthorized | src/tg/login.rs:9-13 | an already-authorised client gives `LoggedIn` with one session save and no client request |
| Login.LoginRequestsCode | src/tg/login.rs:14-31 | an unauthorised client requests a code for that phone; success stores the token and gives `CodeRequired`, and failure returns the error with the login fields unchanged |
| Login.VerifyCodeOutcomes | src/tg/login.rs:34-71 | signs in with the stored token; the four outcomes are password needed (token swapped for a password token), signed in (user stored, session saved), invalid code (`WrongCode`, token kept) and failure (error, nothing changed) |
| Login.WrongCodeRetryReusesToken | src/tg/login.rs:55-58 | after a wrong code, the next attempt signs in with the same login token |
| Login.PasswordOnlyWhenRequired | src/tg/login.rs:74-78 | outside `PasswordRequired` the password step refuses without asking the client and changes nothing; with no login state it panics |
| Login.PasswordOutcomes | src/tg/login.rs:79-98 | checks the password with the stored token; success logs in, stores the user, drops the token and saves the session; failure returns the error and keeps waiting for a password |
| Login.StepsNeverProduceUnusedStates | src/tg/types.rs:8-16 | no step ever produces `WrongPhoneNumber`, `WrongPassword` or `LoginFailure` |
| Login.StepsKeepAuthConsistent | src/tg/login.rs:8-99 | every step keeps the token that its waiting state needs (a login token in `CodeRequired`/`WrongCode`, a password token in `PasswordRequired`) |
| Login.TwoFactorLoginScenario | src/tg/login.rs:8-99 | code request, wrong code, right code needing a password, then the password: each result is as the source gives it, and the flow ends logged in with no tokens left |
| Message.InsertByKey | src/tg/message.rs:84 | inserting into the id-ordered map keeps it ascending, adds the message, replaces only an entry with the same id, and adds nothing else |
| Message.InsertByKeyKeys | src/tg/message.rs:84 | the keys afterwards are the old keys plus the new message's id |
| Message.SortAllKeys | src/tg/message.rs:68-85 | the map holds exactly the ids inserted |
| Message.SortAllFromInserted | src/tg/message.rs:83-84 | every entry in the map is the conversion of some message inserted |
| Message.SortAllKeepsLastOfEachId | src/tg/message.rs:84 | for each id, the map holds the message inserted last with that id |
| Message.LastIsNewest | src/tg/message.rs:82 | the last value of the map has the highest id |
| Message.TakeNewerIsStopPrefix | src/tg/message.rs:72-77 | the kept messages are a prefix of the listing in which no message stops the load, and the message right after them stops it |
| Message.TakeNewerExact | src/tg/message.rs:72-77 | any prefix with no stopping message, followed by the end or a stopping message, is exactly what is kept |
| Message.RecordSendersKeys | src/tg/message.rs:78-82 | recording senders adds exactly their ids, keeps every other handle, and stores each handle under its own id |
| Message.LoadMessagesBounds | src/tg/message.rs:62-87 | a successful load is ascending, holds at most 100 messages, all above the resume bound, with one entry per kept id, each converted from a kept message; the senders of exactly the kept messages are recorded |
| Message.StoppingMessageIgnored | src/tg/message.rs:73-76 | a message at or below the bound ends the load: it and everything after it is neither returned nor recorded, even if the listing would fail later |
| Message.LoadMessagesFromIter | src/tg/message.rs:62-87 | the loop returns the function `LoadMessages`'s result and leaves its handle map |
| Message.IncomingMessageHandler | src/tg/message.rs:15-60 | the caches and log afterwards are those of `IncomingMessage`; a valid backend stays valid |
| Message.IncomingMessageRecordsHandles | src/tg/message.rs:16-20 | the chat's and the sender's handles are stored under their own ids, the sender's winning when they coincide; no other handle changes |
| Message.IncomingMessageUpdatesSummary | src/tg/message.rs:22-58 | the chat's summary now names this message; a known chat keeps its name, type, pin, megagroup and forum flags, and one prefetch is spawned; an unknown chat gets a new unpinned summary, and two prefetches are spawned; no other summary changes |
| Message.IncomingMessageKeepsKeyed | src/tg/message.rs:22-58 | the handler keeps every summary stored under its own chat id |
| Message.Reversed | src/tg/message.rs:98 | reversal keeps the length and puts element i at the mirrored position |
| Message.ReversedTwice | src/tg/message.rs:98 | reversing twice gives the sequence back |
| Message.GetSortedMessages | src/tg/message.rs:89-100 | succeeds iff five messages were read or the listing ended cleanly; returns the first min(5, n) messages listed, in reverse order of listing; otherwise it returns the listing's error |
| Message.AlbumCaptions | src/tg/message.rs:125-129 | one caption per file: the text on the first, empty on the rest |
| Message.SendPlan | src/tg/message.rs:102-159 | an unknown chat panics; a known one is addressed by its stored handle, as a text message without media or as an album with one entry per file |
| Message.AlbumCaptionOnFirstOnly | src/tg/message.rs:115-131 | only the first album entry carries the text |
| Message.DownloadMediaFromMessage | src/tg/message.rs:161-224 | an unknown chat panics; a lookup error is returned; an empty lookup is not-found; for a found message the call succeeds iff the file is already there or the directory is ready and the download reports success; success always returns the message's media path |
| Chat.ResumeBound | src/tg/chat.rs:59-63 | a dialog has a resume bound exactly when there is an offset map with an entry for its chat id, and the bound is that entry |
| Chat.LoadDialog | src/tg/chat.rs:45-80 | one turn of the scan does what `VisitDialog` says; a valid backend stays valid |
| Chat.StoreLoaded | src/tg/chat.rs:73-102 | storing a dialog's messages does what `StoreDialog` says; a valid backend stays valid |
| Chat.LoadChatsWithOffset | src/tg/chat.rs:39-106 | the scan leaves the caches and log and returns the result that `LoadChats` gives for the same listing, callbacks and offsets; a valid backend stays valid |
| Chat.VisitDialogOutcomes | src/tg/chat.rs:44-102 | a load error aborts with the summaries untouched; no new messages stops the scan unless the dialog is pinned, with nothing stored; new messages store the handle and a summary with the dialog's pin flag and the newest message's fields, then call `cache_seen_chat` and `update_chat` with the messages in ascending order, all above the bound |
| Chat.StoreDialogOutcomes | src/tg/chat.rs:73-102 | the same outcomes for the storing half alone |
| Chat.EmptyLoadRecordsNothing | src/tg/chat.rs:73-80 | a load that returns no messages has recorded no handle |
| Chat.ScanComposes | src/tg/chat.rs:44-103 | scanning two listings one after the other is one scan in which the second starts where the first left off, and only if the first ran through |
| Chat.StaleDialogEndsScan | src/tg/chat.rs:73-78 | an unpinned dialog with no new messages ends the scan successfully, whatever follows it, and stores nothing |
| Chat.PinnedStaleDialogSkipped | src/tg/chat.rs:73-79 | a pinned dialog with no new messages is skipped, and the scan goes on with the next dialog |
| Chat.ScanKeepsWrites | src/tg/chat.rs:39-106 | the scan never removes a summary or a handle, even when it fails, only appends to the log, and keeps both maps keyed by their own ids |
| Chat.VisitKeepsWrites | src/tg/chat.rs:44-102 | the same for one dialog |
| Chat.StoreKeepsWrites | src/tg/chat.rs:82-102 | the same for the storing half |
| Chat.LoadChatsResult | src/tg/chat.rs:44-106 | the scan fails iff a dialog failed, or every dialog was visited and the listing then failed; an early stop succeeds |
| Chat.ChatsMapOfKeys | src/tg/chat.rs:119-121 | the summaries of a list, as a map, hold every listed id, each under its own id |
| Chat.ChatsMapOfLastWins | src/tg/chat.rs:119-121 | for each id, the map holds the last summary listed with it |
| Chat.SyncCachesFromLocalDb | src/tg/chat.rs:110-123 | the two loops leave the caches and give the result that `Bootstrap` gives; a valid backend stays valid |
| Chat.InsertChatsIsUnion | src/tg/chat.rs:119-121 | inserting the listed summaries one by one is the union of the old map with the list's map |
| Chat.InsertHandlesIsUnion | src/tg/chat.rs:116-118 | when every handle decodes, inserting them is the union of the old map with the decoded handles |
| Chat.InsertHandlesKeepsPrefix | src/tg/chat.rs:116-118 | whether or not the handle loop stops early, the handles decoded before the first bad one are laid over the old map |
| Chat.InsertHandlesTwice | src/tg/chat.rs:116-118 | running the handle loop a second time over the same list changes no handle and stops, or not, as the first run did |
| Chat.BootstrapProperties | src/tg/chat.rs:110-123 | the bootstrap fails iff some handle does not decode, and then no summary is stored; on every path the handles decoded before the first bad one are kept; on success the caches are the unions with the host's lists; a second identical bootstrap, after a success or a failure, gives the same caches and result; summaries stay keyed by their own ids; nothing is logged |
| Chat.InsertHandlesFailsIffUndecodable | src/tg/chat.rs:116-118 | the handle loop stops early iff some handle does not decode |
| Chat.CheckChatPhotoDownloadingAndWait | src/tg/chat.rs:176-185 | reports true exactly when a fetch for that chat is in flight |
| Chat.DownloadChatPhotoAsWritten | src/tg/chat.rs:187-219 | `download_chat_photo` as written: a failed fetch returns its error and leaves the chat marked in flight |
| Chat.DownloadChatPhotoAsWrittenOutcomes | src/tg/chat.rs:187-219 | a chat already in flight succeeds without a fetch; a chat without a photo is an error with nothing changed; otherwise one download into `next` is requested and its outcome returned; success leaves the in-flight set as it was, and failure leaves the chat marked in it |
| Chat.DownloadChatPhotoLeaksMarker | src/tg/chat.rs:197-210 | after a failed fetch the chat stays marked in flight, so every later request for it takes the in-flight path and never fetches again (in the source, that path polls for ever) |
| Chat.DownloadChatPhoto | src/tg/chat.rs:187-219 | the in-flight set, log and result afterwards are those of `DownloadChatPhotoAsWritten`, the source's behaviour, failed fetch included |
| Chat.DownloadChatPhotoOutcomes | src/tg/chat.rs:187-219 | the corrected `download_chat_photo`: the same outcomes as the source, except that the in-flight set ends as it began on every path, a failed fetch included |
| Chat.CorrectionOnlyReleasesMarker | src/tg/chat.rs:207-210 | the corrected and the as-written download give the same result and log on every input, and their in-flight sets differ exactly after a failed fetch of a photo not already in flight |
| Chat.DownloadChatPhotoByChatId | src/tg/chat.rs:221-251 | a directory failure or an unknown chat is an error with nothing changed; a chat in flight returns the next path at once; otherwise the stored handle is unpacked and the photo fetched as the source does, so a failed fetch leaves the chat marked; success always returns the next numbered path |
| Chat.GetChatPhotoThumbByChatId | src/tg/chat.rs:253-269 | an unknown chat is not-found; an unpack error is returned; otherwise the result is the stripped thumbnail of the chat's photo, and none when it has no photo |
| Chat.DownloadSenderChatPhoto | src/tg/chat.rs:162-174 | no sender is an error; a directory failure is an error; a sender that already has a photo on disk needs nothing; otherwise the big photo is fetched into file 1, as the source does (a failed fetch leaves the sender marked in flight) |
| Run.RunLoop | src/tg/run.rs:12-23 | the loop ends only with the stream's error, and the caches and log are those of `RunUpdates` over every update delivered; a valid backend stays valid |
| Run.SetRunHandler | src/tg/run.rs:25-27 | the slot now holds the new handle |
| Run.GetRunHandler | src/tg/run.rs:29-31 | returns the stored handle and leaves the slot empty |
| Run.SavesAppend | src/tg/run.rs:21 | the saves in a concatenated log add up |
| Run.OneSavePerUpdate | src/tg/run.rs:13-22 | the loop only appends to the log, and it spawns exactly one session save per update, whatever the update's kind |
| Run.DispatchSavesOnce | src/tg/run.rs:15-21 | one turn of the loop adds exactly one session save |
| Run.NoSaves | src/tg/run.rs:21 | a log with no session-save entry counts zero saves |
| Run.RunKeepsChatsKeyed | src/tg/run.rs:13-22 | however many updates the loop handles, every summary stays stored under its own chat id |
| Run.OtherUpdatesChangeNoCache | src/tg/run.rs:15-20 | updates other than new messages change no cache: the summaries and handles equal those from handling only the new messages, in order |
| Lib.RunGuardAsWritten | src/lib.rs:71-84 | `run` as written: a refusal returns `AlreadyRunning` and leaves the slot empty |
| Lib.RunGuardAsWrittenLosesLoop | src/lib.rs:73-77 | with one loop running, a refused `run` empties the slot, so the running loop is no longer tracked; a second `run` spawns a second loop, and `stop` can then abort only that one |
| Lib.RunGuard | src/lib.rs:71-84 | the corrected guard: with an unfinished loop stored, `run` refuses and keeps the handle in its slot; otherwise it spawns a loop and stores its handle |
| Lib.StopLoops | src/lib.rs:87-100 | `stop` leaves the slot empty; a stored loop is aborted, and without one nothing changes |
| Lib.AtMostOneLoop | src/lib.rs:71-100 | with the corrected guard, `run`, `stop` and a loop ending on its own each keep every running loop tracked in the slot, and a tracked state has at most one running loop |
| Lib.StartRun | src/lib.rs:71-84 | `run` as written: the slot, result and log afterwards are those of `RunGuardAsWritten`, so a refusal leaves the slot empty; a spawn is logged only on success |
| Lib.Stop | src/lib.rs:87-100 | the slot is empty afterwards; an abort is logged exactly when a handle was stored |
| Lib.LoadChats | src/lib.rs:126-133 | `load_chats` is the scan with no offsets; a valid backend stays valid |
| Lib.OffsetMapDefined | src/lib.rs:146-148 | the offset map is built exactly when every key parses; otherwise the conversion panics |
| Lib.OffsetMapKeys | src/lib.rs:146-148 | the map's keys are exactly the parsed keys |
| Lib.OffsetMapLastWins | src/lib.rs:146-148 | each id maps to the value of the last entry whose key parses to it |
| Lib.LeadingZerosCollapse | src/lib.rs:147 | the keys "7" and "07" name one chat, and the later value wins |
| Lib.LoadChatsWithOffset | src/lib.rs:143-154 | an unparsable key panics before any dialog is visited and changes nothing; otherwise the result is the scan with the parsed offset map; a valid backend stays valid |
| Lib.PanicPropagates | src/lib.rs:146-148 | one unparsable key makes the whole conversion panic, whatever follows it |

## Left out

- Network and client library: every request to Telegram is an input (the
  feeds, the stream, and the outcomes of requests), including the hex
  decoding of packed handles (`decode`). Retries, connection setup and
  `reconnect` (`src/tg/reconnect.rs`) are not part of this model.
- `Backend::new` (src/tg/mod.rs:104-160) reads the session file, connects and
  reads the API id; only the fields it sets are modelled
  (`Tg.Backend.constructor`). The `OnceCell` singleton and `get_instance`
  are not modelled; every method takes the backend as a parameter.
- `get_me` (src/tg/mod.rs:263-266) and the host wrappers of `src/lib.rs` that
  only forward a call and convert its error are not modelled separately.
  `src/main.rs` and `xtask` are not part of this model either.
- File system: writing the session file, `create_dir_all`, `read_dir` and
  `Path::exists` are inputs: `written`, `listing` (the entry count, or
  `None` on failure), `fileExists` and `dirReady`.
- Concurrency: `tokio::spawn` is logged as an event, and the spawned work
  does not run in the model. Aborting a task and the task runtime's
  knowledge of which tasks have finished are given as the `live` set.
  Mutexes, `DashMap` sharding and the interleaving of concurrent calls are
  not modelled.
- Chat.CheckChatPhotoDownloadingAndWait: the wait (polling every 200 s)
  is taken as completed; the model reports only whether a fetch was in
  flight, and does not model a wait that never ends.
- Message.LoadMessagesFromIter: the `max_date(now)` filter of the listing
  (src/tg/message.rs:70-71) uses the clock and is folded into the feed
  input; the listing is taken to yield only messages it would yield.
- Message.SendPlan: the file reads and uploads of `send_message`, and the
  messages Telegram sends back, are not modelled; only the chat lookup and
  the captions are.
- Message.DownloadMediaFromMessage: a lookup whose last entry is `None`
  panics; the model gives `Panicked` and no other guarantee there.
- Chat.GetChatPhotoThumbByChatId: the unpack request is not recorded in the
  log, because the function only reads the backend.
- Integer widths: `i32` message ids and `i64` chat ids are unbounded `int`.
  Only the `i64` parse of offset keys and the `usize as i32` photo count
  are modelled with their widths. The semaphore and the logging calls are
  not modelled.
- Types.PhotoDownloadable: the client library's `photo_downloadable` is not
  part of this model; its behaviour (a downloadable photo exactly when the
  chat has a photo) is assumed.
- Tg.RegisterDevice: the request's fixed content (token type 13 and the
  empty secret) is not modelled; only how its outcome is reported is.
- Lib.LoadChatsWithOffset: the host's `HashMap` has no fixed iteration
  order; the model takes the order as the input sequence `entries`.
- Run.RunLoop: the update stream is finite in the model, ending with the
  client's error; a stream that never ends is not modelled.

## Findings

| source | as written | input that shows it | evidently intended | confidence | as-written member | corrected member |
|---|---|---|---|---|---|---|
| src/lib.rs:73-77 | `run` takes the stored handle out of its slot before checking whether its loop is still running, and returns `AlreadyRunning` without putting it back | a loop with handle 1 is running, and `run` is called twice: the first call is refused but empties the slot, so the second spawns another loop, and `stop` can then abort only the second | a refused `run` leaves the handle in its slot, so at most one loop runs and `stop` always reaches it | not executed | Lib.RunGuardAsWrittenLosesLoop | Lib.AtMostOneLoop |
| src/tg/chat.rs:207-210 | a failed download returns through `?` before the chat's in-flight marker is removed | a chat with a photo, not in flight, whose download fails: the chat stays in the set, and every later request for it polls the set every 200 s for ever | the marker is released on every exit path, including failure | not executed | Chat.DownloadChatPhotoLeaksMarker | Chat.DownloadChatPhotoOutcomes |
