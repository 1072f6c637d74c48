# Watch-party client core in Dafny

This project models the client-side core of a watch-party web application. The core is
a playback synchronisation protocol: one member of a room, the host, drives playback,
and every other member, a viewer, follows over a WebSocket. Around the protocol sit
the rule-bearing parts of the pages that use it.

It is organised by source file:

- `transport.dfy` (module `Transport`) models the WebSocket hook `useWebSocket`. It
  covers the connect guard, the token lookup, the socket handlers, the exponential
  back-off on abnormal closes, the normal-closure rule, and send-only-when-open.
- `sync_engine.dfy` (module `SyncEngine`) models the `useSync` hook. It covers the
  inbound-frame effect with its `_processed` flag, the `isSyncing` lock and the type
  whitelist, the host-only send gates, the late-joiner `sync_request` /
  `sync_response` handshake, and the staleness check.
- `media.dfy` (module `Media`) is the media element, reduced to its position and
  its paused flag.
- `mock_store.dfy` (module `MockStore`) models the in-memory party registry. It has
  parties, per-party listener sets and notifications.
- `movie_room.dfy` (module `MovieRoom`) models the movie room page:
  - the display-name fallback;
  - the playlist built from stored files, with its video test;
  - local play, pause and seek intents, gated on the host flag and the lock;
  - `playFile`, the `onFileChanged` lookup and `removeFromQueue`;
  - the typing indicator, reactions and flying chat messages;
  - the join countdown and `formatTime`.
- `video_player.dfy` (module `VideoPlayer`) models the video player component: the
  prop-to-element sync effect, the host-only controls, `formatTime`, and the
  YouTube link to embed address rule.
- `watch_party_room.dfy` (module `WatchPartyRoom`) models the mock watch-party page:
  the host check, the capped one-second tick, the clamped quick seek, chat sending
  and `formatTime`.
- `admin_panel.dfy` (module `AdminPanel`) models the admin dashboard: row
  normalisation with its `||` defaults, the active-room counter, the capacity
  indicator, and the prompts and expiry of a VIP room.
- `stream_controls.dfy` (module `StreamControls`) models the live-stream controls:
  the file validator and the source/loading state machine for start, stop and clear.
- `join_page.dfy` and `host_page.dfy` (modules `JoinPage`, `HostPage`) model the join
  and host pages: input validation, the request made, and the redirect tables.
- `auth_context.dfy` (module `AuthContext`) models the authentication context: the
  session update with its fast fallback and later profile override, login, signup
  and logout, and `useAuth`.
- `text.dfy`, `seqs.dfy`, `wrappers.dfy` and `ui.dfy` hold shared helpers. They are
  the JavaScript string operations the core uses, the collection idioms (a `Set` as a
  duplicate-free sequence, `filter`), `Option`/`Result`, and the toast record.

Code that updates state in place is a class. Each class method's `ensures` ties the
new state to a pure function over a snapshot datatype (`State()`). The properties are
proved as lemmas about those functions. An `async` handler is split at its first
`await` into a `Begin…` method and a `Finish…` method. Each awaited answer (session
lookup, backend response, capture outcome) is a parameter of the second method.

Times are integers. The sync engine, the media element and the video player use
milliseconds, so the source's "more than one second" tolerance is `> 1000`. The
mock watch-party page and every `formatTime` use whole seconds.

### Where the model follows the code rather than its comments

- `connect()` calls `cleanup()` as soon as it starts, and `cleanup()` zeroes the
  attempt counter and clears `isConnecting`. As written, every timer-driven reconnect
  starts counting from zero again, so a server that keeps closing abnormally is
  retried every two seconds forever. The five-attempt cap is never reached, and the
  "already connecting" guard never blocks. `Transport.RetriesNeverExhaust` and
  `Transport.ConnectGuardIgnoresPending` state this. A `connect` whose cleanup keeps
  the counter, `Transport.ConnectKeepingAttempts`, makes the cap work:
  `Transport.FiveFailedRoundsStop` shows the delays 4, 8, 16 and 30 seconds after the
  first and no reconnect pending once the fifth fails. The rest of the model keeps
  the code as written.
- The host page navigates only for the activity type `free`, compared
  case-sensitively. Every other created party ends with the alert "Error pages".
- A cancelled expiry prompt on the admin panel gives a 30-minute room, not a room
  that never expires. Only an empty answer means "never".
- `updateAuthState` can apply a profile that arrives after the session changed. The
  profile then renames whichever user is held at that moment
  (`AuthContext.StaleProfileRenames`). `AuthContext.ProfileForSession` applies the
  profile only while the user it was fetched for is still held, and
  `AuthContext.StaleProfileIgnored` shows that a stale profile then changes nothing.
  The provider keeps the code as written.
- A stored file whose `file_url` or `file_type` is null, or whose `file_name` is null
  when its type is not a video type, makes the playlist loop throw; the `catch` skips
  that file, after any signing request it already made.

## Model

| member | source | states |
|---|---|---|
| Transport.Bare | src/hooks/useSync.ts:155 | a frame built from its type alone carries no timestamp, play state or file data |
| Transport.Inbound.constructor | src/hooks/useWebSocket.ts:112-122 | a received frame keeps its parsed body, is stamped with its receive time and is not yet processed |
| Transport.BackoffDelay | src/hooks/useWebSocket.ts:142 | the reconnect delay is `1000·2^n` ms or the 30 s cap, never more than 30 s |
| Transport.BackoffSchedule | src/hooks/useWebSocket.ts:140-142 | the five delays the hook can schedule are 2, 4, 8, 16 and 30 seconds |
| Transport.BackoffMonotone | src/hooks/useWebSocket.ts:142 | a later attempt never waits less than an earlier one |
| Transport.TransitionsKeepValid | src/hooks/useWebSocket.ts:42-194 | every transition keeps the counter within the cap, `isConnecting` cleared between events and the socket one the hook created |
| Transport.ConnectGuardIgnoresPending | src/hooks/useWebSocket.ts:70-84 | in every reachable state `connect` is refused exactly for an open socket or a missing user or room; the "already connecting" half never blocks, because `cleanup` clears it |
| Transport.DoubleConnectOpensTwice | src/hooks/useWebSocket.ts:68-103 | two `connect` calls before the token arrives start two lookups, create two sockets, and the second closes the first with code 1000 |
| Transport.NoTokenNoSocket | src/hooks/useWebSocket.ts:88-94 | without an access token no socket is created, the old one is kept and `isConnecting` is false |
| Transport.TokenOpensSocket | src/hooks/useWebSocket.ts:96-103 | with a token a fresh connecting socket for the room's URL is created, and the previous socket is closed normally iff it was open or connecting |
| Transport.OpenResets | src/hooks/useWebSocket.ts:105-110 | opening the current socket reports the connection and resets the attempt counter |
| Transport.NormalCloseNoReconnect | src/hooks/useWebSocket.ts:128-137 | a close with code 1000 schedules nothing and leaves the counter alone |
| Transport.AbnormalCloseSchedules | src/hooks/useWebSocket.ts:139-151 | an abnormal close below the cap schedules attempt `n+1` after its back-off delay; at the cap it cancels the timer and zeroes the counter |
| Transport.StaleEventsIgnored | src/hooks/useWebSocket.ts:52-66 | events of a socket that `safeClose` detached change nothing |
| Transport.SendOnlyWhenOpen | src/hooks/useWebSocket.ts:167-179 | a frame goes out iff the socket is open, stamped with the sender's id and otherwise unchanged; earlier frames are untouched |
| Transport.Rounds | src/hooks/useWebSocket.ts:81-151 | after any number `n` of failed reconnect rounds one reconnect is pending at the first back-off delay, and exactly `n` more sockets were made |
| Transport.AfterRoundPending | src/hooks/useWebSocket.ts:81-151 | after one failed round, attempt 1 is pending again and one more socket was made |
| Transport.RetriesNeverExhaust | src/hooks/useWebSocket.ts:38-151 | after `n` failed rounds the counter is still 1, a 2-second reconnect is pending and `n` more sockets were made: the cap of 5 is never reached |
| Transport.ConnectKeepingAttempts | src/hooks/useWebSocket.ts:68-84 | `connect` with a cleanup that keeps the attempt counter: it is refused where `connect` is, and otherwise starts the same lookup with the counter unchanged |
| Transport.RoundAdvances | src/hooks/useWebSocket.ts:139-147 | with the counter kept, a failed round below the cap leaves the next attempt pending with the next back-off delay |
| Transport.LastRoundStops | src/hooks/useWebSocket.ts:148-150 | with the counter kept, the failed round at the cap leaves no reconnect pending, a zero counter and the socket closed |
| Transport.FiveFailedRoundsStop | src/hooks/useWebSocket.ts:38-151 | with the counter kept, reconnects after the first wait 4, 8, 16 and 30 seconds, and after the fifth failure none is pending |
| Transport.WebSocketClient.constructor | src/hooks/useWebSocket.ts:31-39 | the hook starts with no socket, no timer, a zero counter and no last message |
| Transport.WebSocketClient.Cleanup | src/hooks/useWebSocket.ts:42-49 | cancels the timer, zeroes the counter and clears `isConnecting` |
| Transport.WebSocketClient.SafeClose | src/hooks/useWebSocket.ts:52-66 | drops the socket, closing it with 1000 only when open or connecting |
| Transport.WebSocketClient.Connect | src/hooks/useWebSocket.ts:68-87 | the guarded start of `connect`, up to the awaited session lookup |
| Transport.WebSocketClient.TokenResolved | src/hooks/useWebSocket.ts:87-103 | the rest of `connect` once a lookup resolves |
| Transport.WebSocketClient.OnOpen | src/hooks/useWebSocket.ts:105-110 | the `onopen` handler |
| Transport.WebSocketClient.OnMessage | src/hooks/useWebSocket.ts:112-126 | a parsed frame on the current socket becomes the last message, stamped and unprocessed; an unparsable one leaves it as it was |
| Transport.WebSocketClient.OnClose | src/hooks/useWebSocket.ts:128-152 | the `onclose` handler |
| Transport.WebSocketClient.OnError | src/hooks/useWebSocket.ts:154-158 | the `onerror` handler |
| Transport.WebSocketClient.FireReconnectTimer | src/hooks/useWebSocket.ts:145-147 | the timer fires and calls `connect` |
| Transport.WebSocketClient.Send | src/hooks/useWebSocket.ts:167-179 | `sendSyncMessage` |
| Transport.WebSocketClient.Mount | src/hooks/useWebSocket.ts:181-185 | the mount effect connects only with a user and a room |
| Transport.WebSocketClient.Teardown | src/hooks/useWebSocket.ts:186-193 | the effect's cleanup closes, cancels, reports disconnected and forgets the last message |
| Media.MediaElement.constructor | src/hooks/useSync.ts:5 | the element with a given position and play state |
| Media.MediaElement.Play | src/hooks/useSync.ts:82 | `play()` starts the element and keeps its position |
| Media.MediaElement.Pause | src/hooks/useSync.ts:89 | `pause()` stops the element and keeps its position |
| Media.MediaElement.Seek | src/hooks/useSync.ts:96 | assigning `currentTime` keeps the play state |
| Media.MediaElement.Load | src/pages/movie.tsx:171 | `load()` rewinds to the start, paused |
| SyncEngine.Response | src/hooks/useSync.ts:104-108 | the host's answer carries its element's position and `!paused` |
| SyncEngine.Apply | src/hooks/useSync.ts:79-136 | a taken frame never changes the roles, the lock or the status; a host answers a sync request with its response, a viewer records a file change that carries data; a frame the host ignores, or of another type, leaves the playback state alone; agreement of `isPlaying` with the element is kept |
| SyncEngine.Deliver | src/hooks/useSync.ts:59-143 | a frame that fails a gate (no element, lock held, already processed, not a sync type) changes nothing; a taken frame is marked processed and takes the lock |
| SyncEngine.OperationsKeepValid | src/hooks/useSync.ts:74-75 | every operation keeps the lock and the "syncing" status in step |
| SyncEngine.DeliverIdempotent | src/hooks/useSync.ts:61-70 | delivering the same frame object again changes nothing |
| SyncEngine.LockExcludes | src/hooks/useSync.ts:60 | while the lock is held no frame is taken |
| SyncEngine.SeekTolerated | src/hooks/useSync.ts:94-99 | a seek moves the element iff it is more than a second away, for host and viewer alike, and never touches the play state |
| SyncEngine.DeliverKeepsConsistent | src/hooks/useSync.ts:79-136 | a taken frame keeps `isPlaying` in agreement with the element |
| SyncEngine.ViewerFollowsPlayPause | src/hooks/useSync.ts:80-92 | a viewer ends up playing after `play` and paused after `pause`; a host is unaffected |
| SyncEngine.LateJoinerConverges | src/hooks/useSync.ts:101-126 | a viewer applying the host's answer to its sync request ends at the host's position and play state |
| SyncEngine.SyncRequestAnsweredByHost | src/hooks/useSync.ts:101-110 | a host answers a sync request with exactly one response; a viewer sends nothing |
| SyncEngine.FileChangeReachesViewers | src/hooks/useSync.ts:128-135 | `onFileChanged` is called iff this side is a viewer and the frame carries file data |
| SyncEngine.SendGate | src/hooks/useSync.ts:154-199 | a local intent is broadcast, unchanged, iff this side is the connected host with the lock free; otherwise nothing changes |
| SyncEngine.StalenessReported | src/hooks/useSync.ts:216-224 | "out of sync" is reported iff a viewer with an element and the lock free has gone more than 10 s without a frame while playing |
| SyncEngine.NoEchoWhileSyncing | src/hooks/useSync.ts:139-154 | while the lock is held, any sequence of local intents, frames and staleness checks changes nothing |
| SyncEngine.SyncEngine.constructor | src/hooks/useSync.ts:50-51 | the lock starts free and the status synced |
| SyncEngine.SyncEngine.HandleMessage | src/hooks/useSync.ts:59-137 | the inbound effect on the current last message, writing `_processed` into it |
| SyncEngine.SyncEngine.ApplyFrame | src/hooks/useSync.ts:79-136 | the `switch` over a taken frame's type changes the engine and the element exactly as `Apply` says |
| SyncEngine.SyncEngine.Settle | src/hooks/useSync.ts:139-142 | the settle timer releases the lock and reports synced |
| SyncEngine.SyncEngine.Send | src/hooks/useSync.ts:154-187 | the shared send gate |
| SyncEngine.SyncEngine.SendPlay | src/hooks/useSync.ts:146-165 | `sendPlay` |
| SyncEngine.SyncEngine.SendPause | src/hooks/useSync.ts:167-172 | `sendPause` |
| SyncEngine.SyncEngine.SendSeek | src/hooks/useSync.ts:174-179 | `sendSeek` |
| SyncEngine.SyncEngine.SendFileChanged | src/hooks/useSync.ts:181-199 | `sendFileChanged` |
| SyncEngine.SyncEngine.RequestSync | src/hooks/useSync.ts:202-207 | a connected viewer with an element sends one `sync_request` |
| SyncEngine.SyncEngine.Poll | src/hooks/useSync.ts:210-229 | one tick of the staleness interval |
| SyncEngine.SyncEngine.SetPlaying | src/hooks/useSync.ts:14 | the parent's `setIsPlaying` |
| SyncEngine.SyncEngine.SetTime | src/hooks/useSync.ts:12 | the parent's `setCurrentTime` |
| SyncEngine.SyncEngine.SetProps | src/hooks/useSync.ts:24-47 | new `isHost` and `isConnected` props |
| Seqs.RemoveAll | src/lib/mockStore.ts:66 | removing every occurrence of `x` keeps every other element's multiplicity and leaves no `x` |
| Seqs.AddOnce | src/lib/mockStore.ts:97 | adding to a set holds `x` afterwards, adds nothing else and keeps the sequence duplicate-free |
| Seqs.RemoveUndoesAdd | src/lib/mockStore.ts:93-105 | removing what was just added restores the sequence |
| Seqs.RemoveAllKeepsNoDup | src/lib/mockStore.ts:103 | removal keeps a set duplicate-free |
| Seqs.Filter | src/pages/movie.tsx:707 | `filter` keeps exactly the elements that pass and is never longer than its input |
| Seqs.FilterCounts | src/pages/movie.tsx:707 | each element that passes is kept as often as it occurs, and one that fails not at all |
| Seqs.FilterAppend | src/pages/movie.tsx:707 | filtering a concatenation is concatenating the filtered parts, so the kept elements stay in order |
| MockStore.MembershipAfter | src/lib/mockStore.ts:51-68 | after joining, a user is in the party iff they were in it or are the joiner; after leaving, iff they were in it and are not the leaver; nothing else changes |
| MockStore.LeaveUndoesJoin | src/lib/mockStore.ts:51-68 | joining and then leaving restores a party the user was not in |
| MockStore.JoinIdempotent | src/lib/mockStore.ts:55-58 | joining twice is joining once |
| MockStore.Deliveries | src/lib/mockStore.ts:108-113 | `notifyListeners` calls each listener once, in order, with the party |
| MockStore.NotifiedIffListening | src/lib/mockStore.ts:108-113 | a callback is called by a notification iff it is among that party's listeners |
| MockStore.UnsubscribedNeverCalled | src/lib/mockStore.ts:100-105 | an unsubscribed callback is never called by that party's notifications |
| MockStore.DeliveriesAppend | src/lib/mockStore.ts:111 | one more listener adds exactly one call at the end |
| MockStore.Store.constructor | src/lib/mockStore.ts:22-24 | the store starts with no parties and no listeners |
| MockStore.Store.CreateParty | src/lib/mockStore.ts:30-45 | the new party is stopped at 0, with the host as its only participant and no messages, and is stored under its id, replacing any party there |
| MockStore.Store.GetParty | src/lib/mockStore.ts:47-49 | the party stored under the id, or none |
| MockStore.Store.NotifyListeners | src/lib/mockStore.ts:108-113 | every listener of the party is called once, in order |
| MockStore.Store.JoinParty | src/lib/mockStore.ts:51-60 | false and no change for an unknown party; otherwise true, with the user appended and listeners notified only when new |
| MockStore.Store.LeaveParty | src/lib/mockStore.ts:62-68 | every occurrence of the user is removed, order kept, and listeners are notified even if the user was absent |
| MockStore.Store.UpdatePlaybackState | src/lib/mockStore.ts:70-77 | only the play state and position of that party change |
| MockStore.Store.SendMessage | src/lib/mockStore.ts:79-91 | exactly one message is appended after the earlier ones |
| MockStore.Store.Subscribe | src/lib/mockStore.ts:93-98 | the callback joins the party's listener set, which is created if missing |
| MockStore.Store.Unsubscribe | src/lib/mockStore.ts:100-105 | the callback leaves the party's listener set |
| MovieRoom.FirstTruthy | src/pages/movie.tsx:94-101 | an `a \|\| b \|\| … \|\| fallback` chain is the first non-empty candidate, or the fallback when all are empty |
| MovieRoom.GetUserName | src/pages/movie.tsx:89-102 | never empty, and "Guest" without a user |
| MovieRoom.SplitFirstField | src/pages/movie.tsx:99 | `split('@')[0]` is the text before the first `@` |
| MovieRoom.UserNameFromEmail | src/pages/movie.tsx:89-102 | a user without metadata is named by the email's local part, or "Guest" when that is empty |
| MovieRoom.FullNameFirst | src/pages/movie.tsx:95 | a non-empty full name always wins |
| MovieRoom.VideoTest | src/pages/movie.tsx:594-598 | the `isVideo` chain as evaluated: it throws for a null type, and for a null name unless the type is `video` or `video/…`; with both present it is the type-or-extension test |
| MovieRoom.IsVideoIgnoresNameCase | src/pages/movie.tsx:594-598 | the video test ignores the letter case of the name |
| MovieRoom.ItemFor | src/pages/movie.tsx:600-607 | an item keeps the stored id and URL, the name (empty when null) and the duration (0 when null), and is a video with a video MIME type iff the video test holds |
| MovieRoom.PlaylistFrom | src/pages/movie.tsx:562-614 | the playlist has at most one item per stored file |
| MovieRoom.ThrowingFileSkipped | src/pages/movie.tsx:564-610 | a file on which the body throws adds no item whatever the signing answered, and one with a null URL asks for no signature |
| MovieRoom.PlaylistKeepsEveryFile | src/pages/movie.tsx:562-614 | when no signing fails and no file makes the body throw, every stored file gives one item, in stored order, with its own id and kind |
| MovieRoom.ProcessFile | src/pages/movie.tsx:564-610 | one file's `try` body asks for a signature exactly for a `party-` URL and pushes that file's entry: nothing when it throws or its signing fails |
| MovieRoom.BuildPlaylist | src/pages/movie.tsx:562-614 | the loop produces that playlist and one signing request per file stored under a `party-` path |
| MovieRoom.FindById | src/pages/movie.tsx:157 | `find` gives the first item with the id, or none iff no item has it |
| MovieRoom.FileDataOf | src/pages/movie.tsx:530-535 | the broadcast description carries the item's id |
| MovieRoom.FileChangeFindsSameItem | src/pages/movie.tsx:154-164 | with unique ids, the viewer's lookup finds exactly the item the host switched to |
| MovieRoom.RemovedItemsGone | src/pages/movie.tsx:707 | the filter removes exactly the items with that id |
| MovieRoom.ClampSeek | src/pages/movie.tsx:471 | the seek target lies in [0, duration] and is the requested position whenever that lies inside |
| MovieRoom.LocalPlayPauseGated | src/pages/movie.tsx:414-441 | with an element, play and pause always set the element and `isPlaying`, and broadcast one frame iff the host is connected with the lock free |
| MovieRoom.LocalSeekClamped | src/pages/movie.tsx:468-477 | a seek lands in [0, duration] and is broadcast with that target iff the host is connected with the lock free |
| MovieRoom.NoEchoFromMediaEvents | src/pages/movie.tsx:414-477 | while the lock is held, the element's play, pause and seeked events broadcast nothing |
| MovieRoom.PlayFileResets | src/pages/movie.tsx:509-537 | `playFile` stops the room at 0 and announces the file iff the host may send |
| MovieRoom.HostFileChangeReachesViewer | src/pages/movie.tsx:154-164 | the host's announcement reaches a viewer's callback, which finds the same item |
| MovieRoom.TypingAfter | src/pages/movie.tsx:313-322 | `typing_start` adds a named user once, `typing_stop` removes every occurrence, and other frames change nothing |
| MovieRoom.TypingStartThenStop | src/pages/movie.tsx:313-322 | a user that starts and then stops typing leaves the indicator as it was |
| MovieRoom.CountdownCounts | src/pages/movie.tsx:209-229 | after `n` seconds the countdown shows `max(0, t − n)` |
| MovieRoom.FormatTime | src/pages/movie.tsx:749-760 | "0:00" for zero; from one hour on `h:mm:ss` with an unpadded hour and two-digit minutes and seconds below 60; below an hour `m:ss` with unpadded minutes below 60; the string reads back as the number of seconds |
| MovieRoom.Room.constructor | src/pages/movie.tsx:43-87 | the page starts with no current file, no typists and a 60-second countdown |
| MovieRoom.Room.HandlePlay | src/pages/movie.tsx:414-430 | `handlePlay` |
| MovieRoom.Room.HandlePause | src/pages/movie.tsx:432-441 | `handlePause` |
| MovieRoom.Room.HandlePlayPause | src/pages/movie.tsx:443-449 | the toggle pauses when playing and plays otherwise |
| MovieRoom.Room.HandleSeeked | src/pages/movie.tsx:459-466 | a host with the lock free reports the element's position |
| MovieRoom.Room.HandleSeek | src/pages/movie.tsx:468-477 | `handleSeek` |
| MovieRoom.Room.HandleTimeUpdate | src/pages/movie.tsx:451-457 | the page copies the element's position and duration |
| MovieRoom.Room.PlayFile | src/pages/movie.tsx:509-537 | the chosen item becomes current and the engine state follows `playFile` |
| MovieRoom.Room.OnFileChanged | src/pages/movie.tsx:154-186 | an unknown id changes nothing; a known one becomes current at time 0 with the element reloaded |
| MovieRoom.Room.ShowFrame | src/pages/movie.tsx:300-338 | typing users follow the frame; a reaction or chat frame with content adds one entry |
| MovieRoom.Room.ExpireReaction | src/pages/movie.tsx:309 | the expired reaction is gone and nothing else changes |
| MovieRoom.Room.ExpireFlying | src/pages/movie.tsx:332-334 | the expired flying message is gone and nothing else changes |
| MovieRoom.Room.ProcessInbound | src/pages/movie.tsx:127-338 | a received frame runs through the engine, then the file switch, then the page's handler; the typing users follow the frame |
| MovieRoom.Room.SelectFirst | src/pages/movie.tsx:202-206 | the first item becomes current when nothing is |
| MovieRoom.Room.FetchPartyFiles | src/pages/movie.tsx:540-622 | a missing room, a query error or no rows change nothing; otherwise the playlist is rebuilt and the first item played when nothing is current |
| MovieRoom.Room.RemoveFromQueue | src/pages/movie.tsx:696-730 | a failed delete changes nothing; a successful one removes every item with the id and clears the current file iff it had that id |
| MovieRoom.Room.CountdownEffect | src/pages/movie.tsx:209-229 | the countdown restarts at 60 and runs iff a viewer has no current file |
| MovieRoom.Room.CountdownTick | src/pages/movie.tsx:214-222 | one second of the countdown; it stops after showing 0 |
| MovieRoom.Room.Ended | src/pages/movie.tsx:832-835 | the end of the media stops the room |
| VideoPlayer.SyncEffect | src/components/VideoPlayer.tsx:22-36 | after the effect the element plays iff the party does; it is moved to the prop time iff it was more than a second away, so it ends within a second of it |
| VideoPlayer.EffectPlayPause | src/components/VideoPlayer.tsx:26-30 | `play()` is called iff the party plays and the element is paused, `pause()` iff the party is paused and the element plays, and the play state is otherwise kept |
| VideoPlayer.EffectIdempotent | src/components/VideoPlayer.tsx:22-36 | running the effect twice is running it once, and an element already in agreement is left alone |
| VideoPlayer.SkipTarget | src/components/VideoPlayer.tsx:59 | the skip target is ten seconds on or the end, whichever comes first |
| VideoPlayer.EffectConverges | src/components/VideoPlayer.tsx:22-36 | after the effect the element plays exactly when the party does and is within a second of the party's time |
| VideoPlayer.ControlsInertForViewer | src/components/VideoPlayer.tsx:38-62 | for a viewer, or without an element, play/pause, seek and skip change nothing and report nothing |
| VideoPlayer.HostControlsReport | src/components/VideoPlayer.tsx:38-62 | for the host, play/pause reports the toggled state without touching the element, and seek and skip move it and report the new time |
| VideoPlayer.ViewerNeverReports | src/components/VideoPlayer.tsx:38-85 | whatever a viewer does, the parent is never told and the element does not move |
| VideoPlayer.Player.constructor | src/components/VideoPlayer.tsx:15-36 | mounting starts at time 0, duration 0, volume 100, and runs the effect |
| VideoPlayer.Player.RunEffect | src/components/VideoPlayer.tsx:22-36 | the sync effect on the element |
| VideoPlayer.Player.SetProps | src/components/VideoPlayer.tsx:15-36 | new props rerun the effect only when `isPlaying` or `currentTime` changed |
| VideoPlayer.Player.HandlePlayPause | src/components/VideoPlayer.tsx:38-44 | `handlePlayPause` |
| VideoPlayer.Player.HandleSeek | src/components/VideoPlayer.tsx:46-53 | `handleSeek` |
| VideoPlayer.Player.HandleSkip | src/components/VideoPlayer.tsx:55-62 | `handleSkip` |
| VideoPlayer.Player.HandleTimeUpdate | src/components/VideoPlayer.tsx:64-69 | the local time copies the element's |
| VideoPlayer.Player.HandleLoadedMetadata | src/components/VideoPlayer.tsx:71-76 | the duration copies the element's |
| VideoPlayer.Player.HandleVolumeChange | src/components/VideoPlayer.tsx:78-85 | the volume follows the slider when an element is present |
| VideoPlayer.FormatTime | src/components/VideoPlayer.tsx:94-98 | unpadded, unbounded minutes, a colon and two-digit seconds below 60, reading back as the number of seconds |
| VideoPlayer.FirstIndex | src/components/VideoPlayer.tsx:105 | the position of the first pair with the name: every earlier pair has another name, and it is past the end iff no pair has it |
| VideoPlayer.YouTubeHostAnywhere | src/components/VideoPlayer.tsx:101 | a link with `youtube.com` or `youtu.be` anywhere in it is a YouTube link |
| VideoPlayer.ShortLinkIsYouTube | src/components/VideoPlayer.tsx:101-104 | every link the short-link branch handles is recognised as YouTube |
| VideoPlayer.FirstParam | src/components/VideoPlayer.tsx:105 | the value of the first pair with that name, or none iff no pair has it |
| VideoPlayer.GetYouTubeEmbedUrl | src/components/VideoPlayer.tsx:102-107 | an embed address extends the embed prefix, and there is none iff the id is missing or empty |
| VideoPlayer.ShortLinkSegment | src/components/VideoPlayer.tsx:104 | the text after the first short-link marker is read from what follows it |
| VideoPlayer.MarkerCutKeepsId | src/components/VideoPlayer.tsx:104 | splitting at the marker again keeps the whole id |
| VideoPlayer.QueryCutGivesId | src/components/VideoPlayer.tsx:104 | cutting at the first `?` gives the id |
| VideoPlayer.ShortLinkEmbed | src/components/VideoPlayer.tsx:102-107 | `…youtu.be/<id>` with an optional `?…` query embeds `<id>`, and gives nothing for an empty id |
| VideoPlayer.WatchLinkEmbed | src/components/VideoPlayer.tsx:102-107 | `…?v=<id>` with optional `&…` pairs embeds `<id>`, and gives nothing for an empty id |
| VideoPlayer.NoQueryNoEmbed | src/components/VideoPlayer.tsx:102-107 | a link with neither the marker nor a query has no embed address |
| WatchPartyRoom.TickTime | src/pages/WatchPartyRoom.tsx:88-91 | a tick moves one second on and never past the end |
| WatchPartyRoom.TicksReachEnd | src/pages/WatchPartyRoom.tsx:85-96 | `n` ticks from inside the film reach `min(time + n, duration)` |
| WatchPartyRoom.QuickSeekTarget | src/pages/WatchPartyRoom.tsx:135-138 | the target never leaves [0, duration] and is the requested position whenever that lies inside |
| WatchPartyRoom.HostAfter | src/pages/WatchPartyRoom.tsx:78-82 | the flag is set iff it was set or the user is named "MovieMaster"; it is never cleared |
| WatchPartyRoom.HostStaysHost | src/pages/WatchPartyRoom.tsx:78-82 | once set, the flag survives any sequence of user changes |
| WatchPartyRoom.SendSpec | src/pages/WatchPartyRoom.tsx:113-127 | blank text or no user changes nothing; otherwise one message with the untrimmed text is appended and the input cleared |
| WatchPartyRoom.FormatTime | src/pages/WatchPartyRoom.tsx:129-133 | `m:ss` with unpadded minutes and two-digit seconds below 60, reading back as the number of seconds |
| WatchPartyRoom.Room.constructor | src/pages/WatchPartyRoom.tsx:27-75 | the mock party starts stopped at 0 of 596 s, with four participants and the opening chat |
| WatchPartyRoom.Room.SetVideo | src/pages/WatchPartyRoom.tsx:24 | the element appears or goes away |
| WatchPartyRoom.Room.CheckHost | src/pages/WatchPartyRoom.tsx:78-82 | the host check |
| WatchPartyRoom.Room.Tick | src/pages/WatchPartyRoom.tsx:85-96 | a tick moves the clock only while playing with an element, and keeps it within the film |
| WatchPartyRoom.Room.HandlePlay | src/pages/WatchPartyRoom.tsx:98-101 | only the play flag changes |
| WatchPartyRoom.Room.HandlePause | src/pages/WatchPartyRoom.tsx:103-106 | only the play flag changes |
| WatchPartyRoom.Room.HandleSeek | src/pages/WatchPartyRoom.tsx:108-111 | only the position changes |
| WatchPartyRoom.Room.QuickSeek | src/pages/WatchPartyRoom.tsx:135-138 | the position moves to the clamped target and stays within the film |
| WatchPartyRoom.Room.SetNewMessage | src/pages/WatchPartyRoom.tsx:74 | typing in the chat box |
| WatchPartyRoom.Room.HandleSendMessage | src/pages/WatchPartyRoom.tsx:113-127 | `handleSendMessage` |
| AdminPanel.ToNumber | src/pages/AdminPanel.tsx:136 | `Number` of a blank string is 0, and the result is NaN iff the trimmed text is not an integer literal |
| AdminPanel.ToNumberReadsNat | src/pages/AdminPanel.tsx:136 | a printed whole number reads back as itself |
| AdminPanel.PrintedIsLiteral | src/pages/AdminPanel.tsx:136 | a printed whole number is an unsigned integer literal |
| AdminPanel.DigitsAreLiteral | src/pages/AdminPanel.tsx:136 | a string of digits is a literal with nothing to trim |
| AdminPanel.FormatRoom | src/pages/AdminPanel.tsx:74-86 | a row keeps its id, code and dates; title "Untitled Room" and host "Unknown" when empty; counts from the first aggregate or 0; capacities stored or 20/5 and 10/3 by VIP status when falsy, so a stored 0 takes the default |
| AdminPanel.FormatRooms | src/pages/AdminPanel.tsx:74-86 | one formatted row per fetched row, in order; none when nothing came back |
| AdminPanel.FormatAll | src/pages/AdminPanel.tsx:74-86 | the `map` over the rows keeps their number and order |
| AdminPanel.FormatKeepsIds | src/pages/AdminPanel.tsx:74-86 | the table's ids are the fetched ids, in order |
| AdminPanel.EmptyRoomNotFull | src/pages/AdminPanel.tsx:267-272 | a room whose first participant and file counts are 0 or missing has positive capacities and is never shown as full |
| AdminPanel.DefaultCapacityFull | src/pages/AdminPanel.tsx:266-271 | with no stored capacity, the user cell shows full iff the first participant count reaches 20 for a VIP room and 5 otherwise, and the file cell iff the first file count reaches 10 or 3 |
| AdminPanel.Dashboard.constructor | src/pages/AdminPanel.tsx:110 | the dashboard starts empty and loading |
| AdminPanel.Dashboard.FetchData | src/pages/AdminPanel.tsx:53-119 | a failed query keeps the table; otherwise the table is the formatted rows, the active-room count is their number, and loading ends either way |
| AdminPanel.CapacityAnswer | src/pages/AdminPanel.tsx:136-137 | a cancelled or empty answer takes the default; any other answer is `Number` of it |
| AdminPanel.ExpiryMinutes | src/pages/AdminPanel.tsx:140 | an empty answer means never; a cancelled answer, 0 and NaN give 30; any other number is taken as it is |
| AdminPanel.ExpiresAt | src/pages/AdminPanel.tsx:160-162 | the expiry instant is absent iff the room never expires, and otherwise lies that many minutes after now |
| AdminPanel.VipRequest | src/pages/AdminPanel.tsx:132-177 | nothing is inserted iff the host answer is cancelled or blank; otherwise the row's title, fallback host, capacities and expiry follow the answers |
| AdminPanel.CapacityTyped | src/pages/AdminPanel.tsx:136-137 | a typed whole number is taken as it is |
| AdminPanel.ExpiryTyped | src/pages/AdminPanel.tsx:140 | typed minutes are taken as they are, except that 0 becomes 30 |
| AdminPanel.TypedCapacitiesKept | src/pages/AdminPanel.tsx:136-137 | typed capacities reach the inserted row unchanged |
| AdminPanel.TypedExpiryKept | src/pages/AdminPanel.tsx:140-162 | typed minutes set the expiry that many minutes from now, with 0 becoming 30 |
| StreamControls.AcceptanceIgnoresNameCase | src/components/party/StreamControls.tsx:29 | the extension test ignores letter case |
| StreamControls.AcceptedFiles | src/components/party/StreamControls.tsx:29 | a `video/` type is accepted whatever the name, and a name ending in `.mp4`, `.webm`, `.mov`, `.avi` or `.mkv`, in lower or upper case, whatever the type |
| StreamControls.SelectOutcome | src/components/party/StreamControls.tsx:24-42 | a rejected file changes nothing but the alerts; an accepted one is selected with its URL and its player opened, and nothing else changes |
| StreamControls.FileStreamNeedsPlayer | src/components/party/StreamControls.tsx:44-47 | the file stream starts loading iff a file is selected with its player open |
| StreamControls.StartEndsLoading | src/components/party/StreamControls.tsx:68-145 | every start ends with nothing loading; a granted one selects its source and tells the parent once; a failed one changes no source or stream, and a refused screen capture is silent |
| StreamControls.StopOutcome | src/components/party/StreamControls.tsx:148-167 | stopping clears the source, tells the parent once and stops the current stream; the file is dropped only when it was the source |
| StreamControls.ClearOutcome | src/components/party/StreamControls.tsx:169-179 | clearing drops the file whatever the source, revoking its URL once |
| StreamControls.OperationsKeepValid | src/components/party/StreamControls.tsx:24-179 | every operation keeps the selected file, its open player and its URL together |
| StreamControls.Controls.constructor | src/components/party/StreamControls.tsx:15-20 | nothing selected, nothing loading |
| StreamControls.Controls.HandleFileSelect | src/components/party/StreamControls.tsx:24-42 | `handleFileSelect` |
| StreamControls.Controls.BeginStart | src/components/party/StreamControls.tsx:44-47 | the start of a stream request, up to its await |
| StreamControls.Controls.FinishStart | src/components/party/StreamControls.tsx:68-145 | the end of a stream request, with the capture outcome |
| StreamControls.Controls.HandleStreamStop | src/components/party/StreamControls.tsx:148-167 | `handleStreamStop` |
| StreamControls.Controls.ClearFileSelection | src/components/party/StreamControls.tsx:169-179 | `clearFileSelection` |
| JoinPage.UpperCodes | src/pages/Join.tsx:63 | the sent code has no lower-case letter, and upper-casing the already upper-cased field changes nothing |
| JoinPage.IsFreeRoom | src/pages/Join.tsx:91 | a free room has an activity type of four letters |
| JoinPage.RedirectPath | src/pages/Join.tsx:93-97 | the user goes to the free-room host page or the party page, and to the party page whenever they are not the host |
| JoinPage.RedirectTable | src/pages/Join.tsx:93-97 | the free-room host page iff host and free; the party page in every other case |
| JoinPage.FreeRoomTest | src/pages/Join.tsx:91 | a missing activity type is not free, and the test ignores letter case |
| JoinPage.ValidationStopsEarly | src/pages/Join.tsx:20-39 | a blank code or a missing user makes no request and starts no loading; only a missing user is sent to `/login` |
| JoinPage.FinishOutcome | src/pages/Join.tsx:41-111 | loading ends on every path; a request is made iff the session has a token, carrying the upper-cased code; only a successful join redirects; exactly one toast is shown |
| JoinPage.Page.constructor | src/pages/Join.tsx:16-17 | an empty code, not loading |
| JoinPage.Page.SetRoomCode | src/pages/Join.tsx:142 | the field upper-cases as you type |
| JoinPage.Page.BeginJoin | src/pages/Join.tsx:19-39 | proceeds iff the code is not blank and a user is signed in |
| JoinPage.Page.FinishJoin | src/pages/Join.tsx:41-111 | the rest of `handleJoinParty` |
| HostPage.ActivityType | src/pages/Host.tsx:20 | the `type` parameter when present and non-empty, else "movie" |
| HostPage.BlankTitleStops | src/pages/Host.tsx:23-32 | a blank title makes no request and starts no loading |
| HostPage.FinishOutcome | src/pages/Host.tsx:34-94 | loading ends on every path; a request is made iff there is a session; the user is taken to `/free/<id>` iff the party was created for the free activity |
| HostPage.Page.constructor | src/pages/Host.tsx:14-20 | an empty form for ten viewers and the activity from the `type` parameter |
| HostPage.Page.SetForm | src/pages/Host.tsx:14-16 | editing the form |
| HostPage.Page.BeginCreate | src/pages/Host.tsx:22-32 | proceeds iff the title is not blank |
| HostPage.Page.FinishCreate | src/pages/Host.tsx:34-94 | the rest of `handleCreateParty` |
| AuthContext.EmailNameShape | src/contexts/AuthContext.tsx:123 | the fallback username is a prefix of the email without `@`, ending at the first `@`, or the whole email when there is none |
| AuthContext.EmailNameOfAddress | src/contexts/AuthContext.tsx:123 | for `local@domain` the fallback username is `local` |
| AuthContext.UpdateSpec | src/contexts/AuthContext.tsx:107-128 | no session user signs out; a session signs in at once with the email's local part as username; loading ends either way |
| AuthContext.LogoutSpec | src/contexts/AuthContext.tsx:78-87 | logout always signs out, even when sign-out reports an error |
| AuthContext.TransitionsKeepValid | src/contexts/AuthContext.tsx:41-142 | every modelled transition keeps "authenticated" and "has a user" together; for a profile arriving after the user was cleared this holds because the model leaves the state unchanged (see Left out) |
| AuthContext.ProfileRefinesUser | src/contexts/AuthContext.tsx:131-141 | the profile keeps the user's id and email, the sign-in and the loading flag, and changes the username only to the profile's non-empty one |
| AuthContext.StaleProfileRenames | src/contexts/AuthContext.tsx:131-141 | a profile fetched for one session user and applied after the next session update renames the next user, keeping that user's id and email |
| AuthContext.ProfileForSession | src/contexts/AuthContext.tsx:131-141 | the profile is applied exactly while the user it was fetched for is held, and is otherwise ignored |
| AuthContext.StaleProfileIgnored | src/contexts/AuthContext.tsx:131-141 | with that check a profile arriving after a sign-out or a switch to another user changes nothing, one for the current user applies as before, and the invariant is kept |
| AuthContext.SignInLoading | src/contexts/AuthContext.tsx:41-76 | a failed login or signup ends loading; a successful one keeps loading until the next session update, which ends it |
| AuthContext.UseAuth | src/contexts/AuthContext.tsx:158-164 | the provider's value inside a provider; outside, the error "useAuth must be used within an AuthProvider" |
| AuthContext.Provider.constructor | src/contexts/AuthContext.tsx:17-21 | signed out and not loading |
| AuthContext.Provider.UpdateAuthState | src/contexts/AuthContext.tsx:107-131 | `updateAuthState` up to its await; the profile is fetched iff there is a session user |
| AuthContext.Provider.ProfileLoaded | src/contexts/AuthContext.tsx:131-141 | the rest of `updateAuthState` |
| AuthContext.Provider.BeginSignIn | src/contexts/AuthContext.tsx:42 | loading starts |
| AuthContext.Provider.FinishSignIn | src/contexts/AuthContext.tsx:49-52 | an error ends loading and is rethrown |
| AuthContext.Provider.Logout | src/contexts/AuthContext.tsx:78-87 | `logout` |
| Text.TrimEmptyIffBlank | src/pages/Join.tsx:20 | `trim()` is empty iff the string is all whitespace |
| Text.TrimsToEmpty | src/pages/Join.tsx:20 | `!s.trim()` is true iff the string is all whitespace |
| Text.Before | src/components/VideoPlayer.tsx:104 | `split(sep)[0]` is a prefix ending at the first separator, or the whole string without one |
| Text.After | src/components/VideoPlayer.tsx:104 | `split(sep)[1]` is present iff the separator occurs, and is the text after its first occurrence up to the next |
| Text.MinutesSeconds | src/components/VideoPlayer.tsx:94-98 | unpadded minutes (a leading 0 only below a minute), a colon and two-digit seconds below 60, the fields being `seconds / 60` and `seconds % 60`, reading back as the number of seconds |
| Text.HoursMinutesSeconds | src/pages/movie.tsx:752-757 | unpadded hours, then two-digit minutes and seconds below 60, the fields being the hours, minutes and seconds of the total, reading back as the number of seconds |

## Left out

- Backend and service I/O is out: Supabase queries, storage signing and uploads, `fetch`, `localStorage`. Their answers are parameters: a session lookup, a response, a list of rows, a success flag.
- Browser media is out. The element is reduced to a position and a paused flag. `play()` is taken to succeed (its rejection is caught and ignored in the source). `getUserMedia`/`getDisplayMedia` outcomes, object URLs, volume and fullscreen effects on the element, and track `stop()` are parameters or logs.
- Real timers and clocks are out. The settle timer, the staleness interval, the reconnect timer, the countdown and the tick are explicit methods. `Date.now()` and ISO clock strings are parameters.
- Randomness is out (`Math.random`, `crypto.randomUUID`): room codes, message ids and reaction positions are parameters.
- Floating point is out. Times are whole milliseconds or whole seconds, so fractional positions, `media.duration` as a float and `NaN` durations are not modelled.
- JSON parsing is an `Option`. Unparsable frames are `None`. A failing `response.json()` on the join and host pages is not modelled.
- `URLSearchParams` is modelled as splitting on `&` and `=`. Percent-decoding and `+` for space are not modelled.
- JavaScript `Number()` is modelled for blank strings and decimal integer literals only. Decimals, exponents, hexadecimal and `Infinity` are not modelled.
- Letter case mapping covers ASCII only.
- React scheduling is out. Re-renders, effect dependency lists and stale closures are not modelled. This includes the `track.onended` handler, which calls the `handleStreamStop` of an earlier render.
- The movie page's separate video and audio refs are collapsed into the engine's one element. `removeFromQueue` still pauses only when a video element is present.
- The join input's `maxLength={6}` is a browser limit and is not modelled.
- The movie page's `handleSendMessage`, `handleReaction` and `handleUploadAndQueue` are not modelled. They send chat and reaction frames straight through the socket without any gate, or upload files, and none of them carries a rule beyond that.
- The movie page's `loadPartyData` and `fetchViewers`, and the admin panel's `deleteRoom`, `logout`, storage total, today's-room count and relative expiry text are not modelled. They are backend I/O or date formatting.
- `MockStore.generateRoomId` is randomness. The id is a parameter of `CreateParty`.
- The party object that `createParty` returns and later mutations of it are not aliased in the model. The returned value is the stored party at creation time.
- The clipboard text and alerts of `createVIPRoom` after the insert are not modelled.
- The `Party.tsx` page that drives the mock store is not modelled.
- AuthContext.Provider.ProfileLoaded: when the user has already been cleared before the profile arrives, the source does one of two things. With a non-empty `created_at` it installs a user holding only the username and the creation date, with no id or email, while `isAuthenticated` stays false. With an empty one it throws at `prev.user!.createdAt`. The model leaves the state unchanged in both cases, so the state without an id, which breaks "authenticated iff there is a user", is not modelled. `AuthContext.ProfileForSession` is the checked alternative.
- MovieRoom.ItemFor: a file of a video type with a null `file_name` gives an item whose name is null in the source; the model carries it as the empty string.
- AuthContext.UpdateSpec: a session user without an email makes the source throw on `split`. The model takes the email as always present.
- MovieRoom.Room.ProcessInbound: its contract states the typing users and keeps the element. It does not restate the engine's and the playlist's new states; those follow from `HandleMessage`, `OnFileChanged` and `ShowFrame`, whose contracts state them.
- SyncEngine.SyncEngine.Poll: the staleness effect's own setup gate (no last message, the lock held, no element) and the interval's tick gate are merged into one check per tick.
- Transport.WebSocketClient.OnMessage: the `_receivedAt` stamp is the `now` parameter, not a clock reading.
