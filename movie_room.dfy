/** The movie-night room page (`movie.tsx`): the display-name rule, the playlist
    built from the room's stored files, the local play/pause/seek intents handed to
    the sync engine, switching files, removing files, the typing indicator and the
    overlays driven by received frames, the viewer's join countdown, and the clock
    format.

    The page's `<video>` and `<audio>` refs are collapsed into the engine's single
    element: only one of them is rendered at a time, chosen by the current file's
    kind. Backend results (the file rows, the signed-URL answers, the outcome of a
    delete) are parameters. Times on the element are milliseconds; `formatTime` takes
    whole seconds. */
module MovieRoom {
  import opened Wrappers
  import opened Text
  import opened Seqs
  import opened Transport
  import opened Media
  import opened SyncEngine

  // ---------------------------------------------------------------------------
  // Display name
  // ---------------------------------------------------------------------------

  datatype Metadata = Metadata(
    fullName: Option<string>, name: Option<string>, displayName: Option<string>, username: Option<string>)

  /** The signed-in user as the page reads it. The auth context's user record has
      no `user_metadata`, so users coming from it have `metadata == None`. */
  datatype PageUser = PageUser(email: Option<string>, metadata: Option<Metadata>)

  /** A JavaScript string value that is present and non-empty. */
  predicate Truthy(s: Option<string>)
  {
    s.Some? && s.value != ""
  }

  /** `a || b || … || fallback` over optional strings. */
  function FirstTruthy(cands: seq<Option<string>>, fallback: string): (r: string)
    ensures (forall i :: 0 <= i < |cands| ==> !Truthy(cands[i])) ==> r == fallback
    ensures forall i :: 0 <= i < |cands| && Truthy(cands[i]) && (forall j :: 0 <= j < i ==> !Truthy(cands[j])) ==>
              r == cands[i].value
    ensures r == fallback || exists i :: 0 <= i < |cands| && Truthy(cands[i]) && r == cands[i].value
    decreases |cands|
  {
    if cands == [] then fallback
    else if Truthy(cands[0]) then cands[0].value
    else
      var r := FirstTruthy(cands[1..], fallback);
      assert forall i :: 1 <= i < |cands| ==> cands[i] == cands[1..][i - 1];
      r
  }

  /** `email?.split('@')[0]`. */
  function EmailPrefix(email: Option<string>): Option<string>
  {
    match email
    case None => None
    case Some(e) => Some(Split(e, "@")[0])
  }

  /** `getUserName`: the first non-empty of the metadata's full name, name, display
      name and username and the email's local part, else "Guest". */
  function GetUserName(user: Option<PageUser>): (r: string)
    ensures r != ""
    ensures user.None? ==> r == "Guest"
  {
    match user
    case None => "Guest"
    case Some(u) =>
      var md := u.metadata;
      FirstTruthy(
        [ if md.Some? then md.value.fullName else None,
          if md.Some? then md.value.name else None,
          if md.Some? then md.value.displayName else None,
          if md.Some? then md.value.username else None,
          EmailPrefix(u.email) ],
        "Guest")
  }

  /** `s.split('@')[0]` is the text before the first '@'. */
  lemma SplitFirstField(a: string, rest: string)
    requires NoChar(a, '@')
    ensures Split(a + "@" + rest, "@")[0] == a
  {
    IndexOfFirstChar(a, '@', rest);
    assert (a + "@" + rest)[..|a|] == a;
  }

  /** For a user without metadata (every user the auth context provides), the name
      is the email's local part when that is non-empty, and "Guest" otherwise. */
  lemma UserNameFromEmail(local: string, domain: string)
    requires NoChar(local, '@')
    ensures GetUserName(Some(PageUser(Some(local + "@" + domain), None))) ==
              if local != "" then local else "Guest"
  {
    SplitFirstField(local, domain);
    var cands: seq<Option<string>> := [None, None, None, None, Some(local)];
    assert EmailPrefix(Some(local + "@" + domain)) == Some(local);
    assert GetUserName(Some(PageUser(Some(local + "@" + domain), None))) == FirstTruthy(cands, "Guest");
    assert forall j :: 0 <= j < 4 ==> !Truthy(cands[j]);
    assert Truthy(cands[4]) <==> local != "";
  }

  /** Metadata wins over the email: a non-empty full name is always the name. */
  lemma FullNameFirst(u: PageUser)
    requires u.metadata.Some? && Truthy(u.metadata.value.fullName)
    ensures GetUserName(Some(u)) == u.metadata.value.fullName.value
  {
  }

  // ---------------------------------------------------------------------------
  // Playlist
  // ---------------------------------------------------------------------------

  datatype MediaKind = Video | Audio

  datatype PlaylistItem = PlaylistItem(
    id: string, name: string, url: string, mimeType: string, duration: int, kind: MediaKind)

  /** A row of the room's stored files. The name, URL and type columns are nullable,
      so each is `None` when null; `duration` is absent when null. */
  datatype FileRow = FileRow(id: string, fileName: Option<string>, fileUrl: Option<string>,
                             fileType: Option<string>, duration: Option<int>)

  /** What the storage service answers when asked to sign a file's path. */
  datatype SignOutcome = SignFailed | Signed(url: string) | NoSignedData

  /** The `isVideo` test of a stored file whose type and name are not null. */
  predicate IsVideo(fileType: string, fileName: string)
  {
    var lower := ToLower(fileName);
    || fileType == "video"
    || StartsWith(fileType, "video/")
    || EndsWith(lower, ".mp4") || EndsWith(lower, ".mkv") || EndsWith(lower, ".avi")
    || EndsWith(lower, ".mov") || EndsWith(lower, ".webm") || EndsWith(lower, ".m4v")
  }

  /** The name test ignores ASCII case. */
  lemma IsVideoIgnoresNameCase(fileType: string, fileName: string)
    ensures IsVideo(fileType, fileName) == IsVideo(fileType, ToLower(fileName))
  {
    ToLowerIdempotent(fileName);
  }

  /** The `isVideo` test on a row as the `||` chain evaluates it: `None` where it
      throws. A null type fails `=== 'video'` and then throws at `startsWith`; a null
      name throws at `toLowerCase` only when the type test did not already succeed. */
  function VideoTest(row: FileRow): (r: Option<bool>)
    ensures row.fileType.None? ==> r.None?
    ensures row.fileType.Some? && row.fileName.Some? ==>
              r == Some(IsVideo(row.fileType.value, row.fileName.value))
    ensures row.fileType.Some? && row.fileName.None? ==>
              r == if row.fileType.value == "video" || StartsWith(row.fileType.value, "video/")
                   then Some(true) else None
  {
    match row.fileType
    case None => None
    case Some(t) =>
      if t == "video" || StartsWith(t, "video/") then Some(true)
      else match row.fileName
        case None => None
        case Some(n) => Some(IsVideo(t, n))
  }

  /** A row on which the loop body throws (and the `catch` skips it). */
  predicate Throws(row: FileRow)
  {
    row.fileUrl.None? || VideoTest(row).None?
  }

  /** The signed-storage path of a stored URL: the room's folder and the URL's last
      '/'-separated segment. */
  function StoragePath(roomId: string, fileUrl: string): string
  {
    var parts := Split(fileUrl, "/");
    "party-" + roomId + "/" + parts[|parts| - 1]
  }

  predicate NeedsSigning(row: FileRow)
  {
    row.fileUrl.Some? && Contains(row.fileUrl.value, "party-")
  }

  /** The item built for a row whose video test does not throw; a null name is
      carried as the empty string. */
  function ItemFor(row: FileRow, url: string): (item: PlaylistItem)
    requires VideoTest(row).Some?
    ensures item.id == row.id && item.url == url
    ensures item.name == if row.fileName.Some? then row.fileName.value else ""
    ensures item.kind == Video <==> VideoTest(row) == Some(true)
    ensures item.mimeType == if item.kind == Video then "video/mp4" else "audio/mpeg"
    ensures item.duration == if row.duration.Some? then row.duration.value else 0
  {
    var video := VideoTest(row).value;
    PlaylistItem(row.id, if row.fileName.Some? then row.fileName.value else "", url,
                 if video then "video/mp4" else "audio/mpeg",
                 if row.duration.Some? then row.duration.value else 0,
                 if video then Video else Audio)
  }

  /** What one stored file contributes: nothing when the body throws or when its path
      needed signing and the signing failed, otherwise one item with the signed or the
      stored URL. */
  function Entry(row: FileRow, outcome: SignOutcome): seq<PlaylistItem>
  {
    if row.fileUrl.None? then []
    else
      var url := if !NeedsSigning(row) then Some(row.fileUrl.value)
                 else match outcome
                   case SignFailed => None
                   case Signed(u) => Some(u)
                   case NoSignedData => Some(row.fileUrl.value);
      if url.None? || VideoTest(row).None? then [] else [ItemFor(row, url.value)]
  }

  /** The playlist `fetchPartyFiles` builds; `outcomes[i]` answers file `i`'s
      signing request and is ignored for files that need none. */
  function PlaylistFrom(rows: seq<FileRow>, outcomes: seq<SignOutcome>): (r: seq<PlaylistItem>)
    requires |rows| == |outcomes|
    ensures |r| <= |rows|
    decreases |rows|
  {
    if rows == [] then []
    else PlaylistFrom(rows[..|rows| - 1], outcomes[..|rows| - 1]) + Entry(rows[|rows| - 1], outcomes[|rows| - 1])
  }

  /** The signing requests made, in order. */
  function SigningPaths(rows: seq<FileRow>, roomId: string): seq<string>
    decreases |rows|
  {
    if rows == [] then []
    else
      var last := rows[|rows| - 1];
      SigningPaths(rows[..|rows| - 1], roomId) + (if NeedsSigning(last) then [StoragePath(roomId, last.fileUrl.value)] else [])
  }

  predicate NoSigningFailure(rows: seq<FileRow>, outcomes: seq<SignOutcome>)
    requires |rows| == |outcomes|
  {
    forall i :: 0 <= i < |rows| && NeedsSigning(rows[i]) ==> outcomes[i] != SignFailed
  }

  predicate NoneThrows(rows: seq<FileRow>)
  {
    forall i :: 0 <= i < |rows| ==> !Throws(rows[i])
  }

  /** An item stands for a stored file: same id, and a kind given by the video test. */
  predicate Represents(item: PlaylistItem, row: FileRow)
  {
    item.id == row.id && (item.kind == Video <==> VideoTest(row) == Some(true))
  }

  /** A file on which the body throws adds nothing, whatever the signing answered, and
      one with a null URL asks for no signature. */
  lemma ThrowingFileSkipped(rows: seq<FileRow>, outcomes: seq<SignOutcome>, row: FileRow,
                            outcome: SignOutcome, roomId: string)
    requires |rows| == |outcomes| && Throws(row)
    ensures PlaylistFrom(rows + [row], outcomes + [outcome]) == PlaylistFrom(rows, outcomes)
    ensures row.fileUrl.None? ==> SigningPaths(rows + [row], roomId) == SigningPaths(rows, roomId)
  {
    var rs, os := rows + [row], outcomes + [outcome];
    assert rs[..|rs| - 1] == rows && os[..|os| - 1] == outcomes;
    assert Entry(row, outcome) == [];
  }

  lemma PrefixNoSigningFailure(rows: seq<FileRow>, outcomes: seq<SignOutcome>, n: nat)
    requires |rows| == |outcomes| && n <= |rows| && NoSigningFailure(rows, outcomes) && NoneThrows(rows)
    ensures NoSigningFailure(rows[..n], outcomes[..n]) && NoneThrows(rows[..n])
  {
    forall i | 0 <= i < n && NeedsSigning(rows[..n][i]) ensures outcomes[..n][i] != SignFailed {
      assert rows[..n][i] == rows[i];
    }
    forall i | 0 <= i < n ensures !Throws(rows[..n][i]) {
      assert rows[..n][i] == rows[i];
    }
  }

  lemma UnfailedEntry(row: FileRow, outcome: SignOutcome)
    requires NeedsSigning(row) ==> outcome != SignFailed
    requires !Throws(row)
    ensures |Entry(row, outcome)| == 1 && Represents(Entry(row, outcome)[0], row)
  {
  }

  /** When no signing fails and no file's body throws, every stored file becomes one
      item, in the stored order, with its own id and a kind given by the video test. */
  lemma {:induction false} PlaylistKeepsEveryFile(rows: seq<FileRow>, outcomes: seq<SignOutcome>)
    requires |rows| == |outcomes| && NoSigningFailure(rows, outcomes) && NoneThrows(rows)
    ensures var r := PlaylistFrom(rows, outcomes);
      && |r| == |rows|
      && forall i :: 0 <= i < |rows| ==> Represents(r[i], rows[i])
    decreases |rows|
  {
    if rows != [] {
      var n := |rows| - 1;
      PrefixNoSigningFailure(rows, outcomes, n);
      PlaylistKeepsEveryFile(rows[..n], outcomes[..n]);
      LastFileKept(rows, outcomes);
      SplitLast(rows);
      SplitLast(outcomes);
      KeptFileSnoc(rows[..n], outcomes[..n], rows[n], outcomes[n], rows, outcomes);
    }
  }

  lemma LastFileKept(rows: seq<FileRow>, outcomes: seq<SignOutcome>)
    requires |rows| == |outcomes| && rows != [] && NoSigningFailure(rows, outcomes) && NoneThrows(rows)
    ensures var n := |rows| - 1; !Throws(rows[n]) && (NeedsSigning(rows[n]) ==> outcomes[n] != SignFailed)
  {
  }

  /** The step of `PlaylistKeepsEveryFile`: one more file that neither throws nor fails
      to sign adds the item standing for it. */
  lemma KeptFileSnoc(front: seq<FileRow>, fronts: seq<SignOutcome>, row: FileRow, outcome: SignOutcome,
                      rows: seq<FileRow>, outcomes: seq<SignOutcome>)
    requires |front| == |fronts| && !Throws(row) && (NeedsSigning(row) ==> outcome != SignFailed)
    requires rows == front + [row] && outcomes == fronts + [outcome]
    requires var prev := PlaylistFrom(front, fronts);
      |prev| == |front| && forall i :: 0 <= i < |front| ==> Represents(prev[i], front[i])
    ensures var r := PlaylistFrom(rows, outcomes);
      && |r| == |rows|
      && forall i :: 0 <= i < |rows| ==> Represents(r[i], rows[i])
  {
    assert rows[..|front|] == front && outcomes[..|front|] == fronts;
    assert rows[|front|] == row && outcomes[|front|] == outcome;
    var prev := PlaylistFrom(front, fronts);
    UnfailedEntry(row, outcome);
    var e := Entry(row, outcome);
    assert PlaylistFrom(rows, outcomes) == prev + e;
    RepresentsSnoc(prev, front, e[0], row, PlaylistFrom(rows, outcomes), rows);
  }

  lemma RepresentsSnoc(items: seq<PlaylistItem>, rows: seq<FileRow>, item: PlaylistItem, row: FileRow,
                       all: seq<PlaylistItem>, allRows: seq<FileRow>)
    requires |items| == |rows| && Represents(item, row)
    requires forall i :: 0 <= i < |rows| ==> Represents(items[i], rows[i])
    requires all == items + [item] && allRows == rows + [row]
    ensures |all| == |allRows| && forall i :: 0 <= i < |allRows| ==> Represents(all[i], allRows[i])
  {
    forall i | 0 <= i < |allRows| ensures Represents(all[i], allRows[i]) {
      if i < |rows| {
        assert all[i] == items[i] && allRows[i] == rows[i];
      }
    }
  }

  /** The loop of `fetchPartyFiles`: one signing request per file that needs it, and
      the items in order. A file on which the body throws is skipped, as the `catch`
      does. */
  method BuildPlaylist(rows: seq<FileRow>, outcomes: seq<SignOutcome>, roomId: string)
    returns (items: seq<PlaylistItem>, paths: seq<string>)
    requires |rows| == |outcomes|
    ensures items == PlaylistFrom(rows, outcomes)
    ensures paths == SigningPaths(rows, roomId)
  {
    items := [];
    paths := [];
    var i := 0;
    while i < |rows|
      invariant 0 <= i <= |rows|
      invariant items == PlaylistFrom(rows[..i], outcomes[..i])
      invariant paths == SigningPaths(rows[..i], roomId)
    {
      PrefixStep(rows, outcomes, roomId, i);
      var pushed, asked := ProcessFile(rows[i], outcomes[i], roomId);
      paths := paths + asked;
      items := items + pushed;
      i := i + 1;
    }
    WholePrefix(rows);
    WholePrefix(outcomes);
  }

  /** The `try` body for one file: the signing request it makes, if any, and what it
      pushes, which is nothing when it throws or `continue`s. */
  method ProcessFile(row: FileRow, outcome: SignOutcome, roomId: string)
    returns (pushed: seq<PlaylistItem>, asked: seq<string>)
    ensures pushed == Entry(row, outcome)
    ensures asked == if NeedsSigning(row) then [StoragePath(roomId, row.fileUrl.value)] else []
  {
    pushed, asked := [], [];
    if row.fileUrl.Some? {
      var url := row.fileUrl.value;
      var skipped := false;
      if NeedsSigning(row) {
        asked := [StoragePath(roomId, url)];
        match outcome
        case SignFailed =>
          skipped := true;
        case Signed(u) =>
          url := u;
        case NoSignedData =>
      }
      if !skipped && VideoTest(row).Some? {
        pushed := [ItemFor(row, url)];
      }
    }
  }

  /** One more file of the prefix adds its entry and its signing request. */
  lemma PrefixStep(rows: seq<FileRow>, outcomes: seq<SignOutcome>, roomId: string, i: nat)
    requires |rows| == |outcomes| && i < |rows|
    ensures PlaylistFrom(rows[..i + 1], outcomes[..i + 1]) ==
              PlaylistFrom(rows[..i], outcomes[..i]) + Entry(rows[i], outcomes[i])
    ensures SigningPaths(rows[..i + 1], roomId) ==
              SigningPaths(rows[..i], roomId) +
              (if NeedsSigning(rows[i]) then [StoragePath(roomId, rows[i].fileUrl.value)] else [])
  {
    assert rows[..i + 1][..i] == rows[..i] && outcomes[..i + 1][..i] == outcomes[..i];
  }

  /** The first item with the given id. */
  function FindById(playlist: seq<PlaylistItem>, id: string): (r: Option<PlaylistItem>)
    ensures r.Some? ==> r.value in playlist && r.value.id == id
    ensures r.None? ==> forall i :: 0 <= i < |playlist| ==> playlist[i].id != id
    ensures r.Some? ==> exists k :: 0 <= k < |playlist| && playlist[k] == r.value &&
                          forall j :: 0 <= j < k ==> playlist[j].id != id
    decreases |playlist|
  {
    if playlist == [] then None
    else if playlist[0].id == id then Some(playlist[0])
    else
      var r := FindById(playlist[1..], id);
      assert forall i :: 1 <= i < |playlist| ==> playlist[i] == playlist[1..][i - 1];
      r
  }

  predicate UniqueIds(playlist: seq<PlaylistItem>)
  {
    forall i, j :: 0 <= i < j < |playlist| ==> playlist[i].id != playlist[j].id
  }

  /** The file description a host broadcasts for an item. */
  function FileDataOf(item: PlaylistItem): (fd: FileData)
    ensures fd.fileId == item.id
  {
    FileData(item.id, item.name, item.mimeType, item.duration)
  }

  /** A viewer holding the same playlist, with unique ids, finds exactly the item
      the host switched to. */
  lemma FileChangeFindsSameItem(playlist: seq<PlaylistItem>, item: PlaylistItem)
    requires item in playlist && UniqueIds(playlist)
    ensures FindById(playlist, FileDataOf(item).fileId) == Some(item)
  {
    var r := FindById(playlist, item.id);
    var k :| 0 <= k < |playlist| && playlist[k] == item;
    assert r.Some?;
    var k2 :| 0 <= k2 < |playlist| && playlist[k2] == r.value && forall j :: 0 <= j < k2 ==> playlist[j].id != item.id;
    assert playlist[k2].id == playlist[k].id;
  }

  function NotId(id: string): PlaylistItem -> bool
  {
    (item: PlaylistItem) => item.id != id
  }

  /** `prev.filter(item => item.id !== fileId)` removes exactly the items with that
      id and keeps the others in order. */
  lemma RemovedItemsGone(playlist: seq<PlaylistItem>, id: string)
    ensures forall x :: x in Filter(playlist, NotId(id)) <==> x in playlist && x.id != id
    ensures (forall i :: 0 <= i < |playlist| ==> playlist[i].id != id) ==> Filter(playlist, NotId(id)) == playlist
  {
  }

  // ---------------------------------------------------------------------------
  // Local intents
  // ---------------------------------------------------------------------------

  /** `max(0, min(current + delta, duration))`. */
  function ClampSeek(current: int, delta: int, duration: nat): (r: int)
    ensures 0 <= r <= duration
    ensures 0 <= current + delta <= duration ==> r == current + delta
    ensures current + delta < 0 ==> r == 0
    ensures current + delta > duration ==> r == duration
  {
    var target := current + delta;
    var capped := if target < duration then target else duration;
    if capped < 0 then 0 else capped
  }

  /** The room's own gate in front of the engine's senders. */
  predicate RoomMayBroadcast(e: Engine)
  {
    e.isHost && !e.isSyncing
  }

  /** `handlePlay`: start the element, broadcast when the gate allows, and record
      that the room is playing; nothing without an element. */
  function LocalPlaySpec(e: Engine): Engine
  {
    if e.media.None? then e
    else
      var e1 := e.(media := Some(e.media.value.(paused := false)));
      var e2 := if RoomMayBroadcast(e) then BroadcastSpec(e1, PlayFrame()) else e1;
      e2.(isPlaying := true)
  }

  function LocalPauseSpec(e: Engine): Engine
  {
    if e.media.None? then e
    else
      var e1 := e.(media := Some(e.media.value.(paused := true)));
      var e2 := if RoomMayBroadcast(e) then BroadcastSpec(e1, PauseFrame()) else e1;
      e2.(isPlaying := false)
  }

  /** `handleSeeked`: a host under no lock reports the element's position. */
  function SeekedSpec(e: Engine): Engine
  {
    if !e.isSyncing && e.media.Some? && e.isHost then BroadcastSpec(e, SeekFrame(e.media.value.time)) else e
  }

  /** `handleSeek(delta)`: move the element by `delta`, clamped to the duration. */
  function LocalSeekSpec(e: Engine, delta: int, duration: nat): Engine
  {
    if e.media.None? then e
    else
      var t := ClampSeek(e.media.value.time, delta, duration);
      var e1 := e.(media := Some(e.media.value.(time := t)));
      if RoomMayBroadcast(e) then BroadcastSpec(e1, SeekFrame(t)) else e1
  }

  /** With an element, play and pause always set the element and `isPlaying`, and
      broadcast exactly one frame iff the host is connected and under no lock; a
      viewer never broadcasts. Without an element nothing happens. */
  lemma LocalPlayPauseGated(e: Engine)
    ensures e.media.None? ==> LocalPlaySpec(e) == e && LocalPauseSpec(e) == e
    ensures e.media.Some? ==>
      && LocalPlaySpec(e).isPlaying && !LocalPlaySpec(e).media.value.paused
      && !LocalPauseSpec(e).isPlaying && LocalPauseSpec(e).media.value.paused
      && (MaySend(e) ==> LocalPlaySpec(e).outbox == e.outbox + [PlayFrame()] &&
                         LocalPauseSpec(e).outbox == e.outbox + [PauseFrame()])
      && (!MaySend(e) ==> LocalPlaySpec(e).outbox == e.outbox && LocalPauseSpec(e).outbox == e.outbox)
  {
  }

  /** A seek lands in [0, duration] and is broadcast, with that target, iff the
      host is connected and under no lock. */
  lemma LocalSeekClamped(e: Engine, delta: int, duration: nat)
    requires e.media.Some?
    ensures var r := LocalSeekSpec(e, delta, duration);
      && 0 <= r.media.value.time <= duration
      && r.media.value.paused == e.media.value.paused && r.isPlaying == e.isPlaying
      && (MaySend(e) <==> r.outbox == e.outbox + [SeekFrame(r.media.value.time)])
      && (!MaySend(e) <==> r.outbox == e.outbox)
  {
  }

  /** The echo guard seen from the room: while the engine holds its lock, the media
      events caused by applying a frame (play, pause, seeked) send nothing. */
  lemma NoEchoFromMediaEvents(e: Engine, delta: int, duration: nat)
    requires e.isSyncing
    ensures LocalPlaySpec(e).outbox == e.outbox && LocalPauseSpec(e).outbox == e.outbox
    ensures SeekedSpec(e) == e && LocalSeekSpec(e, delta, duration).outbox == e.outbox
  {
  }

  /** `playFile`: the element is reset to the new file's start and paused, the room
      is stopped at 0, and a host announces the file through the engine. */
  function PlayFileSpec(e: Engine, file: PlaylistItem): Engine
  {
    var e1 := e.(media := if e.media.Some? then Some(MediaState(0, true)) else None,
                 currentTime := 0, isPlaying := false);
    if e.isHost then BroadcastSpec(e1, FileFrame(FileDataOf(file))) else e1
  }

  lemma PlayFileResets(e: Engine, file: PlaylistItem)
    ensures var r := PlayFileSpec(e, file);
      && r.currentTime == 0 && !r.isPlaying
      && (e.media.Some? ==> r.media == Some(MediaState(0, true)))
      && (MaySend(e) <==> r.outbox == e.outbox + [FileFrame(FileDataOf(file))])
      && (!MaySend(e) <==> r.outbox == e.outbox)
  {
  }

  /** The host's `file_changed` frame, delivered to a viewer whose playlist holds the
      item with unique ids, makes the viewer switch to that very item. */
  lemma HostFileChangeReachesViewer(h: Engine, v: Engine, file: PlaylistItem, viewerPlaylist: seq<PlaylistItem>)
    requires MaySend(h) && !v.isHost && v.media.Some? && !v.isSyncing
    requires file in viewerPlaylist && UniqueIds(viewerPlaylist)
    ensures var sent := PlayFileSpec(h, file).outbox[|h.outbox|];
      var r := Deliver(v, sent, false).0;
      && r.fileChanges == v.fileChanges + [FileDataOf(file)]
      && FindById(viewerPlaylist, r.fileChanges[|v.fileChanges|].fileId) == Some(file)
  {
    FileChangeFindsSameItem(viewerPlaylist, file);
  }

  // ---------------------------------------------------------------------------
  // Frames shown by the page
  // ---------------------------------------------------------------------------

  /** The typing indicator after a frame: `typing_start` adds a named user once,
      `typing_stop` removes every occurrence, anything else leaves it alone. */
  function TypingAfter(users: seq<string>, m: SyncMessage): (r: seq<string>)
    ensures NoDup(users) ==> NoDup(r)
    ensures forall v :: v in r <==>
              || (v in users && !(m.kind == TypingStop && Truthy(m.user) && v == m.user.value))
              || (m.kind == TypingStart && Truthy(m.user) && v == m.user.value)
    ensures m.kind != TypingStart && m.kind != TypingStop ==> r == users
  {
    match m.kind
    case TypingStart => if Truthy(m.user) then AddOnce(users, m.user.value) else users
    case TypingStop =>
      if Truthy(m.user) then
        var r := RemoveAll(users, m.user.value);
        assert forall v :: v in r <==> multiset(r)[v] > 0;
        assert forall v :: v in users <==> multiset(users)[v] > 0;
        RemoveAllKeepsNoDup(users, m.user.value);
        r
      else users
    case _ => users
  }

  /** A started-then-stopped typist is gone, and the others are as before. */
  lemma TypingStartThenStop(users: seq<string>, u: string, start: SyncMessage, stop: SyncMessage)
    requires u != "" && u !in users
    requires start.kind == TypingStart && start.user == Some(u)
    requires stop.kind == TypingStop && stop.user == Some(u)
    ensures TypingAfter(TypingAfter(users, start), stop) == users
  {
    RemoveUndoesAdd(users, u);
  }

  datatype LiveReaction = LiveReaction(id: int, emoji: string)
  datatype FlyingMessage = FlyingMessage(id: int, text: string, user: string)

  function ReactionId(id: int): LiveReaction -> bool { (r: LiveReaction) => r.id != id }
  function FlyingId(id: int): FlyingMessage -> bool { (f: FlyingMessage) => f.id != id }

  // ---------------------------------------------------------------------------
  // Join countdown
  // ---------------------------------------------------------------------------

  const CountdownStart: nat := 60

  /** One second of the countdown: it stops at 0. */
  function CountdownStep(t: nat): nat
  {
    if t <= 1 then 0 else t - 1
  }

  function CountdownAfter(t: nat, n: nat): nat
    decreases n
  {
    if n == 0 then t else CountdownAfter(CountdownStep(t), n - 1)
  }

  /** After `n` seconds the counter shows `max(0, t - n)`. */
  lemma {:induction false} CountdownCounts(t: nat, n: nat)
    ensures CountdownAfter(t, n) == if n >= t then 0 else t - n
    decreases n
  {
    if n > 0 {
      CountdownCounts(CountdownStep(t), n - 1);
    }
  }

  // ---------------------------------------------------------------------------
  // Clock
  // ---------------------------------------------------------------------------

  /** `h:mm:ss` text: hours without a leading zero, then two two-digit fields below 60. */
  predicate HourClock(r: string) {
    && |r| >= 7 && r[|r| - 3] == ':' && r[|r| - 6] == ':' && r[0] != '0'
    && PlainNumber(r[..|r| - 6]) && ClockField(r[|r| - 5..|r| - 3]) && ClockField(r[|r| - 2..])
  }

  /** `m:ss` text: minutes below 60 without a leading zero, then a two-digit field below 60. */
  predicate MinuteClock(r: string) {
    && (|r| == 4 || |r| == 5) && r[|r| - 3] == ':' && (|r| == 4 || r[0] != '0')
    && PlainNumber(r[..|r| - 3]) && DigitsValue(r[..|r| - 3]) < 60 && ClockField(r[|r| - 2..])
  }

  /** `formatTime`: "0:00" for zero, `h:mm:ss` from an hour on, `m:ss` below. */
  function FormatTime(seconds: nat): (r: string)
    ensures seconds == 0 ==> r == "0:00"
    ensures ClockValue(r) == Some(seconds)
    ensures seconds >= 3600 ==> HourClock(r)
    ensures seconds < 3600 ==> MinuteClock(r)
  {
    if seconds == 0 then
      ZeroClock();
      "0:00"
    else if seconds / 3600 > 0 then
      LongClock(seconds);
      HoursMinutesSeconds(seconds)
    else
      ShortClock(seconds);
      MinutesSeconds(seconds)
  }

  lemma ZeroClock()
    ensures var z := MinutesSeconds(0);
      z == "0:00" && ClockValue(z) == Some(0) && MinuteClock(z)
  {
    var z := MinutesSeconds(0);
    assert z == "0:00";
  }

  lemma LongClock(seconds: nat)
    requires seconds >= 3600
    ensures ClockValue(HoursMinutesSeconds(seconds)) == Some(seconds) && HourClock(HoursMinutesSeconds(seconds))
  {
  }

  lemma ShortClock(seconds: nat)
    requires seconds < 3600
    ensures ClockValue(MinutesSeconds(seconds)) == Some(seconds) && MinuteClock(MinutesSeconds(seconds))
  {
  }

  // ---------------------------------------------------------------------------
  // The page as a stateful object
  // ---------------------------------------------------------------------------

  class Room {
    const engine: SyncEngine
    var playlist: seq<PlaylistItem>
    var currentFile: Option<PlaylistItem>
    var duration: nat
    var typingUsers: seq<string>
    var reactions: seq<LiveReaction>
    var flying: seq<FlyingMessage>
    var joinTimer: nat
    var countdownRunning: bool

    ghost predicate Valid()
      reads this, engine, engine.media
    {
      engine.Valid() && NoDup(typingUsers)
    }

    constructor (e: SyncEngine, initial: seq<PlaylistItem>)
      requires e.Valid()
      ensures Valid() && engine == e && playlist == initial && currentFile.None?
      ensures typingUsers == [] && reactions == [] && flying == [] && joinTimer == CountdownStart
    {
      engine := e;
      playlist := initial;
      currentFile := None;
      duration := 0;
      typingUsers := [];
      reactions := [];
      flying := [];
      joinTimer := CountdownStart;
      countdownRunning := false;
    }

    method HandlePlay()
      requires Valid()
      modifies engine, engine.media
      ensures Valid() && engine.media == old(engine.media)
      ensures engine.State() == LocalPlaySpec(old(engine.State()))
    {
      var media := engine.media;
      if media != null {
        var gate := engine.isHost && !engine.isSyncing;
        media.Play();
        if gate {
          engine.SendPlay();
        }
        engine.SetPlaying(true);
      }
    }

    method HandlePause()
      requires Valid()
      modifies engine, engine.media
      ensures Valid() && engine.media == old(engine.media)
      ensures engine.State() == LocalPauseSpec(old(engine.State()))
    {
      var media := engine.media;
      if media != null {
        var gate := engine.isHost && !engine.isSyncing;
        media.Pause();
        if gate {
          engine.SendPause();
        }
        engine.SetPlaying(false);
      }
    }

    /** `handlePlayPause`: the toggle button. */
    method HandlePlayPause()
      requires Valid()
      modifies engine, engine.media
      ensures Valid() && engine.media == old(engine.media)
      ensures engine.State() == if old(engine.isPlaying) then LocalPauseSpec(old(engine.State()))
                                else LocalPlaySpec(old(engine.State()))
    {
      if engine.isPlaying {
        HandlePause();
      } else {
        HandlePlay();
      }
    }

    method HandleSeeked()
      requires Valid()
      modifies engine
      ensures Valid() && engine.media == old(engine.media)
      ensures engine.State() == SeekedSpec(old(engine.State()))
    {
      if !engine.isSyncing {
        var media := engine.media;
        if media != null && engine.isHost {
          engine.SendSeek(media.currentTime);
        }
      }
    }

    method HandleSeek(delta: int)
      requires Valid()
      modifies engine, engine.media
      ensures Valid() && engine.media == old(engine.media)
      ensures engine.State() == LocalSeekSpec(old(engine.State()), delta, duration)
    {
      var media := engine.media;
      if media != null {
        var newTime := ClampSeek(media.currentTime, delta, duration);
        media.Seek(newTime);
        if engine.isHost && !engine.isSyncing {
          engine.SendSeek(newTime);
        }
      }
    }

    /** `handleTimeUpdate`: the page copies the element's position and duration. */
    method HandleTimeUpdate(mediaDuration: nat)
      requires Valid()
      modifies this, engine
      ensures Valid() && engine.media == old(engine.media) && playlist == old(playlist)
      ensures engine.media != null ==>
                engine.State() == old(engine.State()).(currentTime := engine.media.currentTime) &&
                duration == mediaDuration
      ensures engine.media == null ==> engine.State() == old(engine.State()) && duration == old(duration)
    {
      var media := engine.media;
      if media != null {
        engine.SetTime(media.currentTime);
        duration := mediaDuration;
      }
    }

    method PlayFile(file: PlaylistItem)
      requires Valid()
      modifies this, engine, engine.media
      ensures Valid() && engine.media == old(engine.media)
      ensures currentFile == Some(file) && playlist == old(playlist) && typingUsers == old(typingUsers)
      ensures engine.State() == PlayFileSpec(old(engine.State()), file)
    {
      var media := engine.media;
      if media != null {
        media.Pause();
      }
      currentFile := Some(file);
      engine.SetTime(0);
      engine.SetPlaying(false);
      if media != null {
        media.Load();
      }
      if engine.isHost {
        engine.SendFileChanged(FileDataOf(file));
      }
    }

    /** The `onFileChanged` callback: an unknown id changes nothing; a known one
        becomes the current file, at 0, with the element reset. */
    method OnFileChanged(fd: FileData)
      requires Valid()
      modifies this, engine, engine.media
      ensures Valid() && engine.media == old(engine.media) && playlist == old(playlist)
      ensures typingUsers == old(typingUsers)
      ensures FindById(playlist, fd.fileId).None? ==>
                currentFile == old(currentFile) && engine.State() == old(engine.State())
      ensures FindById(playlist, fd.fileId).Some? ==>
                && currentFile == FindById(playlist, fd.fileId)
                && engine.State() == old(engine.State()).(currentTime := 0,
                     media := if engine.media == null then None else Some(MediaState(0, true)))
    {
      var target := FindById(playlist, fd.fileId);
      if target.None? {
        return;
      }
      currentFile := target;
      engine.SetTime(0);
      var media := engine.media;
      if media != null {
        media.Pause();
        media.Load();
      }
    }

    /** The page's handler for the frame just received: typing users, reactions and
        flying chat messages; `now` stands for `Date.now()`. */
    method ShowFrame(m: SyncMessage, now: int)
      requires Valid()
      modifies this
      ensures Valid() && playlist == old(playlist) && currentFile == old(currentFile)
      ensures typingUsers == TypingAfter(old(typingUsers), m)
      ensures reactions == old(reactions) +
                (if m.kind == Reaction && Truthy(m.emoji) then [LiveReaction(now, m.emoji.value)] else [])
      ensures flying == old(flying) +
                (if m.kind == ChatMessage && Truthy(m.message)
                 then [FlyingMessage(now, m.message.value, if Truthy(m.user) then m.user.value else "Someone")]
                 else [])
    {
      typingUsers := TypingAfter(typingUsers, m);
      if m.kind == Reaction && Truthy(m.emoji) {
        reactions := reactions + [LiveReaction(now, m.emoji.value)];
      }
      if m.kind == ChatMessage && Truthy(m.message) {
        flying := flying + [FlyingMessage(now, m.message.value, if Truthy(m.user) then m.user.value else "Someone")];
      }
    }

    /** The reaction timer: three seconds later the reaction with that id is gone. */
    method ExpireReaction(id: int)
      modifies this
      ensures reactions == Filter(old(reactions), ReactionId(id))
      ensures flying == old(flying) && typingUsers == old(typingUsers)
    {
      reactions := Filter(reactions, ReactionId(id));
    }

    /** The flying-message timer. */
    method ExpireFlying(id: int)
      modifies this
      ensures flying == Filter(old(flying), FlyingId(id))
      ensures reactions == old(reactions) && typingUsers == old(typingUsers)
    {
      flying := Filter(flying, FlyingId(id));
    }

    /** A received frame: first the sync engine, then the file switch it asked for,
        then the page's own handler. */
    method ProcessInbound(msg: Inbound, now: int)
      requires Valid()
      modifies this, engine, engine.media, msg
      ensures Valid() && engine.media == old(engine.media)
      ensures typingUsers == TypingAfter(old(typingUsers), msg.body)
    {
      var before := |engine.fileChanges|;
      engine.HandleMessage(msg);
      if |engine.fileChanges| > before {
        OnFileChanged(engine.fileChanges[|engine.fileChanges| - 1]);
      }
      ShowFrame(msg.body, now);
    }

    /** The effect that selects the first item when nothing is current. */
    method SelectFirst()
      requires Valid()
      modifies this
      ensures Valid() && playlist == old(playlist) && typingUsers == old(typingUsers)
      ensures currentFile == if |playlist| > 0 && old(currentFile).None? then Some(playlist[0]) else old(currentFile)
    {
      if |playlist| > 0 && currentFile.None? {
        currentFile := Some(playlist[0]);
      }
    }

    /** `fetchPartyFiles` once the query answered: `rows` is `None` on a query error. */
    method FetchPartyFiles(roomId: string, rows: Option<seq<FileRow>>, outcomes: seq<SignOutcome>)
      returns (paths: seq<string>)
      requires Valid() && (rows.Some? ==> |outcomes| == |rows.value|)
      modifies this, engine, engine.media
      ensures Valid() && engine.media == old(engine.media)
      ensures roomId == "" || rows.None? || rows.value == [] ==>
                playlist == old(playlist) && currentFile == old(currentFile) && paths == [] &&
                engine.State() == old(engine.State())
      ensures roomId != "" && rows.Some? && rows.value != [] ==>
                && playlist == PlaylistFrom(rows.value, outcomes)
                && paths == SigningPaths(rows.value, roomId)
                && (|playlist| > 0 && old(currentFile).None? ==>
                      currentFile == Some(playlist[0]) && engine.State() == PlayFileSpec(old(engine.State()), playlist[0]))
                && (|playlist| == 0 || old(currentFile).Some? ==>
                      currentFile == old(currentFile) && engine.State() == old(engine.State()))
    {
      paths := [];
      if roomId == "" || rows.None? || rows.value == [] {
        return;
      }
      var items;
      items, paths := BuildPlaylist(rows.value, outcomes, roomId);
      playlist := items;
      if |items| > 0 && currentFile.None? {
        PlayFile(items[0]);
      }
    }

    /** `removeFromQueue` once the delete answered. When the current file goes, it is
        cleared, and the video element (not the audio one) is paused. */
    method RemoveFromQueue(fileId: string, deleteOk: bool)
      requires Valid()
      modifies this, engine.media
      ensures Valid() && engine.media == old(engine.media)
      ensures !deleteOk ==> playlist == old(playlist) && currentFile == old(currentFile) &&
                            engine.State() == old(engine.State())
      ensures deleteOk ==> playlist == Filter(old(playlist), NotId(fileId))
      ensures deleteOk && old(currentFile).Some? && old(currentFile).value.id == fileId ==> currentFile.None?
      ensures !(deleteOk && old(currentFile).Some? && old(currentFile).value.id == fileId) ==>
                currentFile == old(currentFile)
      ensures deleteOk && old(currentFile).Some? && old(currentFile).value.id == fileId &&
              old(currentFile).value.kind == Video && engine.media != null ==>
                engine.State() == old(engine.State()).(media := Some(MediaState(engine.media.currentTime, true)))
      ensures !(deleteOk && old(currentFile).Some? && old(currentFile).value.id == fileId &&
                old(currentFile).value.kind == Video) ==>
                engine.State() == old(engine.State())
    {
      if !deleteOk {
        return;
      }
      playlist := Filter(playlist, NotId(fileId));
      if currentFile.Some? && currentFile.value.id == fileId {
        var wasVideo := currentFile.value.kind == Video;
        currentFile := None;
        var media := engine.media;
        if wasVideo && media != null {
          media.Pause();
        }
      }
    }

    /** The countdown effect, run when `isHost` or the current file changes: the
        counter restarts at 60 and runs only for a viewer waiting for a file. */
    method CountdownEffect()
      requires Valid()
      modifies this
      ensures Valid() && playlist == old(playlist) && currentFile == old(currentFile)
      ensures joinTimer == CountdownStart
      ensures countdownRunning == (!engine.isHost && currentFile.None?)
    {
      joinTimer := CountdownStart;
      countdownRunning := !engine.isHost && currentFile.None?;
    }

    /** One second of the running countdown; at 1 or below it shows 0 and stops. */
    method CountdownTick()
      requires Valid() && countdownRunning
      modifies this
      ensures Valid() && playlist == old(playlist) && currentFile == old(currentFile)
      ensures joinTimer == CountdownStep(old(joinTimer))
      ensures countdownRunning == (old(joinTimer) > 1)
    {
      if joinTimer <= 1 {
        joinTimer := 0;
        countdownRunning := false;
      } else {
        joinTimer := joinTimer - 1;
      }
    }

    /** `onEnded`. */
    method Ended()
      requires Valid()
      modifies engine
      ensures Valid() && engine.media == old(engine.media)
      ensures engine.State() == old(engine.State()).(isPlaying := false)
    {
      engine.SetPlaying(false);
    }
  }
}
