/** The playback synchronisation engine (`useSync`): it applies received control
    frames to the local media element, answers late joiners, lets only the host
    broadcast, and holds a half-second lock after every applied frame so that the
    element's own events do not echo back.

    `sendSyncMessage` is a prop of the hook; the model records every call to it in
    `outbox`, and every call of the `onFileChanged` callback in `fileChanges`. Times
    are integer milliseconds. */
module SyncEngine {
  import opened Wrappers
  import opened Transport
  import opened Media

  datatype SyncStatus = Synced | Syncing | OutOfSync

  /** What the engine sees of the media element. */
  datatype MediaState = MediaState(time: int, paused: bool)

  /** The engine's state: its props (`isHost`, `isConnected`), the `isSyncing` lock,
      the reported status, the element (absent while the ref is empty), the parent's
      `isPlaying` and `currentTime`, and the two call logs. */
  datatype Engine = Engine(
    isHost: bool,
    isConnected: bool,
    isSyncing: bool,
    status: SyncStatus,
    media: Option<MediaState>,
    isPlaying: bool,
    currentTime: int,
    outbox: seq<SyncMessage>,
    fileChanges: seq<FileData>)

  /** A received seek is applied only when it is more than a second away. */
  const SeekTolerance: int := 1000
  /** Without a frame for this long, a playing viewer reports being out of sync. */
  const StaleAfter: int := 10000

  function Abs(x: int): nat
  {
    if x < 0 then -x else x
  }

  /** The lock is held exactly while the status says "syncing". */
  predicate ValidEngine(e: Engine)
  {
    e.isSyncing <==> e.status == Syncing
  }

  /** The parent's `isPlaying` agrees with the element. */
  predicate Consistent(e: Engine)
  {
    e.media.Some? ==> e.isPlaying == !e.media.value.paused
  }

  /** The frame types the engine acts on; chat, typing, reaction and presence frames
      pass it by. */
  predicate IsSyncKind(k: MessageType)
  {
    k == Play || k == Pause || k == Seek || k == SyncRequest || k == SyncResponse || k == FileChanged
  }

  /** The engine takes a frame when an element is attached, the lock is free, the
      frame has not been taken before and it is a sync frame. */
  predicate Accepts(e: Engine, m: SyncMessage, processed: bool)
  {
    e.media.Some? && !e.isSyncing && !processed && IsSyncKind(m.kind)
  }

  /** The host's answer to a sync request: its element's position and play state. */
  function Response(md: MediaState): (m: SyncMessage)
    ensures m.kind == SyncResponse && m.timestamp == Some(md.time) && m.isPlaying == Some(!md.paused)
  {
    Bare(SyncResponse).(timestamp := Some(md.time), isPlaying := Some(!md.paused))
  }

  /** The `switch` over the frame type, once the frame is taken. */
  function Apply(e: Engine, m: SyncMessage): (r: Engine)
    requires e.media.Some?
    ensures r.isHost == e.isHost && r.isConnected == e.isConnected
    ensures r.isSyncing == e.isSyncing && r.status == e.status && r.media.Some?
    ensures r.outbox == if m.kind == SyncRequest && e.isHost then e.outbox + [Response(e.media.value)] else e.outbox
    ensures r.fileChanges ==
              if m.kind == FileChanged && !e.isHost && m.fileData.Some? then e.fileChanges + [m.fileData.value]
              else e.fileChanges
    ensures (m.kind !in {Play, Pause, Seek, SyncResponse} || (e.isHost && m.kind != Seek)) ==>
              r.media == e.media && r.isPlaying == e.isPlaying && r.currentTime == e.currentTime
    ensures e.media.value.paused == !e.isPlaying ==> r.media.value.paused == !r.isPlaying
  {
    var md := e.media.value;
    match m.kind
    case Play =>
      if !e.isHost && !e.isPlaying then e.(media := Some(md.(paused := false)), isPlaying := true) else e
    case Pause =>
      if !e.isHost && e.isPlaying then e.(media := Some(md.(paused := true)), isPlaying := false) else e
    case Seek =>
      if m.timestamp.Some? && Abs(md.time - m.timestamp.value) > SeekTolerance then
        e.(media := Some(md.(time := m.timestamp.value)), currentTime := m.timestamp.value)
      else e
    case SyncRequest =>
      if e.isHost then e.(outbox := e.outbox + [Response(md)]) else e
    case SyncResponse =>
      if !e.isHost && m.timestamp.Some? then
        var t := m.timestamp.value;
        var playing := m.isPlaying == Some(true);
        if playing && md.paused then
          e.(media := Some(MediaState(t, false)), currentTime := t, isPlaying := true)
        else if !playing && !md.paused then
          e.(media := Some(MediaState(t, true)), currentTime := t, isPlaying := false)
        else
          e.(media := Some(md.(time := t)), currentTime := t)
      else e
    case FileChanged =>
      if !e.isHost && m.fileData.Some? then e.(fileChanges := e.fileChanges + [m.fileData.value]) else e
    case _ => e
  }

  /** The inbound effect run on the frame `m` with its `_processed` flag: the new
      engine state and the new flag. */
  function Deliver(e: Engine, m: SyncMessage, processed: bool): (r: (Engine, bool))
    ensures !Accepts(e, m, processed) ==> r == (e, processed)
    ensures Accepts(e, m, processed) ==> r.1 && r.0.isSyncing && r.0.status == Syncing
    ensures r.0.isHost == e.isHost && r.0.isConnected == e.isConnected && r.0.media.Some? == e.media.Some?
  {
    if Accepts(e, m, processed) then (Apply(e.(isSyncing := true, status := Syncing), m), true)
    else (e, processed)
  }

  /** The settle timer: half a second after a frame is taken the lock is released. */
  function SettleSpec(e: Engine): Engine
  {
    e.(isSyncing := false, status := Synced)
  }

  /** The gate shared by `sendPlay`, `sendPause`, `sendSeek` and `sendFileChanged`. */
  predicate MaySend(e: Engine)
  {
    e.isHost && !e.isSyncing && e.isConnected
  }

  function BroadcastSpec(e: Engine, m: SyncMessage): Engine
  {
    if MaySend(e) then e.(outbox := e.outbox + [m]) else e
  }

  function PlayFrame(): SyncMessage { Bare(Play) }
  function PauseFrame(): SyncMessage { Bare(Pause) }
  function SeekFrame(t: int): SyncMessage { Bare(Seek).(timestamp := Some(t)) }
  function FileFrame(fd: FileData): SyncMessage { Bare(FileChanged).(fileData := Some(fd)) }

  /** The join effect: a connected viewer with an element asks the host for its state. */
  function RequestSyncSpec(e: Engine): Engine
  {
    if !e.isHost && e.isConnected && e.media.Some? then e.(outbox := e.outbox + [Bare(SyncRequest)]) else e
  }

  /** One run of the staleness check at time `now`; `last` is the receive time of
      the last frame, `None` while there is none. */
  function PollSpec(e: Engine, last: Option<int>, now: int): Engine
  {
    if last.None? || e.media.None? || e.isHost || e.isSyncing then e
    else if now - last.value > StaleAfter && !e.media.value.paused then e.(status := OutOfSync)
    else e
  }

  // ---------------------------------------------------------------------------
  // Properties
  // ---------------------------------------------------------------------------

  /** Every operation keeps the lock and the status in step. */
  lemma OperationsKeepValid(e: Engine, m: SyncMessage, p: bool, last: Option<int>, now: int)
    requires ValidEngine(e)
    ensures ValidEngine(Deliver(e, m, p).0) && ValidEngine(SettleSpec(e))
    ensures ValidEngine(BroadcastSpec(e, m)) && ValidEngine(RequestSyncSpec(e))
    ensures ValidEngine(PollSpec(e, last, now))
  {
  }

  /** Running the effect again on the same frame changes nothing: the frame was
      marked as processed, and the lock is held besides. */
  lemma DeliverIdempotent(e: Engine, m: SyncMessage, p: bool)
    ensures var r := Deliver(e, m, p); Deliver(r.0, m, r.1) == r
  {
  }

  /** While the lock is held no other frame is taken, whatever its flag. */
  lemma LockExcludes(e: Engine, m: SyncMessage, p: bool, m2: SyncMessage, p2: bool)
    requires Accepts(e, m, p)
    ensures !Accepts(Deliver(e, m, p).0, m2, p2)
  {
  }

  /** A received seek moves the element iff it lands more than a second away, and
      never touches the play state. */
  lemma SeekTolerated(e: Engine, m: SyncMessage, t: int)
    requires Accepts(e, m, false) && m.kind == Seek && m.timestamp == Some(t)
    ensures var r := Deliver(e, m, false).0;
      && r.media.value.paused == e.media.value.paused && r.isPlaying == e.isPlaying
      && (Abs(e.media.value.time - t) > SeekTolerance ==> r.media.value.time == t && r.currentTime == t)
      && (Abs(e.media.value.time - t) <= SeekTolerance ==>
            r.media.value.time == e.media.value.time && r.currentTime == e.currentTime)
  {
  }

  /** Taking a frame keeps the parent's `isPlaying` in agreement with the element. */
  lemma DeliverKeepsConsistent(e: Engine, m: SyncMessage, p: bool)
    requires Consistent(e)
    ensures Consistent(Deliver(e, m, p).0)
  {
  }

  /** A viewer takes the host's play and pause: afterwards the element plays, or is
      paused, and `isPlaying` says so. The host ignores both. */
  lemma ViewerFollowsPlayPause(e: Engine, m: SyncMessage)
    requires Accepts(e, m, false) && Consistent(e) && (m.kind == Play || m.kind == Pause)
    ensures var r := Deliver(e, m, false).0;
      && (!e.isHost ==> r.isPlaying == (m.kind == Play) && r.media.value.paused == (m.kind == Pause))
      && (e.isHost ==> r.media == e.media && r.isPlaying == e.isPlaying)
  {
  }

  /** The late-joiner handshake: a host taking a sync request answers with its own
      position and play state, and a viewer taking that answer (with whatever sender
      id the socket stamped on it) ends up at the host's position and play state; its
      `isPlaying` then agrees when it agreed before. */
  lemma LateJoinerConverges(h: Engine, q: SyncMessage, v: Engine, a: SyncMessage)
    requires h.isHost && Accepts(h, q, false) && q.kind == SyncRequest
    requires !v.isHost && v.media.Some? && !v.isSyncing
    requires var h1 := Deliver(h, q, false).0;
      |h1.outbox| == |h.outbox| + 1 &&
      a == h1.outbox[|h.outbox|].(userId := a.userId)
    ensures var r := Deliver(v, a, false).0;
      r.media == h.media && r.currentTime == h.media.value.time
    ensures Consistent(v) ==> Consistent(Deliver(v, a, false).0)
  {
  }

  /** Only a host answers sync requests, and it answers exactly once. */
  lemma SyncRequestAnsweredByHost(e: Engine, m: SyncMessage)
    requires Accepts(e, m, false) && m.kind == SyncRequest
    ensures var r := Deliver(e, m, false).0;
      && (e.isHost ==> r.outbox == e.outbox + [Response(e.media.value)])
      && (!e.isHost ==> r.outbox == e.outbox)
  {
  }

  /** A taken `file_changed` frame reaches the callback iff this side is a viewer and
      the frame carries file data. */
  lemma FileChangeReachesViewers(e: Engine, m: SyncMessage)
    requires Accepts(e, m, false) && m.kind == FileChanged
    ensures var r := Deliver(e, m, false).0;
      && (!e.isHost && m.fileData.Some? ==> r.fileChanges == e.fileChanges + [m.fileData.value])
      && (e.isHost || m.fileData.None? <==> r.fileChanges == e.fileChanges)
      && r.media == e.media
  {
  }

  /** A local intent is broadcast iff this side is the connected host and not under
      the lock; the frame is appended unchanged. */
  lemma SendGate(e: Engine, m: SyncMessage)
    ensures MaySend(e) <==> BroadcastSpec(e, m).outbox == e.outbox + [m]
    ensures !MaySend(e) <==> BroadcastSpec(e, m) == e
  {
  }

  /** Out of sync is reported iff a viewer with an element, under no lock, has gone
      more than ten seconds without a frame while playing. */
  lemma StalenessReported(e: Engine, last: Option<int>, now: int)
    requires e.status != OutOfSync
    ensures PollSpec(e, last, now).status == OutOfSync <==>
              last.Some? && e.media.Some? && !e.isHost && !e.isSyncing &&
              now - last.value > StaleAfter && !e.media.value.paused
  {
  }

  /** What can happen to the engine between two settles: local intents of the room
      and frames arriving, and staleness checks. */
  datatype Event =
    | LocalPlay
    | LocalPause
    | LocalSeek(t: int)
    | LocalFileChange(fd: FileData)
    | Received(m: SyncMessage, processed: bool)
    | StaleCheck(last: Option<int>, now: int)

  function Step(e: Engine, ev: Event): Engine
  {
    match ev
    case LocalPlay => BroadcastSpec(e, PlayFrame())
    case LocalPause => BroadcastSpec(e, PauseFrame())
    case LocalSeek(t) => BroadcastSpec(e, SeekFrame(t))
    case LocalFileChange(fd) => BroadcastSpec(e, FileFrame(fd))
    case Received(m, p) => Deliver(e, m, p).0
    case StaleCheck(last, now) => PollSpec(e, last, now)
  }

  function Run(e: Engine, evs: seq<Event>): Engine
    decreases |evs|
  {
    if evs == [] then e else Run(Step(e, evs[0]), evs[1..])
  }

  /** The echo guard: once a frame is taken and until the settle timer fires, no
      local intent is broadcast and no further frame changes anything, so the media
      events caused by applying a frame cannot bounce back to the room. */
  lemma {:induction false} NoEchoWhileSyncing(e: Engine, evs: seq<Event>)
    requires e.isSyncing
    ensures Run(e, evs) == e
    decreases |evs|
  {
    if evs != [] {
      assert Step(e, evs[0]) == e;
      NoEchoWhileSyncing(e, evs[1..]);
    }
  }

  // ---------------------------------------------------------------------------
  // The hook as a stateful object
  // ---------------------------------------------------------------------------

  class SyncEngine {
    var isHost: bool
    var isConnected: bool
    var isSyncing: bool
    var status: SyncStatus
    var media: MediaElement?
    var isPlaying: bool
    var currentTime: int
    var outbox: seq<SyncMessage>
    var fileChanges: seq<FileData>

    function MediaView(): Option<MediaState>
      reads this, media
    {
      if media == null then None else Some(MediaState(media.currentTime, media.paused))
    }

    function State(): Engine
      reads this, media
    {
      Engine(isHost, isConnected, isSyncing, status, MediaView(), isPlaying, currentTime, outbox, fileChanges)
    }

    ghost predicate Valid()
      reads this, media
    {
      ValidEngine(State())
    }

    constructor (host: bool, element: MediaElement?)
      ensures Valid() && media == element
      ensures State() == Engine(host, false, false, Synced, MediaView(), false, 0, [], [])
    {
      isHost := host;
      isConnected := false;
      isSyncing := false;
      status := Synced;
      media := element;
      isPlaying := false;
      currentTime := 0;
      outbox := [];
      fileChanges := [];
    }

    /** The inbound effect on the current `lastMessage`. */
    method HandleMessage(msg: Inbound?)
      requires Valid()
      modifies this, media, msg
      ensures Valid() && media == old(media)
      ensures msg == null ==> State() == old(State())
      ensures msg != null ==> (State(), msg.processed) == Deliver(old(State()), msg.body, old(msg.processed))
    {
      if msg == null || media == null || isSyncing || msg.processed || !IsSyncKind(msg.body.kind) {
        return;
      }
      msg.processed := true;
      isSyncing := true;
      status := Syncing;
      ApplyFrame(msg.body);
    }

    /** The `switch` over the type of a taken frame. */
    method ApplyFrame(m: SyncMessage)
      requires media != null
      modifies this, media
      ensures media == old(media)
      ensures State() == Apply(old(State()), m)
    {
      match m.kind
      case Play =>
        if !isHost && !isPlaying {
          media.Play();
          isPlaying := true;
        }
      case Pause =>
        if !isHost && isPlaying {
          media.Pause();
          isPlaying := false;
        }
      case Seek =>
        if m.timestamp.Some? && Abs(media.currentTime - m.timestamp.value) > SeekTolerance {
          media.Seek(m.timestamp.value);
          currentTime := m.timestamp.value;
        }
      case SyncRequest =>
        if isHost {
          outbox := outbox + [Response(MediaState(media.currentTime, media.paused))];
        }
      case SyncResponse =>
        if !isHost && m.timestamp.Some? {
          var wasPaused := media.paused;
          media.Seek(m.timestamp.value);
          currentTime := m.timestamp.value;
          if m.isPlaying == Some(true) && wasPaused {
            media.Play();
            isPlaying := true;
          } else if m.isPlaying != Some(true) && !wasPaused {
            media.Pause();
            isPlaying := false;
          }
        }
      case FileChanged =>
        if !isHost && m.fileData.Some? {
          fileChanges := fileChanges + [m.fileData.value];
        }
      case _ =>
    }

    /** The settle timer fires. */
    method Settle()
      requires Valid()
      modifies this
      ensures Valid() && media == old(media) && State() == SettleSpec(old(State()))
    {
      isSyncing := false;
      status := Synced;
    }

    method Send(m: SyncMessage)
      requires Valid()
      modifies this
      ensures Valid() && media == old(media) && State() == BroadcastSpec(old(State()), m)
    {
      if isHost && !isSyncing && isConnected {
        outbox := outbox + [m];
      }
    }

    method SendPlay()
      requires Valid()
      modifies this
      ensures Valid() && media == old(media) && State() == BroadcastSpec(old(State()), PlayFrame())
    {
      Send(PlayFrame());
    }

    method SendPause()
      requires Valid()
      modifies this
      ensures Valid() && media == old(media) && State() == BroadcastSpec(old(State()), PauseFrame())
    {
      Send(PauseFrame());
    }

    method SendSeek(t: int)
      requires Valid()
      modifies this
      ensures Valid() && media == old(media) && State() == BroadcastSpec(old(State()), SeekFrame(t))
    {
      Send(SeekFrame(t));
    }

    method SendFileChanged(fd: FileData)
      requires Valid()
      modifies this
      ensures Valid() && media == old(media) && State() == BroadcastSpec(old(State()), FileFrame(fd))
    {
      Send(FileFrame(fd));
    }

    /** The join effect, run when `isConnected` or `isHost` changes. */
    method RequestSync()
      requires Valid()
      modifies this
      ensures Valid() && media == old(media) && State() == RequestSyncSpec(old(State()))
    {
      if !isHost && isConnected && media != null {
        outbox := outbox + [Bare(SyncRequest)];
      }
    }

    /** One tick of the staleness interval. */
    method Poll(last: Inbound?, now: int)
      requires Valid()
      modifies this
      ensures Valid() && media == old(media)
      ensures State() == PollSpec(old(State()), if last == null then None else Some(last.receivedAt), now)
    {
      if last == null || media == null || isHost || isSyncing {
        return;
      }
      if now - last.receivedAt > StaleAfter && !media.paused {
        status := OutOfSync;
      }
    }

    /** The parent's `setIsPlaying`. */
    method SetPlaying(playing: bool)
      requires Valid()
      modifies this
      ensures Valid() && media == old(media) && State() == old(State()).(isPlaying := playing)
    {
      isPlaying := playing;
    }

    /** The parent's `setCurrentTime`. */
    method SetTime(t: int)
      requires Valid()
      modifies this
      ensures Valid() && media == old(media) && State() == old(State()).(currentTime := t)
    {
      currentTime := t;
    }

    /** New `isHost` / `isConnected` props. */
    method SetProps(host: bool, connected: bool)
      requires Valid()
      modifies this
      ensures Valid() && media == old(media)
      ensures State() == old(State()).(isHost := host, isConnected := connected)
    {
      isHost := host;
      isConnected := connected;
    }
  }
}
