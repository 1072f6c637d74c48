/** The room's WebSocket client (`useWebSocket`): the message format, the connection
    life cycle with its reconnect back-off, and sending.

    `connect` is asynchronous: it runs up to the session lookup, and the rest runs
    when the lookup resolves. The model splits it into `Connect` (the part before the
    `await`) and `TokenResolved` (the continuation). Handlers are attached only to the
    socket held in `ws`, and `safeClose` detaches them before letting the socket go,
    so every socket event carries the id of the socket it comes from and does nothing
    unless that socket is still the current one. */
module Transport {
  import opened Wrappers

  /** The `type` field of a frame; `Other` is any string outside the declared union. */
  datatype MessageType =
    | Play | Pause | Seek | SyncRequest | SyncResponse | UserJoined | UserLeft
    | FileChanged | Reaction | TypingStart | TypingStop | ChatMessage
    | Other(name: string)

  /** The file description carried by a `file_changed` frame; `duration` in seconds. */
  datatype FileData = FileData(fileId: string, fileName: string, fileType: string, duration: int)

  /** A parsed frame; absent optional fields are `None`. Times are in milliseconds. */
  datatype SyncMessage = SyncMessage(
    kind: MessageType,
    timestamp: Option<int>,
    isPlaying: Option<bool>,
    userId: Option<string>,
    username: Option<string>,
    roomId: Option<string>,
    fileData: Option<FileData>,
    message: Option<string>,
    emoji: Option<string>,
    user: Option<string>)

  /** A frame holding only its type, as the senders build them (`{ type: 'play' }`). */
  function Bare(kind: MessageType): (m: SyncMessage)
    ensures m.kind == kind && m.timestamp.None? && m.isPlaying.None? && m.fileData.None?
  {
    SyncMessage(kind, None, None, None, None, None, None, None, None, None)
  }

  /** A received frame as `lastMessage` holds it: the parsed body, the receive time
      and the `_processed` flag the sync engine sets on the shared object. */
  class Inbound {
    const body: SyncMessage
    const receivedAt: int
    var processed: bool

    constructor (msg: SyncMessage, now: int)
      ensures body == msg && receivedAt == now && !processed
    {
      body := msg;
      receivedAt := now;
      processed := false;
    }
  }

  datatype ReadyState = Connecting | Open | Closing | Closed

  /** A socket the hook created: its creation number and its ready state. */
  datatype Socket = Socket(id: nat, ready: ReadyState)

  /** The scheduled reconnect: its delay and whether it has yet to fire. */
  datatype Timer = Timer(delay: nat, pending: bool)

  /** What the session lookup gives back: a session with or without an access token,
      or a thrown error. */
  datatype SessionLookup = Session(accessToken: Option<string>) | LookupFailed

  const MaxReconnectAttempts: nat := 5
  const NormalClosure: int := 1000

  /** The hook's whole state: the socket ref, `isConnected`, the `isConnecting` ref,
      the attempt counter, the reconnect timer, the number of session lookups still
      awaited, the number of sockets created so far, and three logs: ids of sockets
      closed with code 1000, the URL of every socket created, and every frame sent. */
  datatype Conn = Conn(
    ws: Option<Socket>,
    connected: bool,
    isConnecting: bool,
    attempts: nat,
    timeout: Option<Timer>,
    fetches: nat,
    nextId: nat,
    closes: seq<nat>,
    urls: seq<string>,
    frames: seq<SyncMessage>)

  function Pow2(n: nat): (r: nat)
    ensures r >= 1
  {
    if n == 0 then 1 else 2 * Pow2(n - 1)
  }

  lemma {:induction false} Pow2Monotone(a: nat, b: nat)
    requires a <= b
    ensures Pow2(a) <= Pow2(b)
    decreases b
  {
    if a < b {
      Pow2Monotone(a, b - 1);
    }
  }

  /** `Math.min(1000 * 2^attempt, 30000)`, the wait before reconnect number `attempt`. */
  function BackoffDelay(attempt: nat): (d: nat)
    ensures d <= 30000
    ensures d == 1000 * Pow2(attempt) || d == 30000
  {
    if 1000 * Pow2(attempt) < 30000 then 1000 * Pow2(attempt) else 30000
  }

  /** The five delays the hook can schedule are 2, 4, 8, 16 and 30 seconds. */
  lemma BackoffSchedule()
    ensures BackoffDelay(1) == 2000 && BackoffDelay(2) == 4000 && BackoffDelay(3) == 8000
    ensures BackoffDelay(4) == 16000 && BackoffDelay(5) == 30000
  {
    assert Pow2(5) == 32;
  }

  /** The delay never shrinks as the attempt number grows. */
  lemma BackoffMonotone(a: nat, b: nat)
    requires a <= b
    ensures BackoffDelay(a) <= BackoffDelay(b)
  {
    Pow2Monotone(a, b);
  }

  function WsUrl(roomId: string, token: string): string
  {
    "ws://localhost:8081/api/ws/" + roomId + "?token=" + token
  }

  /** The state invariant: the counter never passes the cap, `isConnecting` is never
      observed set (every path that sets it clears it again before yielding), and the
      current socket is one the hook created. */
  ghost predicate ValidConn(c: Conn)
  {
    && c.attempts <= MaxReconnectAttempts
    && !c.isConnecting
    && |c.urls| == c.nextId
    && (c.ws.Some? ==> c.ws.value.id < c.nextId)
  }

  /** `cleanup()`: cancels the timer, zeroes the counter, clears `isConnecting`. */
  function CleanupSpec(c: Conn): Conn
  {
    c.(timeout := None, attempts := 0, isConnecting := false)
  }

  /** `safeClose()`: drops the current socket, closing it with code 1000 when it is
      open or still connecting. */
  function SafeCloseSpec(c: Conn): Conn
  {
    match c.ws
    case None => c
    case Some(s) =>
      c.(ws := None,
         closes := if s.ready == Open || s.ready == Connecting then c.closes + [s.id] else c.closes)
  }

  predicate ConnectBlocked(c: Conn, user: Option<string>, roomId: string)
  {
    c.isConnecting || (c.ws.Some? && c.ws.value.ready == Open) || user.None? || roomId == ""
  }

  /** `connect()` up to the awaited session lookup. */
  function ConnectSpec(c: Conn, user: Option<string>, roomId: string): Conn
  {
    if ConnectBlocked(c, user, roomId) then c
    else CleanupSpec(c.(isConnecting := true)).(fetches := c.fetches + 1)
  }

  /** The rest of `connect()`, once one awaited lookup resolves. */
  function TokenSpec(c: Conn, lookup: SessionLookup, roomId: string): Conn
    requires c.fetches > 0
  {
    var c1 := c.(fetches := c.fetches - 1);
    match lookup
    case LookupFailed => c1.(connected := false, isConnecting := false)
    case Session(tok) =>
      if tok.None? || tok.value == "" then c1.(isConnecting := false)
      else
        var c2 := SafeCloseSpec(c1);
        c2.(ws := Some(Socket(c2.nextId, Connecting)), nextId := c2.nextId + 1,
            urls := c2.urls + [WsUrl(roomId, tok.value)])
  }

  predicate IsCurrent(c: Conn, id: nat)
  {
    c.ws.Some? && c.ws.value.id == id
  }

  function OnOpenSpec(c: Conn, id: nat): Conn
  {
    if !IsCurrent(c, id) then c
    else c.(ws := Some(Socket(id, Open)), connected := true, isConnecting := false, attempts := 0)
  }

  function OnCloseSpec(c: Conn, id: nat, code: int): Conn
  {
    if !IsCurrent(c, id) then c
    else
      var c1 := c.(ws := Some(Socket(id, Closed)), connected := false, isConnecting := false);
      if code == NormalClosure then c1
      else if c1.attempts < MaxReconnectAttempts then
        c1.(attempts := c1.attempts + 1, timeout := Some(Timer(BackoffDelay(c1.attempts + 1), true)))
      else CleanupSpec(c1)
  }

  function OnErrorSpec(c: Conn, id: nat): Conn
  {
    if !IsCurrent(c, id) then c else c.(connected := false, isConnecting := false)
  }

  /** The reconnect timer fires and calls `connect()`. */
  function FireSpec(c: Conn, user: Option<string>, roomId: string): Conn
    requires c.timeout.Some? && c.timeout.value.pending
  {
    ConnectSpec(c.(timeout := Some(c.timeout.value.(pending := false))), user, roomId)
  }

  /** `sendSyncMessage`: stamps the sender's id and sends only on an open socket. */
  function SendSpec(c: Conn, msg: SyncMessage, user: Option<string>): Conn
  {
    if c.ws.Some? && c.ws.value.ready == Open then c.(frames := c.frames + [msg.(userId := user)])
    else c
  }

  /** The effect's cleanup on unmount or when the room or user changes. */
  function TeardownSpec(c: Conn): Conn
  {
    CleanupSpec(SafeCloseSpec(c)).(connected := false)
  }

  // ---------------------------------------------------------------------------
  // Properties of the life cycle
  // ---------------------------------------------------------------------------

  /** Every transition keeps the invariant. */
  lemma TransitionsKeepValid(c: Conn, user: Option<string>, roomId: string, lookup: SessionLookup,
                             id: nat, code: int, msg: SyncMessage)
    requires ValidConn(c)
    ensures ValidConn(ConnectSpec(c, user, roomId))
    ensures c.fetches > 0 ==> ValidConn(TokenSpec(c, lookup, roomId))
    ensures ValidConn(OnOpenSpec(c, id)) && ValidConn(OnErrorSpec(c, id))
    ensures ValidConn(OnCloseSpec(c, id, code))
    ensures ValidConn(SendSpec(c, msg, user)) && ValidConn(TeardownSpec(c))
    ensures c.timeout.Some? && c.timeout.value.pending ==> ValidConn(FireSpec(c, user, roomId))
  {
    ConnectKeepsValid(c, user, roomId, lookup);
    SocketEventsKeepValid(c, id, code);
    SendAndTeardownKeepValid(c, msg, user);
  }

  lemma ConnectKeepsValid(c: Conn, user: Option<string>, roomId: string, lookup: SessionLookup)
    requires ValidConn(c)
    ensures ValidConn(ConnectSpec(c, user, roomId))
    ensures c.fetches > 0 ==> ValidConn(TokenSpec(c, lookup, roomId))
    ensures c.timeout.Some? && c.timeout.value.pending ==> ValidConn(FireSpec(c, user, roomId))
  {
  }

  lemma SocketEventsKeepValid(c: Conn, id: nat, code: int)
    requires ValidConn(c)
    ensures ValidConn(OnOpenSpec(c, id)) && ValidConn(OnErrorSpec(c, id))
    ensures ValidConn(OnCloseSpec(c, id, code))
  {
  }

  lemma SendAndTeardownKeepValid(c: Conn, msg: SyncMessage, user: Option<string>)
    requires ValidConn(c)
    ensures ValidConn(SendSpec(c, msg, user)) && ValidConn(TeardownSpec(c))
  {
  }

  /** Because `cleanup()` clears `isConnecting` right after `connect` sets it, the
      "already connecting" half of the guard never blocks: `connect` is refused only
      for an open socket or a missing user or room. */
  lemma ConnectGuardIgnoresPending(c: Conn, user: Option<string>, roomId: string)
    requires ValidConn(c)
    ensures ConnectBlocked(c, user, roomId) <==>
              (c.ws.Some? && c.ws.value.ready == Open) || user.None? || roomId == ""
  {
  }

  /** Calling `connect` twice before the lookup resolves starts two lookups; when both
      resolve with a token, the first socket is closed with code 1000 by the second. */
  lemma DoubleConnectOpensTwice(c: Conn, user: Option<string>, roomId: string, tok: string)
    requires ValidConn(c) && c.ws.None? && c.fetches == 0 && user.Some? && roomId != "" && tok != ""
    ensures
      var c1 := ConnectSpec(ConnectSpec(c, user, roomId), user, roomId);
      c1.fetches == 2 &&
      var c2 := TokenSpec(c1, Session(Some(tok)), roomId);
      var c3 := TokenSpec(c2, Session(Some(tok)), roomId);
      c3.nextId == c.nextId + 2 && c3.closes == c.closes + [c.nextId] &&
      c3.ws == Some(Socket(c.nextId + 1, Connecting))
  {
  }

  /** Without an access token no socket is created and the old one is kept. */
  lemma NoTokenNoSocket(c: Conn, roomId: string, tok: Option<string>)
    requires c.fetches > 0 && (tok.None? || tok.value == "")
    ensures var r := TokenSpec(c, Session(tok), roomId);
      r.ws == c.ws && r.nextId == c.nextId && r.closes == c.closes && !r.isConnecting
  {
  }

  /** With a token, a fresh socket for the room is created, still connecting, and the
      previous open or connecting socket is closed normally. */
  lemma TokenOpensSocket(c: Conn, roomId: string, tok: string)
    requires ValidConn(c) && c.fetches > 0 && tok != ""
    ensures var r := TokenSpec(c, Session(Some(tok)), roomId);
      && r.ws == Some(Socket(c.nextId, Connecting))
      && r.urls == c.urls + ["ws://localhost:8081/api/ws/" + roomId + "?token=" + tok]
      && (c.ws.Some? && c.ws.value.ready in {Open, Connecting} ==> r.closes == c.closes + [c.ws.value.id])
      && (c.ws.None? || c.ws.value.ready in {Closing, Closed} ==> r.closes == c.closes)
  {
  }

  /** Opening resets the counter and reports the connection. */
  lemma OpenResets(c: Conn, id: nat)
    requires IsCurrent(c, id)
    ensures var r := OnOpenSpec(c, id);
      r.connected && r.attempts == 0 && r.ws == Some(Socket(id, Open)) && r.timeout == c.timeout
  {
  }

  /** A normal closure never schedules a reconnect. */
  lemma NormalCloseNoReconnect(c: Conn, id: nat)
    ensures var r := OnCloseSpec(c, id, NormalClosure);
      r.timeout == c.timeout && r.attempts == c.attempts && (IsCurrent(c, id) ==> !r.connected)
  {
  }

  /** An abnormal closure below the cap schedules reconnect number `attempts + 1`
      after the back-off delay; at the cap it gives up and cancels the timer. */
  lemma AbnormalCloseSchedules(c: Conn, id: nat, code: int)
    requires ValidConn(c) && IsCurrent(c, id) && code != NormalClosure
    ensures var r := OnCloseSpec(c, id, code);
      && !r.connected
      && (c.attempts < MaxReconnectAttempts ==>
            r.attempts == c.attempts + 1 && r.timeout == Some(Timer(BackoffDelay(c.attempts + 1), true)))
      && (c.attempts == MaxReconnectAttempts ==> r.attempts == 0 && r.timeout.None?)
  {
  }

  /** Events from a socket that is no longer current change nothing. */
  lemma StaleEventsIgnored(c: Conn, id: nat, code: int)
    requires !IsCurrent(c, id)
    ensures OnOpenSpec(c, id) == c && OnCloseSpec(c, id, code) == c && OnErrorSpec(c, id) == c
  {
  }

  /** A frame goes out iff the socket is open, and it carries the sender's id in
      place of whatever `userID` it had. */
  lemma SendOnlyWhenOpen(c: Conn, msg: SyncMessage, user: Option<string>)
    ensures var r := SendSpec(c, msg, user);
      && (c.ws.Some? && c.ws.value.ready == Open <==> |r.frames| == |c.frames| + 1)
      && (|r.frames| == |c.frames| + 1 ==>
            r.frames[|c.frames|].userId == user && r.frames[|c.frames|].(userId := msg.userId) == msg)
      && r.frames[..|c.frames|] == c.frames
  {
  }

  /** One failed reconnect round: the timer fires, the lookup yields a token, and the
      new socket closes abnormally. */
  function FailedRound(c: Conn, user: Option<string>, roomId: string, tok: string, code: int): Conn
    requires c.timeout.Some? && c.timeout.value.pending
  {
    var c1 := FireSpec(c, user, roomId);
    if c1.fetches == 0 then c1
    else
      var c2 := TokenSpec(c1, Session(Some(tok)), roomId);
      if c2.ws.None? then c2 else OnCloseSpec(c2, c2.ws.value.id, code)
  }

  /** The shape of the state between failed rounds: the last socket is closed and a
      reconnect is pending with the first back-off delay. */
  ghost predicate RetryPending(c: Conn)
  {
    && ValidConn(c)
    && c.attempts == 1
    && c.timeout == Some(Timer(BackoffDelay(1), true))
    && c.fetches == 0
    && (c.ws.None? || c.ws.value.ready != Open)
  }

  /** `n` failed rounds in a row, each reconnecting with the same user, room and token
      and each new socket closing with the same abnormal code. */
  function Rounds(c: Conn, user: Option<string>, roomId: string, tok: string, code: int, n: nat): (r: Conn)
    requires RetryPending(c) && user.Some? && roomId != "" && tok != "" && code != NormalClosure
    ensures RetryPending(r)
    ensures r.nextId == c.nextId + n
    decreases n
  {
    if n == 0 then c
    else
      var c1 := FailedRound(c, user, roomId, tok, code);
      AfterRoundPending(c, user, roomId, tok, code);
      Rounds(c1, user, roomId, tok, code, n - 1)
  }

  /** As written, `connect` runs `cleanup()` and so zeroes the attempt counter before
      every new socket; an abnormal close then always schedules attempt 1 again. */
  lemma AfterRoundPending(c: Conn, user: Option<string>, roomId: string, tok: string, code: int)
    requires RetryPending(c) && user.Some? && roomId != "" && tok != "" && code != NormalClosure
    ensures RetryPending(FailedRound(c, user, roomId, tok, code))
    ensures FailedRound(c, user, roomId, tok, code).nextId == c.nextId + 1
  {
  }

  /** Consequently a server that keeps dropping the connection abnormally is retried
      forever, every 2 seconds, and the five-attempt cap is never reached. */
  lemma RetriesNeverExhaust(c: Conn, user: Option<string>, roomId: string,
                            tok: string, code: int, n: nat)
    requires RetryPending(c) && user.Some? && roomId != "" && tok != "" && code != NormalClosure
    ensures var r := Rounds(c, user, roomId, tok, code, n);
      r.attempts == 1 && r.timeout == Some(Timer(2000, true)) && r.nextId == c.nextId + n
  {
    BackoffSchedule();
  }

  // ---------------------------------------------------------------------------
  // The connect the cap was written for
  // ---------------------------------------------------------------------------

  /** `connect()` with a `cleanup()` that cancels the timer but keeps the attempt
      counter, which the five-attempt cap needs. */
  function ConnectKeepingAttempts(c: Conn, user: Option<string>, roomId: string): (r: Conn)
    ensures !ConnectBlocked(c, user, roomId) ==> r == ConnectSpec(c, user, roomId).(attempts := c.attempts)
    ensures ConnectBlocked(c, user, roomId) ==> r == c
  {
    if ConnectBlocked(c, user, roomId) then c
    else c.(timeout := None, isConnecting := false, fetches := c.fetches + 1)
  }

  /** One failed reconnect round with that `connect`. */
  function FailedRoundKeepingAttempts(c: Conn, user: Option<string>, roomId: string, tok: string, code: int): Conn
    requires c.timeout.Some? && c.timeout.value.pending
  {
    var c1 := ConnectKeepingAttempts(c.(timeout := Some(c.timeout.value.(pending := false))), user, roomId);
    if c1.fetches == 0 then c1
    else
      var c2 := TokenSpec(c1, Session(Some(tok)), roomId);
      if c2.ws.None? then c2 else OnCloseSpec(c2, c2.ws.value.id, code)
  }

  /** Between failed rounds: attempt `k` is pending with its back-off delay. */
  ghost predicate AttemptPending(c: Conn, k: nat)
  {
    && ValidConn(c)
    && c.attempts == k
    && c.timeout == Some(Timer(BackoffDelay(k), true))
    && c.fetches == 0
    && (c.ws.None? || c.ws.value.ready != Open)
  }

  /** Each failed round below the cap schedules the next attempt with the next delay. */
  lemma RoundAdvances(c: Conn, user: Option<string>, roomId: string, tok: string, code: int, k: nat)
    requires AttemptPending(c, k) && 1 <= k < MaxReconnectAttempts
    requires user.Some? && roomId != "" && tok != "" && code != NormalClosure
    ensures AttemptPending(FailedRoundKeepingAttempts(c, user, roomId, tok, code), k + 1)
  {
  }

  /** The failed round at the cap schedules nothing more. */
  lemma LastRoundStops(c: Conn, user: Option<string>, roomId: string, tok: string, code: int)
    requires AttemptPending(c, MaxReconnectAttempts)
    requires user.Some? && roomId != "" && tok != "" && code != NormalClosure
    ensures var r := FailedRoundKeepingAttempts(c, user, roomId, tok, code);
      ValidConn(r) && r.timeout.None? && r.attempts == 0 && r.ws.Some? && r.ws.value.ready == Closed
  {
  }

  /** With the counter kept, the cap works: after the first abnormal close, reconnects
      wait 2, 4, 8, 16 and 30 seconds, and once the fifth reconnect fails no reconnect
      is pending. */
  lemma FiveFailedRoundsStop(c: Conn, user: Option<string>, roomId: string, tok: string, code: int)
    requires AttemptPending(c, 1)
    requires user.Some? && roomId != "" && tok != "" && code != NormalClosure
    ensures
      var c2 := FailedRoundKeepingAttempts(c, user, roomId, tok, code);
      c2.timeout == Some(Timer(4000, true)) &&
      var c3 := FailedRoundKeepingAttempts(c2, user, roomId, tok, code);
      c3.timeout == Some(Timer(8000, true)) &&
      var c4 := FailedRoundKeepingAttempts(c3, user, roomId, tok, code);
      c4.timeout == Some(Timer(16000, true)) &&
      var c5 := FailedRoundKeepingAttempts(c4, user, roomId, tok, code);
      c5.timeout == Some(Timer(30000, true)) &&
      var c6 := FailedRoundKeepingAttempts(c5, user, roomId, tok, code);
      c6.timeout.None? && ValidConn(c6)
  {
    BackoffSchedule();
    var c2 := FailedRoundKeepingAttempts(c, user, roomId, tok, code);
    RoundAdvances(c, user, roomId, tok, code, 1);
    var c3 := FailedRoundKeepingAttempts(c2, user, roomId, tok, code);
    RoundAdvances(c2, user, roomId, tok, code, 2);
    var c4 := FailedRoundKeepingAttempts(c3, user, roomId, tok, code);
    RoundAdvances(c3, user, roomId, tok, code, 3);
    var c5 := FailedRoundKeepingAttempts(c4, user, roomId, tok, code);
    RoundAdvances(c4, user, roomId, tok, code, 4);
    LastRoundStops(c5, user, roomId, tok, code);
  }

  // ---------------------------------------------------------------------------
  // The hook as a stateful object
  // ---------------------------------------------------------------------------

  class WebSocketClient {
    const roomId: string
    /** The signed-in user's id from the auth context, `None` when signed out. */
    var user: Option<string>
    var ws: Option<Socket>
    var connected: bool
    var isConnecting: bool
    var reconnectAttempts: nat
    var reconnectTimeout: Option<Timer>
    var pendingLookups: nat
    var nextSocketId: nat
    var normalCloses: seq<nat>
    var socketUrls: seq<string>
    var sentFrames: seq<SyncMessage>
    var lastMessage: Inbound?

    function State(): Conn
      reads this
    {
      Conn(ws, connected, isConnecting, reconnectAttempts, reconnectTimeout, pendingLookups,
           nextSocketId, normalCloses, socketUrls, sentFrames)
    }

    ghost predicate Valid()
      reads this
    {
      ValidConn(State())
    }

    /** The hook's first render: no socket, nothing received. */
    constructor (room: string, signedIn: Option<string>)
      ensures roomId == room && user == signedIn && Valid() && lastMessage == null
      ensures State() == Conn(None, false, false, 0, None, 0, 0, [], [], [])
    {
      roomId := room;
      user := signedIn;
      ws := None;
      connected := false;
      isConnecting := false;
      reconnectAttempts := 0;
      reconnectTimeout := None;
      pendingLookups := 0;
      nextSocketId := 0;
      normalCloses := [];
      socketUrls := [];
      sentFrames := [];
      lastMessage := null;
    }

    method Cleanup()
      modifies this
      ensures State() == CleanupSpec(old(State())) && user == old(user) && lastMessage == old(lastMessage)
    {
      reconnectTimeout := None;
      reconnectAttempts := 0;
      isConnecting := false;
    }

    method SafeClose()
      modifies this
      ensures State() == SafeCloseSpec(old(State())) && user == old(user) && lastMessage == old(lastMessage)
    {
      if ws.Some? {
        if ws.value.ready == Open || ws.value.ready == Connecting {
          normalCloses := normalCloses + [ws.value.id];
        }
        ws := None;
      }
    }

    method Connect()
      requires Valid()
      modifies this
      ensures Valid() && State() == ConnectSpec(old(State()), user, roomId)
      ensures user == old(user) && lastMessage == old(lastMessage)
    {
      if isConnecting || (ws.Some? && ws.value.ready == Open) {
        return;
      }
      if user.None? || roomId == "" {
        return;
      }
      isConnecting := true;
      Cleanup();
      pendingLookups := pendingLookups + 1;
    }

    /** One awaited session lookup of an earlier `Connect` resolves. */
    method TokenResolved(lookup: SessionLookup)
      requires Valid() && pendingLookups > 0
      modifies this
      ensures Valid() && State() == TokenSpec(old(State()), lookup, roomId)
      ensures user == old(user) && lastMessage == old(lastMessage)
    {
      pendingLookups := pendingLookups - 1;
      if lookup.LookupFailed? {
        connected := false;
        isConnecting := false;
      } else if lookup.accessToken.None? || lookup.accessToken.value == "" {
        isConnecting := false;
      } else {
        var token := lookup.accessToken.value;
        SafeClose();
        ws := Some(Socket(nextSocketId, Connecting));
        nextSocketId := nextSocketId + 1;
        socketUrls := socketUrls + [WsUrl(roomId, token)];
      }
    }

    method OnOpen(id: nat)
      requires Valid()
      modifies this
      ensures Valid() && State() == OnOpenSpec(old(State()), id)
      ensures user == old(user) && lastMessage == old(lastMessage)
    {
      if ws.Some? && ws.value.id == id {
        ws := Some(Socket(id, Open));
        connected := true;
        isConnecting := false;
        reconnectAttempts := 0;
      }
    }

    /** A frame arrives on socket `id`; `parsed` is `None` when it is not valid JSON. */
    method OnMessage(id: nat, parsed: Option<SyncMessage>, now: int)
      modifies this
      ensures State() == old(State()) && user == old(user)
      ensures IsCurrent(State(), id) && parsed.Some? ==>
                fresh(lastMessage) && lastMessage.body == parsed.value &&
                lastMessage.receivedAt == now && !lastMessage.processed
      ensures !(IsCurrent(State(), id) && parsed.Some?) ==> lastMessage == old(lastMessage)
    {
      if ws.Some? && ws.value.id == id && parsed.Some? {
        lastMessage := new Inbound(parsed.value, now);
      }
    }

    method OnClose(id: nat, code: int)
      requires Valid()
      modifies this
      ensures Valid() && State() == OnCloseSpec(old(State()), id, code)
      ensures user == old(user) && lastMessage == old(lastMessage)
    {
      if !(ws.Some? && ws.value.id == id) {
        return;
      }
      ws := Some(Socket(id, Closed));
      connected := false;
      isConnecting := false;
      if code == NormalClosure {
        return;
      }
      if reconnectAttempts < MaxReconnectAttempts {
        reconnectAttempts := reconnectAttempts + 1;
        reconnectTimeout := Some(Timer(BackoffDelay(reconnectAttempts), true));
      } else {
        Cleanup();
      }
    }

    method OnError(id: nat)
      requires Valid()
      modifies this
      ensures Valid() && State() == OnErrorSpec(old(State()), id)
      ensures user == old(user) && lastMessage == old(lastMessage)
    {
      if ws.Some? && ws.value.id == id {
        connected := false;
        isConnecting := false;
      }
    }

    method FireReconnectTimer()
      requires Valid() && reconnectTimeout.Some? && reconnectTimeout.value.pending
      modifies this
      ensures Valid() && State() == FireSpec(old(State()), user, roomId)
      ensures user == old(user) && lastMessage == old(lastMessage)
    {
      reconnectTimeout := Some(reconnectTimeout.value.(pending := false));
      Connect();
    }

    method Send(msg: SyncMessage)
      requires Valid()
      modifies this
      ensures Valid() && State() == SendSpec(old(State()), msg, user)
      ensures user == old(user) && lastMessage == old(lastMessage)
    {
      if ws.Some? && ws.value.ready == Open {
        sentFrames := sentFrames + [msg.(userId := user)];
      }
    }

    /** The mount effect: connects when a user and a room are present. */
    method Mount()
      requires Valid()
      modifies this
      ensures Valid() && user == old(user) && lastMessage == old(lastMessage)
      ensures State() == if user.Some? && roomId != "" then ConnectSpec(old(State()), user, roomId)
                         else old(State())
    {
      if user.Some? && roomId != "" {
        Connect();
      }
    }

    /** The effect's cleanup: close, cancel, report disconnected, forget the last frame. */
    method Teardown()
      requires Valid()
      modifies this
      ensures Valid() && State() == TeardownSpec(old(State())) && user == old(user)
      ensures lastMessage == null
    {
      SafeClose();
      Cleanup();
      connected := false;
      lastMessage := null;
    }
  }
}
