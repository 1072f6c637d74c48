/** The stand-alone mock watch-party page: a simulated party clock advanced once a
    second while playing, host-only play/pause/seek controls, quick seeks, and a local
    chat.

    Positions are whole seconds, as the page keeps them. The clock readings used for
    timestamps and message ids are parameters. */
module WatchPartyRoom {
  import opened Wrappers
  import opened Text

  /** The signed-in user, as far as the page reads it. */
  datatype Viewer = Viewer(id: string, username: string)

  datatype ChatMessage = ChatMessage(id: string, userId: string, username: string, message: string, timestamp: int)

  datatype Participant = Participant(id: string, username: string, isHost: bool)

  const HostName := "MovieMaster"
  /** The length of the mock film, in seconds. */
  const MockDuration := 596

  // ---------------------------------------------------------------- the clock

  /** One tick of the simulated clock: one second on, held at the end. */
  function TickTime(time: int, duration: int): (r: int)
    ensures r <= duration
    ensures time < duration ==> r == time + 1
    ensures time >= duration ==> r == duration
  {
    if time + 1 < duration then time + 1 else duration
  }

  /** `n` ticks in a row. */
  function Ticks(time: int, duration: int, n: nat): int
    decreases n
  {
    if n == 0 then time else Ticks(TickTime(time, duration), duration, n - 1)
  }

  /** From a position within the film, `n` ticks reach `min(time + n, duration)`, so
      the clock never passes the end. */
  lemma {:induction false} TicksReachEnd(time: int, duration: int, n: nat)
    requires time <= duration
    ensures Ticks(time, duration, n) == if time + n < duration then time + n else duration
    decreases n
  {
    if n > 0 {
      TicksReachEnd(TickTime(time, duration), duration, n - 1);
    }
  }

  /** `quickSeek`: the position moved by `seconds`, clamped to the film. */
  function QuickSeekTarget(time: int, seconds: int, duration: int): (r: int)
    ensures 0 <= r
    ensures 0 <= duration ==> r <= duration
    ensures 0 <= time + seconds <= duration ==> r == time + seconds
    ensures time + seconds < 0 ==> r == 0
    ensures 0 <= duration < time + seconds ==> r == duration
  {
    var t := if time + seconds < duration then time + seconds else duration;
    if t < 0 then 0 else t
  }

  // ---------------------------------------------------------------- host and chat

  /** The host flag after the host check ran for `user`: set for the host's name, and
      never cleared. */
  function HostAfter(isHost: bool, user: Option<Viewer>): (r: bool)
    ensures isHost ==> r
    ensures r <==> isHost || (user.Some? && user.value.username == HostName)
  {
    if user.Some? && user.value.username == HostName then true else isHost
  }

  /** The first time the host check sees the host's name decides the flag for good:
      any later users leave it set. */
  lemma {:induction false} HostStaysHost(isHost: bool, users: seq<Option<Viewer>>)
    requires isHost
    ensures HostChecks(isHost, users)
    decreases |users|
  {
    if users != [] {
      HostStaysHost(HostAfter(isHost, users[0]), users[1..]);
    }
  }

  function HostChecks(isHost: bool, users: seq<Option<Viewer>>): bool
    decreases |users|
  {
    if users == [] then isHost else HostChecks(HostAfter(isHost, users[0]), users[1..])
  }

  /** The chat and the input box after submitting the form. */
  function SendSpec(messages: seq<ChatMessage>, input: string, user: Option<Viewer>, msgId: string, now: int): (r: (seq<ChatMessage>, string))
    ensures IsBlank(input) || user.None? ==> r == (messages, input)
    ensures !IsBlank(input) && user.Some? ==>
              r.1 == "" && |r.0| == |messages| + 1 && r.0[..|messages|] == messages &&
              r.0[|messages|].message == input && r.0[|messages|].username == user.value.username &&
              r.0[|messages|].userId == user.value.id
  {
    TrimEmptyIffBlank(input);
    if Trim(input) == "" || user.None? then (messages, input)
    else (messages + [ChatMessage(msgId, user.value.id, user.value.username, input, now)], "")
  }

  /** The opening chat, timestamped relative to the clock reading `now` in ms. */
  function InitialMessages(roomId: string, now: int): seq<ChatMessage> {
    [ ChatMessage("1", "1", HostName, "Welcome to Watch Party #" + roomId + "! \U{1F3AC}", now - 300000),
      ChatMessage("2", "2", "FilmFanatic", "Thanks for hosting! Ready to watch!", now - 240000),
      ChatMessage("3", "3", "CinemaLover", "This is my first watch party, excited! \U{1F37F}", now - 180000),
      ChatMessage("4", "1", HostName, "Let's start in 2 minutes! Get your snacks ready!", now - 120000) ]
  }

  /** `formatTime`: whole minutes, a colon, two-digit seconds. */
  function FormatTime(seconds: nat): (r: string)
    ensures |r| >= 4 && r[|r| - 3] == ':'
    ensures PlainNumber(r[..|r| - 3]) && ClockField(r[|r| - 2..])
    ensures r[0] == '0' ==> |r| == 4
    ensures ClockValue(r) == Some(seconds)
  {
    MinutesSeconds(seconds)
  }

  class Room {
    const roomId: string
    const title: string
    const participants: seq<Participant>
    var isPlaying: bool
    var currentTime: int
    var duration: int
    var hasVideo: bool
    var isHost: bool
    var messages: seq<ChatMessage>
    var newMessage: string

    /** The party clock stays within the film. */
    ghost predicate Valid()
      reads this
    {
      0 <= currentTime <= duration
    }

    /** The page as mounted for `roomId` and the signed-in `user`, at clock `now`. */
    constructor (roomId: string, user: Option<Viewer>, now: int)
      ensures Valid()
      ensures this.roomId == roomId && title == "Movie Night #" + roomId
      ensures |participants| == 4 && participants[0] == Participant("1", HostName, true)
      ensures participants[3].username == (if user.Some? && user.value.username != "" then user.value.username else "You")
      ensures !isPlaying && currentTime == 0 && duration == MockDuration && !hasVideo && !isHost
      ensures messages == InitialMessages(roomId, now) && newMessage == ""
    {
      this.roomId := roomId;
      title := "Movie Night #" + roomId;
      var you := if user.Some? && user.value.username != "" then user.value.username else "You";
      participants := [
        Participant("1", HostName, true),
        Participant("2", "FilmFanatic", false),
        Participant("3", "CinemaLover", false),
        Participant("4", you, false) ];
      isPlaying := false;
      currentTime := 0;
      duration := MockDuration;
      hasVideo := false;
      isHost := false;
      messages := InitialMessages(roomId, now);
      newMessage := "";
    }

    /** The element behind `videoRef` appears or goes away. */
    method SetVideo(present: bool)
      modifies this
      ensures hasVideo == present
      ensures isPlaying == old(isPlaying) && currentTime == old(currentTime) && duration == old(duration)
      ensures isHost == old(isHost) && messages == old(messages) && newMessage == old(newMessage)
    {
      hasVideo := present;
    }

    /** The host check, run whenever the user changes. */
    method CheckHost(user: Option<Viewer>)
      modifies this
      ensures isHost == HostAfter(old(isHost), user)
      ensures isPlaying == old(isPlaying) && currentTime == old(currentTime) && duration == old(duration)
      ensures hasVideo == old(hasVideo) && messages == old(messages) && newMessage == old(newMessage)
    {
      if user.Some? && user.value.username == HostName {
        isHost := true;
      }
    }

    /** One firing of the one-second interval. */
    method Tick()
      requires Valid()
      modifies this
      ensures Valid()
      ensures currentTime == (if old(isPlaying) && old(hasVideo) then TickTime(old(currentTime), duration) else old(currentTime))
      ensures isPlaying == old(isPlaying) && duration == old(duration) && hasVideo == old(hasVideo)
      ensures isHost == old(isHost) && messages == old(messages) && newMessage == old(newMessage)
    {
      if isPlaying && hasVideo {
        currentTime := TickTime(currentTime, duration);
      }
    }

    method HandlePlay()
      modifies this
      ensures isPlaying
      ensures currentTime == old(currentTime) && duration == old(duration) && hasVideo == old(hasVideo)
      ensures isHost == old(isHost) && messages == old(messages) && newMessage == old(newMessage)
    {
      isPlaying := true;
    }

    method HandlePause()
      modifies this
      ensures !isPlaying
      ensures currentTime == old(currentTime) && duration == old(duration) && hasVideo == old(hasVideo)
      ensures isHost == old(isHost) && messages == old(messages) && newMessage == old(newMessage)
    {
      isPlaying := false;
    }

    /** `handleSeek`; the seek bar and the restart button only pass positions within
        the film, which keeps the clock valid. */
    method HandleSeek(newTime: int)
      modifies this
      ensures currentTime == newTime
      ensures 0 <= newTime <= duration ==> Valid()
      ensures isPlaying == old(isPlaying) && duration == old(duration) && hasVideo == old(hasVideo)
      ensures isHost == old(isHost) && messages == old(messages) && newMessage == old(newMessage)
    {
      currentTime := newTime;
    }

    method QuickSeek(seconds: int)
      requires Valid()
      modifies this
      ensures Valid()
      ensures currentTime == QuickSeekTarget(old(currentTime), seconds, duration)
      ensures isPlaying == old(isPlaying) && duration == old(duration) && hasVideo == old(hasVideo)
      ensures isHost == old(isHost) && messages == old(messages) && newMessage == old(newMessage)
    {
      var newTime := QuickSeekTarget(currentTime, seconds, duration);
      HandleSeek(newTime);
    }

    /** Typing in the chat box. */
    method SetNewMessage(text: string)
      modifies this
      ensures newMessage == text
      ensures isPlaying == old(isPlaying) && currentTime == old(currentTime) && duration == old(duration)
      ensures hasVideo == old(hasVideo) && isHost == old(isHost) && messages == old(messages)
    {
      newMessage := text;
    }

    /** `handleSendMessage` for `user`, with the message id and timestamp from the clock. */
    method HandleSendMessage(user: Option<Viewer>, msgId: string, now: int)
      modifies this
      ensures (messages, newMessage) == SendSpec(old(messages), old(newMessage), user, msgId, now)
      ensures isPlaying == old(isPlaying) && currentTime == old(currentTime) && duration == old(duration)
      ensures hasVideo == old(hasVideo) && isHost == old(isHost)
    {
      if Trim(newMessage) == "" || user.None? {
        return;
      }
      var message := ChatMessage(msgId, user.value.id, user.value.username, newMessage, now);
      messages := messages + [message];
      newMessage := "";
    }
  }
}
