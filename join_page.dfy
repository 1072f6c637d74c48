/** The join page: a room code is checked, sent upper-cased to the backend with the
    session's token, and the joined party decides where the user is taken.

    The session lookup and the backend's answer are parameters. `handleJoinParty`
    awaits, so it is split at its first await into `BeginJoin`, which returns the room
    code the handler captured, and `FinishJoin`, which receives what the awaits
    produced. */
module JoinPage {
  import opened Wrappers
  import opened Text
  import opened Ui

  datatype JoinUser = JoinUser(id: string)

  /** What `supabase.auth.getSession()` yields. */
  datatype SessionLookup = LookupError | NoSession | Session(accessToken: Option<string>)

  datatype JoinedParty = JoinedParty(id: string, title: string, hostId: string, activityType: Option<string>)

  /** The backend's answer: a failure status with its body's `error`, or the party. */
  datatype JoinResponse = JoinRejected(error: Option<string>) | Joined(party: JoinedParty)

  /** One POST to the join endpoint: the bearer token and the `room_code` sent. */
  datatype JoinRequest = JoinRequest(token: string, roomCode: string)

  predicate NoLowerAscii(s: string) {
    forall i :: 0 <= i < |s| ==> !('a' <= s[i] <= 'z')
  }

  /** Upper-casing leaves no lower-case ASCII letter, and doing it twice is doing it once,
      so the code typed into the upper-casing field is sent as typed. */
  lemma UpperCodes(s: string)
    ensures NoLowerAscii(ToUpper(s))
    ensures ToUpper(ToUpper(s)) == ToUpper(s)
  {
  }

  /** `activity_type?.toLowerCase() === 'free'`. */
  predicate IsFreeRoom(p: JoinedParty)
    ensures IsFreeRoom(p) ==> p.activityType.Some? && |p.activityType.value| == 4
  {
    p.activityType.Some? && ToLower(p.activityType.value) == "free"
  }

  /** Where a joined user is sent: the free-room host page or the party page, and the
      party page for everyone but the host. */
  function RedirectPath(p: JoinedParty, user: JoinUser): (r: string)
    ensures r == "/host/free/" + p.id || r == "/party/" + p.id
    ensures p.hostId != user.id ==> r == "/party/" + p.id
  {
    if p.hostId == user.id && IsFreeRoom(p) then "/host/free/" + p.id else "/party/" + p.id
  }

  /** The redirect table: the free-room host page exactly for the host of a free room,
      the party page in every other case. */
  lemma RedirectTable(p: JoinedParty, user: JoinUser)
    ensures RedirectPath(p, user) == "/host/free/" + p.id <==> p.hostId == user.id && IsFreeRoom(p)
    ensures RedirectPath(p, user) == "/party/" + p.id <==> !(p.hostId == user.id && IsFreeRoom(p))
  {
    assert ("/host/free/" + p.id)[1] == 'h';
    assert ("/party/" + p.id)[1] == 'p';
  }

  /** A missing activity type is not free; the test ignores letter case. */
  lemma FreeRoomTest(p: JoinedParty)
    ensures p.activityType.None? ==> !IsFreeRoom(p)
    ensures IsFreeRoom(p) == IsFreeRoom(p.(activityType := if p.activityType.Some? then Some(ToUpper(p.activityType.value)) else None))
  {
    if p.activityType.Some? {
      ToLowerAfterToUpper(p.activityType.value);
    }
  }

  datatype JoinState = JoinState(
    roomCode: string,
    isLoading: bool,
    toasts: seq<Toast>,
    navigations: seq<string>,
    requests: seq<JoinRequest>)

  const MissingCode := Toast("Missing Information", "Please enter a Room Code", true)
  const NotLoggedIn := Toast("Not Logged In", "Please log in to join a party", true)

  function FailureToast(message: string): Toast {
    Toast("Failed to Join Party", if message != "" then message else "Room not found or you don't have access", true)
  }

  /** Typing into the room-code field, which upper-cases as you type. */
  function TypeSpec(s: JoinState, text: string): JoinState {
    s.(roomCode := ToUpper(text))
  }

  /** The checks before the first await: a blank code or a missing user stop the flow,
      the latter with a redirect to the login page; otherwise loading starts. */
  function BeginSpec(s: JoinState, user: Option<JoinUser>): JoinState {
    if IsBlank(s.roomCode) then s.(toasts := s.toasts + [MissingCode])
    else if user.None? then s.(toasts := s.toasts + [NotLoggedIn], navigations := s.navigations + ["/login"])
    else s.(isLoading := true)
  }

  predicate Proceeds(s: JoinState, user: Option<JoinUser>) {
    !IsBlank(s.roomCode) && user.Some?
  }

  /** The token the request would carry, if the session has a usable one. */
  function TokenOf(session: SessionLookup): Option<string> {
    if session.Session? && session.accessToken.Some? && session.accessToken.value != ""
    then session.accessToken else None
  }

  /** Everything after the first await, for the captured `code` and `user`: a usable
      session token leads to the request, whose answer either fails with a toast or
      greets and redirects; loading ends in every case. */
  function FinishSpec(s: JoinState, code: string, user: JoinUser, session: SessionLookup, response: JoinResponse): JoinState {
    var t :=
      if session.LookupError? || session.NoSession? then s.(toasts := s.toasts + [FailureToast("Please log in to join a party")])
      else if TokenOf(session).None? then s.(toasts := s.toasts + [FailureToast("Not authenticated")])
      else
        var sent := s.(requests := s.requests + [JoinRequest(TokenOf(session).value, ToUpper(code))]);
        match response
        case JoinRejected(err) =>
          sent.(toasts := sent.toasts + [FailureToast(if err.Some? && err.value != "" then err.value else "Failed to join party")])
        case Joined(p) =>
          sent.(toasts := sent.toasts + [Toast("Joined Party!", "Welcome to " + p.title, false)],
                navigations := sent.navigations + [RedirectPath(p, user)]);
    t.(isLoading := false)
  }

  /** A blank code or a missing user makes no request and does not start loading; only
      the missing user is sent to the login page. */
  lemma ValidationStopsEarly(s: JoinState, user: Option<JoinUser>)
    ensures !Proceeds(s, user) ==> BeginSpec(s, user).requests == s.requests && BeginSpec(s, user).isLoading == s.isLoading
    ensures IsBlank(s.roomCode) ==> BeginSpec(s, user).navigations == s.navigations
    ensures !IsBlank(s.roomCode) && user.None? ==> BeginSpec(s, user).navigations == s.navigations + ["/login"]
    ensures Proceeds(s, user) ==> BeginSpec(s, user) == s.(isLoading := true)
  {
  }

  /** Loading ends on every path; a request is made iff the session has a usable token,
      and it carries the code upper-cased; the user is redirected only after a
      successful join, to the path of the redirect table. */
  lemma FinishOutcome(s: JoinState, code: string, user: JoinUser, session: SessionLookup, response: JoinResponse)
    ensures !FinishSpec(s, code, user, session, response).isLoading
    ensures TokenOf(session).None? ==> FinishSpec(s, code, user, session, response).requests == s.requests
    ensures TokenOf(session).Some? ==>
              FinishSpec(s, code, user, session, response).requests == s.requests + [JoinRequest(TokenOf(session).value, ToUpper(code))]
    ensures TokenOf(session).Some? && response.Joined? ==>
              FinishSpec(s, code, user, session, response).navigations == s.navigations + [RedirectPath(response.party, user)]
    ensures TokenOf(session).None? || response.JoinRejected? ==>
              FinishSpec(s, code, user, session, response).navigations == s.navigations
    ensures |FinishSpec(s, code, user, session, response).toasts| == |s.toasts| + 1
  {
  }

  class Page {
    var roomCode: string
    var isLoading: bool
    var toasts: seq<Toast>
    var navigations: seq<string>
    var requests: seq<JoinRequest>

    function State(): JoinState
      reads this
    {
      JoinState(roomCode, isLoading, toasts, navigations, requests)
    }

    constructor ()
      ensures State() == JoinState("", false, [], [], [])
    {
      roomCode := "";
      isLoading := false;
      toasts := [];
      navigations := [];
      requests := [];
    }

    method SetRoomCode(text: string)
      modifies this
      ensures State() == TypeSpec(old(State()), text)
    {
      roomCode := ToUpper(text);
    }

    /** `handleJoinParty` up to its first await; `code` is the room code it captured. */
    method BeginJoin(user: Option<JoinUser>) returns (proceed: bool, code: string)
      modifies this
      ensures State() == BeginSpec(old(State()), user)
      ensures proceed <==> Proceeds(old(State()), user)
      ensures code == old(roomCode)
    {
      code := roomCode;
      var blank := TrimsToEmpty(roomCode);
      if blank {
        toasts := toasts + [MissingCode];
        proceed := false;
      } else if user.None? {
        toasts := toasts + [NotLoggedIn];
        navigations := navigations + ["/login"];
        proceed := false;
      } else {
        isLoading := true;
        proceed := true;
      }
    }

    /** The rest of `handleJoinParty`, with the session lookup and the backend's answer. */
    method FinishJoin(code: string, user: JoinUser, session: SessionLookup, response: JoinResponse)
      modifies this
      ensures State() == FinishSpec(old(State()), code, user, session, response)
    {
      if session.LookupError? || session.NoSession? {
        toasts := toasts + [FailureToast("Please log in to join a party")];
      } else if session.accessToken.None? || session.accessToken.value == "" {
        toasts := toasts + [FailureToast("Not authenticated")];
      } else {
        var token := session.accessToken.value;
        requests := requests + [JoinRequest(token, ToUpper(code))];
        match response {
          case JoinRejected(err) =>
            var message := if err.Some? && err.value != "" then err.value else "Failed to join party";
            toasts := toasts + [FailureToast(message)];
          case Joined(p) =>
            toasts := toasts + [Toast("Joined Party!", "Welcome to " + p.title, false)];
            navigations := navigations + [RedirectPath(p, user)];
        }
      }
      isLoading := false;
    }
  }
}
