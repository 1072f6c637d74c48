/** The host page: a titled party is created through the backend with the session's
    token, and only a free-activity party leads anywhere.

    The `type` query parameter, the session lookup and the backend's answer are
    parameters. As on the join page, `handleCreateParty` is split at its first await
    into `BeginCreate` and `FinishCreate`. */
module HostPage {
  import opened Wrappers
  import opened Text
  import opened Ui

  /** `searchParams.get('type') || 'movie'`. */
  function ActivityType(typeParam: Option<string>): (r: string)
    ensures r != ""
    ensures typeParam.Some? && typeParam.value != "" ==> r == typeParam.value
    ensures typeParam.None? || typeParam == Some("") ==> r == "movie"
  {
    if typeParam.Some? && typeParam.value != "" then typeParam.value else "movie"
  }

  /** One POST to the create endpoint with its JSON fields. */
  datatype CreateRequest = CreateRequest(token: string, title: string, description: string, maxViewers: int, activityType: string)

  datatype CreateResponse = CreateRejected(error: Option<string>) | Created(id: string, roomCode: string)

  datatype HostState = HostState(
    title: string,
    description: string,
    maxViewers: int,
    isLoading: bool,
    toasts: seq<Toast>,
    navigations: seq<string>,
    requests: seq<CreateRequest>,
    alerts: seq<string>)

  const MissingTitle := Toast("Missing Information", "Please enter a party title", true)
  const NotAuthenticated := Toast("Not Authenticated", "Please log in to create a party", true)

  function FailureToast(message: string): Toast {
    Toast("Failed to Create Party", if message != "" then message else "Something went wrong", true)
  }

  /** The title check before the first await. */
  function BeginSpec(s: HostState): HostState {
    if IsBlank(s.title) then s.(toasts := s.toasts + [MissingTitle]) else s.(isLoading := true)
  }

  /** After the session lookup `accessToken` (`None` without a session): the request with
      the form's fields as captured; a created party is announced, and its page opened
      only for the free activity; loading ends in every case. */
  function FinishSpec(s: HostState, form: HostState, activity: string, accessToken: Option<string>, response: CreateResponse): HostState {
    var t :=
      if accessToken.None? then s.(toasts := s.toasts + [NotAuthenticated])
      else
        var sent := s.(requests := s.requests +
          [CreateRequest(accessToken.value, form.title, form.description, form.maxViewers, activity)]);
        match response
        case CreateRejected(err) =>
          sent.(toasts := sent.toasts + [FailureToast(if err.Some? && err.value != "" then err.value else "Failed to create party")])
        case Created(id, code) =>
          var announced := sent.(toasts := sent.toasts + [Toast("Party Created!", "Room Code: " + code, false)]);
          if activity == "free" then announced.(navigations := announced.navigations + ["/free/" + id])
          else announced.(alerts := announced.alerts + ["Error pages"]);
    t.(isLoading := false)
  }

  /** A blank title stops before any request and does not start loading. */
  lemma BlankTitleStops(s: HostState)
    ensures IsBlank(s.title) ==> BeginSpec(s).isLoading == s.isLoading && BeginSpec(s).requests == s.requests
    ensures IsBlank(s.title) ==> BeginSpec(s).toasts == s.toasts + [MissingTitle]
    ensures !IsBlank(s.title) ==> BeginSpec(s) == s.(isLoading := true)
  {
  }

  /** Loading ends on every path; a request is made iff there is a session, carrying the
      untrimmed title and the activity; the user is taken to the free room exactly when
      the party was created for the free activity, and otherwise stays on the page. */
  lemma FinishOutcome(s: HostState, form: HostState, activity: string, accessToken: Option<string>, response: CreateResponse)
    ensures !FinishSpec(s, form, activity, accessToken, response).isLoading
    ensures accessToken.None? ==> FinishSpec(s, form, activity, accessToken, response).requests == s.requests
    ensures accessToken.Some? ==>
              FinishSpec(s, form, activity, accessToken, response).requests ==
              s.requests + [CreateRequest(accessToken.value, form.title, form.description, form.maxViewers, activity)]
    ensures FinishSpec(s, form, activity, accessToken, response).navigations != s.navigations <==>
              accessToken.Some? && response.Created? && activity == "free"
    ensures accessToken.Some? && response.Created? && activity == "free" ==>
              FinishSpec(s, form, activity, accessToken, response).navigations == s.navigations + ["/free/" + response.id]
  {
  }

  class Page {
    const activityType: string
    var title: string
    var description: string
    var maxViewers: int
    var isLoading: bool
    var toasts: seq<Toast>
    var navigations: seq<string>
    var requests: seq<CreateRequest>
    var alerts: seq<string>

    function State(): HostState
      reads this
    {
      HostState(title, description, maxViewers, isLoading, toasts, navigations, requests, alerts)
    }

    /** The page opened with the `type` query parameter `typeParam`. */
    constructor (typeParam: Option<string>)
      ensures activityType == ActivityType(typeParam)
      ensures State() == HostState("", "", 10, false, [], [], [], [])
    {
      activityType := ActivityType(typeParam);
      title := "";
      description := "";
      maxViewers := 10;
      isLoading := false;
      toasts := [];
      navigations := [];
      requests := [];
      alerts := [];
    }

    /** Editing the form. */
    method SetForm(newTitle: string, newDescription: string, newMaxViewers: int)
      modifies this
      ensures State() == old(State()).(title := newTitle, description := newDescription, maxViewers := newMaxViewers)
    {
      title := newTitle;
      description := newDescription;
      maxViewers := newMaxViewers;
    }

    /** `handleCreateParty` up to its first await; `form` is the form it captured. */
    method BeginCreate() returns (proceed: bool, form: HostState)
      modifies this
      ensures State() == BeginSpec(old(State()))
      ensures proceed <==> !IsBlank(old(title))
      ensures form == old(State())
    {
      form := State();
      var blank := TrimsToEmpty(title);
      if blank {
        toasts := toasts + [MissingTitle];
        return false, form;
      }
      isLoading := true;
      return true, form;
    }

    /** The rest of `handleCreateParty`. */
    method FinishCreate(form: HostState, accessToken: Option<string>, response: CreateResponse)
      modifies this
      ensures State() == FinishSpec(old(State()), form, activityType, accessToken, response)
    {
      if accessToken.None? {
        toasts := toasts + [NotAuthenticated];
      } else {
        requests := requests + [CreateRequest(accessToken.value, form.title, form.description, form.maxViewers, activityType)];
        match response {
          case CreateRejected(err) =>
            var message := if err.Some? && err.value != "" then err.value else "Failed to create party";
            toasts := toasts + [FailureToast(message)];
          case Created(id, code) =>
            toasts := toasts + [Toast("Party Created!", "Room Code: " + code, false)];
            if activityType == "free" {
              navigations := navigations + ["/free/" + id];
            } else {
              alerts := alerts + ["Error pages"];
            }
        }
      }
      isLoading := false;
    }
  }
}
