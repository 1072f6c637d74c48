/** The authentication context: the signed-in user, whether there is one, and whether
    a sign-in is in progress, as driven by the auth service's session events, the
    profile lookup, and the login, signup and logout actions.

    The auth service and the profile table are parameters: a session event carries
    the session's user or nothing, the profile lookup's answer arrives separately, and
    a login or signup request answers with an error message or none. The clock's ISO
    string is a parameter too. */
module AuthContext {
  import opened Wrappers
  import opened Text

  datatype AuthUser = AuthUser(id: string, email: string, username: string, createdAt: string)

  /** The part of a session the context reads: its user's id and email. */
  datatype SessionUser = SessionUser(id: string, email: string)

  /** A row of the profile table, with the nullable columns the context reads. */
  datatype Profile = Profile(username: Option<string>, createdAt: Option<string>)

  datatype AuthState = AuthState(user: Option<AuthUser>, isAuthenticated: bool, isLoading: bool)

  const SignedOut := AuthState(None, false, false)

  /** Authenticated exactly when a user is held. */
  predicate ValidAuth(a: AuthState) {
    a.isAuthenticated <==> a.user.Some?
  }

  /** The text before the first `@` of an email: the username used until the
      profile arrives. */
  function EmailName(email: string): string {
    Before(email, "@")
  }

  /** The fallback username is a prefix of the email with no `@` in it, ending where
      the first `@` is, or the whole email when it has none. */
  lemma EmailNameShape(email: string)
    ensures StartsWith(email, EmailName(email)) && NoChar(EmailName(email), '@')
    ensures Contains(email, "@") ==> |EmailName(email)| < |email| && email[|EmailName(email)|] == '@'
    ensures !Contains(email, "@") ==> EmailName(email) == email
  {
    var r := EmailName(email);
    forall i | 0 <= i < |r| ensures r[i] != '@' {
      assert email[i..i + 1] == [email[i]];
      assert !MatchAt(email, "@", i);
    }
    if Contains(email, "@") {
      assert MatchAt(email, "@", |r|);
      assert email[|r|..|r| + 1] == "@";
    }
  }

  /** For `local@domain` with no `@` in `local`, the fallback username is `local`. */
  lemma EmailNameOfAddress(local: string, domain: string)
    requires NoChar(local, '@')
    ensures EmailName(local + "@" + domain) == local
  {
    var e := local + "@" + domain;
    IndexOfFirstChar(local, '@', domain);
    assert Contains(e, "@");
    var r := EmailName(e);
    assert |r| <= |local| by {
      assert !MatchAt(e, "@", |r|) || e[|r|] == '@';
    }
    assert e[..|local|] == local;
  }

  /** `updateAuthState` up to the profile lookup: no session signs out; a session signs
      in at once with the email's local part as username, and loading ends. */
  function UpdateSpec(a: AuthState, session: Option<SessionUser>, nowIso: string): (r: AuthState)
    ensures ValidAuth(r) && !r.isLoading
    ensures session.None? ==> r == SignedOut
    ensures session.Some? ==>
              r.user == Some(AuthUser(session.value.id, session.value.email, EmailName(session.value.email), nowIso))
  {
    if session.None? then SignedOut
    else
      var u := session.value;
      a.(user := Some(AuthUser(u.id, u.email, EmailName(u.email), nowIso)), isAuthenticated := true, isLoading := false)
  }

  /** The profile lookup's answer for the session's user: a profile with a username
      replaces the username, and its creation time, when set, the creation time. */
  function ProfileSpec(a: AuthState, profile: Option<Profile>): AuthState {
    if profile.Some? && profile.value.username.Some? && profile.value.username.value != "" && a.user.Some? then
      var p := profile.value;
      var created := if p.createdAt.Some? && p.createdAt.value != "" then p.createdAt.value else a.user.value.createdAt;
      a.(user := Some(a.user.value.(username := p.username.value, createdAt := created)))
    else a
  }

  /** The start of `login` or `signup`. */
  function BeginAuthSpec(a: AuthState): AuthState {
    a.(isLoading := true)
  }

  /** The end of `login` or `signup`: an error stops loading (and is rethrown); success
      leaves the state to the session event that follows. */
  function FinishAuthSpec(a: AuthState, error: Option<string>): AuthState {
    if error.Some? then a.(isLoading := false) else a
  }

  /** `logout` signs out whether or not the service reported an error. */
  function LogoutSpec(a: AuthState, error: Option<string>): (r: AuthState)
    ensures r == SignedOut
  {
    SignedOut
  }

  /** Every transition keeps "authenticated" and "has a user" together. */
  lemma TransitionsKeepValid(a: AuthState, session: Option<SessionUser>, nowIso: string, profile: Option<Profile>, error: Option<string>)
    requires ValidAuth(a)
    ensures ValidAuth(UpdateSpec(a, session, nowIso))
    ensures ValidAuth(ProfileSpec(a, profile))
    ensures ValidAuth(BeginAuthSpec(a)) && ValidAuth(FinishAuthSpec(a, error))
    ensures ValidAuth(LogoutSpec(a, error))
  {
  }

  /** The profile only refines the held user: the user's id and email, whether anyone
      is signed in, and loading are kept; the username changes only to a non-empty
      profile username. */
  lemma ProfileRefinesUser(a: AuthState, profile: Option<Profile>)
    ensures ProfileSpec(a, profile).isAuthenticated == a.isAuthenticated
    ensures ProfileSpec(a, profile).isLoading == a.isLoading
    ensures ProfileSpec(a, profile).user.Some? <==> a.user.Some?
    ensures a.user.Some? ==>
              ProfileSpec(a, profile).user.value.id == a.user.value.id &&
              ProfileSpec(a, profile).user.value.email == a.user.value.email
    ensures a.user.Some? && ProfileSpec(a, profile).user.value.username != a.user.value.username ==>
              profile.Some? && profile.value.username == Some(ProfileSpec(a, profile).user.value.username) &&
              ProfileSpec(a, profile).user.value.username != ""
  {
  }

  /** A failed login or signup ends loading; a successful one keeps it until the next
      session event, which always ends it. */
  lemma SignInLoading(a: AuthState, error: Option<string>, session: Option<SessionUser>, nowIso: string)
    ensures error.Some? ==> !FinishAuthSpec(BeginAuthSpec(a), error).isLoading
    ensures error.None? ==> FinishAuthSpec(BeginAuthSpec(a), error).isLoading
    ensures !UpdateSpec(FinishAuthSpec(BeginAuthSpec(a), error), session, nowIso).isLoading
    ensures FinishAuthSpec(BeginAuthSpec(a), error).user == a.user
  {
  }

  /** As written, the profile is applied to whichever user is held when it arrives: a
      profile fetched for one session user renames the next one. */
  lemma StaleProfileRenames(a: AuthState, first: SessionUser, second: SessionUser, now1: string, now2: string,
                            profile: Profile)
    requires profile.username.Some? && profile.username.value != ""
    ensures var b := UpdateSpec(UpdateSpec(a, Some(first), now1), Some(second), now2);
      var r := ProfileSpec(b, Some(profile));
      && r.user.Some? && r.user.value.id == second.id && r.user.value.email == second.email
      && r.user.value.username == profile.username.value
  {
  }

  /** The profile result applied only while the user it was fetched for is still the
      one held; `fetchedFor` is that user's id. */
  function ProfileForSession(a: AuthState, fetchedFor: string, profile: Option<Profile>): (r: AuthState)
    ensures a.user.Some? && a.user.value.id == fetchedFor ==> r == ProfileSpec(a, profile)
    ensures a.user.None? || a.user.value.id != fetchedFor ==> r == a
  {
    if a.user.Some? && a.user.value.id == fetchedFor then ProfileSpec(a, profile) else a
  }

  /** With the check, a profile that arrives after the session changed, to another
      user or to none, changes nothing; one for the current user is applied as before,
      and the invariant is kept. */
  lemma StaleProfileIgnored(a: AuthState, first: SessionUser, next: Option<SessionUser>, now1: string, now2: string,
                            profile: Option<Profile>)
    requires next.None? || next.value.id != first.id
    ensures var b := UpdateSpec(UpdateSpec(a, Some(first), now1), next, now2);
      ProfileForSession(b, first.id, profile) == b
    ensures var b := UpdateSpec(a, Some(first), now1);
      ProfileForSession(b, first.id, profile) == ProfileSpec(b, profile)
    ensures ValidAuth(a) ==> ValidAuth(ProfileForSession(a, first.id, profile))
  {
  }

  const OutsideProvider := "useAuth must be used within an AuthProvider"

  /** `useAuth`: the provider's value, or the error thrown outside any provider. */
  function UseAuth(context: Option<AuthState>): (r: Result<AuthState, string>)
    ensures r.Ok? <==> context.Some?
    ensures r.Ok? ==> r.value == context.value
    ensures r.Err? ==> r.error == OutsideProvider
  {
    if context.None? then Err(OutsideProvider) else Ok(context.value)
  }

  class Provider {
    var user: Option<AuthUser>
    var isAuthenticated: bool
    var isLoading: bool

    function State(): AuthState
      reads this
    {
      AuthState(user, isAuthenticated, isLoading)
    }

    ghost predicate Valid()
      reads this
    {
      ValidAuth(State())
    }

    constructor ()
      ensures Valid() && State() == SignedOut
    {
      user := None;
      isAuthenticated := false;
      isLoading := false;
    }

    /** `updateAuthState` up to its await; `lookup` says whether the profile of
        `session`'s user is then fetched. */
    method UpdateAuthState(session: Option<SessionUser>, nowIso: string) returns (lookup: bool)
      requires Valid()
      modifies this
      ensures Valid()
      ensures State() == UpdateSpec(old(State()), session, nowIso)
      ensures lookup <==> session.Some?
    {
      if session.None? {
        user, isAuthenticated, isLoading := None, false, false;
        return false;
      }
      var u := session.value;
      user := Some(AuthUser(u.id, u.email, EmailName(u.email), nowIso));
      isAuthenticated := true;
      isLoading := false;
      return true;
    }

    /** The rest of `updateAuthState`, once the profile lookup has answered (`None` for
        a failed lookup). */
    method ProfileLoaded(profile: Option<Profile>)
      requires Valid()
      modifies this
      ensures Valid()
      ensures State() == ProfileSpec(old(State()), profile)
    {
      if profile.Some? && profile.value.username.Some? && profile.value.username.value != "" && user.Some? {
        var p := profile.value;
        var created := if p.createdAt.Some? && p.createdAt.value != "" then p.createdAt.value else user.value.createdAt;
        user := Some(user.value.(username := p.username.value, createdAt := created));
      }
    }

    /** The start of `login` or `signup`, before the request is awaited. */
    method BeginSignIn()
      requires Valid()
      modifies this
      ensures Valid()
      ensures State() == BeginAuthSpec(old(State()))
    {
      isLoading := true;
    }

    /** The end of `login` or `signup`; `thrown` is the error the action rethrows. */
    method FinishSignIn(error: Option<string>) returns (thrown: Option<string>)
      requires Valid()
      modifies this
      ensures Valid()
      ensures State() == FinishAuthSpec(old(State()), error)
      ensures thrown == error
    {
      if error.Some? {
        isLoading := false;
      }
      return error;
    }

    method Logout(error: Option<string>)
      modifies this
      ensures Valid()
      ensures State() == LogoutSpec(old(State()), error)
    {
      user, isAuthenticated, isLoading := None, false, false;
    }
  }
}
