/**
 * The signed-in user of src/contexts/AuthContext.tsx.
 *
 * The provider asks the auth service for the current session and, for a
 * signed-in user, reads their profile row. A user without a profile gets one,
 * named after the part of their email before the '@'. The display name is
 * the profile's full name, else that email part, else "User". Sign-in and
 * sign-out events from the auth service re-run this check or clear the user.
 * The answers of the auth service and the database are inputs.
 */
module AuthContext {
  import opened Wrappers

  /** `session.user`: an id, and an email the service may not have. */
  datatype SessionUser = SessionUser(id: string, email: Option<string>)

  /** What `getSession` did: it threw, or it answered with a session or none. */
  datatype SessionAnswer = SessionThrew | Session(user: Option<SessionUser>)

  /** A `profiles` row as read; its full name may be null. */
  datatype Profile = Profile(fullName: Option<string>)

  /** A `profiles` row as inserted. */
  datatype ProfileRow = ProfileRow(id: string, email: Option<string>, fullName: string)

  datatype User = User(id: string, name: string, email: string)

  /** `email.split('@')[0]`: everything before the first '@'. */
  function LocalPart(email: string): (local: string)
    ensures '@' !in local
    ensures local <= email
    ensures |local| < |email| ==> email[|local|] == '@'
  {
    if email == [] || email[0] == '@' then [] else [email[0]] + LocalPart(email[1..])
  }

  /** The part before the '@' is the whole of an email that has none. */
  lemma {:induction false} LocalPartWithoutAt(email: string)
    requires '@' !in email
    ensures LocalPart(email) == email
  {
    if email != [] {
      assert email[0] in email;
      LocalPartWithoutAt(email[1..]);
    }
  }

  /** `email?.split('@')[0] || 'User'`: the name given to a user without a profile. */
  function FallbackName(email: Option<string>): (name: string)
    ensures name != []
    ensures email.Some? && LocalPart(email.value) != [] ==> name == LocalPart(email.value)
    ensures email.None? || LocalPart(email.value) == [] ==> name == "User"
  {
    if email.Some? && LocalPart(email.value) != [] then LocalPart(email.value) else "User"
  }

  /** `profile.full_name || <FallbackName>` */
  function DisplayName(fullName: Option<string>, email: Option<string>): (name: string)
    ensures name != []
    ensures fullName.Some? && fullName.value != [] ==> name == fullName.value
    ensures fullName.None? || fullName.value == [] ==> name == FallbackName(email)
  {
    if fullName.Some? && fullName.value != [] then fullName.value else FallbackName(email)
  }

  /**
   * An empty full name counts as missing, and an email that starts with '@'
   * leaves only "User".
   */
  lemma DisplayNameFallbacks()
    ensures DisplayName(Some(""), Some("ann@x.io")) == "ann"
    ensures DisplayName(None, Some("@x.io")) == "User"
    ensures DisplayName(Some("Ann Lee"), None) == "Ann Lee"
  {
    var local, rest := "ann", "@x.io";
    assert local + rest == "ann@x.io";
    LocalPartBeforeAt(local, rest);
  }

  /** The part before the '@' of `local + rest`, where `rest` starts with the first '@'. */
  lemma {:induction false} LocalPartBeforeAt(local: string, rest: string)
    requires '@' !in local && |rest| > 0 && rest[0] == '@'
    ensures LocalPart(local + rest) == local
  {
    if local != [] {
      assert (local + rest)[1..] == local[1..] + rest;
      LocalPartBeforeAt(local[1..], rest);
    } else {
      assert local + rest == rest;
    }
  }

  /** `session.user.email || ''` */
  function EmailOrEmpty(email: Option<string>): (text: string)
    ensures email.Some? ==> text == email.value
    ensures email.None? ==> text == []
  {
    if email.Some? then email.value else []
  }

  /** The events of `onAuthStateChange` that the provider tells apart. */
  datatype AuthEvent = SignedInEvent | TokenRefreshed | SignedOutEvent | OtherEvent

  /** What a sign-in or sign-up call did: it threw (with a possibly empty message), returned an error, or succeeded. */
  datatype AuthAnswer = AuthThrew(thrown: string) | AuthError(message: string) | AuthOk(created: Option<SessionUser>)

  /** `error.message || fallback` for a thrown error. */
  function ThrownMessage(message: string, fallback: string): (text: string)
    ensures message != [] ==> text == message
    ensures message == [] ==> text == fallback
  {
    if message != [] then message else fallback
  }

  const SignInFailed := "An error occurred during sign in"
  const SignUpFailed := "An error occurred during sign up"

  /**
   * The user `checkUser` settles on: nobody when the session lookup threw or
   * found no session, otherwise the session's user under the profile's
   * display name, or under the fallback name when there is no profile.
   */
  function Checked(session: SessionAnswer, profile: Option<Profile>): (user: Option<User>)
    ensures user.Some? <==> session.Session? && session.user.Some?
    ensures user.Some? ==>
      && user.value.id == session.user.value.id
      && user.value.email == EmailOrEmpty(session.user.value.email)
      && user.value.name != []
    ensures user.Some? && profile.Some? ==>
      user.value.name == DisplayName(profile.value.fullName, session.user.value.email)
    ensures user.Some? && profile.None? ==> user.value.name == FallbackName(session.user.value.email)
  {
    if session.SessionThrew? || session.user.None? then None
    else
      var u := session.user.value;
      if profile.Some? then Some(User(u.id, DisplayName(profile.value.fullName, u.email), EmailOrEmpty(u.email)))
      else Some(User(u.id, FallbackName(u.email), EmailOrEmpty(u.email)))
  }

  /**
   * The profile rows `checkUser` inserts: one for a signed-in user without a
   * profile, carrying the same name the user is then shown under.
   */
  function CheckInserts(session: SessionAnswer, profile: Option<Profile>): (rows: seq<ProfileRow>)
    ensures |rows| <= 1
    ensures rows != [] <==> session.Session? && session.user.Some? && profile.None?
    ensures rows != [] ==>
      && rows[0].id == session.user.value.id
      && rows[0].email == session.user.value.email
      && Checked(session, profile).Some?
      && rows[0].fullName == Checked(session, profile).value.name
  {
    if session.Session? && session.user.Some? && profile.None? then
      var u := session.user.value;
      [ProfileRow(u.id, u.email, FallbackName(u.email))]
    else []
  }

  /** The row `signUp` inserts for a created account, under the name typed. */
  function SignUpRows(created: Option<SessionUser>, fullName: string): (rows: seq<ProfileRow>)
    ensures created.None? ==> rows == []
    ensures created.Some? ==> rows == [ProfileRow(created.value.id, created.value.email, fullName)]
  {
    if created.Some? then [ProfileRow(created.value.id, created.value.email, fullName)] else []
  }

  class Provider {
    var user: Option<User>
    var isLoading: bool
    /** The rows this provider has inserted into `profiles`, oldest first. */
    var inserted: seq<ProfileRow>

    constructor ()
      ensures user.None? && isLoading && inserted == []
    {
      user := None;
      isLoading := true;
      inserted := [];
    }

    /** `isAuthenticated`: `!!user`. */
    predicate IsAuthenticated()
      reads this
    {
      user.Some?
    }

    /** `checkUser` */
    method CheckUser(session: SessionAnswer, profile: Option<Profile>)
      modifies this
      ensures !isLoading
      ensures user == Checked(session, profile)
      ensures inserted == old(inserted) + CheckInserts(session, profile)
    {
      if session.SessionThrew? || session.user.None? {
        user := None;
      } else {
        var u := session.user.value;
        if profile.Some? {
          user := Some(User(u.id, DisplayName(profile.value.fullName, u.email), EmailOrEmpty(u.email)));
        } else {
          var fullName := FallbackName(u.email);
          inserted := inserted + [ProfileRow(u.id, u.email, fullName)];
          user := Some(User(u.id, fullName, EmailOrEmpty(u.email)));
        }
      }
      isLoading := false;
    }

    /** The `onAuthStateChange` listener. */
    method OnAuthEvent(event: AuthEvent, session: SessionAnswer, profile: Option<Profile>)
      modifies this
      ensures event == SignedOutEvent ==> user.None? && isLoading == old(isLoading) && inserted == old(inserted)
      ensures event == OtherEvent ==> unchanged(this)
      ensures event == SignedInEvent || event == TokenRefreshed ==>
        && !isLoading
        && user == Checked(session, profile)
        && inserted == old(inserted) + CheckInserts(session, profile)
    {
      if event == SignedInEvent || event == TokenRefreshed {
        CheckUser(session, profile);
      } else if event == SignedOutEvent {
        user := None;
      }
    }

    /** `signIn`: the error message, if any. An error leaves the provider as it was. */
    method SignIn(answer: AuthAnswer, session: SessionAnswer, profile: Option<Profile>)
      returns (error: Option<string>)
      modifies this
      ensures answer.AuthThrew? ==> error == Some(ThrownMessage(answer.thrown, SignInFailed)) && unchanged(this)
      ensures answer.AuthError? ==> error == Some(answer.message) && unchanged(this)
      ensures answer.AuthOk? ==>
        && error.None? && !isLoading
        && user == Checked(session, profile)
        && inserted == old(inserted) + CheckInserts(session, profile)
    {
      match answer
      case AuthThrew(thrown) =>
        error := Some(ThrownMessage(thrown, SignInFailed));
      case AuthError(message) =>
        error := Some(message);
      case AuthOk(_) =>
        CheckUser(session, profile);
        error := None;
    }

    /**
     * `signUp`: a created account gets a profile with the name typed, then
     * the session is checked.
     */
    method SignUp(fullName: string, answer: AuthAnswer, session: SessionAnswer, profile: Option<Profile>)
      returns (error: Option<string>)
      modifies this
      ensures answer.AuthThrew? ==> error == Some(ThrownMessage(answer.thrown, SignUpFailed)) && unchanged(this)
      ensures answer.AuthError? ==> error == Some(answer.message) && unchanged(this)
      ensures answer.AuthOk? ==>
        && error.None? && !isLoading
        && user == Checked(session, profile)
        && inserted == old(inserted) + SignUpRows(answer.created, fullName) + CheckInserts(session, profile)
    {
      match answer
      case AuthThrew(thrown) =>
        error := Some(ThrownMessage(thrown, SignUpFailed));
      case AuthError(message) =>
        error := Some(message);
      case AuthOk(created) =>
        inserted := inserted + SignUpRows(created, fullName);
        CheckUser(session, profile);
        error := None;
    }

    /** `signOut` */
    method SignOut()
      modifies this
      ensures !IsAuthenticated()
      ensures isLoading == old(isLoading) && inserted == old(inserted)
    {
      user := None;
    }
  }
}
