/**
 * The browser-local credential store of src/pages/Login.tsx.
 *
 * Registered users (with their passwords) live in a list in the browser's
 * storage; the signed-in user is held in page state and mirrored under a
 * second storage key. Sign-in looks a user up by email, ignoring letter
 * case, and compares the password; sign-up refuses an email that is already
 * registered and appends the new user. The clock that provides new ids is
 * passed in.
 */
module Login {
  import opened Wrappers
  import opened Strings

  datatype StoredUser = StoredUser(id: string, name: string, email: string, password: string)

  /** The session: a stored user without the password. */
  datatype User = User(id: string, name: string, email: string)

  function PublicPart(u: StoredUser): (user: User)
    ensures user.id == u.id && user.name == u.name && user.email == u.email
  {
    User(u.id, u.name, u.email)
  }

  predicate SameEmail(a: string, b: string) {
    ToLower(a) == ToLower(b)
  }

  /** Position of the first user whose email matches `email` ignoring case. */
  function FindIndex(users: seq<StoredUser>, email: string): (r: Option<nat>)
    ensures r.None? <==> forall i :: 0 <= i < |users| ==> !SameEmail(users[i].email, email)
    ensures r.Some? ==>
      && r.value < |users| && SameEmail(users[r.value].email, email)
      && forall k :: 0 <= k < r.value ==> !SameEmail(users[k].email, email)
  {
    if users == [] then None
    else if SameEmail(users[0].email, email) then Some(0)
    else match FindIndex(users[1..], email)
      case None => None
      case Some(i) => Some(i + 1)
  }

  /** `findUserByEmail`: the first stored user with that email, or null. */
  function FindByEmail(users: seq<StoredUser>, email: string): (found: Option<StoredUser>)
    ensures found.None? <==> forall i :: 0 <= i < |users| ==> !SameEmail(users[i].email, email)
    ensures found.Some? ==> found.value in users && SameEmail(found.value.email, email)
    ensures found.Some? ==> exists i :: (0 <= i < |users| && found.value == users[i] &&
      SameEmail(users[i].email, email) && (forall k :: 0 <= k < i ==> !SameEmail(users[k].email, email)))
  {
    match FindIndex(users, email)
    case None => None
    case Some(i) => Some(users[i])
  }

  /** The user a successful sign-up stores: trimmed name, lower-cased and trimmed email. */
  function NewUser(now: nat, name: string, email: string, password: string): (u: StoredUser)
    ensures u.id == Decimal(now) && u.password == password
    ensures u.name == Trim(name) && u.email == Trim(ToLower(email))
  {
    StoredUser(Decimal(now), Trim(name), Trim(ToLower(email)), password)
  }

  /**
   * The stored list after `handleSignUp` as written: the duplicate check
   * uses the email as typed, but the stored email is trimmed. `None` when the
   * sign-up is refused.
   */
  function Registered(users: seq<StoredUser>, now: nat, name: string, email: string, password: string)
    : (r: Option<seq<StoredUser>>)
    ensures r.None? <==> name == [] || email == [] || password == [] || FindByEmail(users, email).Some?
    ensures r.Some? ==> r.value == users + [NewUser(now, name, email, password)]
  {
    if name == [] || email == [] || password == [] || FindByEmail(users, email).Some? then None
    else Some(users + [NewUser(now, name, email, password)])
  }

  /** No two stored users share an email, ignoring case. */
  predicate UniqueEmails(users: seq<StoredUser>) {
    forall i, j :: 0 <= i < j < |users| ==> !SameEmail(users[i].email, users[j].email)
  }

  /**
   * As written, a sign-up whose email differs from a registered one only by
   * surrounding spaces passes the duplicate check and stores a second
   * account with the same email.
   */
  lemma RegisteredAllowsDuplicateEmail()
    ensures var users := [StoredUser("1", "Ann", "ann@x.io", "pw")];
      && UniqueEmails(users)
      && Registered(users, 2, "Ann", " ann@x.io", "pw2").Some?
      && !UniqueEmails(Registered(users, 2, "Ann", " ann@x.io", "pw2").value)
  {
    StoredEmailOfPaddedInput();
    PaddedEmailRegisteredTwice(StoredUser("1", "Ann", "ann@x.io", "pw"), 2, "Ann", " ann@x.io", "pw2");
  }

  /**
   * Any typed email that is stored as a registered one, but differs from it
   * in length, gets past the duplicate check.
   */
  lemma PaddedEmailRegisteredTwice(u: StoredUser, now: nat, name: string, typed: string, password: string)
    requires name != [] && password != [] && typed != [] && |typed| != |u.email|
    requires Trim(ToLower(typed)) == u.email
    ensures UniqueEmails([u])
    ensures Registered([u], now, name, typed, password).Some?
    ensures !UniqueEmails(Registered([u], now, name, typed, password).value)
  {
    OtherLengthNotFound(u, typed);
    var added := NewUser(now, name, typed, password);
    assert Registered([u], now, name, typed, password) == Some([u] + [added]);
    SameEmailTwice(u, added);
  }

  /** Two users with one email, ignoring case, break uniqueness. */
  lemma SameEmailTwice(u: StoredUser, v: StoredUser)
    requires SameEmail(u.email, v.email)
    ensures !UniqueEmails([u] + [v])
  {
    assert ([u] + [v])[0] == u && ([u] + [v])[1] == v;
  }

  /** The lookup compares strings of different lengths, so it finds nothing. */
  lemma OtherLengthNotFound(u: StoredUser, typed: string)
    requires |typed| != |u.email|
    ensures FindByEmail([u], typed).None?
  {
    assert |ToLower(u.email)| != |ToLower(typed)|;
    assert [u][0] == u;
  }

  /** The padded address is stored without its padding. */
  lemma StoredEmailOfPaddedInput()
    ensures Trim(ToLower(" ann@x.io")) == "ann@x.io"
  {
    LowerOfLower(" ann@x.io");
    TrimOfPaddedInput();
  }

  lemma TrimOfPaddedInput()
    ensures Trim(" ann@x.io") == "ann@x.io"
  {
    var pad, address := " ", "ann@x.io";
    assert IsSpace(pad[0]);
    TrimSkipsLeadingSpace(pad, address);
    assert !IsSpace(address[0]) && !IsSpace(address[|address| - 1]);
    TrimOfTrimmed(address);
    assert pad + address == " ann@x.io";
  }

  lemma LowerOfLower(s: string)
    requires forall i :: 0 <= i < |s| ==> !('A' <= s[i] <= 'Z')
    ensures ToLower(s) == s
  {
  }

  /** The evidently intended check: look up the email that is about to be stored. */
  function RegisteredChecked(users: seq<StoredUser>, now: nat, name: string, email: string, password: string)
    : (r: Option<seq<StoredUser>>)
    ensures r.None? <==>
      name == [] || email == [] || password == [] || FindByEmail(users, Trim(ToLower(email))).Some?
    ensures r.Some? ==> r.value == users + [NewUser(now, name, email, password)]
  {
    if name == [] || email == [] || password == [] || FindByEmail(users, Trim(ToLower(email))).Some? then None
    else Some(users + [NewUser(now, name, email, password)])
  }

  /** An email as the page's email field delivers it: no white space at either end. */
  predicate Unpadded(email: string) {
    email == [] || (!IsSpace(email[0]) && !IsSpace(email[|email| - 1]))
  }

  /**
   * On every email without surrounding white space, the handler as written
   * and the corrected check agree: the two differ only on padded input.
   */
  lemma RegisteredAgreesOnUnpadded(users: seq<StoredUser>, now: nat, name: string, email: string, password: string)
    requires Unpadded(email)
    ensures Registered(users, now, name, email, password) == RegisteredChecked(users, now, name, email, password)
  {
    StoredFormOfUnpadded(email);
    FoundAlike(users, email, Trim(ToLower(email)));
  }

  /** An unpadded email is stored lower-cased, with nothing trimmed, and lower-casing it again changes nothing. */
  lemma StoredFormOfUnpadded(email: string)
    requires Unpadded(email)
    ensures Trim(ToLower(email)) == ToLower(email)
    ensures ToLower(Trim(ToLower(email))) == ToLower(email)
  {
    var lower := ToLower(email);
    TrimOfTrimmed(lower);
    LowerOfLower(lower);
  }

  /** Two emails equal ignoring case are found alike. */
  lemma FoundAlike(users: seq<StoredUser>, a: string, b: string)
    requires ToLower(a) == ToLower(b)
    ensures FindByEmail(users, a).Some? <==> FindByEmail(users, b).Some?
  {
    forall i | 0 <= i < |users| ensures SameEmail(users[i].email, a) <==> SameEmail(users[i].email, b) {
    }
  }

  /** With the corrected check, sign-up never registers an email twice. */
  lemma RegisteredCheckedKeepsEmailsUnique(users: seq<StoredUser>, now: nat, name: string, email: string, password: string)
    requires UniqueEmails(users)
    ensures var r := RegisteredChecked(users, now, name, email, password);
      r.Some? ==> UniqueEmails(r.value)
  {
    var r := RegisteredChecked(users, now, name, email, password);
    if r.Some? {
      var list := r.value;
      forall i, j | 0 <= i < j < |list|
        ensures !SameEmail(list[i].email, list[j].email)
      {
        if j == |users| {
          assert list[j].email == Trim(ToLower(email));
          assert list[i] == users[i];
        } else {
          assert list[i] == users[i] && list[j] == users[j];
        }
      }
    }
  }

  datatype LoginOutcome = LoginMissingFields | UserNotFound | WrongPassword | LoggedIn
  datatype SignUpOutcome = SignUpMissingFields | EmailTaken | SignedUp

  class LoginPage {
    /** The `storedUsers` key. */
    var users: seq<StoredUser>
    /** The `user` state. */
    var session: Option<User>
    /** The `user` key. */
    var savedUser: Option<User>
    var isLoading: bool

    constructor (users: seq<StoredUser>, savedUser: Option<User>)
      ensures this.users == users && this.savedUser == savedUser
      ensures session.None? && !isLoading
    {
      this.users := users;
      this.savedUser := savedUser;
      session := None;
      isLoading := false;
    }

    /** The mount effect: restore the saved user, if any. */
    method Restore()
      modifies this
      ensures savedUser.Some? ==> session == savedUser
      ensures savedUser.None? ==> session == old(session)
      ensures users == old(users) && savedUser == old(savedUser) && isLoading == old(isLoading)
    {
      if savedUser.Some? {
        session := savedUser;
      }
    }

    /** `handleLogin` */
    method SignIn(email: string, password: string) returns (outcome: LoginOutcome)
      modifies this
      ensures users == old(users) && !isLoading
      ensures outcome != LoggedIn ==> session == old(session) && savedUser == old(savedUser)
      ensures outcome == LoginMissingFields <==> email == [] || password == []
      ensures email != [] && password != [] ==>
        var found := FindByEmail(users, email);
        && (outcome == UserNotFound <==> found.None?)
        && (outcome == WrongPassword <==> found.Some? && found.value.password != password)
        && (outcome == LoggedIn ==>
              found.Some? && found.value.password == password
              && session == Some(PublicPart(found.value)) && savedUser == session)
    {
      isLoading := true;
      if email == [] || password == [] {
        outcome := LoginMissingFields;
      } else {
        var found := FindByEmail(users, email);
        if found.None? {
          outcome := UserNotFound;
        } else if found.value.password != password {
          outcome := WrongPassword;
        } else {
          session := Some(PublicPart(found.value));
          savedUser := session;
          outcome := LoggedIn;
        }
      }
      isLoading := false;
    }

    /**
     * `handleSignUp`, with the duplicate test corrected to look up the email
     * in the form it is stored in (see `RegisteredChecked`).
     */
    method SignUp(name: string, email: string, password: string, now: nat) returns (outcome: SignUpOutcome)
      modifies this
      ensures !isLoading
      ensures outcome == SignUpMissingFields <==> name == [] || email == [] || password == []
      ensures outcome == EmailTaken <==>
        name != [] && email != [] && password != [] && FindByEmail(old(users), Trim(ToLower(email))).Some?
      ensures outcome == SignedUp <==> RegisteredChecked(old(users), now, name, email, password).Some?
      ensures outcome != SignedUp ==>
        users == old(users) && session == old(session) && savedUser == old(savedUser)
      ensures outcome == SignedUp ==>
        && users == RegisteredChecked(old(users), now, name, email, password).value
        && session == Some(PublicPart(NewUser(now, name, email, password)))
        && savedUser == session
    {
      isLoading := true;
      if name == [] || email == [] || password == [] {
        outcome := SignUpMissingFields;
      } else if FindByEmail(users, Trim(ToLower(email))).Some? {
        outcome := EmailTaken;
      } else {
        var user := NewUser(now, name, email, password);
        users := users + [user];
        session := Some(PublicPart(user));
        savedUser := session;
        outcome := SignedUp;
      }
      isLoading := false;
    }

    /** `handleLogout` */
    method SignOut()
      modifies this
      ensures session.None? && savedUser.None?
      ensures users == old(users) && isLoading == old(isLoading)
    {
      session := None;
      savedUser := None;
    }
  }

  /**
   * With the corrected check, a user who has just signed up is the one found
   * when signing in with the email as stored.
   */
  lemma RegisteredCheckedThenFound(users: seq<StoredUser>, now: nat, name: string, email: string, password: string)
    requires RegisteredChecked(users, now, name, email, password).Some?
    ensures var after := RegisteredChecked(users, now, name, email, password).value;
      FindByEmail(after, Trim(ToLower(email))) == Some(NewUser(now, name, email, password))
  {
    var after := RegisteredChecked(users, now, name, email, password).value;
    var u := NewUser(now, name, email, password);
    var e := Trim(ToLower(email));
    assert after[|users|] == u && u.email == e;
    forall k | 0 <= k < |users|
      ensures !SameEmail(after[k].email, e)
    {
      assert after[k] == users[k];
    }
    assert FindIndex(after, e) == Some(|users|);
  }
}
