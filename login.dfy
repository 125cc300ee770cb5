/** The login form: fetch every user, take the first whose email matches, compare
    the password in plain text, and write the session. As the page does it, the
    session is written on every path that gets the user list, including the
    not-found and wrong-password paths. */
module Login {
  import opened Records
  import opened DataStore
  import opened Sequences
  import opened Session

  const BothRequired := "Please enter both email and password"
  const UserNotFound := "User not found. Please check your email."
  const InvalidPassword := "Invalid password. Please try again."
  const LoginError := "An error occurred during login. Please try again."

  /** `users.find(e => e.email === email)`: the first user with that exact email. */
  function FindByEmail(users: seq<User>, email: string): (r: Option<User>)
    ensures r.None? <==> forall i :: 0 <= i < |users| ==> users[i].email != email
    ensures r.Some? ==> exists i :: 0 <= i < |users| && users[i] == r.value && r.value.email == email
                                    && forall j :: 0 <= j < i ==> users[j].email != email
  {
    var i := FirstWhere(users, (u: User) => u.email == email);
    if i < |users| then Some(users[i]) else None
  }

  /** The object stored under "user": the six form fields of the matched user and no
      id; every field is absent when nobody matched. */
  function ProfileOf(found: Option<User>): (r: Profile)
    ensures r.id.None?
    ensures found.None? ==> r == Profile(None, None, None, None, None, None, None)
    ensures found.Some? ==>
              && r.userName == Some(found.value.userName)
              && r.password == Some(found.value.password)
              && r.confirmPassword == Some(found.value.confirmPassword)
              && r.phoneNumber == Some(found.value.phoneNumber)
              && r.email == Some(found.value.email)
              && r.continent == Some(found.value.continent)
  {
    match found
    case None => Profile(None, None, None, None, None, None, None)
    case Some(u) =>
      Profile(None, Some(u.userName), Some(u.password), Some(u.confirmPassword),
              Some(u.phoneNumber), Some(u.email), Some(u.continent))
  }

  /** How a submission ended, for the contracts below. */
  datatype Outcome = FetchFailed | NoSuchUser | WrongPassword | SignedIn

  /** The message set before the request: a prompt when a field is empty, else none. */
  function FirstMessage(email: string, password: string): string
  {
    if email == "" || password == "" then BothRequired else ""
  }

  /** Every message a submission hands to `setErr`, in order. Nobody matching gives
      both the not-found and the wrong-password message. */
  function Messages(outcome: Outcome, email: string, password: string): (r: seq<string>)
    ensures |r| >= 1 && r[0] == FirstMessage(email, password)
    ensures outcome != FetchFailed && outcome != SignedIn ==> r[|r| - 1] == InvalidPassword
  {
    var first := FirstMessage(email, password);
    match outcome
    case FetchFailed => [first]
    case SignedIn => [first]
    case WrongPassword => [first, InvalidPassword]
    case NoSuchUser => [first, UserNotFound, InvalidPassword]
  }

  class LoginPage {
    const store: Store
    const session: SessionStore
    var email: string
    var password: string
    var err: string
    var errMsg: string
    var loading: bool
    /** Every message handed to `setErr`, in order; the page shows the last one. */
    ghost var errTrail: seq<string>

    constructor (store: Store, session: SessionStore)
      ensures this.store == store && this.session == session
      ensures email == "" && password == "" && err == "" && errMsg == "" && !loading && errTrail == []
    {
      this.store := store;
      this.session := session;
      email, password, err, errMsg, loading := "", "", "", "", false;
      errTrail := [];
    }

    /** `setFormData({...FormData, [name]: value})`; only the two inputs exist. */
    method HandleChange(name: string, value: string)
      modifies this`email, this`password
      ensures email == if name == "email" then value else old(email)
      ensures password == if name == "password" then value else old(password)
    {
      if name == "email" {
        email := value;
      } else if name == "password" {
        password := value;
      }
    }

    /** `handleSubmit`. The first message is set before the request; after the user
        list arrives, the not-found and password checks run one after the other. */
    method HandleSubmit() returns (outcome: Outcome)
      modifies this`err, this`errMsg, this`loading, this`errTrail, session
      ensures errTrail == old(errTrail) + Messages(outcome, email, password)
      ensures err == Messages(outcome, email, password)[|Messages(outcome, email, password)| - 1]
      ensures loading == (outcome == SignedIn && FirstMessage(email, password) == "")
      ensures outcome == FetchFailed ==> errMsg == LoginError && session.entries == old(session.entries)
      ensures outcome != FetchFailed ==>
                var found := FindByEmail(store.users, email);
                && errMsg == old(errMsg)
                && session.entries == old(session.entries)[UserKey := Json(ProfileOf(found))][AuthKey := Text("true")]
                && (outcome == NoSuchUser <==> found.None?)
                && (outcome == WrongPassword <==> found.Some? && found.value.password != password)
    {
      SetErr(FirstMessage(email, password));
      loading := FirstMessage(email, password) == "";
      var fetched := store.FetchUsers();
      if fetched.None? {
        errMsg := LoginError;
        loading := false;
        return FetchFailed;
      }
      outcome := Authenticate(fetched.value);
      ghost var messages := Messages(outcome, email, password);
      assert messages == [messages[0]] + messages[1..];
    }

    /** What `handleSubmit` does once the user list arrived: look the email up, run
        the two checks, and write the session whatever they found. */
    method Authenticate(users: seq<User>) returns (outcome: Outcome)
      modifies this`err, this`loading, this`errTrail, session
      ensures var found := FindByEmail(users, email);
              && outcome != FetchFailed
              && (outcome == NoSuchUser <==> found.None?)
              && (outcome == WrongPassword <==> found.Some? && found.value.password != password)
              && session.entries == old(session.entries)[UserKey := Json(ProfileOf(found))][AuthKey := Text("true")]
      ensures errTrail == old(errTrail) + Messages(outcome, email, password)[1..]
      ensures outcome == SignedIn ==> err == old(err) && loading == old(loading)
      ensures outcome != SignedIn ==> err == InvalidPassword && !loading
    {
      var found := FindByEmail(users, email);
      outcome := CheckCredentials(found);
      WriteSession(found);
    }

    /** The two `setItem` calls that end every submission which got the user list. */
    method WriteSession(found: Option<User>)
      modifies session
      ensures session.entries == old(session.entries)[UserKey := Json(ProfileOf(found))][AuthKey := Text("true")]
    {
      session.SetItem(UserKey, Json(ProfileOf(found)));
      session.SetItem(AuthKey, Text("true"));
    }

    /** The two checks of `handleSubmit` on the looked-up user, which run one after
        the other with no early return. */
    method CheckCredentials(found: Option<User>) returns (outcome: Outcome)
      modifies this`err, this`loading, this`errTrail
      ensures outcome != FetchFailed
      ensures outcome == NoSuchUser <==> found.None?
      ensures outcome == WrongPassword <==> found.Some? && found.value.password != password
      ensures errTrail == old(errTrail) + Messages(outcome, email, password)[1..]
      ensures outcome == SignedIn ==> err == old(err) && loading == old(loading)
      ensures outcome != SignedIn ==> err == InvalidPassword && !loading
    {
      match found {
        case None =>
          SetErr(UserNotFound);
          // `password !== validuser?.password` also holds when nobody matched
          SetErr(InvalidPassword);
          loading := false;
          outcome := NoSuchUser;
        case Some(user) =>
          if password != user.password {
            SetErr(InvalidPassword);
            loading := false;
            outcome := WrongPassword;
          } else {
            outcome := SignedIn;
          }
      }
    }

    method SetErr(message: string)
      modifies this`err, this`errTrail
      ensures err == message && errTrail == old(errTrail) + [message]
    {
      err := message;
      errTrail := errTrail + [message];
    }
  }

  /** Whatever the outcome, a submission that got the user list leaves a profile in the
      session, and that profile never has an id. */
  lemma SessionProfileHasNoId(users: seq<User>, email: string, entries: map<string, Stored>)
    ensures var after := entries[UserKey := Json(ProfileOf(FindByEmail(users, email)))][AuthKey := Text("true")];
            CurrentUser(after).Some? && CurrentUser(after).value.id.None?
            && AuthKey in after && after[AuthKey] == Text("true")
  {
  }
}
