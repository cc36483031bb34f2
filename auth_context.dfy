/** The simulated account store behind the auth context: the signed-in user, a loading flag,
    and two local-storage keys — `fittrackUser` for the session and `fittrackUsers` for the
    registered accounts. Login accepts any non-empty pair; registration rejects an email that
    is already registered. */
module AuthContext {
  import opened Common

  datatype User = User(email: string, name: Option<string>)

  /** The `fittrackUser` key: missing (or empty), text `JSON.parse` rejects, or a stored user. */
  datatype StoredSession = NoSession | Unparsable | Session(user: User)

  /** The `fittrackUsers` key: missing (or empty), text that is not a JSON array, or a list. */
  datatype StoredUsers = Absent | Malformed | Users(users: seq<User>)

  /** `users.some(u => u.email === email)`. */
  function HasEmail(users: seq<User>, email: string): (r: bool)
    ensures r <==> exists i :: 0 <= i < |users| && users[i].email == email
  {
    if users == [] then false
    else users[0].email == email || HasEmail(users[1..], email)
  }

  /** No two accounts share an email. */
  predicate EmailsDistinct(users: seq<User>) {
    forall i, j :: 0 <= i < j < |users| ==> users[i].email != users[j].email
  }

  /** The outcome of `register` on the stored accounts. */
  datatype RegisterResult = Rejected | Registered(users: seq<User>, newUser: User)

  /** `register`'s decision: empty fields, an unreadable list or a taken email reject; otherwise
      the new account is appended to the stored list (or to [] when none is stored). */
  function RegisterOutcome(stored: StoredUsers, email: string, password: string, name: string): (r: RegisterResult)
    ensures (email == "" || password == "" || stored.Malformed?) ==> r.Rejected?
    ensures stored.Users? && HasEmail(stored.users, email) ==> r.Rejected?
    ensures r.Registered? ==> r.newUser == User(email, Some(name))
    ensures r.Registered? && stored.Absent? ==> r.users == [r.newUser]
    ensures r.Registered? && stored.Users? ==> r.users == stored.users + [r.newUser]
    ensures r.Registered? <==> email != "" && password != "" && !stored.Malformed?
                               && !(stored.Users? && HasEmail(stored.users, email))
  {
    if email == "" || password == "" then Rejected
    else if stored.Malformed? then Rejected
    else
      var users := if stored.Users? then stored.users else [];
      if HasEmail(users, email) then Rejected
      else Registered(users + [User(email, Some(name))], User(email, Some(name)))
  }

  /** Appending an account whose email is not taken keeps the emails distinct. */
  lemma AppendFreshKeepsDistinct(users: seq<User>, u: User)
    requires EmailsDistinct(users)
    requires !HasEmail(users, u.email)
    ensures EmailsDistinct(users + [u])
  {
    var s := users + [u];
    forall i, j | 0 <= i < j < |s|
      ensures s[i].email != s[j].email
    {
      if j == |users| {
        assert s[i] == users[i];
      }
    }
  }

  /** If the stored emails are distinct before `register`, they are distinct afterwards. */
  lemma RegisterKeepsEmailsDistinct(stored: StoredUsers, email: string, password: string, name: string)
    requires stored.Users? ==> EmailsDistinct(stored.users)
    ensures RegisterOutcome(stored, email, password, name).Registered? ==>
              EmailsDistinct(RegisterOutcome(stored, email, password, name).users)
  {
    var r := RegisterOutcome(stored, email, password, name);
    if r.Registered? {
      var users := if stored.Users? then stored.users else [];
      AppendFreshKeepsDistinct(users, r.newUser);
    }
  }

  /** Registering the same email twice in a row: the second attempt is always rejected. */
  lemma SecondRegistrationRejected(stored: StoredUsers, email: string, p1: string, n1: string, p2: string, n2: string)
    requires RegisterOutcome(stored, email, p1, n1).Registered?
    ensures RegisterOutcome(Users(RegisterOutcome(stored, email, p1, n1).users), email, p2, n2).Rejected?
  {
    var users := RegisterOutcome(stored, email, p1, n1).users;
    assert users[|users| - 1].email == email;
  }

  class AuthProvider {
    var user: Option<User>
    var isLoading: bool
    var session: StoredSession
    var accounts: StoredUsers

    /** The provider's first render: no user yet, loading. */
    constructor (storedSession: StoredSession, storedAccounts: StoredUsers)
      ensures user.None? && isLoading && session == storedSession && accounts == storedAccounts
    {
      user := None;
      isLoading := true;
      session := storedSession;
      accounts := storedAccounts;
    }

    /** The mount effect: a readable stored session becomes the user; loading ends either way. */
    method RestoreSession()
      modifies this`user, this`isLoading
      ensures !isLoading
      ensures user == if old(session).Session? then Some(old(session).user) else old(user)
    {
      if session.Session? {
        user := Some(session.user);
      }
      isLoading := false;
    }

    /** `isAuthenticated`: `!!user`. */
    function IsAuthenticated(): (r: bool)
      reads this
      ensures r <==> user != None
    {
      user.Some?
    }

    /** `login`: any non-empty pair succeeds and signs in `{ email }`; no account is consulted. */
    method Login(email: string, password: string) returns (ok: bool)
      modifies this`user, this`isLoading, this`session
      ensures !isLoading && accounts == old(accounts)
      ensures ok <==> email != "" && password != ""
      ensures !ok ==> user == old(user) && session == old(session)
      ensures ok ==> user == Some(User(email, None)) && session == Session(User(email, None))
    {
      isLoading := true;
      if email == "" || password == "" {
        isLoading := false;
        return false;
      }
      var userData := User(email, None);
      user := Some(userData);
      session := Session(userData);
      ok := true;
      isLoading := false;
    }

    /** `register`: on success the account list gains exactly the new account, which becomes the
        signed-in user; a rejection (including the parse failure caught by `catch`) changes nothing. */
    method Register(email: string, password: string, name: string) returns (ok: bool)
      modifies this`user, this`isLoading, this`session, this`accounts
      ensures !isLoading
      ensures ok <==> RegisterOutcome(old(accounts), email, password, name).Registered?
      ensures !ok ==> user == old(user) && session == old(session) && accounts == old(accounts)
      ensures ok ==> var r := RegisterOutcome(old(accounts), email, password, name);
                     accounts == Users(r.users) && user == Some(r.newUser) && session == Session(r.newUser)
      ensures old(accounts).Users? && EmailsDistinct(old(accounts).users) && accounts.Users? ==>
                EmailsDistinct(accounts.users)
    {
      isLoading := true;
      if email == "" || password == "" {
        isLoading := false;
        return false;
      }
      if accounts.Malformed? {
        isLoading := false;
        return false;
      }
      var users := if accounts.Users? then accounts.users else [];
      var userExists := HasEmail(users, email);
      if userExists {
        isLoading := false;
        return false;
      }
      var newUser := User(email, Some(name));
      if EmailsDistinct(users) {
        AppendFreshKeepsDistinct(users, newUser);
      }
      users := users + [newUser];
      accounts := Users(users);
      user := Some(newUser);
      session := Session(newUser);
      ok := true;
      isLoading := false;
    }

    /** `logout`: no user and no stored session. */
    method Logout()
      modifies this`user, this`session
      ensures user.None? && session == NoSession
    {
      user := None;
      session := NoSession;
    }
  }
}
