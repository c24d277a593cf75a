/** The login screen: the credential check against the stored users and the session it starts. */
module Welcome {
  import opened Wrappers
  import opened Records
  import opened Session
  import App
  import UserManagement

  const INVALID_CREDENTIALS := "Invalid username or password."

  /** The fetch predicate `username == %@ AND password == %@`: exact, case-sensitive equality. */
  predicate Matches(u: User, username: string, password: string) {
    u.username == Some(username) && u.password == Some(password)
  }

  /** Some stored user has exactly these credentials and the role `role`. */
  predicate AuthenticatesAs(users: map<ObjectId, User>, username: string, password: string, role: string) {
    exists id :: id in users && Matches(users[id], username, password) && users[id].role == Some(role)
  }

  /** The login succeeds: a stored user has exactly these credentials and a role. */
  predicate CanLogIn(users: map<ObjectId, User>, username: string, password: string) {
    exists id :: id in users && Matches(users[id], username, password) && users[id].role.Some?
  }

  /** With unique usernames a successful login determines the role. */
  lemma AuthenticatedRoleUnique(users: map<ObjectId, User>, username: string, password: string, r1: string, r2: string)
    requires UniqueUsernames(users)
    requires AuthenticatesAs(users, username, password, r1) && AuthenticatesAs(users, username, password, r2)
    ensures r1 == r2
  {
    var a :| a in users && Matches(users[a], username, password) && users[a].role == Some(r1);
    var b :| b in users && Matches(users[b], username, password) && users[b].role == Some(r2);
    assert a == b;
  }

  /** No stored user has an empty username or an empty password. */
  predicate CredentialsFilled(users: map<ObjectId, User>) {
    forall id :: id in users ==> users[id].username != Some("") && users[id].password != Some("")
  }

  /** The seeded accounts have non-empty credentials. */
  lemma SeededCredentialsFilled(users: map<ObjectId, User>, base: ObjectId)
    requires CredentialsFilled(users)
    ensures CredentialsFilled(App.Seeded(users, base))
  {
    if |users| == 0 {
      var r := App.InitialAccounts(base);
      assert r.Keys == {base, base + 1, base + 2};
      assert r[base] == App.MANAGER_ACCOUNT && r[base + 1] == App.STAFF_ACCOUNT && r[base + 2] == App.CASHIER_ACCOUNT;
    }
  }

  /** Saving from the user sheet never stores an empty username or password. */
  lemma SavedCredentialsFilled(users: map<ObjectId, User>, editing: Option<ObjectId>, newId: ObjectId,
                               username: string, password: string, role: string)
    requires CredentialsFilled(users)
    ensures CredentialsFilled(UserManagement.SavedUsers(users, editing, newId, username, password, role))
  {
    UserManagement.CheckUserOutcomes(users, editing, username, password);
  }

  /** The login form's state. */
  class LoginForm {
    var username: string
    var password: string
    var loginError: Option<string>
    var isLoading: bool
    var showError: bool

    constructor ()
      ensures username == "" && password == "" && loginError == None && !isLoading && !showError
    {
      username, password, loginError, isLoading, showError := "", "", None, false, false;
    }

    /** The Log In button is enabled only with both fields filled and no login under way. */
    predicate LoginEnabled()
      reads this
    {
      !(username == "" || password == "" || isLoading)
    }

    /**
     * `login()`. `fetchError` is the error the fetch request throws, if any.
     * Whatever happens, the form is no longer loading when it returns.
     */
    method Login(store: Store, session: Session, fetchError: Option<string>)
      requires store.Valid()
      modifies this`loginError, this`isLoading, this`showError, session
      ensures !isLoading
      ensures fetchError.Some? ==>
        && loginError == Some("Login failed: " + fetchError.value) && showError
        && unchanged(session)
      ensures fetchError.None? && CanLogIn(store.users, username, password) ==>
        && session.isLoggedIn && session.username == username
        && session.role.Some? && AuthenticatesAs(store.users, username, password, session.role.value)
        && loginError == None && !showError
      ensures fetchError.None? && !CanLogIn(store.users, username, password) ==>
        && loginError == Some(INVALID_CREDENTIALS) && showError
        && unchanged(session)
    {
      isLoading := true;
      loginError := None;
      showError := false;
      if fetchError.Some? {
        loginError := Some("Login failed: " + fetchError.value);
        showError := true;
      } else if exists id :: id in store.users && Matches(store.users[id], username, password) {
        var id :| id in store.users && Matches(store.users[id], username, password);
        if store.users[id].role.Some? {
          session.username := username;
          session.role := store.users[id].role;
          session.isLoggedIn := true;
        } else {
          assert !CanLogIn(store.users, username, password);
          loginError := Some(INVALID_CREDENTIALS);
          showError := true;
        }
      } else {
        loginError := Some(INVALID_CREDENTIALS);
        showError := true;
      }
      isLoading := false;
    }
  }

  /**
   * The Log In button is disabled for an empty field: while every stored
   * credential is non-empty, no login it blocks that way could succeed.
   */
  lemma DisabledLoginWouldFail(form: LoginForm, users: map<ObjectId, User>)
    requires CredentialsFilled(users)
    ensures !form.LoginEnabled() && !form.isLoading ==> !CanLogIn(users, form.username, form.password)
  {
  }

  /** With a stored empty password the gate is what keeps that account out: a login with it would succeed. */
  lemma EmptyPasswordWouldLogIn(form: LoginForm, users: map<ObjectId, User>, id: ObjectId)
    requires id in users && users[id] == User(Some(form.username), Some(""), Some("Staff"))
    requires form.password == ""
    ensures !form.LoginEnabled()
    ensures CanLogIn(users, form.username, form.password)
  {
  }
}
