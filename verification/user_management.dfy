/**
 * User administration: the add/edit sheet's ordered validation and its
 * insert or update, and deleting a user. Every change keeps usernames unique.
 */
module UserManagement {
  import opened Wrappers
  import opened Text
  import opened Records

  const USERNAME_EMPTY := "Username cannot be empty."
  const PASSWORD_EMPTY := "Password cannot be empty."
  const USERNAME_TAKEN := "Username already exists."

  /** Another stored user than the one being edited already has this username. */
  predicate IsDuplicate(users: map<ObjectId, User>, editing: Option<ObjectId>, name: string) {
    exists id :: id in users && users[id].username == Some(name) && Some(id) != editing
  }

  /** The outcome of the checks in `saveUser`: the username to store, or the message to show. */
  datatype Verdict = Accept(username: string) | Reject(message: string)

  /**
   * The checks of `saveUser`, in order: a blank username, then an empty
   * password, then a username taken by another user; the first that fails
   * decides the message.
   */
  function CheckUser(users: map<ObjectId, User>, editing: Option<ObjectId>, username: string, password: string): Verdict
  {
    var trimmed := Trim(username);
    if trimmed == [] then Reject(USERNAME_EMPTY)
    else if password == [] then Reject(PASSWORD_EMPTY)
    else if IsDuplicate(users, editing, trimmed) then Reject(USERNAME_TAKEN)
    else Accept(trimmed)
  }

  /**
   * Which check rejects a save, each exactly when the earlier ones pass; a
   * save is accepted exactly when all three pass, and then stores the
   * trimmed username.
   */
  lemma CheckUserOutcomes(users: map<ObjectId, User>, editing: Option<ObjectId>, username: string, password: string)
    ensures var v := CheckUser(users, editing, username, password);
      && (v == Reject(USERNAME_EMPTY) <==> Trim(username) == [])
      && (v == Reject(PASSWORD_EMPTY) <==> Trim(username) != [] && password == [])
      && (v == Reject(USERNAME_TAKEN) <==> Trim(username) != [] && password != [] && IsDuplicate(users, editing, Trim(username)))
      && (v.Accept? <==> Trim(username) != [] && password != [] && !IsDuplicate(users, editing, Trim(username)))
      && (v.Accept? ==> v.username == Trim(username))
  {
  }

  /**
   * Writing a user under an id below `nextId`, when no user under another id
   * has its username, keeps usernames unique.
   */
  lemma PutKeepsUsersValid(users: map<ObjectId, User>, nextId: ObjectId, id: ObjectId, u: User)
    requires ValidUsers(users, nextId)
    requires u.role.Some? ==> u.role.value in ROLES
    requires id < nextId
    requires forall other :: other in users && other != id ==> users[other].username != u.username
    ensures ValidUsers(users[id := u], nextId)
  {
    var users' := users[id := u];
    forall a, b | a in users' && b in users' && a != b && users'[a].username.Some?
      ensures users'[a].username != users'[b].username
    {
      if a != id && b != id {
        assert users'[a] == users[a] && users'[b] == users[b];
      }
    }
  }

  /** Deleting users never breaks username uniqueness. */
  lemma DeleteKeepsUsersValid(users: map<ObjectId, User>, nextId: ObjectId, id: ObjectId)
    requires ValidUsers(users, nextId)
    ensures ValidUsers(users - {id}, nextId)
  {
  }

  /** The user a save writes: the edited one, or a new one under the id `newId`. */
  function TargetId(editing: Option<ObjectId>, newId: ObjectId): ObjectId {
    if editing.Some? then editing.value else newId
  }

  /**
   * The users after `saveUser`, `newId` being the id a new user would get:
   * unchanged when a check fails, otherwise the trimmed username, the
   * password as typed and the role written into one user.
   */
  function SavedUsers(users: map<ObjectId, User>, editing: Option<ObjectId>, newId: ObjectId,
                      username: string, password: string, role: string): map<ObjectId, User>
  {
    match CheckUser(users, editing, username, password)
    case Reject(_) => users
    case Accept(name) => users[TargetId(editing, newId) := User(Some(name), Some(password), Some(role))]
  }

  /** The add/edit user sheet. */
  class AddOrEditUserView {
    const userToEdit: Option<ObjectId>
    var username: string
    var password: string
    var role: string
    var errorMessage: Option<string>
    var showError: bool
    var isPresented: bool

    /** The role picker only offers the three roles. */
    ghost predicate Valid()
      reads this
    {
      role in ROLES
    }

    /** The sheet as it appears: empty with role Staff for a new user, the user's fields when editing. */
    constructor (store: Store, userToEdit: Option<ObjectId>)
      requires store.Valid()
      requires userToEdit.Some? ==> userToEdit.value in store.users
      ensures Valid() && this.userToEdit == userToEdit
      ensures isPresented && errorMessage == None && !showError
      ensures userToEdit.None? ==> username == "" && password == "" && role == "Staff"
      ensures userToEdit.Some? ==>
        var u := store.users[userToEdit.value];
        username == u.username.GetOr("") && password == u.password.GetOr("") && role == u.role.GetOr("Staff")
    {
      this.userToEdit := userToEdit;
      isPresented, errorMessage, showError := true, None, false;
      if userToEdit.Some? {
        var u := store.users[userToEdit.value];
        username, password, role := u.username.GetOr(""), u.password.GetOr(""), u.role.GetOr("Staff");
      } else {
        username, password, role := "", "", "Staff";
      }
    }

    /** The Save button is disabled while either field is empty. */
    predicate SaveEnabled()
      reads this
    {
      !(username == [] || password == [])
    }

    /** Picking a role in the picker. */
    method SelectRole(r: string)
      requires r in ROLES
      modifies this`role
      ensures Valid() && role == r
    {
      role := r;
    }

    /**
     * `saveUser()`. A rejected save changes no record and shows its message.
     * An accepted one writes the trimmed username, the password as typed and
     * the role, into the edited user or into one new user. `saveError` is the
     * error the context's save throws, if any; the written values stay in
     * the context either way.
     */
    method SaveUser(store: Store, saveError: Option<string>)
      requires Valid() && store.Valid()
      requires userToEdit.Some? ==> userToEdit.value in store.users
      modifies this`errorMessage, this`showError, this`isPresented, store
      ensures store.Valid()
      ensures store.products == old(store.products) && store.sales == old(store.sales)
      ensures store.users == SavedUsers(old(store.users), userToEdit, old(store.nextId), username, password, role)
      ensures var v := CheckUser(old(store.users), userToEdit, username, password);
        && (v.Reject? ==>
              store.nextId == old(store.nextId) && errorMessage == Some(v.message) && showError && isPresented == old(isPresented))
        && (v.Accept? ==> store.nextId == old(store.nextId) + (if userToEdit.None? then 1 else 0))
        && (v.Accept? && saveError.None? ==>
              !isPresented && errorMessage == old(errorMessage) && showError == old(showError))
        && (v.Accept? && saveError.Some? ==>
              errorMessage == Some("Failed to save user: " + saveError.value) && showError && isPresented == old(isPresented))
    {
      var users := store.users;
      var verdict := CheckUser(users, userToEdit, username, password);
      match verdict {
        case Reject(message) =>
          errorMessage := Some(message);
          showError := true;
        case Accept(name) =>
          var id: ObjectId;
          if userToEdit.Some? {
            id := userToEdit.value;
          } else {
            id := store.NewObjectId();
          }
          var user := User(Some(name), Some(password), Some(role));
          assert id == TargetId(userToEdit, old(store.nextId));
          assert SavedUsers(users, userToEdit, old(store.nextId), username, password, role) == users[id := user];
          assert forall other :: other in users && other != id ==> Some(other) != userToEdit;
          PutKeepsUsersValid(users, store.nextId, id, user);
          store.users := users[id := user];
          if saveError.None? {
            isPresented := false;
          } else {
            errorMessage := Some("Failed to save user: " + saveError.value);
            showError := true;
          }
      }
    }
  }

  /**
   * The Save button against the checks behind it. With the button disabled
   * the first two checks would reject anyway. With it enabled the password
   * is never the reason, and a save is rejected exactly for a blank trimmed
   * username or one another user has.
   */
  lemma SaveButtonAndChecks(view: AddOrEditUserView, users: map<ObjectId, User>)
    ensures var v := CheckUser(users, view.userToEdit, view.username, view.password);
      && (!view.SaveEnabled() ==> v == Reject(USERNAME_EMPTY) || v == Reject(PASSWORD_EMPTY))
      && (view.SaveEnabled() ==> v != Reject(PASSWORD_EMPTY))
      && (view.SaveEnabled() ==>
            (v.Reject? <==> Trim(view.username) == [] || IsDuplicate(users, view.userToEdit, Trim(view.username))))
  {
    CheckUserOutcomes(users, view.userToEdit, view.username, view.password);
    if view.username == [] {
      TrimEmptyIffAllWhitespace(view.username);
    }
  }

  /** A username of one blank enables Save, and the save is still rejected as empty. */
  lemma BlankUsernameEnablesSave(view: AddOrEditUserView, users: map<ObjectId, User>)
    requires view.username == " " && view.password != []
    ensures view.SaveEnabled()
    ensures CheckUser(users, view.userToEdit, view.username, view.password) == Reject(USERNAME_EMPTY)
  {
    TrimEmptyIffAllWhitespace(view.username);
  }

  /** The user list screen. */
  class UserManagementView {
    var errorMessage: Option<string>

    constructor ()
      ensures errorMessage == None
    {
      errorMessage := None;
    }

    /** `deleteUser(_:)`: removes exactly the given user; a failed save shows its error. */
    method DeleteUser(store: Store, user: ObjectId, saveError: Option<string>)
      requires store.Valid()
      modifies this, store
      ensures store.Valid()
      ensures store.users == old(store.users) - {user}
      ensures store.products == old(store.products) && store.sales == old(store.sales) && store.nextId == old(store.nextId)
      ensures saveError.Some? ==> errorMessage == Some("Failed to delete user: " + saveError.value)
      ensures saveError.None? ==> errorMessage == old(errorMessage)
    {
      DeleteKeepsUsersValid(store.users, store.nextId, user);
      store.users := store.users - {user};
      if saveError.Some? {
        errorMessage := Some("Failed to delete user: " + saveError.value);
      }
    }
  }
}
