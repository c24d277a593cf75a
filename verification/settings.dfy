/** The settings screen's account section and the logout action. */
module Settings {
  import opened Wrappers
  import opened Session
  import App

  datatype AccountItem = LoggedInAs | RoleRow | UserManagementLink | LogOutButton | PleaseLogIn

  /**
   * The rows of the Account section, top to bottom: account details, the
   * User Management link for a manager, and the logout button while logged
   * in; a hint to log in otherwise.
   */
  function AccountSection(isLoggedIn: bool, role: string): (items: seq<AccountItem>)
    ensures UserManagementLink in items <==> isLoggedIn && role == "Manager"
    ensures LogOutButton in items <==> isLoggedIn
    ensures LoggedInAs in items <==> isLoggedIn
    ensures !isLoggedIn ==> items == [PleaseLogIn]
  {
    if isLoggedIn then
      [LoggedInAs, RoleRow] + (if role == "Manager" then [UserManagementLink] else []) + [LogOutButton]
    else [PleaseLogIn]
  }

  /** The Log Out button: leave the session and forget the stored role. */
  method Logout(session: Session)
    modifies session
    ensures !session.isLoggedIn && session.username == "" && session.role == None
    ensures App.RootScreen(session.isLoggedIn) == App.WelcomeScreen
    ensures session.RoleText() == ""
  {
    session.isLoggedIn := false;
    session.username := "";
    session.role := None;
  }
}
