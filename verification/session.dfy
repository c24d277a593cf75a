/**
 * The login session as the application keeps it in `UserDefaults`: the
 * `isLoggedIn` flag (`@AppStorage("isLoggedIn")`), the `username` key and the
 * `role` key, which every role-gated view reads with `?? ""`.
 */
module Session {
  import opened Wrappers

  class Session {
    var isLoggedIn: bool
    var username: string
    var role: Option<string>

    /** A first launch: nobody logged in, no keys stored. */
    constructor ()
      ensures !isLoggedIn && username == "" && role == None
    {
      isLoggedIn, username, role := false, "", None;
    }

    /** `UserDefaults.standard.string(forKey: "role") ?? ""`. */
    function RoleText(): (r: string)
      reads this
      ensures role.Some? ==> r == role.value
      ensures role.None? ==> r == ""
    {
      role.GetOr("")
    }
  }
}
