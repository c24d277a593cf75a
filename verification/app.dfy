/**
 * The application entry point: which root screen is shown, and the seeding
 * of the three initial accounts into an empty store.
 */
module App {
  import opened Wrappers
  import opened Records

  datatype Screen = MainTabs | WelcomeScreen

  /** The window shows the tab container when logged in and the login screen otherwise. */
  function RootScreen(isLoggedIn: bool): (s: Screen)
    ensures s == MainTabs <==> isLoggedIn
    ensures s == WelcomeScreen <==> !isLoggedIn
  {
    if isLoggedIn then MainTabs else WelcomeScreen
  }

  const MANAGER_ACCOUNT := User(Some("manager"), Some("manager123"), Some("Manager"))
  const STAFF_ACCOUNT := User(Some("staff"), Some("staff123"), Some("Staff"))
  const CASHIER_ACCOUNT := User(Some("cashier"), Some("cashier123"), Some("Cashier"))

  /** The three initial accounts, one per role, under the ids base, base + 1 and base + 2. */
  function InitialAccounts(base: ObjectId): map<ObjectId, User> {
    map[base := MANAGER_ACCOUNT, base + 1 := STAFF_ACCOUNT, base + 2 := CASHIER_ACCOUNT]
  }

  /** The users after seeding when the next object ids start at `base`: only an empty store is seeded. */
  function Seeded(users: map<ObjectId, User>, base: ObjectId): (r: map<ObjectId, User>)
    ensures |users| != 0 ==> r == users
  {
    if |users| == 0 then InitialAccounts(base) else users
  }

  /** Seeding an empty store stores exactly the three initial accounts. */
  lemma SeededAccounts(base: ObjectId)
    ensures Seeded(map[], base).Values == {MANAGER_ACCOUNT, STAFF_ACCOUNT, CASHIER_ACCOUNT}
    ensures |Seeded(map[], base)| == 3
  {
    var r := InitialAccounts(base);
    assert r.Keys == {base, base + 1, base + 2};
    assert r[base] == MANAGER_ACCOUNT && r[base + 1] == STAFF_ACCOUNT && r[base + 2] == CASHIER_ACCOUNT;
  }

  /** The seeded accounts satisfy every store invariant about users. */
  lemma InitialAccountsValid(base: ObjectId)
    ensures ValidUsers(InitialAccounts(base), base + 3)
  {
    var r := InitialAccounts(base);
    assert r.Keys == {base, base + 1, base + 2};
    assert "Manager" in ROLES && "Staff" in ROLES && "Cashier" in ROLES;
    assert "manager" != "staff" && "manager" != "cashier" && "staff" != "cashier" by {
      assert "manager"[0] != "staff"[0] && "manager"[0] != "cashier"[0] && "staff"[0] != "cashier"[0];
    }
  }

  /** Seeding twice is seeding once, whatever ids the second run would use. */
  lemma {:induction false} SeedingIdempotent(users: map<ObjectId, User>, base: ObjectId, base': ObjectId)
    ensures Seeded(Seeded(users, base), base') == Seeded(users, base)
  {
    if |users| == 0 {
      assert base in InitialAccounts(base);
    }
  }

  /** `insertInitialUsersIfNeeded`: count the users; if there are none, insert the three accounts. */
  method InsertInitialUsersIfNeeded(store: Store)
    requires store.Valid()
    modifies store
    ensures store.Valid()
    ensures store.users == Seeded(old(store.users), old(store.nextId))
    ensures store.products == old(store.products) && store.sales == old(store.sales)
    ensures store.nextId == old(store.nextId) + (if |old(store.users)| == 0 then 3 else 0)
    ensures |store.users| > 0
  {
    var count := |store.users|;
    if count == 0 {
      var manager := store.NewObjectId();
      var staff := store.NewObjectId();
      var cashier := store.NewObjectId();
      assert staff == manager + 1 && cashier == manager + 2;
      InitialAccountsValid(manager);
      store.users := InitialAccounts(manager);
    }
  }
}
