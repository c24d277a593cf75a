# Restaurant inventory and sales tracker — a Dafny model

This project models the business rules of a small SwiftUI restaurant app
built on Core Data. The app keeps a product inventory with a low-stock
threshold per product, records sales that take stock off the shelf, and
manages user accounts with three roles (Manager, Staff, Cashier). A role
decides which tabs a user sees. It also raises low-stock notifications,
lists the sales history, and builds reports with CSV export.

The Core Data context is one `Store` object (`records.dfy`). It holds the
products and users as maps keyed by object id, the sale records as a
sequence, and the next object id to hand out. Its invariant `Valid()` says:

- every id is one already handed out;
- stock and thresholds fit in `Int32`;
- every stored role is one of the three roles;
- no two users share a username.

Each screen whose actions change state step by step is a class. Its fields
are the screen's `@State`, and its methods are the screen's actions. Each
action's `ensures` gives the whole new state, several of them through a
specification function (`SavedUsers`, `WithFallback`, `ParsedWithDefaults`,
`ScheduledFor`). The settings screen's Log Out is a module-level method that
changes the session object. The screens are:

- `SalesForm`, `InventoryView`, `ProductFormView` with `ProductFormData`;
- `ProductDetailView`, `AddProductView`;
- `AddOrEditUserView`, `UserManagementView`, `LoginForm`.

`NotificationManager` is a class whose pending notification requests are a
map from request identifier to alert.

The pure rules are functions, each with lemmas about it:

- the tab table;
- the search and time-window filters;
- the grouping of sales by day;
- totals and the daily average;
- the CSV lines.

Module map:

| file | models |
|---|---|
| `records.dfy` | the entities, the low-stock rule, the store |
| `integers.dfy` | Swift `Int(String)`, `Int32(String)` and `Int32.description` |
| `text.dfy` | trimming whitespace, case-insensitive search, character counts |
| `seqs.dfy` | order-preserving filtering and subsequences |
| `app.dfy` | the root screen and the seeding of the initial accounts |
| `session.dfy` | the login session kept in `UserDefaults` |
| `welcome.dfy` | login |
| `settings.dfy` | the account section and logout |
| `user_management.dfy` | adding, editing and deleting users |
| `main_tab.dfy` | the role-to-tabs table |
| `notifications.dfy` | low-stock notifications |
| `inventory.dfy` | the inventory list, its search, deletion and labels |
| `product_form.dfy` | the add/edit product form |
| `product_detail.dfy` | the product detail editor |
| `add_product.dfy` | the older add-product sheet |
| `sales.dfy` | the New Sale screen |
| `sales_history.dfy` | the sales history |
| `reports.dfy` | the reports and the CSV exports |

## Model

| member | source | states |
|---|---|---|
| App.RootScreen | 693_small_restaurantApp.swift:13-21 | The tab container is shown exactly when logged in, and the login screen exactly when not. |
| App.Seeded | 693_small_restaurantApp.swift:60-61 | A store that already has users is left as it is. |
| App.SeededAccounts | 693_small_restaurantApp.swift:62-75 | Seeding an empty store gives exactly three users: the manager, staff and cashier accounts with their passwords and roles. |
| App.InitialAccountsValid | 693_small_restaurantApp.swift:62-75 | The three seeded usernames are distinct and their roles are valid, so the user invariant holds from the start. |
| App.SeedingIdempotent | 693_small_restaurantApp.swift:60-61 | Seeding a second time inserts nothing. |
| App.InsertInitialUsersIfNeeded | 693_small_restaurantApp.swift:56-82 | An empty user store receives the three accounts under fresh ids, and a non-empty one is unchanged. Products and sales are unchanged, exactly three object ids are used up when seeding and none otherwise, the store stays valid, and at least one user exists afterwards. |
| Session.Session.constructor | 693_small_restaurantApp.swift:8 | A first launch has nobody logged in and no stored username or role. |
| Welcome.AuthenticatedRoleUnique | Views/WelcomeView.swift:90-97 | With unique usernames, a matching username and password determine the role the session receives. |
| Welcome.LoginForm.constructor | Views/WelcomeView.swift:6-11 | The form starts with empty fields, no error and no login under way. |
| Welcome.LoginForm.LoginEnabled | Views/WelcomeView.swift:72 | The Log In button's gate; its meaning is stated by the two lemmas below. |
| Welcome.DisabledLoginWouldFail | Views/WelcomeView.swift:72 | While every stored credential is non-empty, a login the button blocks for an empty field could not have succeeded. |
| Welcome.EmptyPasswordWouldLogIn | Views/WelcomeView.swift:72 | For a stored account with an empty password, the button is what keeps it out: the login would succeed. |
| Welcome.SeededCredentialsFilled | 693_small_restaurantApp.swift:62-75 | Seeding keeps every stored username and password non-empty. |
| Welcome.SavedCredentialsFilled | Views/UserManagementView.swift:147-177 | Saving from the user sheet keeps every stored username and password non-empty. |
| Welcome.LoginForm.Login | Views/WelcomeView.swift:86-114 | A login succeeds exactly when a stored user has exactly these credentials and a role. The session then logs in with the typed username and that user's role. Otherwise the session is unchanged and "Invalid username or password." is shown. A fetch error shows "Login failed: " with its text. The form is never loading on return. |
| Settings.AccountSection | Views/SettingsView.swift:16-46 | The User Management link is listed exactly for a logged-in manager. The details and Log Out are listed exactly while logged in, and only the log-in hint otherwise. |
| Settings.Logout | Views/SettingsView.swift:36-40 | The session is logged out, with an empty username and no stored role. The root screen becomes the login screen, and the role read back is "". |
| UserManagement.CheckUser | Views/UserManagementView.swift:147-167 | The save checks in order; their outcomes are stated by `CheckUserOutcomes`. |
| UserManagement.SavedUsers | Views/UserManagementView.swift:147-177 | The users after a save; `SaveUser` is proved against it. |
| UserManagement.CheckUserOutcomes | Views/UserManagementView.swift:147-167 | Each rejection message is given exactly when its check fails and the earlier checks pass: blank trimmed username, then empty password, then a username taken by another user. A save is accepted exactly when all pass, and then keeps the trimmed username. |
| UserManagement.PutKeepsUsersValid | Views/UserManagementView.swift:161-177 | Writing a user whose username no other user has keeps usernames unique and roles valid. |
| UserManagement.DeleteKeepsUsersValid | Views/UserManagementView.swift:80-82 | Deleting a user keeps the user invariant. |
| UserManagement.AddOrEditUserView.constructor | Views/UserManagementView.swift:98-143 | A new-user sheet starts empty with role "Staff". An edit sheet starts from the user's username, password and role, and "Staff" when the role is missing. |
| UserManagement.AddOrEditUserView.SaveEnabled | Views/UserManagementView.swift:134 | The Save button's gate; its meaning is stated by the two lemmas below. |
| UserManagement.SaveButtonAndChecks | Views/UserManagementView.swift:134-167 | A disabled Save means the first two checks would reject anyway. With Save enabled, "Password cannot be empty." never shows, and a save is rejected exactly for a blank trimmed username or a taken one. |
| UserManagement.BlankUsernameEnablesSave | Views/UserManagementView.swift:134-152 | A username of one space enables Save, and the save is rejected as an empty username. |
| UserManagement.AddOrEditUserView.SelectRole | Views/UserManagementView.swift:104-117 | The picker only ever sets one of the three roles. |
| UserManagement.AddOrEditUserView.SaveUser | Views/UserManagementView.swift:147-187 | A rejected save changes no record and shows the check's message. An accepted save writes the trimmed username, the typed password and the role. It writes them into the edited user, or into exactly one new user under a fresh id. Usernames stay unique. A new user uses up one object id; an edit uses none. A save error shows "Failed to save user: " and keeps the sheet open; otherwise the sheet closes and the error state is untouched. |
| UserManagement.UserManagementView.DeleteUser | Views/UserManagementView.swift:80-89 | Exactly the given user is removed and nothing else in the store changes. A save error shows "Failed to delete user: "; otherwise the message is untouched. |
| MainTab.VisibleTabs | Views/MainTabView.swift:8-47 | A tab is shown exactly when the role passes that screen's own gate: Inventory for Manager or Staff; New Sale and History by the Sales and History screens' checks; Reports by the Reports screen's check. Settings is always shown, and always last. |
| MainTab.VisibleTabsKeepOrder | Views/MainTabView.swift:8-47 | The shown tabs are the fixed order Inventory, New Sale, History, Reports, Settings, with the hidden ones removed. |
| MainTab.ManagerSeesEveryTab | Views/MainTabView.swift:9-46 | A manager sees all five tabs. |
| MainTab.StaffTabs | Views/MainTabView.swift:9-16 | Staff see Inventory and Settings, and may not manage products. |
| MainTab.CashierTabs | Views/MainTabView.swift:17-46 | Cashiers see New Sale, History and Settings. |
| MainTab.UnknownRoleSeesSettingsOnly | Views/MainTabView.swift:5 | Any other role, including the "" of a missing role, sees Settings alone. |
| Notifications.AlertIdentifier | Managers/NotificationManager.swift:41 | The request identifier is "low-stock-" followed by the product's id. |
| Notifications.AlertIdentifierInjective | Managers/NotificationManager.swift:41-44 | Different products never share an identifier, so each product has at most one pending alert. |
| Notifications.LowStockAlert | Managers/NotificationManager.swift:35-37 | The title is "Low Stock Alert", and the body starts with the product's name, or "Product" without one. |
| Notifications.AlertBodyShowsQuantity | Managers/NotificationManager.swift:37 | The number in the alert body reads back as the product's current stock. |
| Notifications.ScheduledExactlyLowStock | Managers/NotificationManager.swift:57-63 | After the check, a listed product has a pending alert for its current state exactly when its stock is at or below its threshold. A product above it keeps whatever was pending for it. |
| Notifications.ScheduledOnlyLowStock | Managers/NotificationManager.swift:57-63 | The check adds no request other than alerts for listed low-stock products. |
| Notifications.NotificationManager.constructor | Managers/NotificationManager.swift:7-11 | The manager starts with the authorisation the settings report and no pending alerts. |
| Notifications.NotificationManager.ScheduleLowStockNotification | Managers/NotificationManager.swift:32-55 | Without authorisation nothing changes. Otherwise the product's pending alert is replaced by the current one, and no other request changes. |
| Notifications.NotificationManager.CheckLowStockProducts | Managers/NotificationManager.swift:57-63 | The pending requests become those of scheduling, in order, each listed product that is low on stock. Without authorisation nothing changes. |
| Inventory.FilteredProducts | Views/InventoryView.swift:15-22 | Empty search text lists everything in order. Otherwise a product is listed exactly when it has a name containing the text, ignoring case, and the listing order is kept. |
| Inventory.SearchFindsVerbatimNames | Views/InventoryView.swift:19-21 | A name holding the text verbatim is always found. A product without a name is never found by non-empty text. |
| Inventory.ShowsLowStockLabel | Views/InventoryView.swift:95 | The row's "Low Stock" label is shown exactly for low stock. |
| Inventory.CanManageProducts | Views/InventoryView.swift:31-36 | Adding and swipe-deleting are offered to managers only. |
| Inventory.InventoryView.constructor | Views/InventoryView.swift:11-13 | The screen starts with empty search text and the session's role. |
| Inventory.InventoryView.DeleteProducts | Views/InventoryView.swift:62-73 | Exactly the products at the swiped offsets of the filtered list are deleted, and the store stays valid. |
| Inventory.InventoryView.CheckLowStock | Views/InventoryView.swift:58-60 | The notification check runs over the whole fetched listing. |
| ProductForm.ParsedWithDefaults | Views/ProductFormView.swift:96-100 | The name is kept as typed. A quantity that does not parse becomes 0, prices become 0.0 and a threshold becomes 10. Parsed values are kept, and stock and threshold are always `Int32`. |
| ProductForm.InitialFields | Views/ProductFormView.swift:140-146 | Without a product: an empty name and quantity, prices formatted from 0 and threshold "10". Otherwise the product's name, or "", and its formatted prices. |
| ProductForm.ValidFieldsNeedNotParse | Views/ProductFormView.swift:148-154 | The Save gate checks only emptiness: a quantity that is not a number enables Save and saves as 0. |
| ProductForm.UneditedFormKeepsCounts | Views/ProductFormView.swift:97-145 | Saving a form opened on a product without edits keeps its stock and threshold. |
| ProductForm.NewFormStartsInvalid | Views/ProductFormView.swift:140-154 | A form for a new product cannot be saved before typing. |
| ProductForm.ProductFormData.constructor | Views/ProductFormView.swift:140-146 | The fields start as the form's initial fields, with no error. |
| ProductForm.ProductFormData.IsValid | Views/ProductFormView.swift:148-154 | Valid exactly when the trimmed name and all four number fields are non-empty. |
| ProductForm.ProductFormView.constructor | Views/ProductFormView.swift:11-15 | The form is editing exactly when opened on a product, and its fields come from that product. |
| ProductForm.ProductFormView.SaveProduct | Views/ProductFormView.swift:92-111 | The parsed fields become the whole edited product, or exactly one new product under a fresh id. Nothing else in the store changes. After a successful save, that product alone is checked for low stock, the form closes and its error state is untouched. A failed save shows "Failed to save product: " and schedules nothing. |
| ProductForm.ProductFormView.DeleteProduct | Views/ProductFormView.swift:113-127 | Nothing happens on a new-product form. Otherwise exactly the edited product is deleted. Then the form closes with its error state untouched, or it stays open and shows "Failed to delete product: ". |
| ProductDetail.WithFallback | Views/ProductDetailView.swift:74-78 | The name is always overwritten. Each number takes its parsed value, or keeps the previous value when the text does not parse. |
| ProductDetail.InitialBuffers | Views/ProductDetailView.swift:16-20 | The buffers start as the product's name, or "", and its prices as text. |
| ProductDetail.UntouchedBuffersKeepProduct | Views/ProductDetailView.swift:17-78 | Saving untouched buffers keeps stock and threshold. It keeps the whole product whenever the price text parses back to the price. |
| ProductDetail.UnparsableBuffersKeepNumbers | Views/ProductDetailView.swift:75-78 | When no number parses, only the name changes. |
| ProductDetail.ProductDetailView.constructor | Views/ProductDetailView.swift:14-21 | The view starts out of edit mode with the initial buffers. |
| ProductDetail.ProductDetailView.SaveChanges | Views/ProductDetailView.swift:72-87 | Only the shown product changes, to its value with fallbacks, and the store stays valid. |
| ProductDetail.ProductDetailView.ToggleEditing | Views/ProductDetailView.swift:62-66 | It saves only when leaving edit mode, and always flips the mode. |
| AddProduct.AddProductView.constructor | Views/AddProductView.swift:7-11 | The sheet starts with five empty fields. |
| AddProduct.AddProductView.SaveEnabled | Views/AddProductView.swift:34 | Save is enabled exactly when the name is not the empty string. |
| AddProduct.AddProductView.SaveProduct | Views/AddProductView.swift:39-56 | Exactly one new product appears under a fresh id, with the name as typed and the form's fallbacks. No existing product, user or sale changes. |
| AddProduct.BlankNameGatesDiffer | Views/AddProductView.swift:34 | A name of one space enables this sheet's Save but not the product form's. |
| Sales.SaleQuantity | Views/SalesView.swift:19 | The quantity text read as a 64-bit integer; empty text gives none. |
| Sales.TotalPrice | Views/SalesView.swift:17-21 | 0 without a product or a number, otherwise the selling price times the quantity. |
| Sales.IsValidSale | Views/SalesView.swift:147-152 | The Record Sale button's gate; stated by `IsValidSaleExactly`. |
| Sales.CanRecordSales | Views/SalesView.swift:25 | The New Sale screen's role gate: managers and cashiers. |
| Sales.IsValidSaleExactly | Views/SalesView.swift:147-152 | Record Sale is enabled exactly for a selected product and a quantity from 1 to its stock. It is disabled without a product or a number. |
| Sales.ValidSaleKeepsStockNonNegative | Views/SalesView.swift:154-167 | A sale the button allows never traps on `Int32`, and leaves stock between 0 and the old stock. |
| Sales.RecordSaleGuardWeakerThanButton | Views/SalesView.swift:155-156 | The action's own guard only needs the quantity to parse: "0" parses although the button is disabled for it. |
| Sales.SalesForm.constructor | Views/SalesView.swift:10-15 | The screen starts with nothing selected, an empty quantity and no alerts. |
| Sales.SalesForm.Selected | Views/SalesView.swift:10 | The selected product as now stored, if any. |
| Sales.SalesForm.SelectProduct | Views/SalesView.swift:88-89 | Picking a product selects it and closes the picker. |
| Sales.SalesForm.RecordSale | Views/SalesView.swift:154-176 | Without a product or a number nothing changes. Otherwise one sale record is appended, holding the date, the quantity, the shown total and the product. Exactly that product's stock goes down by the quantity. Then the confirmation is shown, or on a save error "Failed to record sale: " is shown and the confirmation flag is untouched. |
| Sales.SalesForm.ResetForm | Views/SalesView.swift:178-181 | No product is selected and the quantity is empty, so the total is 0 and the sale is invalid. |
| SalesHistory.Cutoff | Views/SalesHistoryView.swift:20-34 | Start of today, seven days back or one month back; no cutoff exactly for All Time. |
| SalesHistory.FilteredSales | Views/SalesHistoryView.swift:37-47 | A sale is listed exactly when it matches both the search and the time frame, and the order is kept. |
| SalesHistory.TotalSales | Views/SalesHistoryView.swift:49-51 | The total of the listed sales; stated by `AllTimeListsEverything` and `FilterSplitsTotal`. |
| SalesHistory.AllTimeListsEverything | Views/SalesHistoryView.swift:31-51 | With no search and All Time, every sale is listed and the total is that of all sales. |
| SalesHistory.UnnamedSalesNeverMatch | Views/SalesHistoryView.swift:39-40 | A sale without a product name never matches non-empty text. |
| SalesHistory.FilterSplitsTotal | Views/SalesHistoryView.swift:49-51 | The totals of the kept and the dropped sales add up to the total of all sales. |
| SalesHistory.CanViewHistory | Views/SalesHistoryView.swift:54 | The history is shown to managers and cashiers only. |
| Reports.Cutoff | Views/ReportsView.swift:28-40 | Seven days, one month or one year back. |
| Reports.FilteredSales | Views/ReportsView.swift:48-52 | A sale is in the window exactly when its date, or now, is at or after the cutoff, and the order is kept. |
| Reports.AddToSum | Views/ReportsView.swift:60-61 | Adding a sale to the grouping grows the sum of the amounts by its total. |
| Reports.AddToDays | Views/ReportsView.swift:56-58 | Adding a sale to the grouping adds its day and no other. |
| Reports.AddToAscending | Views/ReportsView.swift:62 | Adding a sale to the grouping keeps the days strictly ascending. |
| Reports.DailySales | Views/ReportsView.swift:54-63 | The sales trend; stated by `DailySalesShape` and `DailyEntryIsDayTotal`. |
| Reports.DailySalesShape | Views/ReportsView.swift:54-63 | The trend has exactly one entry per day on which a sale falls, strictly ascending. Its amounts add up to the total of the sales. |
| Reports.AddToAmount | Views/ReportsView.swift:56-61 | Adding a sale to the grouping raises its own day's amount by its total and leaves every other day's amount alone. |
| Reports.DayAmountOfEntry | Views/ReportsView.swift:59-62 | In a strictly ascending trend, a day's amount is the amount of its one entry. |
| Reports.FilterSnoc | Views/ReportsView.swift:56-58 | Grouping a sale appended last puts it last in its day's group. |
| Reports.DailySalesAmounts | Views/ReportsView.swift:54-61 | The trend's amount for any day is the total of the sales whose start of day it is. |
| Reports.DailyEntryIsDayTotal | Views/ReportsView.swift:54-63 | Each entry of the trend carries exactly the total of the sales on its day. |
| Reports.TotalSales | Views/ReportsView.swift:65-67 | The total of the window's sales; stated by `DailyAmountsAddUpToTotal`. |
| Reports.DailyAmountsAddUpToTotal | Views/ReportsView.swift:54-67 | The daily amounts of the window add up to `totalSales`. |
| Reports.AverageDailySales | Views/ReportsView.swift:69-72 | 0 without days; otherwise the average times the number of days is the total. |
| Reports.NoDaysIffNoSales | Views/ReportsView.swift:54-72 | There are no days exactly when the window has no sales. |
| Reports.BarColourOf | Views/ReportsView.swift:168 | The bar is red exactly for low stock, blue otherwise. |
| Reports.LowStockCount | Views/ReportsView.swift:201 | The low-stock count is at most the number of products. |
| Reports.LowStockCountMatchesAlerts | Views/ReportsView.swift:201 | Over distinct products, the count is the number of products the notification check alerts on. |
| Reports.ScreenFor | Views/ReportsView.swift:75-235 | The reports are shown to managers only; every other role gets the no-permission message. |
| Reports.GenerateSalesDetailsCsv | Views/ReportsView.swift:259-269 | The header, then one line per sale of the report window (`filteredSales`), in order; sales before the cutoff are left out. |
| Reports.GenerateInventoryDetailsCsv | Views/ReportsView.swift:271-277 | The header, then one line per listed product, in order. |
| Reports.ExportCsv | Views/ReportsView.swift:241-249 | The selected chart decides both the file name and the content: the window's sales for the sales trend, the listed products for the inventory status. |
| Reports.SalesLineSeparators | Views/ReportsView.swift:266 | A sales line has 3 commas and 1 line break, plus those inside the date, name and price texts. |
| Reports.InventoryLineSeparators | Views/ReportsView.swift:274 | An inventory line has 4 commas and 1 line break, plus those inside the name and price texts. |
| Reports.CommaInNameAddsField | Views/ReportsView.swift:260-266 | A product name with one comma gives a sales line with four commas under a three-comma header. |
| Reports.SalesCsvLineCount | Views/ReportsView.swift:259-268 | With no line break inside any field, the sales rows hold one line break per sale. |
| Reports.InventoryCsvLineCount | Views/ReportsView.swift:271-276 | With no line break inside any field, the inventory rows hold one line break per product. |
| Integers.Int32TextRoundTrip | Views/ProductFormView.swift:142 | An `Int32` printed as text parses back to itself. |
| Integers.ParseInt32Or | Views/ProductFormView.swift:97 | The parsed `Int32` when the text parses, the fallback otherwise. |
| Records.IsLowStock | Managers/NotificationManager.swift:59 | Stock at or below the threshold; used by the alerts, the inventory label and the reports. |
| Records.TotalOf | Views/SalesHistoryView.swift:50 | The `reduce` of the sales' totals; stated by `TotalOfConcat`. |
| Records.TotalOfConcat | Views/ReportsView.swift:66 | The total of two runs of sales is the sum of their totals. |
| Text.TrimEmptyIffAllWhitespace | Views/UserManagementView.swift:148-149 | The trimmed text is empty exactly when every character is whitespace. |
| Text.TrimIdempotent | Views/UserManagementView.swift:148 | Trimming twice is trimming once. |
| Text.VerbatimMatchIsFound | Views/InventoryView.swift:20 | A verbatim occurrence is found by the case-insensitive search. |

## Left out

- Presentation: layout, sheets, alerts as views, animations, Charts marks and axes, the share sheet and file exporter.
- Core Data machinery: fetch requests and their sort orders are not modelled. Each view receives the fetched records, already in fetch order, as a listing of ids or a sequence of sales.
- A `viewContext.save()` that throws is an optional error text passed to the action. Changes made before the save stay in the store either way, as they do in an unsaved context. Saves whose failure ends in `fatalError` always succeed in the model.
- Deleting a product does not touch its sale records. A sale whose product is gone shows no name, as with a nullified relationship.
- Notifications: the authorisation request and the asynchronous settings query are not modelled. `isAuthorized` is a plain field, set when the manager is built. Delivery and the one-second trigger are not modelled. Only the map of pending requests is kept.
- The three-second timers that hide error messages are not modelled.
- Dates are integers. `Calendar` arithmetic and "start of day" are uninterpreted functions, and `Date()` is a `now` parameter.
- Prices are exact reals, not `Double`. Parsing a `Double` (`Double(text)`) is a parameter, and so is formatting one (`String(format: "%.2f")`, `String(Double)`, the short date style). Those texts are left uninterpreted.
- Reports.AverageDailySales: states the average through exact division, not `Double` rounding.
- The product id in a notification identifier is the object id's decimal text, not the URI of the Core Data object id. Only its injectivity matters here.
- `localizedCaseInsensitiveContains` is modelled as containment after folding ASCII letters to lower case. Other case mappings, diacritics and locale rules are not modelled.
- Trimming uses the Unicode whitespace and newline characters of a single code point. Grapheme clusters and normalisation are not modelled.
- Usernames and passwords are compared code point by code point (the login fetch and the duplicate-username check), not by Swift's canonical-equivalence `String ==`. Two spellings of the same accented name count as different usernames here.
- App.InsertInitialUsersIfNeeded: inserts the three accounts in one step. The fetch-count error path, which only prints, is not modelled.
- Welcome.LoginForm.Login: picks any user matching the credentials, not the first row of the fetch. With unique usernames there is at most one.
- Sales.SalesForm.RecordSale: requires that neither `Int32(quantity)` nor the stock subtraction overflows, because Swift traps there. The disabled button guarantees this for every valid sale (Sales.ValidSaleKeepsStockNonNegative). It also requires that a selected product is still stored. A manager can select a product on the New Sale tab and then delete it on the Inventory tab; what Core Data does when the action then touches the deleted object is not modelled.
- The dark-mode toggle, the "Enable Notifications" button and the version row of the settings screen are not modelled.
- CSV files are not written to the temporary directory. Only the file name and content are modelled.
- The sort of `dailySales` is modelled by inserting each day into an ascending list, not as a sort of a dictionary's entries. The result is the same list: one entry per day, ascending, each with that day's total (`DailySalesShape`, `DailyEntryIsDayTotal`).
