/**
 * The tab bar shown after login: which of the five tabs a role sees, in
 * their fixed order, with Settings always last.
 */
module MainTab {
  import opened Seqs
  import Sales
  import SalesHistory
  import Reports
  import Inventory

  datatype Tab = InventoryTab | NewSaleTab | HistoryTab | ReportsTab | SettingsTab

  /** The order in which the tab bar lists its tabs. */
  const ALL_TABS: seq<Tab> := [InventoryTab, NewSaleTab, HistoryTab, ReportsTab, SettingsTab]

  /**
   * Whether `role` sees `tab`: the inventory for managers and staff, the
   * sale and history tabs for whoever may use those screens, the reports
   * for whoever may view them, and Settings for everybody.
   */
  predicate Sees(role: string, tab: Tab) {
    match tab
    case InventoryTab => role == "Manager" || role == "Staff"
    case NewSaleTab => Sales.CanRecordSales(role)
    case HistoryTab => SalesHistory.CanViewHistory(role)
    case ReportsTab => Reports.ScreenFor(role) == Reports.ReportsShown
    case SettingsTab => true
  }

  function ShownTo(role: string): Tab -> bool {
    tab => Sees(role, tab)
  }

  /**
   * `MainTabView.body`: each role-gated tab in turn, then Settings; a tab
   * is there exactly when the role may see it, and Settings always is.
   */
  function VisibleTabs(role: string): (tabs: seq<Tab>)
    ensures forall t :: t in tabs <==> Sees(role, t)
    ensures |tabs| >= 1 && tabs[|tabs| - 1] == SettingsTab
  {
    (if role == "Manager" || role == "Staff" then [InventoryTab] else [])
      + (if role == "Manager" || role == "Cashier" then [NewSaleTab] else [])
      + (if role == "Manager" || role == "Cashier" then [HistoryTab] else [])
      + (if role == "Manager" then [ReportsTab] else [])
      + [SettingsTab]
  }

  /** Filtering the tab order keeps the tabs in that order, each where its gate allows it. */
  lemma FilterTabOrder(keep: Tab -> bool)
    ensures Filter(ALL_TABS, keep) ==
      Kept(InventoryTab, keep) + Kept(NewSaleTab, keep) + Kept(HistoryTab, keep)
        + Kept(ReportsTab, keep) + Kept(SettingsTab, keep)
  {
    var a, b, c := Kept(InventoryTab, keep), Kept(NewSaleTab, keep), Kept(HistoryTab, keep);
    var d, e := Kept(ReportsTab, keep), Kept(SettingsTab, keep);
    var t4 := [SettingsTab];
    var t3 := [ReportsTab] + t4;
    var t2 := [HistoryTab] + t3;
    var t1 := [NewSaleTab] + t2;
    assert ALL_TABS == [InventoryTab] + t1;
    assert t4 == [SettingsTab] + [];
    FilterCons(SettingsTab, [], keep);
    assert Filter(t4, keep) == e;
    FilterCons(ReportsTab, t4, keep);
    FilterCons(HistoryTab, t3, keep);
    FilterCons(NewSaleTab, t2, keep);
    FilterCons(InventoryTab, t1, keep);
    AppendAssociative(a, b, c + (d + e));
    AppendAssociative(a + b, c, d + e);
    AppendAssociative(a + b + c, d, e);
  }

  /** The visible tabs are the tab order with the tabs the role may not see removed. */
  lemma VisibleTabsKeepOrder(role: string)
    ensures VisibleTabs(role) == Filter(ALL_TABS, ShownTo(role))
  {
    FilterTabOrder(ShownTo(role));
  }

  /** A manager sees every tab. */
  lemma ManagerSeesEveryTab()
    ensures VisibleTabs("Manager") == ALL_TABS
  {
  }

  /** Staff see the inventory and Settings, but may not add or delete products there. */
  lemma StaffTabs()
    ensures VisibleTabs("Staff") == [InventoryTab, SettingsTab]
    ensures !Inventory.CanManageProducts("Staff")
  {
  }

  /** Cashiers see the sale, history and Settings tabs. */
  lemma CashierTabs()
    ensures VisibleTabs("Cashier") == [NewSaleTab, HistoryTab, SettingsTab]
  {
  }

  /** Any other role, including the "" of a missing role key, sees Settings alone. */
  lemma UnknownRoleSeesSettingsOnly(role: string)
    requires role != "Manager" && role != "Staff" && role != "Cashier"
    ensures VisibleTabs(role) == [SettingsTab]
  {
  }
}
