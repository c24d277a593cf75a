/**
 * The Inventory tab: the product list narrowed by the search field, the
 * row's low-stock label, deleting rows, the manager-only controls and the
 * low-stock check it runs on appearing.
 */
module Inventory {
  import opened Wrappers
  import opened Text
  import opened Seqs
  import opened Records
  import opened Notifications

  /** `product.name?.localizedCaseInsensitiveContains(searchText) ?? false`. */
  predicate NameMatches(p: Product, searchText: string) {
    p.name.Some? && ContainsIgnoringCase(p.name.value, searchText)
  }

  /**
   * `filteredProducts` over the fetched listing (sorted by name): all of it
   * while the search field is empty, otherwise the products whose name
   * contains the text, in listing order.
   */
  function FilteredProducts(listing: seq<ObjectId>, products: map<ObjectId, Product>, searchText: string): (r: seq<ObjectId>)
    ensures searchText == [] ==> r == listing
    ensures searchText != [] ==>
      forall id :: id in r <==> id in listing && id in products && NameMatches(products[id], searchText)
    ensures IsSubsequence(r, listing)
  {
    SubsequenceReflexive(listing);
    if searchText == [] then listing
    else Filter(listing, id => id in products && NameMatches(products[id], searchText))
  }

  /** A product whose name holds the search text verbatim is listed, and one without a name never is. */
  lemma SearchFindsVerbatimNames(listing: seq<ObjectId>, products: map<ObjectId, Product>, searchText: string, id: ObjectId)
    requires id in listing && id in products
    ensures products[id].name.Some? && Contains(products[id].name.value, searchText) ==>
      id in FilteredProducts(listing, products, searchText)
    ensures products[id].name.None? && searchText != [] ==> id !in FilteredProducts(listing, products, searchText)
  {
    if products[id].name.Some? && Contains(products[id].name.value, searchText) {
      VerbatimMatchIsFound(products[id].name.value, searchText);
    }
  }

  /** `ProductRowView`'s "Low Stock" label. */
  function ShowsLowStockLabel(p: Product): (shown: bool)
    ensures shown <==> IsLowStock(p)
  {
    p.quantity <= p.lowStockThreshold
  }

  /** The add button, swipe-to-delete and editing a product are offered to managers only. */
  function CanManageProducts(role: string): (allowed: bool)
    ensures allowed <==> role == "Manager"
  {
    role == "Manager"
  }

  /** The ids at the given offsets of a listing. */
  function AtOffsets(s: seq<ObjectId>, offsets: set<int>): set<ObjectId>
    requires forall o <- offsets :: 0 <= o < |s|
  {
    set o | o in offsets :: s[o]
  }

  class InventoryView {
    var searchText: string
    var role: string
    var showingAddProduct: bool

    constructor (role: string)
      ensures searchText == "" && this.role == role && !showingAddProduct
    {
      searchText, showingAddProduct := "", false;
      this.role := role;
    }

    /**
     * `deleteProducts(offsets:)`: the products at the swiped offsets of the
     * filtered list are deleted, one after the other, and no other product.
     */
    method DeleteProducts(store: Store, listing: seq<ObjectId>, offsets: set<int>)
      requires store.Valid()
      requires forall o <- offsets :: 0 <= o < |FilteredProducts(listing, store.products, searchText)|
      modifies store`products
      ensures store.Valid()
      ensures store.products ==
        old(store.products) - AtOffsets(FilteredProducts(listing, old(store.products), searchText), offsets)
    {
      var filtered := FilteredProducts(listing, store.products, searchText);
      var doomed := AtOffsets(filtered, offsets);
      var remaining := doomed;
      while remaining != {}
        invariant remaining <= doomed
        invariant store.products == old(store.products) - (doomed - remaining)
        invariant store.Valid()
        decreases remaining
      {
        var id :| id in remaining;
        store.products := store.products - {id};
        remaining := remaining - {id};
      }
    }

    /** `checkLowStock()`: the notification check over the whole fetched listing. */
    method CheckLowStock(manager: NotificationManager, store: Store, listing: seq<ObjectId>)
      requires forall id <- listing :: id in store.products
      modifies manager`pending
      ensures manager.isAuthorized ==> manager.pending == ScheduledFor(old(manager.pending), listing, store.products)
      ensures !manager.isAuthorized ==> manager.pending == old(manager.pending)
    {
      manager.CheckLowStockProducts(listing, store.products);
    }
  }
}
