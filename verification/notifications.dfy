/**
 * Low-stock alerts. The notification center's pending requests are a map
 * from request identifier to alert; the identifier is derived from the
 * product's object id, so each product has at most one pending alert and
 * scheduling it again replaces it.
 */
module Notifications {
  import opened Wrappers
  import opened Integers
  import opened Records

  /** The content of a pending notification request. */
  datatype Alert = Alert(title: string, body: string)

  const LOW_STOCK_TITLE := "Low Stock Alert"
  const IDENTIFIER_PREFIX := "low-stock-"

  /** The request identifier: the prefix followed by the product's object id. */
  function AlertIdentifier(id: ObjectId): (r: string)
    ensures |r| > |IDENTIFIER_PREFIX| && r[..|IDENTIFIER_PREFIX|] == IDENTIFIER_PREFIX
  {
    IDENTIFIER_PREFIX + NatText(id)
  }

  /** Different products never share a request identifier. */
  lemma AlertIdentifierInjective(a: ObjectId, b: ObjectId)
    requires AlertIdentifier(a) == AlertIdentifier(b)
    ensures a == b
  {
    var n := |IDENTIFIER_PREFIX|;
    assert NatText(a) == AlertIdentifier(a)[n..];
    assert NatText(b) == AlertIdentifier(b)[n..];
    NatTextValue(a);
    NatTextValue(b);
  }

  /** The alert for a product: its name (or "Product") and its current stock. */
  function LowStockAlert(p: Product): (r: Alert)
    ensures r.title == LOW_STOCK_TITLE
    ensures p.name.Some? ==> p.name.value <= r.body
    ensures p.name.None? ==> "Product" <= r.body
  {
    Alert(LOW_STOCK_TITLE, p.name.GetOr("Product") + " is running low on stock (" + IntText(p.quantity) + " remaining)")
  }

  /** The stock number in an alert body reads back as the product's quantity. */
  lemma AlertBodyShowsQuantity(p: Product)
    requires IsInt32(p.quantity)
    ensures var name := p.name.GetOr("Product");
      var start := |name| + |" is running low on stock ("|;
      var digits := LowStockAlert(p).body[start..|LowStockAlert(p).body| - |" remaining)"|];
      ParseInt32(digits) == Some(p.quantity)
  {
    var name := p.name.GetOr("Product");
    var body := LowStockAlert(p).body;
    var start := |name| + |" is running low on stock ("|;
    assert body[start..|body| - |" remaining)"|] == IntText(p.quantity);
    Int32TextRoundTrip(p.quantity);
  }

  /**
   * The pending requests after scheduling an alert for every product of
   * `ids` that is low on stock, in order, starting from `pending`.
   */
  function ScheduledFor(pending: map<string, Alert>, ids: seq<ObjectId>, products: map<ObjectId, Product>): map<string, Alert>
    requires forall id <- ids :: id in products
  {
    if ids == [] then pending
    else
      var before := ScheduledFor(pending, ids[..|ids| - 1], products);
      var id := ids[|ids| - 1];
      if IsLowStock(products[id]) then before[AlertIdentifier(id) := LowStockAlert(products[id])] else before
  }

  /** The products of `ids` that are at or below their threshold. */
  function LowStockIds(ids: seq<ObjectId>, products: map<ObjectId, Product>): set<ObjectId>
  {
    set id | id in ids && id in products && IsLowStock(products[id])
  }

  /**
   * After the check, a product of the list has a pending alert showing its
   * current stock exactly when it is low on stock; a product above its
   * threshold keeps whatever was pending for it before.
   */
  lemma {:induction false} ScheduledExactlyLowStock(pending: map<string, Alert>, ids: seq<ObjectId>, products: map<ObjectId, Product>, id: ObjectId)
    requires forall i <- ids :: i in products
    requires id in products
    ensures var r := ScheduledFor(pending, ids, products);
      var key := AlertIdentifier(id);
      && (id in LowStockIds(ids, products) ==> key in r && r[key] == LowStockAlert(products[id]))
      && (id !in LowStockIds(ids, products) ==>
            (key in r <==> key in pending) && (key in pending ==> r[key] == pending[key]))
  {
    if ids != [] {
      var init := ids[..|ids| - 1];
      var last := ids[|ids| - 1];
      assert forall i <- init :: i in products;
      ScheduledExactlyLowStock(pending, init, products, id);
      assert LowStockIds(ids, products) == LowStockIds(init, products) + (if IsLowStock(products[last]) then {last} else {});
      if last != id && IsLowStock(products[last]) && AlertIdentifier(last) == AlertIdentifier(id) {
        AlertIdentifierInjective(last, id);
      }
    }
  }

  /** The check adds no request other than alerts for products of the list that are low on stock. */
  lemma {:induction false} ScheduledOnlyLowStock(pending: map<string, Alert>, ids: seq<ObjectId>, products: map<ObjectId, Product>, key: string)
    requires forall i <- ids :: i in products
    requires key in ScheduledFor(pending, ids, products) && key !in pending
    ensures exists id :: id in LowStockIds(ids, products) && key == AlertIdentifier(id)
  {
    var init := ids[..|ids| - 1];
    var last := ids[|ids| - 1];
    assert forall i <- init :: i in products;
    assert LowStockIds(init, products) <= LowStockIds(ids, products);
    if key in ScheduledFor(pending, init, products) {
      ScheduledOnlyLowStock(pending, init, products, key);
    } else {
      assert last in LowStockIds(ids, products);
    }
  }

  /** `NotificationManager.shared`. */
  class NotificationManager {
    var isAuthorized: bool
    /** The notification center's pending requests, by identifier. */
    var pending: map<string, Alert>

    /** `authorized` is what the notification settings report. */
    constructor (authorized: bool)
      ensures isAuthorized == authorized && pending == map[]
    {
      isAuthorized, pending := authorized, map[];
    }

    /**
     * `scheduleLowStockNotification(for:)`: without authorisation nothing
     * happens; otherwise any pending alert for the product is removed and
     * the alert for its current state is added.
     */
    method ScheduleLowStockNotification(id: ObjectId, product: Product)
      modifies this`pending
      ensures !isAuthorized ==> pending == old(pending)
      ensures isAuthorized ==> pending == old(pending)[AlertIdentifier(id) := LowStockAlert(product)]
    {
      if !isAuthorized {
        return;
      }
      var identifier := AlertIdentifier(id);
      pending := pending - {identifier};
      pending := pending[identifier := LowStockAlert(product)];
    }

    /** `checkLowStockProducts(products:)` over the products listed by `ids`, in order. */
    method CheckLowStockProducts(ids: seq<ObjectId>, products: map<ObjectId, Product>)
      requires forall id <- ids :: id in products
      modifies this`pending
      ensures isAuthorized ==> pending == ScheduledFor(old(pending), ids, products)
      ensures !isAuthorized ==> pending == old(pending)
    {
      var i := 0;
      while i < |ids|
        invariant 0 <= i <= |ids|
        invariant isAuthorized ==> pending == ScheduledFor(old(pending), ids[..i], products)
        invariant !isAuthorized ==> pending == old(pending)
      {
        var id := ids[i];
        assert ids[..i + 1][..i] == ids[..i];
        if IsLowStock(products[id]) {
          ScheduleLowStockNotification(id, products[id]);
        }
        i := i + 1;
      }
      assert ids[..|ids|] == ids;
    }
  }
}
