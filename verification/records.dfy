/**
 * The persisted entities (User, Product, SaleRecord) and the object store
 * that holds them. Core Data's managed-object context becomes one `Store`
 * object whose record collections the views reassign in place; the order
 * in which a fetch request returns records is not part of the store and is
 * passed to the views as a listing of ids.
 */
module Records {
  import opened Wrappers
  import opened Integers

  /** A point in time; only the order of dates matters to the model. */
  type Date = int
  /** Prices and totals. Exact arithmetic stands in for `Double`. */
  type Money = real
  /**
   * The `Calendar.current` operations the views use, left uninterpreted:
   * `startOfDay(for:)` and `date(byAdding:value:to:)` for days, months and
   * years.
   */
  datatype Calendar = Calendar(
    startOfDay: Date -> Date,
    addDays: (Date, int) -> Date,
    addMonths: (Date, int) -> Date,
    addYears: (Date, int) -> Date)

  /** Core Data's `objectID`. */
  type ObjectId = nat

  /** The three roles the user editor offers. */
  const ROLES: seq<string> := ["Manager", "Staff", "Cashier"]

  datatype User = User(username: Option<string>, password: Option<string>, role: Option<string>)

  /** `quantity` and `lowStockThreshold` are `Int32` attributes. */
  datatype Product = Product(
    name: Option<string>,
    quantity: int,
    purchasePrice: Money,
    sellingPrice: Money,
    lowStockThreshold: int)

  /** `product` is the to-one relationship to the product sold. */
  datatype SaleRecord = SaleRecord(date: Option<Date>, quantity: int, totalPrice: Money, product: Option<ObjectId>)

  /** The five text fields of a product editor, in the order the forms show them. */
  datatype ProductFields = ProductFields(
    name: string,
    quantity: string,
    purchasePrice: string,
    sellingPrice: string,
    lowStockThreshold: string)

  /**
   * The single low-stock rule: stock at or below the product's threshold.
   * The notification check, the inventory row label, the report chart colour
   * and the report's low-stock count each state it again; each of their
   * models is proved to agree with this predicate.
   */
  predicate IsLowStock(p: Product) {
    p.quantity <= p.lowStockThreshold
  }

  /** No two users share a username. */
  predicate UniqueUsernames(users: map<ObjectId, User>) {
    forall a, b :: a in users && b in users && a != b && users[a].username.Some? ==>
      users[a].username != users[b].username
  }

  /** `sale.product?.name`: nil when the sale has no product or the product is gone. */
  function ProductNameOf(products: map<ObjectId, Product>, product: Option<ObjectId>): (r: Option<string>)
    ensures r.Some? ==> product.Some? && product.value in products && products[product.value].name == r
  {
    if product.Some? && product.value in products then products[product.value].name else None
  }

  /** `sales.reduce(0) { $0 + $1.totalPrice }`. */
  function TotalOf(sales: seq<SaleRecord>): Money
  {
    if sales == [] then 0.0 else TotalOf(sales[..|sales| - 1]) + sales[|sales| - 1].totalPrice
  }

  lemma {:induction false} TotalOfConcat(a: seq<SaleRecord>, b: seq<SaleRecord>)
    ensures TotalOf(a + b) == TotalOf(a) + TotalOf(b)
    decreases |b|
  {
    if b == [] {
      assert a + b == a;
    } else {
      assert (a + b)[..|a + b| - 1] == a + b[..|b| - 1];
      TotalOfConcat(a, b[..|b| - 1]);
    }
  }

  /** Summing from the front gives the same total as the `reduce` from the back. */
  lemma TotalOfCons(x: SaleRecord, s: seq<SaleRecord>)
    ensures TotalOf([x] + s) == x.totalPrice + TotalOf(s)
  {
    TotalOfConcat([x], s);
    assert [x][..0] == [];
  }

  /** Every product has an id already handed out and `Int32` stock and threshold. */
  ghost predicate ValidProducts(products: map<ObjectId, Product>, nextId: ObjectId) {
    forall id :: id in products ==> id < nextId && IsInt32(products[id].quantity) && IsInt32(products[id].lowStockThreshold)
  }

  /** Every user has an id already handed out and one of the three roles, and usernames are unique. */
  ghost predicate ValidUsers(users: map<ObjectId, User>, nextId: ObjectId) {
    && (forall id :: id in users ==> id < nextId && (users[id].role.Some? ==> users[id].role.value in ROLES))
    && UniqueUsernames(users)
  }

  /** Writing a product with `Int32` stock and threshold under a handed-out id keeps the products valid. */
  lemma PutProductKeepsValid(products: map<ObjectId, Product>, nextId: ObjectId, id: ObjectId, p: Product)
    requires ValidProducts(products, nextId)
    requires id < nextId && IsInt32(p.quantity) && IsInt32(p.lowStockThreshold)
    ensures ValidProducts(products[id := p], nextId)
  {
  }

  /** The managed-object context: every record of every entity, by object id. */
  class Store {
    var products: map<ObjectId, Product>
    var sales: seq<SaleRecord>
    var users: map<ObjectId, User>
    /** The next object id the context hands out; ids are never reused. */
    var nextId: ObjectId

    ghost predicate Valid()
      reads this
    {
      ValidProducts(products, nextId) && ValidUsers(users, nextId)
    }

    /** An empty store, as a fresh persistent container loads it. */
    constructor ()
      ensures Valid()
      ensures products == map[] && sales == [] && users == map[]
    {
      products, sales, users, nextId := map[], [], map[], 0;
    }

    /** `Entity(context:)`: a new object id, distinct from every id in use. */
    method NewObjectId() returns (id: ObjectId)
      requires Valid()
      modifies this`nextId
      ensures Valid()
      ensures id == old(nextId) && id !in products && id !in users && nextId == id + 1
    {
      id := nextId;
      nextId := nextId + 1;
    }
  }
}
