/**
 * The product detail screen: edit buffers initialised from the product,
 * the Edit/Save toggle, and saving, where a number that does not parse
 * keeps the product's previous value.
 */
module ProductDetail {
  import opened Wrappers
  import opened Integers
  import opened Records

  /**
   * `saveChanges()`'s new product: the name always as typed; each number
   * the buffer parses to, or the previous value when it does not parse.
   */
  function WithFallback(p: Product, f: ProductFields, parseDouble: string -> Option<Money>): (r: Product)
    ensures r.name == Some(f.name)
    ensures ParseInt32(f.quantity).None? ==> r.quantity == p.quantity
    ensures ParseInt32(f.quantity).Some? ==> r.quantity == ParseInt32(f.quantity).value
    ensures parseDouble(f.purchasePrice).None? ==> r.purchasePrice == p.purchasePrice
    ensures parseDouble(f.purchasePrice).Some? ==> r.purchasePrice == parseDouble(f.purchasePrice).value
    ensures parseDouble(f.sellingPrice).None? ==> r.sellingPrice == p.sellingPrice
    ensures parseDouble(f.sellingPrice).Some? ==> r.sellingPrice == parseDouble(f.sellingPrice).value
    ensures ParseInt32(f.lowStockThreshold).None? ==> r.lowStockThreshold == p.lowStockThreshold
    ensures ParseInt32(f.lowStockThreshold).Some? ==> r.lowStockThreshold == ParseInt32(f.lowStockThreshold).value
    ensures IsInt32(p.quantity) && IsInt32(p.lowStockThreshold) ==> IsInt32(r.quantity) && IsInt32(r.lowStockThreshold)
  {
    Product(
      Some(f.name),
      ParseInt32Or(f.quantity, p.quantity),
      parseDouble(f.purchasePrice).GetOr(p.purchasePrice),
      parseDouble(f.sellingPrice).GetOr(p.sellingPrice),
      ParseInt32Or(f.lowStockThreshold, p.lowStockThreshold))
  }

  /**
   * The buffers `init(product:)` fills in: the name or "", the counts as
   * `String(Int32)`, the prices as `String(Double)`, which `describePrice`
   * stands for.
   */
  function InitialBuffers(p: Product, describePrice: Money -> string): (f: ProductFields)
    ensures f.name == p.name.GetOr("")
    ensures f.quantity == IntText(p.quantity) && f.lowStockThreshold == IntText(p.lowStockThreshold)
    ensures f.purchasePrice == describePrice(p.purchasePrice) && f.sellingPrice == describePrice(p.sellingPrice)
  {
    ProductFields(p.name.GetOr(""), IntText(p.quantity), describePrice(p.purchasePrice), describePrice(p.sellingPrice), IntText(p.lowStockThreshold))
  }

  /**
   * Saving untouched buffers keeps the stock and the threshold, and keeps
   * both prices whenever the price text parses back to the price; only a
   * missing name becomes "".
   */
  lemma UntouchedBuffersKeepProduct(p: Product, describePrice: Money -> string, parseDouble: string -> Option<Money>)
    requires IsInt32(p.quantity) && IsInt32(p.lowStockThreshold)
    ensures var r := WithFallback(p, InitialBuffers(p, describePrice), parseDouble);
      && r.quantity == p.quantity && r.lowStockThreshold == p.lowStockThreshold
      && (parseDouble(describePrice(p.purchasePrice)) == Some(p.purchasePrice)
          && parseDouble(describePrice(p.sellingPrice)) == Some(p.sellingPrice) ==>
            r == p.(name := Some(p.name.GetOr(""))))
  {
    Int32TextRoundTrip(p.quantity);
    Int32TextRoundTrip(p.lowStockThreshold);
  }

  /** Buffers whose numbers all fail to parse change nothing but the name. */
  lemma UnparsableBuffersKeepNumbers(p: Product, f: ProductFields, parseDouble: string -> Option<Money>)
    requires ParseInt32(f.quantity).None? && ParseInt32(f.lowStockThreshold).None?
    requires parseDouble(f.purchasePrice).None? && parseDouble(f.sellingPrice).None?
    ensures WithFallback(p, f, parseDouble) == p.(name := Some(f.name))
  {
  }

  class ProductDetailView {
    const product: ObjectId
    var isEditing: bool
    var editedName: string
    var editedQuantity: string
    var editedPurchasePrice: string
    var editedSellingPrice: string
    var editedLowStockThreshold: string

    function Buffers(): ProductFields
      reads this
    {
      ProductFields(editedName, editedQuantity, editedPurchasePrice, editedSellingPrice, editedLowStockThreshold)
    }

    /** `init(product:)`: not editing, buffers holding the product's current fields. */
    constructor (store: Store, product: ObjectId, describePrice: Money -> string)
      requires product in store.products
      ensures this.product == product && !isEditing
      ensures Buffers() == InitialBuffers(store.products[product], describePrice)
    {
      this.product := product;
      isEditing := false;
      var f := InitialBuffers(store.products[product], describePrice);
      editedName, editedQuantity, editedPurchasePrice, editedSellingPrice, editedLowStockThreshold :=
        f.name, f.quantity, f.purchasePrice, f.sellingPrice, f.lowStockThreshold;
    }

    /** `saveChanges()`: the product takes the buffers' values, with the previous ones as fallbacks. */
    method SaveChanges(store: Store, parseDouble: string -> Option<Money>)
      requires store.Valid() && product in store.products
      modifies store`products
      ensures store.Valid()
      ensures store.products == old(store.products)[product := WithFallback(old(store.products[product]), Buffers(), parseDouble)]
    {
      var updated := WithFallback(store.products[product], Buffers(), parseDouble);
      PutProductKeepsValid(store.products, store.nextId, product, updated);
      store.products := store.products[product := updated];
    }

    /** The toolbar button: it saves only when leaving edit mode, and always flips the mode. */
    method ToggleEditing(store: Store, parseDouble: string -> Option<Money>)
      requires store.Valid() && product in store.products
      modifies store`products, this`isEditing
      ensures store.Valid()
      ensures isEditing == !old(isEditing)
      ensures old(isEditing) ==>
        store.products == old(store.products)[product := WithFallback(old(store.products[product]), Buffers(), parseDouble)]
      ensures !old(isEditing) ==> store.products == old(store.products)
    {
      if isEditing {
        SaveChanges(store, parseDouble);
      }
      isEditing := !isEditing;
    }
  }
}
