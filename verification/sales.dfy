/**
 * The New Sale screen: the total shown for the selected product and typed
 * quantity, the rule that enables the Record Sale button, and recording a
 * sale, which appends a sale record and takes the quantity off the
 * product's stock.
 */
module Sales {
  import opened Wrappers
  import opened Integers
  import opened Records

  /** `Int(quantity)`: the quantity field read as a 64-bit integer. */
  function SaleQuantity(text: string): (r: Option<int>)
    ensures r.Some? ==> INT64_MIN <= r.value <= INT64_MAX
    ensures text == [] ==> r == None
  {
    ParseInt(text)
  }

  /** `totalPrice`: the selling price times the quantity, or 0 without a product or a number. */
  function TotalPrice(product: Option<Product>, quantityText: string): (r: Money)
    ensures product.None? || SaleQuantity(quantityText).None? ==> r == 0.0
    ensures product.Some? && SaleQuantity(quantityText).Some? ==>
      r == product.value.sellingPrice * SaleQuantity(quantityText).value as real
  {
    match (product, SaleQuantity(quantityText))
    case (Some(p), Some(q)) => p.sellingPrice * q as real
    case _ => 0.0
  }

  /** `isValidSale`: a product is selected and the quantity is a number from 1 to its stock. */
  predicate IsValidSale(product: Option<Product>, quantityText: string) {
    match (product, SaleQuantity(quantityText))
    case (Some(p), Some(q)) => 0 < q <= p.quantity
    case _ => false
  }

  /** The Record Sale button is enabled exactly for a selected product and a quantity from 1 to its stock. */
  lemma IsValidSaleExactly(product: Option<Product>, quantityText: string)
    ensures IsValidSale(product, quantityText) <==>
      && product.Some? && SaleQuantity(quantityText).Some?
      && 0 < SaleQuantity(quantityText).value <= product.value.quantity
    ensures product.None? || SaleQuantity(quantityText).None? ==> !IsValidSale(product, quantityText)
  {
  }

  /**
   * `recordSale` traps: `Int32(quantity)` on a number outside `Int32`, or
   * `product.quantity -= ...` overflowing.
   */
  predicate RecordSaleTraps(product: Option<Product>, quantityText: string) {
    match (product, SaleQuantity(quantityText))
    case (Some(p), Some(q)) => !IsInt32(q) || !IsInt32(p.quantity - q)
    case _ => false
  }

  /**
   * A sale the button lets through never traps and never takes the stock
   * below zero: the remaining stock is between 0 and the old stock.
   */
  lemma ValidSaleKeepsStockNonNegative(p: Product, quantityText: string)
    requires IsInt32(p.quantity)
    requires IsValidSale(Some(p), quantityText)
    ensures !RecordSaleTraps(Some(p), quantityText)
    ensures var q := SaleQuantity(quantityText).value;
      0 <= p.quantity - q < p.quantity
  {
    var q := SaleQuantity(quantityText).value;
    assert 0 < q <= p.quantity <= INT32_MAX;
  }

  /**
   * The guard of `recordSale` checks only that the quantity parses, so a
   * call that bypasses the disabled button with "0" would go ahead while
   * the button stays disabled.
   */
  lemma RecordSaleGuardWeakerThanButton(p: Product)
    ensures SaleQuantity("0") == Some(0)
    ensures !IsValidSale(Some(p), "0")
  {
    assert DigitsValue("0") == DigitsValue("") * 10 + DigitValue('0');
  }

  /** The role gate of the screen: only managers and cashiers record sales. */
  predicate CanRecordSales(role: string) {
    role == "Manager" || role == "Cashier"
  }

  /** The New Sale form. `selectedProduct` refers to a product by its object id. */
  class SalesForm {
    var selectedProduct: Option<ObjectId>
    var quantity: string
    var showingProductPicker: bool
    var showingConfirmation: bool
    var errorMessage: Option<string>
    var role: string

    /** The screen as it appears, with the role read from the session. */
    constructor (role: string)
      ensures selectedProduct == None && quantity == "" && this.role == role
      ensures !showingProductPicker && !showingConfirmation && errorMessage == None
    {
      selectedProduct, quantity := None, "";
      showingProductPicker, showingConfirmation, errorMessage := false, false, None;
      this.role := role;
    }

    /** The selected product as it is now in the store; nil when none is selected. */
    function Selected(store: Store): (r: Option<Product>)
      reads this, store
      ensures r.Some? <==> selectedProduct.Some? && selectedProduct.value in store.products
      ensures r.Some? ==> r.value == store.products[selectedProduct.value]
    {
      if selectedProduct.Some? && selectedProduct.value in store.products
      then Some(store.products[selectedProduct.value])
      else None
    }

    /** Tapping a product in the picker selects it and closes the picker. */
    method SelectProduct(id: ObjectId)
      modifies this`selectedProduct, this`showingProductPicker
      ensures selectedProduct == Some(id) && !showingProductPicker
    {
      selectedProduct := Some(id);
      showingProductPicker := false;
    }

    /**
     * `recordSale()` at time `now`. When a product is selected and the
     * quantity parses, one sale record with that quantity, the shown total,
     * the product and `now` is appended, and exactly that product's stock
     * goes down by the quantity. `saveError` is the error the context's save
     * throws, if any; the changes stay in the context either way.
     */
    method RecordSale(store: Store, now: Date, saveError: Option<string>)
      requires store.Valid()
      requires selectedProduct.Some? ==> selectedProduct.value in store.products
      requires !RecordSaleTraps(Selected(store), quantity)
      modifies store`products, store`sales, this`showingConfirmation, this`errorMessage
      ensures store.Valid()
      ensures selectedProduct.None? || SaleQuantity(quantity).None? ==>
        && store.products == old(store.products) && store.sales == old(store.sales)
        && showingConfirmation == old(showingConfirmation) && errorMessage == old(errorMessage)
      ensures selectedProduct.Some? && SaleQuantity(quantity).Some? ==>
        var id, q := selectedProduct.value, SaleQuantity(quantity).value;
        var p := old(store.products[id]);
        && store.sales == old(store.sales) + [SaleRecord(Some(now), q, TotalPrice(Some(p), quantity), Some(id))]
        && store.products == old(store.products)[id := p.(quantity := p.quantity - q)]
        && (saveError.None? ==> showingConfirmation && errorMessage == old(errorMessage))
        && (saveError.Some? ==>
              errorMessage == Some("Failed to record sale: " + saveError.value) && showingConfirmation == old(showingConfirmation))
    {
      if selectedProduct.None? {
        return;
      }
      var id := selectedProduct.value;
      var parsed := SaleQuantity(quantity);
      if parsed.None? {
        return;
      }
      var q := parsed.value;
      var p := store.products[id];
      var sale := SaleRecord(Some(now), q, TotalPrice(Some(p), quantity), Some(id));
      store.sales := store.sales + [sale];
      var updated := p.(quantity := p.quantity - q);
      PutProductKeepsValid(store.products, store.nextId, id, updated);
      store.products := store.products[id := updated];
      if saveError.None? {
        showingConfirmation := true;
      } else {
        errorMessage := Some("Failed to record sale: " + saveError.value);
      }
    }

    /** `resetForm()`, after the confirmation: no product selected and an empty quantity. */
    method ResetForm()
      modifies this`selectedProduct, this`quantity
      ensures selectedProduct == None && quantity == ""
      ensures !IsValidSale(None, quantity) && TotalPrice(None, quantity) == 0.0
    {
      selectedProduct := None;
      quantity := "";
    }
  }
}
