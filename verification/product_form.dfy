/**
 * The add/edit product form (`ProductFormView` and its `ProductFormData`):
 * the text fields it starts with, its Save gate, saving with fixed fallbacks
 * for unparsable numbers, and deleting the edited product.
 */
module ProductForm {
  import opened Wrappers
  import opened Integers
  import opened Text
  import opened Records
  import opened Notifications

  /**
   * The product the five fields describe, as `saveProduct` writes it: the
   * name as typed; `Int32` fields that do not parse become 0 (quantity) and
   * 10 (threshold); prices that `parseDouble` rejects become 0.0.
   */
  function ParsedWithDefaults(f: ProductFields, parseDouble: string -> Option<Money>): (p: Product)
    ensures p.name == Some(f.name)
    ensures IsInt32(p.quantity) && IsInt32(p.lowStockThreshold)
    ensures ParseInt32(f.quantity).None? ==> p.quantity == 0
    ensures ParseInt32(f.quantity).Some? ==> p.quantity == ParseInt32(f.quantity).value
    ensures parseDouble(f.purchasePrice).None? ==> p.purchasePrice == 0.0
    ensures parseDouble(f.purchasePrice).Some? ==> p.purchasePrice == parseDouble(f.purchasePrice).value
    ensures parseDouble(f.sellingPrice).None? ==> p.sellingPrice == 0.0
    ensures parseDouble(f.sellingPrice).Some? ==> p.sellingPrice == parseDouble(f.sellingPrice).value
    ensures ParseInt32(f.lowStockThreshold).None? ==> p.lowStockThreshold == 10
    ensures ParseInt32(f.lowStockThreshold).Some? ==> p.lowStockThreshold == ParseInt32(f.lowStockThreshold).value
  {
    Product(
      Some(f.name),
      ParseInt32Or(f.quantity, 0),
      parseDouble(f.purchasePrice).GetOr(0.0),
      parseDouble(f.sellingPrice).GetOr(0.0),
      ParseInt32Or(f.lowStockThreshold, 10))
  }

  /**
   * `ProductFormData.init(product:)`: the product's fields as text, prices
   * through `formatPrice` (`String(format: "%.2f", _)`); without a product,
   * an empty name and quantity, prices formatted from 0 and threshold "10".
   */
  function InitialFields(product: Option<Product>, formatPrice: Money -> string): (f: ProductFields)
    ensures product.None? ==> f == ProductFields("", "", formatPrice(0.0), formatPrice(0.0), "10")
    ensures product.Some? ==>
      && f.name == product.value.name.GetOr("")
      && f.quantity == IntText(product.value.quantity)
      && f.lowStockThreshold == IntText(product.value.lowStockThreshold)
      && f.purchasePrice == formatPrice(product.value.purchasePrice)
      && f.sellingPrice == formatPrice(product.value.sellingPrice)
  {
    match product
    case None => ProductFields("", "", formatPrice(0.0), formatPrice(0.0), "10")
    case Some(p) =>
      ProductFields(p.name.GetOr(""), IntText(p.quantity), formatPrice(p.purchasePrice), formatPrice(p.sellingPrice), IntText(p.lowStockThreshold))
  }

  /** `isValid`: a name that is not blank once trimmed and four non-empty number fields. */
  predicate FieldsValid(f: ProductFields) {
    && Trim(f.name) != []
    && f.quantity != []
    && f.purchasePrice != []
    && f.sellingPrice != []
    && f.lowStockThreshold != []
  }

  /** The gate looks only at emptiness: a quantity that is not a number still enables Save, and saves as 0. */
  lemma ValidFieldsNeedNotParse(parseDouble: string -> Option<Money>)
    ensures var f := ProductFields("Rice", "lots", "1", "2", "3");
      FieldsValid(f) && ParseInt32(f.quantity).None? && ParsedWithDefaults(f, parseDouble).quantity == 0
  {
    var f := ProductFields("Rice", "lots", "1", "2", "3");
    assert f.name[0] == 'R' && !IsWhitespace('R');
    TrimEmptyIffAllWhitespace(f.name);
    assert !AllDigits("lots") by { assert !IsDigit("lots"[0]); }
  }

  /**
   * Saving a form opened on a product without touching it keeps the
   * product's stock and threshold: `Int32` text parses back to the same
   * number. Its name, when it had none, becomes the empty string.
   */
  lemma UneditedFormKeepsCounts(p: Product, formatPrice: Money -> string, parseDouble: string -> Option<Money>)
    requires IsInt32(p.quantity) && IsInt32(p.lowStockThreshold)
    ensures var saved := ParsedWithDefaults(InitialFields(Some(p), formatPrice), parseDouble);
      && saved.quantity == p.quantity
      && saved.lowStockThreshold == p.lowStockThreshold
      && saved.name == Some(p.name.GetOr(""))
  {
    Int32TextRoundTrip(p.quantity);
    Int32TextRoundTrip(p.lowStockThreshold);
  }

  /** A form opened without a product is not savable until a name and a quantity are typed. */
  lemma NewFormStartsInvalid(formatPrice: Money -> string)
    ensures !FieldsValid(InitialFields(None, formatPrice))
  {
    assert Trim("") == [];
  }

  /** `ProductFormData`: the five text fields and the error alert. */
  class ProductFormData {
    var name: string
    var quantity: string
    var purchasePrice: string
    var sellingPrice: string
    var lowStockThreshold: string
    var showError: bool
    var errorMessage: string

    constructor (product: Option<Product>, formatPrice: Money -> string)
      ensures Fields() == InitialFields(product, formatPrice)
      ensures !showError && errorMessage == ""
    {
      var f := InitialFields(product, formatPrice);
      name, quantity, purchasePrice, sellingPrice, lowStockThreshold :=
        f.name, f.quantity, f.purchasePrice, f.sellingPrice, f.lowStockThreshold;
      showError, errorMessage := false, "";
    }

    function Fields(): ProductFields
      reads this
    {
      ProductFields(name, quantity, purchasePrice, sellingPrice, lowStockThreshold)
    }

    /** `isValid`, which enables the Save button. */
    function IsValid(): (valid: bool)
      reads this
      ensures valid <==> FieldsValid(Fields())
    {
      Trim(name) != [] && quantity != [] && purchasePrice != [] && sellingPrice != [] && lowStockThreshold != []
    }
  }

  /** The form screen; `product` is the product being edited, if any. */
  class ProductFormView {
    const product: Option<ObjectId>
    const formData: ProductFormData
    var dismissed: bool

    constructor (store: Store, product: Option<ObjectId>, formatPrice: Money -> string)
      requires product.Some? ==> product.value in store.products
      ensures this.product == product && !dismissed && fresh(formData)
      ensures product.None? ==> formData.Fields() == InitialFields(None, formatPrice)
      ensures product.Some? ==> formData.Fields() == InitialFields(Some(store.products[product.value]), formatPrice)
      ensures !formData.showError && formData.errorMessage == ""
    {
      this.product := product;
      var initial := if product.Some? then Some(store.products[product.value]) else None;
      formData := new ProductFormData(initial, formatPrice);
      dismissed := false;
    }

    /** `isEditing`. */
    predicate IsEditing() {
      product.Some?
    }

    /**
     * `saveProduct()`: the fields, parsed with the fixed fallbacks, become
     * the whole of the edited product or of one new product. After a
     * successful save the low-stock check runs on that product alone and
     * the form closes; a failed save shows its error and schedules nothing.
     */
    method SaveProduct(store: Store, manager: NotificationManager, parseDouble: string -> Option<Money>, saveError: Option<string>)
      requires store.Valid()
      requires product.Some? ==> product.value in store.products
      modifies store`products, store`nextId, formData`showError, formData`errorMessage, this`dismissed, manager`pending
      ensures store.Valid()
      ensures store.users == old(store.users) && store.sales == old(store.sales)
      ensures var saved := ParsedWithDefaults(old(formData.Fields()), parseDouble);
        var id := if product.Some? then product.value else old(store.nextId);
        && store.products == old(store.products)[id := saved]
        && (product.Some? ==> store.nextId == old(store.nextId))
        && (product.None? ==> id !in old(store.products) && store.nextId == old(store.nextId) + 1)
        && (saveError.None? ==>
              dismissed && formData.showError == old(formData.showError) && formData.errorMessage == old(formData.errorMessage))
        && (saveError.None? && manager.isAuthorized && IsLowStock(saved) ==>
              manager.pending == old(manager.pending)[AlertIdentifier(id) := LowStockAlert(saved)])
        && (saveError.None? && (!manager.isAuthorized || !IsLowStock(saved)) ==>
              manager.pending == old(manager.pending))
        && (saveError.Some? ==>
              && formData.showError && formData.errorMessage == "Failed to save product: " + saveError.value
              && dismissed == old(dismissed) && manager.pending == old(manager.pending))
    {
      var saved := ParsedWithDefaults(formData.Fields(), parseDouble);
      var id: ObjectId;
      if product.Some? {
        id := product.value;
      } else {
        id := store.NewObjectId();
      }
      PutProductKeepsValid(store.products, store.nextId, id, saved);
      store.products := store.products[id := saved];
      if saveError.None? {
        manager.CheckLowStockProducts([id], store.products);
        assert [id][..0] == [];
        dismissed := true;
      } else {
        formData.showError := true;
        formData.errorMessage := "Failed to save product: " + saveError.value;
      }
    }

    /**
     * `deleteProduct()`: nothing happens on a form for a new product;
     * otherwise exactly the edited product is deleted, and the form closes
     * or shows the save error.
     */
    method DeleteProduct(store: Store, saveError: Option<string>)
      requires store.Valid()
      modifies store`products, formData`showError, formData`errorMessage, this`dismissed
      ensures store.Valid()
      ensures product.None? ==>
        && store.products == old(store.products) && dismissed == old(dismissed)
        && formData.showError == old(formData.showError) && formData.errorMessage == old(formData.errorMessage)
      ensures product.Some? ==>
        && store.products == old(store.products) - {product.value}
        && (saveError.None? ==>
              dismissed && formData.showError == old(formData.showError) && formData.errorMessage == old(formData.errorMessage))
        && (saveError.Some? ==>
              formData.showError && formData.errorMessage == "Failed to delete product: " + saveError.value
              && dismissed == old(dismissed))
    {
      if product.None? {
        return;
      }
      store.products := store.products - {product.value};
      if saveError.None? {
        dismissed := true;
      } else {
        formData.showError := true;
        formData.errorMessage := "Failed to delete product: " + saveError.value;
      }
    }
  }
}
