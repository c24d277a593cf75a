/**
 * The older add-product sheet: five empty fields, a Save button enabled by
 * any non-empty name, and saving one new product with the same fixed
 * fallbacks as the product form.
 */
module AddProduct {
  import opened Wrappers
  import opened Text
  import opened Records
  import ProductForm

  class AddProductView {
    var name: string
    var quantity: string
    var purchasePrice: string
    var sellingPrice: string
    var lowStockThreshold: string
    var dismissed: bool

    constructor ()
      ensures Fields() == ProductFields("", "", "", "", "") && !dismissed
    {
      name, quantity, purchasePrice, sellingPrice, lowStockThreshold := "", "", "", "", "";
      dismissed := false;
    }

    function Fields(): ProductFields
      reads this
    {
      ProductFields(name, quantity, purchasePrice, sellingPrice, lowStockThreshold)
    }

    /** Save is disabled only by an empty name; a name of spaces is accepted. */
    function SaveEnabled(): (enabled: bool)
      reads this
      ensures enabled <==> |name| > 0
    {
      name != ""
    }

    /**
     * `saveProduct()`: exactly one new product, under a new id, with the
     * name as typed and the numbers parsed with the form's fallbacks; no
     * existing product changes. The sheet closes.
     */
    method SaveProduct(store: Store, parseDouble: string -> Option<Money>)
      requires store.Valid()
      modifies store`products, store`nextId, this`dismissed
      ensures store.Valid() && dismissed
      ensures old(store.nextId) !in old(store.products) && store.nextId == old(store.nextId) + 1
      ensures store.products == old(store.products)[old(store.nextId) := ProductForm.ParsedWithDefaults(Fields(), parseDouble)]
      ensures store.products[old(store.nextId)].name == Some(name)
      ensures store.users == old(store.users) && store.sales == old(store.sales)
    {
      var id := store.NewObjectId();
      var created := ProductForm.ParsedWithDefaults(Fields(), parseDouble);
      PutProductKeepsValid(store.products, store.nextId, id, created);
      store.products := store.products[id := created];
      dismissed := true;
    }
  }

  /** The two Save gates differ: a blank name enables this sheet's Save but not the product form's. */
  lemma BlankNameGatesDiffer(quantity: string, purchasePrice: string, sellingPrice: string, lowStockThreshold: string)
    ensures var f := ProductFields(" ", quantity, purchasePrice, sellingPrice, lowStockThreshold);
      |f.name| > 0 && !ProductForm.FieldsValid(f)
  {
    TrimEmptyIffAllWhitespace(" ");
  }
}
