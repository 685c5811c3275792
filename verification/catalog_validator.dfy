/** Per-item validation of validation/catalog_validator.py: a first-match-wins
    cascade over one order line (unknown SKU, below MOQ, above stock, valid). */
module CatalogValidator {
  import opened Wrappers
  import opened Text
  import opened Models
  import opened CatalogCsv
  import opened ValidationResults

  const ValidNotes := "Order item is valid"
  const StockReason := "Limited by current stock levels"

  function UnknownSkuNotes(sku: string): string {
    "SKU " + sku + " not found in catalog"
  }

  function BelowMoqNotes(quantity: int, moq: int): string {
    "Quantity " + IntToString(quantity) + " is below minimum order quantity of " + IntToString(moq)
  }

  function MoqReason(moq: int): string {
    "To meet minimum order quantity of " + IntToString(moq)
  }

  function AboveStockNotes(quantity: int, stock: int): string {
    "Requested quantity " + IntToString(quantity) + " exceeds available stock of " + IntToString(stock)
  }

  /** `_handle_invalid_sku`: invalid, with the catalog's similar products as suggestions. */
  function HandleInvalidSku(catalog: SkuMap, item: OrderItem): (r: ValidationResult)
    ensures !r.isValid && r.notes == UnknownSkuNotes(item.sku)
    ensures r.suggestions == SimilarProducts(catalog, item.sku) && |r.suggestions| <= 5
    ensures r.metadata == map[]
  {
    NewValidationResult(false, UnknownSkuNotes(item.sku), Some(SimilarProducts(catalog, item.sku)))
  }

  /** `_handle_moq_violation`: invalid, with one quantity adjustment up to the MOQ. */
  function HandleMoqViolation(item: OrderItem, product: Product): (r: ValidationResult)
    ensures !r.isValid && r.notes == BelowMoqNotes(item.quantity, product.moq)
    ensures r.suggestions == [QuantityAdjustment(item.quantity, product.moq, MoqReason(product.moq))]
    ensures r.metadata == map["min_quantity" := product.moq]
  {
    NewValidationResult(
      false,
      BelowMoqNotes(item.quantity, product.moq),
      Some([QuantityAdjustment(item.quantity, product.moq, MoqReason(product.moq))]),
      Some(map["min_quantity" := product.moq]))
  }

  /** `_handle_stock_violation`: invalid, with one stock limit naming the stock. */
  function HandleStockViolation(item: OrderItem, product: Product): (r: ValidationResult)
    ensures !r.isValid && r.notes == AboveStockNotes(item.quantity, product.stock)
    ensures r.suggestions == [StockLimit(item.quantity, product.stock, StockReason)]
    ensures r.metadata == map["available_stock" := product.stock]
  {
    NewValidationResult(
      false,
      AboveStockNotes(item.quantity, product.stock),
      Some([StockLimit(item.quantity, product.stock, StockReason)]),
      Some(map["available_stock" := product.stock]))
  }

  /** `validate_item`: the item is valid exactly when its SKU is in the catalog
      and MOQ <= quantity <= stock. Otherwise the first failing rule, in the
      order unknown SKU, below MOQ, above stock, decides notes, suggestions and
      metadata. It reads only the catalog value and the item's fixed SKU and
      quantity, so it cannot change either. */
  function ValidateItem(catalog: SkuMap, item: OrderItem): (r: ValidationResult)
    ensures r.isValid <==>
      item.sku in catalog.values
      && catalog.values[item.sku].moq <= item.quantity <= catalog.values[item.sku].stock
    ensures r.isValid ==>
      var p := catalog.values[item.sku];
      r.notes == ValidNotes && r.suggestions == []
      && r.metadata == map["min_quantity" := p.moq, "available_stock" := p.stock]
    ensures item.sku !in catalog.values ==>
      r.notes == UnknownSkuNotes(item.sku)
      && r.suggestions == SimilarProducts(catalog, item.sku) && |r.suggestions| <= 5
      && r.metadata == map[]
    ensures item.sku in catalog.values && item.quantity < catalog.values[item.sku].moq ==>
      var moq := catalog.values[item.sku].moq;
      r.notes == BelowMoqNotes(item.quantity, moq)
      && r.suggestions == [QuantityAdjustment(item.quantity, moq, MoqReason(moq))]
      && r.metadata == map["min_quantity" := moq]
    ensures (item.sku in catalog.values
             && catalog.values[item.sku].moq <= item.quantity
             && item.quantity > catalog.values[item.sku].stock) ==>
      var stock := catalog.values[item.sku].stock;
      r.notes == AboveStockNotes(item.quantity, stock)
      && r.suggestions == [StockLimit(item.quantity, stock, StockReason)]
      && r.metadata == map["available_stock" := stock]
  {
    match GetProductDetails(catalog, item.sku)
    case None => HandleInvalidSku(catalog, item)
    case Some(product) =>
      if item.quantity < product.moq then HandleMoqViolation(item, product)
      else if item.quantity > product.stock then HandleStockViolation(item, product)
      else NewValidationResult(true, ValidNotes, None,
                               Some(map["min_quantity" := product.moq, "available_stock" := product.stock]))
  }

  /** The MOQ rule is checked before the stock rule: an item both below MOQ
      and above stock reports the MOQ violation alone. */
  lemma MoqBeforeStock(catalog: SkuMap, item: OrderItem)
    requires item.sku in catalog.values
    requires item.quantity < catalog.values[item.sku].moq
    requires item.quantity > catalog.values[item.sku].stock
    ensures var r := ValidateItem(catalog, item);
      !r.isValid && |r.suggestions| == 1 && r.suggestions[0].QuantityAdjustment?
      && forall s :: s in r.suggestions ==> !s.StockLimit?
  {
  }

  /** A result carries suggestions unless the item is valid or its SKU is
      unknown and nothing in the catalog resembles it; a known SKU that fails
      carries exactly one. */
  lemma SuggestionCount(catalog: SkuMap, item: OrderItem)
    ensures var r := ValidateItem(catalog, item);
      && (r.suggestions == [] <==> r.isValid || (item.sku !in catalog.values && SimilarProducts(catalog, item.sku) == []))
      && (!r.isValid && item.sku in catalog.values ==> |r.suggestions| == 1)
  {
  }
}
