/** The annotation loop of processing/order_processor.py: each item of a parsed
    order receives the validator's verdict, notes and suggestions in place. */
module OrderProcessor {
  import opened Wrappers
  import opened Models
  import opened ValidationResults
  import CatalogCsv
  import CatalogValidator

  /** The item carries exactly what validate says about it. */
  ghost predicate Annotated(item: OrderItem, validate: OrderItem -> ValidationResult)
    reads item
  {
    var r := validate(item);
    item.valid == r.isValid && item.notes == Some(r.notes) && item.suggestions == Some(r.suggestions)
  }

  /** `process_order` after parsing: every item is validated once, in list
      order, and its validity, notes and suggestions are overwritten with the
      result. The order value itself (customer, address, date, the item list,
      each item's SKU and quantity) is returned unchanged, and nothing outside
      the items is written. */
  method ProcessOrder(order: Order, validate: OrderItem -> ValidationResult) returns (r: Order)
    modifies set item | item in order.items
    ensures r == order
    ensures forall i :: 0 <= i < |order.items| ==> Annotated(order.items[i], validate)
  {
    for i := 0 to |order.items|
      invariant forall k :: 0 <= k < i ==> Annotated(order.items[k], validate)
    {
      var item := order.items[i];
      var validationResult := validate(item);
      item.valid := validationResult.isValid;
      item.notes := Some(validationResult.notes);
      item.suggestions := Some(validationResult.suggestions);
    }
    return order;
  }

  /** With the catalog validator, a processed item always carries a suggestion
      list; it is empty when the item is valid, and holds exactly one entry
      when the SKU is known but the item is invalid. */
  lemma CatalogAnnotation(catalog: CatalogCsv.SkuMap, item: OrderItem)
    requires Annotated(item, (it: OrderItem) => CatalogValidator.ValidateItem(catalog, it))
    ensures item.suggestions.Some? && item.notes.Some?
    ensures item.valid ==> item.suggestions.value == []
    ensures !item.valid && item.sku in catalog.values ==> |item.suggestions.value| == 1
    ensures item.valid <==>
      item.sku in catalog.values
      && catalog.values[item.sku].moq <= item.quantity <= catalog.values[item.sku].stock
  {
  }
}
