/** The order entities of core/models.py, and the suggestion records that
    validation attaches to an item. */
module Models {
  import opened Wrappers

  /** A quantity the order model accepts: `quantity: int = Field(gt=0)`. */
  type PosInt = q: int | q > 0 witness 1

  /** The three shapes a validation suggestion takes. A similar-product record
      carries no `type` key in the source; presentation treats any untyped
      suggestion as one. */
  datatype Suggestion =
    | QuantityAdjustment(currentQuantity: int, suggestedQuantity: int, reason: string)
    | StockLimit(currentQuantity: int, availableQuantity: int, reason: string)
    | SimilarProduct(sku: string, name: Option<string>, moq: int, stock: int)

  /** A delivery date as the parser hands it over; it is not interpreted here. */
  datatype Date = Date(year: int, month: int, day: int)

  /** One order line. SKU and quantity are fixed at construction; validity,
      notes and suggestions are written in place by order processing. */
  class OrderItem {
    const sku: string
    const quantity: PosInt
    var valid: bool
    var notes: Option<string>
    var suggestions: Option<seq<Suggestion>>

    /** `OrderItem(sku=..., quantity=...)` with the field defaults. */
    constructor (sku: string, quantity: PosInt)
      ensures this.sku == sku && this.quantity == quantity
      ensures valid && notes == None && suggestions == None
    {
      this.sku := sku;
      this.quantity := quantity;
      valid := true;
      notes := None;
      suggestions := None;
    }
  }

  /** The message the record validation raises for a non-positive quantity. */
  const QuantityNotPositive := "Input should be greater than 0"

  /** Building an item from an arbitrary integer: the constraint `gt=0`
      rejects zero and negative quantities; an accepted item starts valid
      with no notes and no suggestions. */
  method NewOrderItem(sku: string, quantity: int) returns (r: Result<OrderItem, string>)
    ensures r.Failure? <==> quantity <= 0
    ensures r.Failure? ==> r.error == QuantityNotPositive
    ensures r.Success? ==> fresh(r.value)
    ensures r.Success? ==> r.value.sku == sku && r.value.quantity == quantity
    ensures r.Success? ==> r.value.valid && r.value.notes == None && r.value.suggestions == None
  {
    if quantity <= 0 {
      return Failure(QuantityNotPositive);
    }
    var item := new OrderItem(sku, quantity);
    return Success(item);
  }

  /** A customer order; its identity fields are never changed after creation. */
  datatype Order = Order(customer: string, address: string, deliveryDate: Date, items: seq<OrderItem>)
}
