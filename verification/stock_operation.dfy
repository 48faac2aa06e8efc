/**
 * The stock-operation record: its type and status enumerations, its line items,
 * and the defaults the schema gives to fields the creation handler never sets.
 */
module StockOperation {
  import opened Results
  import opened Products

  /** The four values the schema admits for `type`. */
  datatype OpType = Receipt | Delivery | Internal | Adjustment

  /** The five values the schema admits for `status`; `Draft` is the default. */
  datatype Status = Draft | Waiting | Ready | Done | Canceled

  const DefaultStatus: Status := Draft
  const DefaultSourceLocation: string := "Vendor"
  const DefaultDestinationLocation: string := "WH/Stock"

  /** One line of an operation: a product, the requested quantity, the processed quantity. */
  datatype Item = Item(product: ProductId, quantity: int, doneQuantity: int)

  datatype Operation = Operation(
    reference: string,            // "" while not yet assigned
    opType: OpType,
    status: Status,
    partner: string,              // "" when absent
    sourceLocation: string,
    destinationLocation: string,
    items: seq<Item>)

  /** The stored spelling of each type. */
  function TypeName(t: OpType): string {
    match t
    case Receipt => "receipt"
    case Delivery => "delivery"
    case Internal => "internal"
    case Adjustment => "adjustment"
  }

  /** The schema's enum check: which strings are accepted as a type. */
  function ParseType(s: string): (r: Option<OpType>)
    ensures r.Some? <==> s in {"receipt", "delivery", "internal", "adjustment"}
    ensures r.Some? ==> TypeName(r.value) == s
  {
    if s == "receipt" then Some(Receipt)
    else if s == "delivery" then Some(Delivery)
    else if s == "internal" then Some(Internal)
    else if s == "adjustment" then Some(Adjustment)
    else None
  }

  /** Spelling a type and reading it back yields the same type, and no two types share a spelling. */
  lemma ParseTypeName(t: OpType)
    ensures ParseType(TypeName(t)) == Some(t)
    ensures forall u: OpType :: TypeName(u) == TypeName(t) ==> u == t
  {
  }

  /** A record built from schema defaults only, as the creation handler stores it. */
  function NewOperation(t: OpType, partner: string, items: seq<Item>): Operation {
    Operation("", t, DefaultStatus, partner, DefaultSourceLocation, DefaultDestinationLocation, items)
  }
}
