/**
 * Properties of operation validation, stated over whole controller calls:
 * per-type stock effects, the done guard, and what a failing line leaves behind.
 */
module Validation {
  import opened Results
  import opened Products
  import opened StockOperation
  import opened Ledger
  import opened Operations

  /** Every line of `op` names a product present in `products`. */
  predicate LinesResolve(op: Operation, products: ProductStore) {
    forall i :: 0 <= i < |op.items| ==> op.items[i].product in products
  }

  /** The per-type table of stock effects, summed over lines, in terms of plain quantities. */
  lemma {:induction false} SumEffectByType(t: OpType, items: seq<Item>, p: ProductId)
    ensures SumEffect(t, items, p) == match t
      case Receipt => SumQuantity(items, p)
      case Delivery => -SumQuantity(items, p)
      case Internal => 0
      case Adjustment => SumQuantity(items, p)
    decreases |items|
  {
    if |items| > 0 {
      SumEffectByType(t, items[1..], p);
    }
  }

  /** Receipts and adjustments never check stock, so their loop only stops on a missing product. */
  lemma UncheckedLoopCompletes(op: Operation, products: ProductStore)
    requires op.opType == Receipt || op.opType == Adjustment
    requires LinesResolve(op, products)
    ensures ProcessItems(op, op.items, products).error.None?
  {
    var f := ProcessItems(op, op.items, products);
    assert forall i :: 0 <= i < |op.items| ==> op.items[i].product in f.products;
  }

  /** A second validation of an operation that the first one completed is refused and changes nothing. */
  lemma ValidateTwice(s: State, id: nat)
    requires ValidateOperation(s, id).result.Ok?
    ensures var s' := ValidateOperation(s, id).state;
      ValidateOperation(s', id) == Reply(s', Err(AlreadyValidated))
  {
  }

  /**
   * The guard looks at `done` only: a waiting, ready or even canceled receipt
   * or adjustment whose products exist is validated and becomes done.
   */
  lemma GuardAdmitsEveryOtherStatus(s: State, id: nat)
    requires id < |s.operations|
    requires var op := s.operations[id];
      && op.status != Done
      && (op.opType == Receipt || op.opType == Adjustment)
      && LinesResolve(op, s.products)
    ensures ValidateOperation(s, id).result.Ok?
    ensures ValidateOperation(s, id).result.value.status == Done
  {
    UncheckedLoopCompletes(s.operations[id], s.products);
  }

  /** Validating a receipt raises each product's stock by the sum of its line quantities. */
  lemma ReceiptRaisesStock(s: State, id: nat)
    requires id < |s.operations|
    requires var op := s.operations[id];
      op.status != Done && op.opType == Receipt && LinesResolve(op, s.products)
    ensures var r := ValidateOperation(s, id);
      && r.result.Ok?
      && |r.state.ledger| == |s.ledger| + |s.operations[id].items|
      && forall p :: p in s.products ==>
           r.state.products[p].currentStock == s.products[p].currentStock + SumQuantity(s.operations[id].items, p)
  {
    var op := s.operations[id];
    UncheckedLoopCompletes(op, s.products);
    forall p | p in s.products {
      SumEffectByType(Receipt, op.items, p);
    }
  }

  /** A completed delivery lowers each product's stock by the sum of its line quantities. */
  lemma DeliveryLowersStock(s: State, id: nat)
    requires id < |s.operations| && s.operations[id].opType == Delivery
    requires ValidateOperation(s, id).result.Ok?
    ensures forall p :: p in s.products ==>
      ValidateOperation(s, id).state.products[p].currentStock
        == s.products[p].currentStock - SumQuantity(s.operations[id].items, p)
  {
    forall p | p in s.products {
      SumEffectByType(Delivery, s.operations[id].items, p);
    }
  }

  /** An internal transfer never changes any product, whether it completes or stops on a shortfall. */
  lemma InternalKeepsStock(s: State, id: nat)
    requires id < |s.operations| && s.operations[id].opType == Internal
    ensures ValidateOperation(s, id).state.products == s.products
  {
    var op := s.operations[id];
    if op.status != Done {
      var f := ProcessItems(op, op.items, s.products);
      ProcessItemsStock(op, op.items, s.products);
      forall p | p in s.products ensures f.products[p] == s.products[p] {
        SumEffectByType(Internal, op.items[..f.Processed()], p);
      }
    }
  }

  /**
   * A failing line leaves the operation as stored (not done, no line completed)
   * while the lines before it keep their stock changes and their moves.
   */
  lemma FailureKeepsEarlierLines(s: State, id: nat)
    requires ValidateOperation(s, id).result.Err?
    requires ValidateOperation(s, id).result.error !in {OperationNotFound, AlreadyValidated}
    ensures id < |s.operations|
    ensures var r, op := ValidateOperation(s, id), s.operations[id];
      && r.state.operations == s.operations
      && exists k :: 0 <= k < |op.items|
           && |r.state.ledger| == |s.ledger| + k
           && (forall p :: p in s.products ==>
                 r.state.products[p].currentStock == s.products[p].currentStock + SumEffect(op.opType, op.items[..k], p))
           && ApplyItem(op, r.state.products, op.items[k]).Failed?
  {
    var op := s.operations[id];
    var f := ProcessItems(op, op.items, s.products);
    assert f.error.Some?;
    ProcessItemsStock(op, op.items, s.products);
    var k := f.Processed();
    assert |ValidateOperation(s, id).state.ledger| == |s.ledger| + k;
  }

  /** A delivery whose first line asks for more than the stock fails at once and changes nothing. */
  lemma DeliveryShortfall(s: State, id: nat)
    requires id < |s.operations|
    requires var op := s.operations[id];
      && op.status != Done && op.opType == Delivery && |op.items| > 0
      && op.items[0].product in s.products
      && s.products[op.items[0].product].currentStock < op.items[0].quantity
    ensures var op, p := s.operations[id], s.products[s.operations[id].items[0].product];
      ValidateOperation(s, id)
        == Reply(s, Err(InsufficientStock(p.name, p.currentStock, op.items[0].quantity)))
  {
    var op := s.operations[id];
    assert ProcessItems(op, op.items, s.products) == Fold(s.products, [], Some(InsufficientStock(s.products[op.items[0].product].name, s.products[op.items[0].product].currentStock, op.items[0].quantity)));
  }

  /**
   * An adjustment line carrying `counted - stock`, the difference the stock
   * count form submits, lands the product's stock exactly on `counted`.
   */
  lemma AdjustmentLandsOnCount(s: State, id: nat, counted: int)
    requires id < |s.operations|
    requires var op := s.operations[id];
      && op.status != Done && op.opType == Adjustment && |op.items| == 1
      && op.items[0].product in s.products
      && op.items[0].quantity == counted - s.products[op.items[0].product].currentStock
    ensures var r := ValidateOperation(s, id);
      && r.result.Ok?
      && r.state.products[s.operations[id].items[0].product].currentStock == counted
  {
    var op := s.operations[id];
    UncheckedLoopCompletes(op, s.products);
    assert op.items[..1] == op.items;
  }
}
