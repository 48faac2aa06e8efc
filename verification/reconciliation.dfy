/**
 * The ledger as the audit trail of stock: every product's cached stock equals
 * the sum of its non-transfer moves, and its newest move snapshots that stock.
 * Both facts survive every controller action, a validation that fails
 * half-way included.
 */
module Reconciliation {
  import opened Results
  import opened Products
  import opened StockOperation
  import opened Ledger
  import opened Operations

  /** Cached stock agrees with the stock re-derived from the ledger. */
  predicate Reconciled(products: ProductStore, log: Log) {
    forall p :: p in products ==> products[p].currentStock == Balance(log, p)
  }

  /** The newest move of each product records the product's current stock. */
  predicate Snapshots(products: ProductStore, log: Log) {
    forall p :: p in products && Mentions(log, p) ==> LastSnapshot(log, p) == Some(products[p].currentStock)
  }

  predicate Agree(products: ProductStore, log: Log) {
    Reconciled(products, log) && Snapshots(products, log)
  }

  predicate Consistent(s: State) {
    Agree(s.products, s.ledger)
  }

  /** Only the moves of internal transfers carry the transfer label. */
  lemma LabelMarksTransfers(t: OpType, ref: string, m: Move)
    requires m.description == Label(t) + ref
    ensures IsTransfer(m) <==> t == Internal
  {
    var d := m.description;
    if t != Internal {
      assert d[0] == Label(t)[0];
      assert |TransferLabel| > 0 && TransferLabel[0] == 'I';
    } else {
      assert d[..|TransferLabel|] == TransferLabel;
    }
  }

  /** One completed line keeps both facts. */
  lemma ApplyItemConsistent(op: Operation, products: ProductStore, log: Log, item: Item)
    requires Agree(products, log)
    requires ApplyItem(op, products, item).Applied?
    ensures var r := ApplyItem(op, products, item); Agree(r.products, log + [r.move])
  {
    var r := ApplyItem(op, products, item);
    var m := r.move;
    ApplyItemMove(op, products, item);
    LabelMarksTransfers(op.opType, op.reference, m);
    forall p | p in r.products
      ensures r.products[p].currentStock == Balance(log + [m], p)
      ensures Mentions(log + [m], p) ==> LastSnapshot(log + [m], p) == Some(r.products[p].currentStock)
    {
      AppendBalance(log, m, p);
      if p != m.product {
        assert Mentions(log + [m], p) ==> Mentions(log, p) by {
          if Mentions(log + [m], p) {
            var i :| 0 <= i < |log + [m]| && (log + [m])[i].product == p;
            assert log[i].product == p;
          }
        }
      }
    }
  }

  /** The whole item loop keeps both facts over the moves it appended, wherever it stopped. */
  lemma {:induction false} ProcessItemsConsistent(op: Operation, items: seq<Item>, products: ProductStore, log: Log)
    requires Agree(products, log)
    ensures var f := ProcessItems(op, items, products); Agree(f.products, log + f.moves)
    decreases |items|
  {
    if |items| == 0 || ApplyItem(op, products, items[0]).Failed? {
      LoopStopsAtOnce(op, items, products, log);
    } else {
      var step := ApplyItem(op, products, items[0]);
      ApplyItemConsistent(op, products, log, items[0]);
      ProcessItemsConsistent(op, items[1..], step.products, log + [step.move]);
      LoopUnfolds(op, items, products, log);
    }
  }

  /** A loop that stops before its first line appends nothing and changes nothing. */
  lemma LoopStopsAtOnce(op: Operation, items: seq<Item>, products: ProductStore, log: Log)
    requires |items| == 0 || ApplyItem(op, products, items[0]).Failed?
    ensures var f := ProcessItems(op, items, products);
      f.products == products && log + f.moves == log
  {
  }

  /** A loop whose first line completes continues from that line's stores. */
  lemma LoopUnfolds(op: Operation, items: seq<Item>, products: ProductStore, log: Log)
    requires |items| > 0 && ApplyItem(op, products, items[0]).Applied?
    ensures var f, step := ProcessItems(op, items, products), ApplyItem(op, products, items[0]);
      var f' := ProcessItems(op, items[1..], step.products);
      f.products == f'.products && log + f.moves == (log + [step.move]) + f'.moves
  {
  }

  /** Validation keeps the ledger and the stock in agreement, whatever its outcome. */
  lemma ValidateConsistent(s: State, id: nat)
    requires Consistent(s)
    ensures Consistent(ValidateOperation(s, id).state)
  {
    if id < |s.operations| && s.operations[id].status != Done {
      ProcessItemsConsistent(s.operations[id], s.operations[id].items, s.products, s.ledger);
    }
  }

  /** Creating and editing operations touch neither products nor the ledger. */
  lemma EditingConsistent(s: State, typeName: string, partner: string, items: Option<seq<ItemInput>>, id: nat)
    requires Consistent(s)
    ensures CreateOperation(s, typeName, partner, items).Ok? ==>
      Consistent(CreateOperation(s, typeName, partner, items).value)
    ensures UpdateOperation(s, id, partner, items).Ok? ==>
      Consistent(UpdateOperation(s, id, partner, items).value)
  {
  }

  /**
   * The product controller keeps both facts: updates never touch stock,
   * deletion only drops a product, and a new product starts at 0 under an
   * identifier no move has ever named (database identifiers are never reused).
   */
  lemma ProductActionsConsistent(s: State, id: ProductId, body: ProductBody)
    requires Consistent(s)
    ensures !Mentions(s.ledger, id) && CreateProduct(s.products, id, body).Ok? ==>
      Consistent(s.(products := CreateProduct(s.products, id, body).value))
    ensures UpdateProduct(s.products, id, body).Ok? ==>
      Consistent(s.(products := UpdateProduct(s.products, id, body).value))
    ensures DeleteProduct(s.products, id).Ok? ==>
      Consistent(s.(products := DeleteProduct(s.products, id).value))
  {
    if !Mentions(s.ledger, id) {
      UnmentionedBalance(s.ledger, id);
    }
  }
}
