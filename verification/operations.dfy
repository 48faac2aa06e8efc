/**
 * The stock-operation controller: creating and editing draft operations, and
 * validating an operation, which folds over its lines, updating product stock
 * and appending one ledger move per line.
 */
module Operations {
  import opened Results
  import opened Products
  import opened StockOperation
  import opened Reference
  import opened Ledger

  /** The three stores; an operation's id is its position in creation order. */
  datatype State = State(products: ProductStore, operations: seq<Operation>, ledger: Log)

  datatype OpError =
    | OperationNotFound                         // 404 "Operation not found"
    | MissingTypeOrItems                        // 400 "type and at least one item are required"
    | PartnerRequired                           // 400 "partner is required for this operation type"
    | SchemaInvalid                             // 400 the schema rejects the type or a line
    | DuplicateReference                        // 400 the unique index on `reference` rejects the insert
    | NotDraft                                  // 400 "Cannot edit non-draft operations"
    | AlreadyValidated                          // 400 "Operation already validated"
    | ProductMissing                            // 500 a line names a product that is gone
    | InsufficientStock(name: string, available: int, requested: int)  // 500, delivery
    | InsufficientForTransfer(name: string)     // 500, internal transfer

  /** A line as a request body sends it; `None` marks an undefined field. */
  datatype ItemInput = ItemInput(product: Option<ProductId>, quantity: Option<int>, doneQuantity: Option<int>)

  // ---------------------------------------------------------------------------
  // Creating and editing
  // ---------------------------------------------------------------------------

  /**
   * The lines the schema stores for a body's lines: every line needs a product
   * and a quantity. On creation `doneQuantity` is forced to 0; on an edit it
   * is kept when sent and defaults to 0 otherwise.
   */
  function BuildItems(inputs: seq<ItemInput>, creating: bool): (r: Option<seq<Item>>)
    ensures r.Some? <==> forall i :: 0 <= i < |inputs| ==> inputs[i].product.Some? && inputs[i].quantity.Some?
    ensures r.Some? ==> |r.value| == |inputs|
    ensures r.Some? ==> forall i :: 0 <= i < |inputs| ==>
      && r.value[i].product == inputs[i].product.value
      && r.value[i].quantity == inputs[i].quantity.value
      && r.value[i].doneQuantity == if creating then 0 else IfDefined(inputs[i].doneQuantity, 0)
    decreases |inputs|
  {
    if |inputs| == 0 then Some([])
    else
      var head := inputs[0];
      var rest := BuildItems(inputs[1..], creating);
      if head.product.None? || head.quantity.None? || rest.None? then
        assert rest.None? ==> exists i :: 0 <= i < |inputs[1..]| && !(inputs[1..][i].product.Some? && inputs[1..][i].quantity.Some?);
        None
      else
        var done := if creating then 0 else IfDefined(head.doneQuantity, 0);
        Some([Item(head.product.value, head.quantity.value, done)] + rest.value)
  }

  predicate NeedsPartner(typeName: string) {
    typeName == "receipt" || typeName == "delivery"
  }

  /** Some stored operation already carries `ref`. */
  predicate ReferenceTaken(ops: seq<Operation>, ref: string) {
    exists i :: 0 <= i < |ops| && ops[i].reference == ref
  }

  /** The unique index on `reference`: no two stored operations share one. */
  predicate UniqueReferences(ops: seq<Operation>) {
    forall i, j :: 0 <= i < j < |ops| ==> ops[i].reference != ops[j].reference
  }

  /**
   * `createOperation`: the handler's own checks, then the schema's, then the
   * pre-save hook stamps the reference, and the unique index refuses a
   * reference already stored; otherwise the draft is appended to the store.
   */
  function CreateOperation(s: State, typeName: string, partner: string, items: Option<seq<ItemInput>>)
    : (r: Result<State, OpError>)
    ensures r == Err(MissingTypeOrItems) <==> typeName == "" || items.None? || |items.value| == 0
    ensures r == Err(PartnerRequired) <==>
      !(typeName == "" || items.None? || |items.value| == 0) && NeedsPartner(typeName) && partner == ""
    ensures r == Err(DuplicateReference) <==>
      && typeName != "" && items.Some? && |items.value| > 0
      && !(NeedsPartner(typeName) && partner == "")
      && ParseType(typeName).Some?
      && (forall i :: 0 <= i < |items.value| ==> items.value[i].product.Some? && items.value[i].quantity.Some?)
      && ReferenceTaken(s.operations, Generate(s.operations, typeName))
    ensures r.Ok? <==>
      && typeName != "" && items.Some? && |items.value| > 0
      && !(NeedsPartner(typeName) && partner == "")
      && ParseType(typeName).Some?
      && (forall i :: 0 <= i < |items.value| ==> items.value[i].product.Some? && items.value[i].quantity.Some?)
      && !ReferenceTaken(s.operations, Generate(s.operations, typeName))
    ensures r.Ok? ==>
      && r.value.products == s.products && r.value.ledger == s.ledger
      && |r.value.operations| == |s.operations| + 1
      && r.value.operations[..|s.operations|] == s.operations
      && var op := r.value.operations[|s.operations|];
      && op.status == Draft && TypeName(op.opType) == typeName && op.partner == partner
      && op.sourceLocation == "Vendor" && op.destinationLocation == "WH/Stock"
      && op.reference == Generate(s.operations, typeName)
      && |op.items| == |items.value|
      && forall i :: 0 <= i < |op.items| ==>
           && op.items[i].product == items.value[i].product.value
           && op.items[i].quantity == items.value[i].quantity.value
           && op.items[i].doneQuantity == 0
  {
    if typeName == "" || items.None? || |items.value| == 0 then Err(MissingTypeOrItems)
    else if NeedsPartner(typeName) && partner == "" then Err(PartnerRequired)
    else
      match (ParseType(typeName), BuildItems(items.value, true))
      case (Some(t), Some(lines)) =>
        var op := PreSave(NewOperation(t, partner, lines), true, s.operations);
        if ReferenceTaken(s.operations, op.reference) then Err(DuplicateReference)
        else
          assert (s.operations + [op])[..|s.operations|] == s.operations;
          Ok(s.(operations := s.operations + [op]))
      case _ => Err(SchemaInvalid)
  }

  /**
   * `updateOperation`: only a draft may be edited; a non-empty partner and a
   * sent list of lines replace the stored ones, nothing else changes.
   */
  function UpdateOperation(s: State, id: nat, partner: string, items: Option<seq<ItemInput>>)
    : (r: Result<State, OpError>)
    ensures r == Err(OperationNotFound) <==> id >= |s.operations|
    ensures r == Err(NotDraft) <==> id < |s.operations| && s.operations[id].status != Draft
    ensures r.Ok? <==>
      && id < |s.operations| && s.operations[id].status == Draft
      && (items.Some? ==> forall i :: 0 <= i < |items.value| ==>
            items.value[i].product.Some? && items.value[i].quantity.Some?)
    ensures r.Ok? ==>
      && id < |s.operations| && s.operations[id].status == Draft
      && r.value.products == s.products && r.value.ledger == s.ledger
      && |r.value.operations| == |s.operations|
      && (forall j :: 0 <= j < |s.operations| && j != id ==> r.value.operations[j] == s.operations[j])
      && var before, after := s.operations[id], r.value.operations[id];
      && after.reference == before.reference && after.opType == before.opType
      && after.status == Draft
      && after.sourceLocation == before.sourceLocation
      && after.destinationLocation == before.destinationLocation
      && after.partner == (if partner != "" then partner else before.partner)
      && (items.None? ==> after.items == before.items)
      && (items.Some? ==> BuildItems(items.value, false) == Some(after.items))
  {
    if id >= |s.operations| then Err(OperationNotFound)
    else
      var op := s.operations[id];
      if op.status != Draft then Err(NotDraft)
      else
        var lines := if items.Some? then BuildItems(items.value, false) else Some(op.items);
        if lines.None? then Err(SchemaInvalid)
        else
          var edited := op.(partner := if partner != "" then partner else op.partner, items := lines.value);
          Ok(s.(operations := s.operations[id := edited]))
  }

  // ---------------------------------------------------------------------------
  // Validation, one line at a time
  // ---------------------------------------------------------------------------

  /** The change a line makes to its product's stock: the reference table of the four branches. */
  function Effect(t: OpType, q: int): int {
    match t
    case Receipt => q
    case Delivery => -q
    case Internal => 0
    case Adjustment => q
  }

  /** `s || fallback` on a stored location string. */
  function Fallback(s: string, fallback: string): string {
    if s != "" then s else fallback
  }

  /** The label that opens the description of every move a type writes. */
  function Label(t: OpType): string {
    match t
    case Receipt => "Receipt "
    case Delivery => "Delivery "
    case Internal => TransferLabel
    case Adjustment => "Adjustment "
  }

  /** Only the delivery and internal branches compare stock with the line's quantity. */
  predicate Checked(t: OpType) {
    t == Delivery || t == Internal
  }

  /**
   * What the move of a completed line records: its product and reference, the
   * type's label, the quantity (negated for a delivery) and the locations of
   * the type's branch.
   */
  predicate Records(op: Operation, item: Item, m: Move) {
    var q := item.quantity;
    && m.product == item.product && m.reference == op.reference
    && m.description == Label(op.opType) + op.reference
    && m.quantity == (if op.opType == Delivery then -q else q)
    && match op.opType
       case Receipt =>
         m.locationFrom == op.sourceLocation && m.locationTo == op.destinationLocation
       case Delivery =>
         m.locationFrom == Fallback(op.sourceLocation, "WH/Stock")
         && m.locationTo == Fallback(op.destinationLocation, "Customer")
       case Internal =>
         m.locationFrom == Fallback(op.sourceLocation, "WH/Stock")
         && m.locationTo == Fallback(op.destinationLocation, "WH/Production")
       case Adjustment =>
         (q >= 0 ==> m.locationFrom == "Virtual/Adjustment" && m.locationTo == "WH/Stock")
         && (q < 0 ==> m.locationFrom == "WH/Stock" && m.locationTo == "Virtual/Adjustment")
  }

  datatype Step = Applied(products: ProductStore, move: Move) | Failed(error: OpError)

  /**
   * One line of the loop: re-read the product, check stock where the type
   * requires it, save the new stock and build the move to append.
   */
  function ApplyItem(op: Operation, products: ProductStore, item: Item): (r: Step)
    ensures r.Failed? <==>
      item.product !in products || (Checked(op.opType) && products[item.product].currentStock < item.quantity)
    ensures r.Applied? ==>
      && var p := item.product;
      && r.products.Keys == products.Keys
      && (forall k :: k in products && k != p ==> r.products[k] == products[k])
      && r.products[p] == products[p].(currentStock := products[p].currentStock + Effect(op.opType, item.quantity))
      && r.move.product == p && r.move.reference == op.reference
  {
    if item.product !in products then Failed(ProductMissing)
    else
      var id, p, q := item.product, products[item.product], item.quantity;
      var ref := op.reference;
      match op.opType
      case Receipt =>
        var n := p.currentStock + q;
        Applied(products[id := p.(currentStock := n)],
                Move(id, Label(Receipt) + ref, ref, q, op.sourceLocation, op.destinationLocation, n))
      case Delivery =>
        if p.currentStock < q then Failed(InsufficientStock(p.name, p.currentStock, q))
        else
          var n := p.currentStock - q;
          Applied(products[id := p.(currentStock := n)],
                  Move(id, Label(Delivery) + ref, ref, -q,
                       Fallback(op.sourceLocation, "WH/Stock"), Fallback(op.destinationLocation, "Customer"), n))
      case Internal =>
        if p.currentStock < q then Failed(InsufficientForTransfer(p.name))
        else
          assert products[id := p.(currentStock := p.currentStock)] == products;
          Applied(products,
                  Move(id, Label(Internal) + ref, ref, q,
                       Fallback(op.sourceLocation, "WH/Stock"), Fallback(op.destinationLocation, "WH/Production"),
                       p.currentStock))
      case Adjustment =>
        var n := p.currentStock + q;
        Applied(products[id := p.(currentStock := n)],
                Move(id, Label(Adjustment) + ref, ref, q,
                     if q >= 0 then "Virtual/Adjustment" else "WH/Stock",
                     if q >= 0 then "WH/Stock" else "Virtual/Adjustment", n))
  }

  /** Why a line fails: a missing product, or the shortfall the error message reports. */
  lemma ApplyItemFailure(op: Operation, products: ProductStore, item: Item)
    requires ApplyItem(op, products, item).Failed?
    ensures item.product !in products ==> ApplyItem(op, products, item).error == ProductMissing
    ensures item.product in products ==>
      && var p := products[item.product];
      && Checked(op.opType) && p.currentStock < item.quantity
      && ApplyItem(op, products, item).error
         == if op.opType == Delivery then InsufficientStock(p.name, p.currentStock, item.quantity)
            else InsufficientForTransfer(p.name)
  {
  }

  /**
   * The move a completed line appends records the line, with the product's
   * stock after it as snapshot; a delivery never snapshots a negative stock
   * and a transfer snapshots the stock it found.
   */
  lemma ApplyItemMove(op: Operation, products: ProductStore, item: Item)
    requires ApplyItem(op, products, item).Applied?
    ensures var r := ApplyItem(op, products, item);
      && Records(op, item, r.move)
      && r.move.balanceAfter == r.products[item.product].currentStock
      && (op.opType == Delivery ==> r.move.balanceAfter >= 0)
      && (op.opType == Internal ==> r.move.balanceAfter == products[item.product].currentStock)
  {
  }

  /** The summed effect of some lines on product `p`. */
  function SumEffect(t: OpType, items: seq<Item>, p: ProductId): int
    decreases |items|
  {
    if |items| == 0 then 0
    else (if items[0].product == p then Effect(t, items[0].quantity) else 0) + SumEffect(t, items[1..], p)
  }

  /** Splitting the first line off a prefix of the lines. */
  lemma SumEffectStep(t: OpType, items: seq<Item>, k: nat)
    requires k < |items|
    ensures forall p ::
      SumEffect(t, items[..k + 1], p) == (if items[0].product == p then Effect(t, items[0].quantity) else 0) + SumEffect(t, items[1..][..k], p)
  {
    assert items[..k + 1][1..] == items[1..][..k];
  }

  /** Adding one line at the end of some lines. */
  lemma {:induction false} SumEffectSnoc(t: OpType, items: seq<Item>, x: Item, p: ProductId)
    ensures SumEffect(t, items + [x], p) == SumEffect(t, items, p) + (if x.product == p then Effect(t, x.quantity) else 0)
    decreases |items|
  {
    if |items| == 0 {
      assert items + [x] == [x];
    } else {
      assert (items + [x])[1..] == items[1..] + [x];
      SumEffectSnoc(t, items[1..], x, p);
    }
  }

  /** Lines after the `i`-th that name other products add nothing for `p`. */
  lemma {:induction false} SumEffectUntouched(t: OpType, items: seq<Item>, p: ProductId, i: nat, k: nat)
    requires i < k <= |items|
    requires forall j :: i < j < k ==> items[j].product != p
    ensures SumEffect(t, items[..k], p) == SumEffect(t, items[..i + 1], p)
    decreases k
  {
    if k > i + 1 {
      SumEffectUntouched(t, items, p, i, k - 1);
      assert items[..k] == items[..k - 1] + [items[k - 1]];
      SumEffectSnoc(t, items[..k - 1], items[k - 1], p);
    }
  }

  /** The summed quantities of the lines naming product `p`. */
  function SumQuantity(items: seq<Item>, p: ProductId): int
    decreases |items|
  {
    if |items| == 0 then 0
    else (if items[0].product == p then items[0].quantity else 0) + SumQuantity(items[1..], p)
  }

  /** Where the loop stopped: the products it left behind, the moves it appended, and why it stopped early. */
  datatype Fold = Fold(products: ProductStore, moves: seq<Move>, error: Option<OpError>) {
    /** How many lines the loop got through: each completed line appended one move. */
    function Processed(): nat { |moves| }
  }

  /**
   * The item loop. Each line sees the stock left by the lines before it; the
   * first failing line stops the loop, and nothing already saved is undone.
   */
  function ProcessItems(op: Operation, items: seq<Item>, products: ProductStore): (f: Fold)
    ensures f.Processed() <= |items|
    ensures f.error.None? ==> f.Processed() == |items|
    ensures f.error.Some? ==>
      f.Processed() < |items| && ApplyItem(op, f.products, items[f.Processed()]) == Failed(f.error.value)
    ensures forall i :: 0 <= i < |f.moves| ==>
      f.moves[i].product == items[i].product && f.moves[i].reference == op.reference
    ensures f.products.Keys == products.Keys
    decreases |items|
  {
    if |items| == 0 then Fold(products, [], None)
    else
      match ApplyItem(op, products, items[0])
      case Failed(e) => Fold(products, [], Some(e))
      case Applied(products', m) =>
        var f := ProcessItems(op, items[1..], products');
        Fold(f.products, [m] + f.moves, f.error)
  }

  /** What the loop did to stock: each product moved by the summed effect of the lines it got through. */
  lemma {:induction false} ProcessItemsStock(op: Operation, items: seq<Item>, products: ProductStore)
    ensures var f := ProcessItems(op, items, products);
      forall p :: p in products ==>
        f.products[p] == products[p].(currentStock := products[p].currentStock + SumEffect(op.opType, items[..|f.moves|], p))
    decreases |items|
  {
    if |items| > 0 && ApplyItem(op, products, items[0]).Applied? {
      var step := ApplyItem(op, products, items[0]);
      var rest := ProcessItems(op, items[1..], step.products);
      ProcessItemsStock(op, items[1..], step.products);
      SumEffectStep(op.opType, items, |rest.moves|);
      var f := ProcessItems(op, items, products);
      assert f.products == rest.products && |f.moves| == |rest.moves| + 1;
      forall p | p in products
        ensures f.products[p]
          == products[p].(currentStock := products[p].currentStock + SumEffect(op.opType, items[..|f.moves|], p))
      {
        var head := if items[0].product == p then Effect(op.opType, items[0].quantity) else 0;
        assert step.products[p] == products[p].(currentStock := products[p].currentStock + head);
        assert SumEffect(op.opType, items[..|f.moves|], p) == head + SumEffect(op.opType, items[1..][..|rest.moves|], p);
      }
    }
  }

  /** What the loop appended: the `i`-th move records the `i`-th line. */
  lemma {:induction false} ProcessItemsRecords(op: Operation, items: seq<Item>, products: ProductStore)
    ensures var f := ProcessItems(op, items, products);
      forall i :: 0 <= i < |f.moves| ==> Records(op, items[i], f.moves[i])
    decreases |items|
  {
    if |items| > 0 && ApplyItem(op, products, items[0]).Applied? {
      var step := ApplyItem(op, products, items[0]);
      ApplyItemMove(op, products, items[0]);
      ProcessItemsRecords(op, items[1..], step.products);
      var rest := ProcessItems(op, items[1..], step.products);
      assert ProcessItems(op, items, products).moves == [step.move] + rest.moves;
      RecordsPrepend(op, items, step.move, rest.moves);
    }
  }

  /** Moves recording lines `1..` stay aligned once the move recording line 0 is put in front. */
  lemma RecordsPrepend(op: Operation, items: seq<Item>, m: Move, rest: seq<Move>)
    requires 0 < |items| && |rest| < |items| && Records(op, items[0], m)
    requires forall i :: 0 <= i < |rest| ==> Records(op, items[1..][i], rest[i])
    ensures forall i :: 0 <= i < |rest| + 1 ==> Records(op, items[i], ([m] + rest)[i])
  {
    forall i | 1 <= i < |rest| + 1 ensures Records(op, items[i], ([m] + rest)[i]) {
      assert ([m] + rest)[i] == rest[i - 1] && items[1..][i - 1] == items[i];
    }
  }

  /** A completed line's move snapshots its product's new stock. */
  lemma ApplyItemSnapshot(op: Operation, products: ProductStore, item: Item)
    requires ApplyItem(op, products, item).Applied?
    ensures ApplyItem(op, products, item).move.balanceAfter
      == ApplyItem(op, products, item).products[item.product].currentStock
  {
  }

  /**
   * The snapshot each appended move carries: the stock its product reached
   * after the lines up to and including that move's line.
   */
  lemma {:induction false} ProcessItemsBalances(op: Operation, items: seq<Item>, products: ProductStore)
    ensures var f := ProcessItems(op, items, products);
      forall i :: 0 <= i < |f.moves| ==>
        && items[i].product in products
        && f.moves[i].balanceAfter
           == products[items[i].product].currentStock + SumEffect(op.opType, items[..i + 1], items[i].product)
    decreases |items|
  {
    if |items| > 0 && ApplyItem(op, products, items[0]).Applied? {
      var step := ApplyItem(op, products, items[0]);
      ApplyItemSnapshot(op, products, items[0]);
      ProcessItemsBalances(op, items[1..], step.products);
      var rest := ProcessItems(op, items[1..], step.products);
      assert ProcessItems(op, items, products).moves == [step.move] + rest.moves;
      assert forall k :: k in products ==>
        step.products[k].currentStock
          == products[k].currentStock + (if items[0].product == k then Effect(op.opType, items[0].quantity) else 0);
      BalancesPrepend(op.opType, items, products, step.products, step.move, rest.moves);
    }
  }

  /**
   * Running-stock snapshots of lines `1..`, taken from the stores after line 0,
   * become running-stock snapshots of all lines once line 0's move is in front.
   */
  lemma BalancesPrepend(t: OpType, items: seq<Item>, products: ProductStore, next: ProductStore, m: Move, rest: seq<Move>)
    requires 0 < |items| && |rest| < |items| && items[0].product in products && next.Keys == products.Keys
    requires forall k :: k in products ==>
      next[k].currentStock == products[k].currentStock + (if items[0].product == k then Effect(t, items[0].quantity) else 0)
    requires m.balanceAfter == next[items[0].product].currentStock
    requires forall i :: 0 <= i < |rest| ==>
      && items[1..][i].product in next
      && rest[i].balanceAfter == next[items[1..][i].product].currentStock + SumEffect(t, items[1..][..i + 1], items[1..][i].product)
    ensures forall i :: 0 <= i < |rest| + 1 ==>
      && items[i].product in products
      && ([m] + rest)[i].balanceAfter == products[items[i].product].currentStock + SumEffect(t, items[..i + 1], items[i].product)
  {
    forall i | 0 <= i < |rest| + 1
      ensures && items[i].product in products
              && ([m] + rest)[i].balanceAfter == products[items[i].product].currentStock + SumEffect(t, items[..i + 1], items[i].product)
    {
      SumEffectStep(t, items, i);
      if i == 0 {
        assert SumEffect(t, items[1..][..0], items[0].product) == 0;
      } else {
        assert ([m] + rest)[i] == rest[i - 1] && items[1..][i - 1] == items[i];
      }
    }
  }

  /**
   * The newest move of `p` among moves that each snapshot the running stock
   * of the line they record carries the stock after all of those lines.
   */
  lemma {:induction false} SnapshotOfNewest(t: OpType, items: seq<Item>, moves: seq<Move>, p: ProductId, base: int, final: int)
    requires |moves| <= |items| && Mentions(moves, p)
    requires forall j :: 0 <= j < |moves| ==> moves[j].product == items[j].product
    requires forall i :: 0 <= i < |moves| && items[i].product == p ==>
      moves[i].balanceAfter == base + SumEffect(t, items[..i + 1], p)
    requires final == base + SumEffect(t, items[..|moves|], p)
    ensures LastSnapshot(moves, p) == Some(final)
  {
    var i :| && 0 <= i < |moves| && moves[i].product == p && moves[i].balanceAfter == LastSnapshot(moves, p).value
             && forall j :: i < j < |moves| ==> moves[j].product != p;
    SumEffectUntouched(t, items, p, i, |moves|);
  }

  /** After the loop, the newest move of each product it touched snapshots that product's final stock. */
  lemma {:induction false} ProcessItemsSnapshots(op: Operation, items: seq<Item>, products: ProductStore)
    ensures var f := ProcessItems(op, items, products);
      forall p :: p in products && Mentions(f.moves, p) ==> LastSnapshot(f.moves, p) == Some(f.products[p].currentStock)
  {
    var f := ProcessItems(op, items, products);
    ProcessItemsStock(op, items, products);
    ProcessItemsBalances(op, items, products);
    forall p | p in products && Mentions(f.moves, p)
      ensures LastSnapshot(f.moves, p) == Some(f.products[p].currentStock)
    {
      assert f.products[p].currentStock == products[p].currentStock + SumEffect(op.opType, items[..|f.moves|], p);
      SnapshotOfNewest(op.opType, items, f.moves, p, products[p].currentStock, f.products[p].currentStock);
    }
  }

  /** Every line of an operation once validation completed it. */
  function Completed(items: seq<Item>): (r: seq<Item>)
    ensures |r| == |items|
    ensures forall i :: 0 <= i < |items| ==>
      r[i].product == items[i].product && r[i].quantity == items[i].quantity && r[i].doneQuantity == items[i].quantity
  {
    seq(|items|, i requires 0 <= i < |items| => items[i].(doneQuantity := items[i].quantity))
  }

  /** A controller reply together with the stores it leaves behind. */
  datatype Reply = Reply(state: State, result: Result<Operation, OpError>)

  /**
   * `validateOperation`. The only guard is `status == done`. A failing line
   * leaves the effects of the lines before it in place and the operation as
   * stored; otherwise the operation is marked done with every line completed.
   */
  function ValidateOperation(s: State, id: nat): (r: Reply)
    ensures id >= |s.operations| ==> r == Reply(s, Err(OperationNotFound))
    ensures id < |s.operations| && s.operations[id].status == Done ==> r == Reply(s, Err(AlreadyValidated))
    ensures r.state.products.Keys == s.products.Keys
    ensures |r.state.ledger| >= |s.ledger| && r.state.ledger[..|s.ledger|] == s.ledger
    ensures r.result.Err? ==> r.state.operations == s.operations
    ensures r.result.Ok? ==>
      && id < |s.operations| && s.operations[id].status != Done
      && var before, after := s.operations[id], r.result.value;
      && r.state.operations == s.operations[id := after]
      && after == before.(status := Done, items := Completed(before.items))
      && |r.state.ledger| == |s.ledger| + |before.items|
      && forall p :: p in s.products ==>
           r.state.products[p].currentStock
             == s.products[p].currentStock + SumEffect(before.opType, before.items, p)
  {
    if id >= |s.operations| then Reply(s, Err(OperationNotFound))
    else
      var op := s.operations[id];
      if op.status == Done then Reply(s, Err(AlreadyValidated))
      else
        var f := ProcessItems(op, op.items, s.products);
        assert (s.ledger + f.moves)[..|s.ledger|] == s.ledger;
        if f.error.Some? then
          Reply(State(f.products, s.operations, s.ledger + f.moves), Err(f.error.value))
        else
          assert op.items[..|f.moves|] == op.items;
          ProcessItemsStock(op, op.items, s.products);
          var done := op.(status := Done, items := Completed(op.items));
          Reply(State(f.products, s.operations[id := done], s.ledger + f.moves), Ok(done))
  }

  /**
   * What validation writes to the ledger, whatever its outcome: the `i`-th
   * appended move records the operation's `i`-th line with the stock its
   * product reached after that line, and the newest appended move of each
   * product snapshots the product's stock as validation left it.
   */
  lemma {:induction false} ValidateMoves(s: State, id: nat)
    ensures var r := ValidateOperation(s, id);
      |r.state.ledger| > |s.ledger| ==>
      && id < |s.operations|
      && var op, added := s.operations[id], r.state.ledger[|s.ledger|..];
      && |added| <= |op.items|
      && (forall i :: 0 <= i < |added| ==>
            && Records(op, op.items[i], added[i])
            && op.items[i].product in s.products
            && added[i].balanceAfter
               == s.products[op.items[i].product].currentStock + SumEffect(op.opType, op.items[..i + 1], op.items[i].product))
      && forall p :: p in s.products && Mentions(added, p) ==>
           LastSnapshot(added, p) == Some(r.state.products[p].currentStock)
  {
    if id < |s.operations| && s.operations[id].status != Done {
      var op := s.operations[id];
      var f := ProcessItems(op, op.items, s.products);
      assert (s.ledger + f.moves)[|s.ledger|..] == f.moves;
      ProcessItemsRecords(op, op.items, s.products);
      ProcessItemsBalances(op, op.items, s.products);
      ProcessItemsSnapshots(op, op.items, s.products);
    }
  }

  /** Creating, editing and validating operations never store two operations under one reference. */
  lemma {:induction false} ReferencesStayUnique(
    s: State, typeName: string, partner: string, items: Option<seq<ItemInput>>, id: nat)
    requires UniqueReferences(s.operations)
    ensures var r := CreateOperation(s, typeName, partner, items);
      r.Ok? ==> UniqueReferences(r.value.operations)
    ensures var r := UpdateOperation(s, id, partner, items);
      r.Ok? ==> UniqueReferences(r.value.operations)
    ensures UniqueReferences(ValidateOperation(s, id).state.operations)
  {
    var c := CreateOperation(s, typeName, partner, items);
    if c.Ok? {
      var ops := c.value.operations;
      assert ops == s.operations + [ops[|s.operations|]];
      AppendFresh(s.operations, ops[|s.operations|]);
    }
    var u := UpdateOperation(s, id, partner, items);
    if u.Ok? {
      SameReferences(s.operations, u.value.operations);
    }
    SameReferences(s.operations, ValidateOperation(s, id).state.operations);
  }

  /** Appending an operation under a reference not yet taken keeps references unique. */
  lemma AppendFresh(ops: seq<Operation>, op: Operation)
    requires UniqueReferences(ops) && !ReferenceTaken(ops, op.reference)
    ensures UniqueReferences(ops + [op])
  {
    var all := ops + [op];
    forall i, j | 0 <= i < j < |all| ensures all[i].reference != all[j].reference {
      assert all[i] == ops[i];
      if j < |ops| {
        assert all[j] == ops[j];
      }
    }
  }

  /** Rewriting operations in place without touching their references keeps references unique. */
  lemma SameReferences(ops: seq<Operation>, ops': seq<Operation>)
    requires UniqueReferences(ops) && |ops'| == |ops|
    requires forall k :: 0 <= k < |ops| ==> ops'[k].reference == ops[k].reference
    ensures UniqueReferences(ops')
  {
  }
}
