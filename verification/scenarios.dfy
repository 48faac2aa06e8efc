/**
 * Concrete runs of the controllers: reference numbering across types, a
 * delivery that empties a product followed by one that cannot be served,
 * a stock count, and the locations a created delivery records.
 */
module Scenarios {
  import opened Results
  import opened Products
  import opened StockOperation
  import opened Reference
  import opened Ledger
  import opened Operations
  import opened Validation

  const Widget: Product := Product("Widget", "WID-1", "Parts", "pcs", "", 2.5, 5, 10)

  function Line(p: ProductId, q: int): seq<ItemInput> {
    [ItemInput(Some(p), Some(q), None)]
  }

  /** A successful creation appends exactly one operation, carrying the generated reference. */
  lemma Created(s: State, typeName: string, partner: string, items: seq<ItemInput>)
    requires CreateOperation(s, typeName, partner, Some(items)).Ok?
    ensures var s' := CreateOperation(s, typeName, partner, Some(items)).value;
      && s'.operations == s.operations + [s'.operations[|s.operations|]]
      && s'.operations[|s.operations|].reference == Generate(s.operations, typeName)
      && TypeName(s'.operations[|s.operations|].opType) == typeName
      && s'.products == s.products && s'.ledger == s.ledger
  {
    var s' := CreateOperation(s, typeName, partner, Some(items)).value;
    assert s'.operations == s'.operations[..|s.operations|] + [s'.operations[|s.operations|]];
  }

  /**
   * Three receipts with a delivery between them, each stamped by the
   * pre-save hook over the operations before it, carry numbers 1, 2, 3; the
   * delivery starts its own count at 1. `Spelled` writes these out as
   * WH/IN/0001, WH/IN/0002, WH/OUT/0001 and WH/IN/0003.
   */
  lemma ReceiptNumbering(a: Operation, b: Operation, c: Operation, d: Operation)
    requires a.opType == Receipt && a.reference == Generate([], "receipt")
    requires b.opType == Receipt && b.reference == Generate([a], "receipt")
    requires c.opType == Delivery && c.reference == Generate([a, b], "delivery")
    requires d.opType == Receipt && d.reference == Generate([a, b, c], "receipt")
    ensures a.reference == Prefix("receipt") + Render(1)
    ensures b.reference == Prefix("receipt") + Render(2)
    ensures c.reference == Prefix("delivery") + Render(1)
    ensures d.reference == Prefix("receipt") + Render(3)
  {
    FirstReceipt(a);
    SecondReceipt(a, b);
    DeliveryStartsOwnCount(a, b, c);
    ThirdReceipt(a, b, c, d);
  }

  lemma FirstReceipt(a: Operation)
    requires a.reference == Generate([], "receipt")
    ensures a.reference == Prefix("receipt") + Render(1)
  {
    assert LastReferenceOfType([], "receipt").None?;
  }

  lemma SecondReceipt(a: Operation, b: Operation)
    requires a.opType == Receipt && a.reference == Prefix("receipt") + Render(1)
    requires b.reference == Generate([a], "receipt")
    ensures b.reference == Prefix("receipt") + Render(2)
  {
    assert [a] == [] + [a];
    NextAfter([], a, 1);
  }

  lemma DeliveryStartsOwnCount(a: Operation, b: Operation, c: Operation)
    requires a.opType == Receipt && b.opType == Receipt
    requires c.reference == Generate([a, b], "delivery")
    ensures c.reference == Prefix("delivery") + Render(1)
  {
    assert LastReferenceOfType([a, b], "delivery").None?;
  }

  lemma ThirdReceipt(a: Operation, b: Operation, c: Operation, d: Operation)
    requires b.opType == Receipt && b.reference == Prefix("receipt") + Render(2)
    requires c.opType == Delivery
    requires d.reference == Generate([a, b, c], "receipt")
    ensures d.reference == Prefix("receipt") + Render(3)
  {
    AfterSecondReceipt(a, b);
    DeliveryIgnored(a, b, c);
  }

  lemma AfterSecondReceipt(a: Operation, b: Operation)
    requires b.opType == Receipt && b.reference == Prefix("receipt") + Render(2)
    ensures Generate([a, b], "receipt") == Prefix("receipt") + Render(3)
  {
    assert [a, b] == [a] + [b];
    NextAfter([a], b, 2);
  }

  lemma DeliveryIgnored(a: Operation, b: Operation, c: Operation)
    requires c.opType == Delivery
    ensures Generate([a, b, c], "receipt") == Generate([a, b], "receipt")
  {
    assert [a, b, c] == [a, b] + [c];
    OtherTypesIgnored([a, b], c, "receipt");
  }

  /** The rendered references of the run, spelled out. */
  lemma Spelled()
    ensures Prefix("receipt") + Render(1) == "WH/IN/0001"
    ensures Prefix("receipt") + Render(2) == "WH/IN/0002"
    ensures Prefix("receipt") + Render(3) == "WH/IN/0003"
    ensures Prefix("delivery") + Render(1) == "WH/OUT/0001"
  {
    RenderSmall(1);
    RenderSmall(2);
    RenderSmall(3);
  }

  lemma RenderSmall(n: nat)
    requires 1 <= n <= 9
    ensures Render(n) == "000" + [DigitChar(n)]
  {
    assert Decimal(n) == [DigitChar(n)];
    assert Zeros(3) == "000";
  }

  /**
   * Stock 10 at threshold 5: delivering 10 empties the product; a second
   * delivery of 1 is stored under the next reference and fails with
   * available 0, requested 1, leaving everything as it was.
   */
  lemma EmptyThenShort()
    ensures var s0 := State(map[0 := Widget], [], []);
      var s1 := CreateOperation(s0, "delivery", "Shop", Some(Line(0, 10))).value;
      var r1 := ValidateOperation(s1, 0);
      var c2 := CreateOperation(r1.state, "delivery", "Shop", Some(Line(0, 1)));
      && r1.result.Ok? && r1.state.products[0].currentStock == 0
      && c2.Ok? && ValidateOperation(c2.value, 1) == Reply(c2.value, Err(InsufficientStock("Widget", 0, 1)))
  {
    EmptyingDelivery();
    var s1 := CreateOperation(State(map[0 := Widget], [], []), "delivery", "Shop", Some(Line(0, 10))).value;
    ShortAfterEmptying(ValidateOperation(s1, 0).state);
  }

  /** From a store holding only the validated first delivery, a delivery of 1 is created and then falls short. */
  lemma ShortAfterEmptying(s: State)
    requires 0 in s.products && s.products[0].currentStock == 0
    requires |s.operations| == 1 && s.operations[0].opType == Delivery
    requires s.operations[0].reference == Generate([], "delivery")
    ensures var c := CreateOperation(s, "delivery", "Shop", Some(Line(0, 1)));
      c.Ok? && ValidateOperation(c.value, 1) == Reply(c.value, Err(InsufficientStock(s.products[0].name, 0, 1)))
  {
    SecondDeliveryFresh(s.operations);
    ShortDelivery(s);
  }

  /** After one stored delivery numbered 1, the next delivery reference (number 2) is free. */
  lemma SecondDeliveryFresh(ops: seq<Operation>)
    requires |ops| == 1 && ops[0].opType == Delivery && ops[0].reference == Generate([], "delivery")
    ensures !ReferenceTaken(ops, Generate(ops, "delivery"))
  {
    GeneratedNumber([], "delivery");
    assert TrailingNumber(ops[0].reference) == Some(1);
    assert ops == [] + [ops[0]];
    SuccessiveIncrease([], ops[0], 1);
  }

  /** Delivering the whole stock of 10 succeeds and leaves 0. */
  lemma EmptyingDelivery()
    ensures var s0 := State(map[0 := Widget], [], []);
      var s1 := CreateOperation(s0, "delivery", "Shop", Some(Line(0, 10))).value;
      && |s1.operations| == 1
      && ValidateOperation(s1, 0).result.Ok?
      && ValidateOperation(s1, 0).state.products[0] == Widget.(currentStock := 0)
      && var ops := ValidateOperation(s1, 0).state.operations;
      && |ops| == 1 && ops[0].opType == Delivery && ops[0].reference == Generate([], "delivery")
  {
    var products := map[0 := Widget];
    CreatedFirst(products, "delivery", Delivery, "Shop", 0, 10);
    var op := Operation(Generate([], "delivery"), Delivery, Draft, "Shop", "Vendor", "WH/Stock", [Item(0, 10, 0)]);
    var step := ApplyItem(op, products, op.items[0]);
    assert step.Applied? && step.products[0] == Widget.(currentStock := 0);
    ValidateOneLine(products, op);
  }

  /** On an empty product, a new delivery of 1 under a free reference fails on its first line and changes nothing. */
  lemma ShortDelivery(s: State)
    requires 0 in s.products && s.products[0].currentStock == 0
    requires !ReferenceTaken(s.operations, Generate(s.operations, "delivery"))
    ensures var s2 := CreateOperation(s, "delivery", "Shop", Some(Line(0, 1))).value;
      ValidateOperation(s2, |s.operations|)
        == Reply(s2, Err(InsufficientStock(s.products[0].name, 0, 1)))
  {
    Created(s, "delivery", "Shop", Line(0, 1));
    var s2 := CreateOperation(s, "delivery", "Shop", Some(Line(0, 1))).value;
    var op := s2.operations[|s.operations|];
    assert op.items == [Item(0, 1, 0)] && op.status == Draft && op.opType == Delivery;
    DeliveryShortfall(s2, |s.operations|);
  }

  /** A count of 15 on a stock of 20 submits -5: stock drops to 15 and the move runs from WH/Stock to Virtual/Adjustment. */
  lemma CountDown()
    ensures var s0 := State(map[0 := Widget.(currentStock := 20)], [], []);
      var s1 := CreateOperation(s0, "adjustment", "", Some(Line(0, 15 - 20))).value;
      var r := ValidateOperation(s1, 0);
      && r.result.Ok?
      && r.state.products[0].currentStock == 15
      && |r.state.ledger| == 1
      && r.state.ledger[0].quantity == -5
      && r.state.ledger[0].locationFrom == "WH/Stock"
      && r.state.ledger[0].locationTo == "Virtual/Adjustment"
      && r.state.ledger[0].balanceAfter == 15
  {
    var products := map[0 := Widget.(currentStock := 20)];
    CreatedFirst(products, "adjustment", Adjustment, "", 0, -5);
    var op := Operation(Generate([], "adjustment"), Adjustment, Draft, "", "Vendor", "WH/Stock", [Item(0, -5, 0)]);
    var step := ApplyItem(op, products, op.items[0]);
    assert step.Applied? && step.products[0].currentStock == 15;
    ApplyItemMove(op, products, op.items[0]);
    ValidateOneLine(products, op);
  }

  /** Creating the first operation of an empty store: the draft the schema and the hook build. */
  lemma CreatedFirst(products: ProductStore, typeName: string, t: OpType, partner: string, p: ProductId, q: int)
    requires ParseType(typeName) == Some(t) && !(NeedsPartner(typeName) && partner == "")
    ensures CreateOperation(State(products, [], []), typeName, partner, Some(Line(p, q)))
      == Ok(State(products, [Operation(Generate([], typeName), t, Draft, partner, "Vendor", "WH/Stock", [Item(p, q, 0)])], []))
  {
    assert Line(p, q)[1..] == [] && BuildItems([], true) == Some([]);
    assert [Item(p, q, 0)] + [] == [Item(p, q, 0)];
    assert BuildItems(Line(p, q), true) == Some([Item(p, q, 0)]);
    assert TypeName(t) == typeName;
  }

  /** Validating the only operation, a one-line draft whose line completes. */
  lemma ValidateOneLine(products: ProductStore, op: Operation)
    requires |op.items| == 1 && op.status != Done && ApplyItem(op, products, op.items[0]).Applied?
    ensures var step := ApplyItem(op, products, op.items[0]);
      var done := op.(status := Done, items := Completed(op.items));
      ValidateOperation(State(products, [op], []), 0) == Reply(State(step.products, [done], [step.move]), Ok(done))
  {
    var step := ApplyItem(op, products, op.items[0]);
    assert op.items[1..] == [];
    assert ProcessItems(op, op.items, products) == Fold(step.products, [step.move], None);
  }

  /**
   * The creation handler never sets locations, so a delivery's moves carry
   * the schema's receipt defaults: from "Vendor" to "WH/Stock". The
   * "WH/Stock" and "Customer" fallbacks apply only to empty strings.
   */
  lemma CreatedDeliveryLocations(s: State, partner: string, items: seq<ItemInput>)
    requires CreateOperation(s, "delivery", partner, Some(items)).Ok?
    ensures var s' := CreateOperation(s, "delivery", partner, Some(items)).value;
      var op := s'.operations[|s.operations|];
      forall products: ProductStore, item: Item :: ApplyItem(op, products, item).Applied? ==>
        ApplyItem(op, products, item).move.locationFrom == "Vendor"
        && ApplyItem(op, products, item).move.locationTo == "WH/Stock"
  {
    var s' := CreateOperation(s, "delivery", partner, Some(items)).value;
    var op := s'.operations[|s.operations|];
    assert op.opType == Delivery;
    forall products: ProductStore, item: Item | ApplyItem(op, products, item).Applied?
      ensures ApplyItem(op, products, item).move.locationFrom == "Vendor"
      ensures ApplyItem(op, products, item).move.locationTo == "WH/Stock"
    {
      ApplyItemMove(op, products, item);
    }
  }

  /**
   * A stored `WH/IN/0001` followed by a receipt whose reference does not end
   * in digits: numbering restarts at 1, and the unique index refuses the
   * second `WH/IN/0001`, leaving the stores as they were.
   */
  lemma LegacyReferenceCollides(a: Operation, b: Operation)
    requires a.opType == Receipt && a.reference == "WH/IN/0001"
    requires b.opType == Receipt && b.reference == "WH/IN/legacy"
    ensures var s := State(map[], [a, b], []);
      CreateOperation(s, "receipt", "Vendor Co", Some(Line(0, 1))) == Err(DuplicateReference)
  {
    var ops := [a, b];
    assert ops[..1] == [a];
    assert LastReferenceOfType(ops, "receipt") == Some("WH/IN/legacy");
    assert TrailingNumber("WH/IN/legacy").None? by {
      TrailingNumberMatches("WH/IN/legacy");
      assert !IsDigit('y');
    }
    assert Generate(ops, "receipt") == "WH/IN/" + Render(1);
    RenderSmall(1);
    assert ops[0].reference == Generate(ops, "receipt");
  }
}
