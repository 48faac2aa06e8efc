/**
 * The stock-move ledger: an append-only sequence of moves, each carrying a
 * signed quantity and a snapshot of the product's stock after it.
 */
module Ledger {
  import opened Products
  import opened Results

  datatype Move = Move(
    product: ProductId,
    description: string,
    reference: string,
    quantity: int,
    locationFrom: string,
    locationTo: string,
    balanceAfter: int)

  /** Moves are kept oldest first; the newest move is the last element. */
  type Log = seq<Move>

  /** The description label internal transfers carry. */
  const TransferLabel: string := "Internal Transfer "

  /** A move written by an internal transfer, which records a quantity but leaves stock alone. */
  predicate IsTransfer(m: Move) {
    |m.description| >= |TransferLabel| && m.description[..|TransferLabel|] == TransferLabel
  }

  /** What a move adds to the stock of product `p`. */
  function Contribution(m: Move, p: ProductId): int {
    if m.product == p && !IsTransfer(m) then m.quantity else 0
  }

  /** The stock of `p` re-derived by folding the ledger over its non-transfer moves. */
  function Balance(log: Log, p: ProductId): int
    decreases |log|
  {
    if |log| == 0 then 0
    else Balance(log[..|log| - 1], p) + Contribution(log[|log| - 1], p)
  }

  /** Whether the ledger holds any move of `p`. */
  predicate Mentions(log: Log, p: ProductId) {
    exists i :: 0 <= i < |log| && log[i].product == p
  }

  /** The balance snapshot of the newest move of `p`, if any. */
  function LastSnapshot(log: Log, p: ProductId): (r: Option<int>)
    ensures r.None? <==> !Mentions(log, p)
    ensures r.Some? ==> exists i :: && 0 <= i < |log| && log[i].product == p
                                    && log[i].balanceAfter == r.value
                                    && forall j :: i < j < |log| ==> log[j].product != p
    decreases |log|
  {
    if |log| == 0 then None
    else if log[|log| - 1].product == p then Some(log[|log| - 1].balanceAfter)
    else
      assert forall i :: 0 <= i < |log| - 1 ==> log[..|log| - 1][i] == log[i];
      LastSnapshot(log[..|log| - 1], p)
  }

  /** A ledger that never mentions `p` re-derives a zero stock for it. */
  lemma {:induction false} UnmentionedBalance(log: Log, p: ProductId)
    requires !Mentions(log, p)
    ensures Balance(log, p) == 0
    decreases |log|
  {
    if |log| > 0 {
      var init := log[..|log| - 1];
      assert forall i :: 0 <= i < |init| ==> init[i] == log[i];
      UnmentionedBalance(init, p);
    }
  }

  /** Appending moves changes the derived stock by exactly their contributions. */
  lemma AppendBalance(log: Log, m: Move, p: ProductId)
    ensures Balance(log + [m], p) == Balance(log, p) + Contribution(m, p)
    ensures LastSnapshot(log + [m], p) == if m.product == p then Some(m.balanceAfter) else LastSnapshot(log, p)
  {
    assert (log + [m])[..|log|] == log;
  }
}
