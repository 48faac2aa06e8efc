/**
 * The dashboard aggregates: how many products there are, how many sit at or
 * below their reorder threshold, and the five newest ledger moves.
 */
module Dashboard {
  import opened Products
  import opened Ledger

  /** How many moves the recent-activity panel shows. */
  const RecentLimit: nat := 5

  /** A product is low on stock when its stock is at or below its threshold: the bound is inclusive. */
  predicate LowStock(p: Product) {
    p.currentStock <= p.minStockLevel
  }

  /** The low-stock products among `within`. */
  function LowStockAmong(products: ProductStore, within: set<ProductId>): (ids: set<ProductId>)
    ensures ids <= within && ids <= products.Keys
    ensures forall id :: id in products && id in within ==> (id in ids <==> LowStock(products[id]))
  {
    set id | id in within && id in products && LowStock(products[id])
  }

  function LowStockIds(products: ProductStore): (ids: set<ProductId>)
    ensures ids <= products.Keys
    ensures forall id :: id in products ==> (id in ids <==> LowStock(products[id]))
  {
    LowStockAmong(products, products.Keys)
  }

  /** The low-stock count, computed by visiting every product once. */
  method CountLowStock(products: ProductStore) returns (n: nat)
    ensures n == |LowStockIds(products)|
    ensures n <= |products|
  {
    n := 0;
    var rest := products.Keys;
    ghost var seen: set<ProductId> := {};
    while rest != {}
      invariant rest !! seen && rest + seen == products.Keys
      invariant n == |LowStockAmong(products, seen)|
      decreases |rest|
    {
      var id :| id in rest;
      ghost var before, after := LowStockAmong(products, seen), LowStockAmong(products, seen + {id});
      if LowStock(products[id]) {
        assert after == before + {id};
        n := n + 1;
      } else {
        assert after == before;
      }
      rest := rest - {id};
      seen := seen + {id};
    }
    assert seen == products.Keys;
    LowStockBound(products);
  }

  /** There are never more low-stock products than products. */
  lemma LowStockBound(products: ProductStore)
    ensures |LowStockIds(products)| <= |products|
  {
    var ids := LowStockIds(products);
    assert |products.Keys| == |products|;
    SubsetCardinality(ids, products.Keys);
  }

  lemma {:induction false} SubsetCardinality<T>(a: set<T>, b: set<T>)
    requires a <= b
    ensures |a| <= |b|
    decreases |b|
  {
    if a != {} {
      var x :| x in a;
      SubsetCardinality(a - {x}, b - {x});
    }
  }

  /** The newest `k` moves of the ledger, newest first. */
  function Newest(log: Log, k: nat): (r: seq<Move>)
    ensures |r| == if |log| < k then |log| else k
    ensures forall i :: 0 <= i < |r| ==> r[i] == log[|log| - 1 - i]
    decreases k
  {
    if k == 0 || |log| == 0 then []
    else [log[|log| - 1]] + Newest(log[..|log| - 1], k - 1)
  }

  datatype Stats = Stats(totalProducts: nat, lowStockCount: nat, recentActivity: seq<Move>)

  /** The dashboard payload, `totalValue` aside. */
  function DashboardStats(products: ProductStore, log: Log): (s: Stats)
    ensures s.totalProducts == |products|
    ensures s.lowStockCount <= s.totalProducts
    ensures s.lowStockCount == |LowStockIds(products)|
    ensures |s.recentActivity| == if |log| < RecentLimit then |log| else RecentLimit
    ensures forall i :: 0 <= i < |s.recentActivity| ==> s.recentActivity[i] == log[|log| - 1 - i]
  {
    LowStockBound(products);
    Stats(|products|, |LowStockIds(products)|, Newest(log, RecentLimit))
  }

  /** A move just appended to the ledger heads the recent-activity panel. */
  lemma NewestMoveFirst(log: Log, m: Move)
    ensures DashboardStats(map[], log + [m]).recentActivity[0] == m
  {
  }
}
