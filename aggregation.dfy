/** The read-only views the stock context computes on demand: low stock,
    grouping by category, recent transactions, total stock value and the
    transactions of a recent period. */
module Aggregation {
  import opened Common
  import opened Entities
  import opened Ledger

  /** Defaults of `getRecentTransactions(limit = 5)` and
      `getTransactionsByPeriod(days = 7)`. */
  const DefaultRecentLimit: int := 5
  const DefaultPeriodDays: int := 7

  // ---------------------------------------------------------------------
  // Low stock
  // ---------------------------------------------------------------------

  predicate IsLowStock(p: Product)
  {
    p.quantity <= p.threshold
  }

  /** `getProductsLowInStock`: the products at or below their alert threshold,
      out-of-stock ones included, in catalogue order. */
  function ProductsLowInStock(ps: seq<Product>): (r: seq<Product>)
    ensures |r| <= |ps|
    ensures forall i :: 0 <= i < |r| ==> r[i] in ps && r[i].quantity <= r[i].threshold
    ensures forall i :: 0 <= i < |ps| && ps[i].quantity <= ps[i].threshold ==> ps[i] in r
  {
    Filter(ps, IsLowStock)
  }

  /** The view keeps catalogue order: it is computed piecewise over any split. */
  lemma LowStockKeepsOrder(a: seq<Product>, b: seq<Product>)
    ensures ProductsLowInStock(a + b) == ProductsLowInStock(a) + ProductsLowInStock(b)
  {
    FilterConcat(a, b, IsLowStock);
  }

  /** The stock badge of a product card. */
  datatype StockBadge = OutOfStock | LowStock | InStock

  function Badge(p: Product): StockBadge
  {
    if p.quantity == 0 then OutOfStock
    else if p.quantity <= p.threshold then LowStock
    else InStock
  }

  /** With a non-negative threshold, a product is in the low-stock view
      exactly when its card shows "out of stock" or "low stock". */
  lemma LowStockMatchesBadges(ps: seq<Product>, i: nat)
    requires i < |ps| && ps[i].threshold >= 0
    ensures ps[i] in ProductsLowInStock(ps) <==> Badge(ps[i]) != InStock
  {
    var r := ProductsLowInStock(ps);
    if ps[i] in r {
      var k :| 0 <= k < |r| && r[k] == ps[i];
    }
  }

  // ---------------------------------------------------------------------
  // Grouping by category
  // ---------------------------------------------------------------------

  function ProductsInCategory(ps: seq<Product>, categoryId: Id): (r: seq<Product>)
    ensures forall i :: 0 <= i < |r| ==> r[i] in ps && r[i].categoryId == categoryId
    ensures forall i :: 0 <= i < |ps| && ps[i].categoryId == categoryId ==> ps[i] in r
  {
    Filter(ps, (p: Product) => p.categoryId == categoryId)
  }

  /** A category's products come in catalogue order, repeats included. */
  lemma ProductsInCategoryKeepsOrder(a: seq<Product>, b: seq<Product>, p: Product, categoryId: Id)
    ensures ProductsInCategory(a + b, categoryId) == ProductsInCategory(a, categoryId) + ProductsInCategory(b, categoryId)
    ensures ProductsInCategory([p], categoryId) == if p.categoryId == categoryId then [p] else []
  {
    FilterConcat(a, b, (q: Product) => q.categoryId == categoryId);
  }

  /** `getProductsByCategory`: one entry per category name, holding that
      category's products; a later category with the same name overwrites an
      earlier one, and categories without products map to an empty list. */
  function ProductsByCategory(cats: seq<Category>, ps: seq<Product>): (r: map<string, seq<Product>>)
    ensures r.Keys == set c | c in cats :: c.name
    ensures forall i :: 0 <= i < |cats| && (forall j :: i < j < |cats| ==> cats[j].name != cats[i].name) ==>
              r[cats[i].name] == ProductsInCategory(ps, cats[i].id)
    decreases |cats|
  {
    if cats == [] then map[]
    else
      var init, last := cats[..|cats| - 1], cats[|cats| - 1];
      assert cats == init + [last];
      LastCategoryWins(init, last, ps, ProductsByCategory(init, ps));
      ProductsByCategory(init, ps)[last.name := ProductsInCategory(ps, last.id)]
  }

  /** The step of `ProductsByCategory` for one more category: its name is
      added or overwritten, and every earlier name it does not repeat keeps
      its entry. */
  lemma LastCategoryWins(init: seq<Category>, last: Category, ps: seq<Product>, m: map<string, seq<Product>>)
    requires m.Keys == set c | c in init :: c.name
    requires forall i :: 0 <= i < |init| && (forall j :: i < j < |init| ==> init[j].name != init[i].name) ==>
               m[init[i].name] == ProductsInCategory(ps, init[i].id)
    ensures m[last.name := ProductsInCategory(ps, last.id)].Keys == set c | c in init + [last] :: c.name
    ensures forall i :: 0 <= i < |init| + 1 && (forall j :: i < j < |init| + 1 ==> (init + [last])[j].name != (init + [last])[i].name) ==>
              m[last.name := ProductsInCategory(ps, last.id)][(init + [last])[i].name]
                == ProductsInCategory(ps, (init + [last])[i].id)
  {
    var cats := init + [last];
    var r := m[last.name := ProductsInCategory(ps, last.id)];
    assert (set c | c in cats :: c.name) == (set c | c in init :: c.name) + {last.name} by {
      forall c | c in cats ensures c in init || c == last {
        var k :| 0 <= k < |cats| && cats[k] == c;
        if k < |init| { assert cats[k] == init[k]; }
      }
    }
    forall i | 0 <= i < |cats| && (forall j :: i < j < |cats| ==> cats[j].name != cats[i].name)
      ensures r[cats[i].name] == ProductsInCategory(ps, cats[i].id)
    {
      if i < |init| {
        assert cats[i] == init[i] && cats[|cats| - 1] == last;
        forall j | i < j < |init| ensures init[j].name != init[i].name {
          assert cats[j] == init[j];
        }
      }
    }
  }

  // ---------------------------------------------------------------------
  // Recent transactions
  // ---------------------------------------------------------------------

  /** In a date-descending sequence, a prefix holds no entry older than an
      entry of the rest. */
  lemma PrefixDominates(s: seq<Transaction>, k: nat)
    requires SortedByDateDesc(s) && k <= |s|
    ensures SortedByDateDesc(s[..k])
    ensures multiset(s[..k]) <= multiset(s)
    ensures forall x, y :: x in s[..k] && y in multiset(s) - multiset(s[..k]) ==> x.date >= y.date
  {
    PrefixSplitsMultiset(s, k);
    PrefixBeforeRest(s, k);
    SortedPrefix(s, k);
  }

  lemma PrefixSplitsMultiset(s: seq<Transaction>, k: nat)
    requires k <= |s|
    ensures multiset(s) == multiset(s[..k]) + multiset(s[k..])
    ensures multiset(s[..k]) <= multiset(s)
    ensures multiset(s) - multiset(s[..k]) == multiset(s[k..])
  {
    assert s == s[..k] + s[k..];
  }

  lemma SortedPrefix(s: seq<Transaction>, k: nat)
    requires SortedByDateDesc(s) && k <= |s|
    ensures SortedByDateDesc(s[..k])
  {
    forall i, j | 0 <= i < j < k ensures s[..k][i].date >= s[..k][j].date {
      assert s[..k][i] == s[i] && s[..k][j] == s[j];
    }
  }

  lemma PrefixBeforeRest(s: seq<Transaction>, k: nat)
    requires SortedByDateDesc(s) && k <= |s|
    ensures forall x, y :: x in s[..k] && y in multiset(s[k..]) ==> x.date >= y.date
  {
    forall x, y | x in s[..k] && y in multiset(s[k..]) ensures x.date >= y.date {
      var i :| 0 <= i < k && s[..k][i] == x;
      var j :| 0 <= j < |s| - k && s[k..][j] == y;
      assert s[i] == x && s[k + j] == y;
    }
  }

  /** `getRecentTransactions(limit)`: the newest `limit` transactions, newest
      first; no transaction left out is newer than one returned. */
  function RecentTransactions(ts: seq<Transaction>, limit: int := DefaultRecentLimit): (r: seq<Transaction>)
    ensures 0 <= limit ==> |r| == if limit <= |ts| then limit else |ts|
    ensures limit < 0 ==> |r| == if |ts| + limit < 0 then 0 else |ts| + limit
    ensures SortedByDateDesc(r)
    ensures multiset(r) <= multiset(ts)
    ensures forall x, y :: x in r && y in multiset(ts) - multiset(r) ==> x.date >= y.date
  {
    var s := SortByDateDesc(ts);
    var k := SliceEnd(|ts|, limit);
    PrefixDominates(s, k);
    s[..k]
  }

  /** On a ledger already kept in order, the recent view is a prefix of it. */
  lemma RecentOfSortedLedger(ts: seq<Transaction>, limit: int)
    requires SortedByDateDesc(ts)
    ensures RecentTransactions(ts, limit) == ts[..SliceEnd(|ts|, limit)]
  {
    SortKeepsSortedLedger(ts);
  }

  // ---------------------------------------------------------------------
  // Stock value
  // ---------------------------------------------------------------------

  /** `products.reduce((total, p) => total + p.price * p.quantity, 0)`. */
  function TotalStockValue(ps: seq<Product>): int
  {
    if ps == [] then 0
    else TotalStockValue(ps[..|ps| - 1]) + ps[|ps| - 1].price * ps[|ps| - 1].quantity
  }

  /** The value of a catalogue is the sum of the values of its parts. */
  lemma {:induction false} StockValueAdditive(a: seq<Product>, b: seq<Product>)
    ensures TotalStockValue(a + b) == TotalStockValue(a) + TotalStockValue(b)
    decreases |b|
  {
    if b == [] {
      assert a + b == a;
    } else {
      var init, last := b[..|b| - 1], b[|b| - 1];
      assert (a + b)[..|a + b| - 1] == a + init;
      StockValueAdditive(a, init);
    }
  }

  /** The stock value is the sum of price times quantity, one product at a time. */
  lemma StockValueOfOne(p: Product)
    ensures TotalStockValue([p]) == p.price * p.quantity
  {
    assert [p][..0] == [];
  }

  /** With no negative quantity, the stock value is not negative. */
  lemma {:induction false} StockValueNonNegative(ps: seq<Product>)
    requires NonNegativeStock(ps)
    ensures TotalStockValue(ps) >= 0
    decreases |ps|
  {
    if ps != [] {
      var init := ps[..|ps| - 1];
      assert forall p :: p in init ==> p in ps;
      StockValueNonNegative(init);
      assert ps[|ps| - 1] in ps;
    }
  }

  /** Two products, 1000 FCFA x 3 and 500 FCFA x 10, are worth 8000 FCFA. */
  lemma StockValueExample(a: Product, b: Product)
    requires a.price == 1000 && a.quantity == 3
    requires b.price == 500 && b.quantity == 10
    ensures TotalStockValue([a, b]) == 8000
  {
    StockValueAdditive([a], [b]);
    StockValueOfOne(a);
    StockValueOfOne(b);
  }

  // ---------------------------------------------------------------------
  // Transactions of a period
  // ---------------------------------------------------------------------

  /** The start of the window `getTransactionsByPeriod(days)` looks at. */
  function PeriodStart(now: Timestamp, days: int): Timestamp
  {
    now - days * DayMs
  }

  /** `getTransactionsByPeriod(days)`: the transactions dated at or after
      `days` days before `now`, in ledger order. */
  function TransactionsByPeriod(ts: seq<Transaction>, now: Timestamp, days: int := DefaultPeriodDays): (r: seq<Transaction>)
    ensures |r| <= |ts|
    ensures forall i :: 0 <= i < |r| ==> r[i] in ts && r[i].date >= PeriodStart(now, days)
    ensures forall i :: 0 <= i < |ts| && ts[i].date >= PeriodStart(now, days) ==> ts[i] in r
  {
    Filter(ts, DatedFrom(PeriodStart(now, days)))
  }

  function DatedFrom(start: Timestamp): Transaction -> bool
  {
    (t: Transaction) => t.date >= start
  }

  /** The period view keeps ledger order, repeats included. */
  lemma PeriodKeepsOrder(a: seq<Transaction>, b: seq<Transaction>, t: Transaction, now: Timestamp, days: int)
    ensures TransactionsByPeriod(a + b, now, days) == TransactionsByPeriod(a, now, days) + TransactionsByPeriod(b, now, days)
    ensures TransactionsByPeriod([t], now, days) == if t.date >= PeriodStart(now, days) then [t] else []
  {
    FilterConcat(a, b, DatedFrom(PeriodStart(now, days)));
  }

  /** A longer period contains a shorter one. */
  lemma PeriodsNest(ts: seq<Transaction>, now: Timestamp, shorter: int, longer: int)
    requires shorter <= longer
    ensures forall t :: t in TransactionsByPeriod(ts, now, shorter) ==> t in TransactionsByPeriod(ts, now, longer)
  {
    var a, b := TransactionsByPeriod(ts, now, shorter), TransactionsByPeriod(ts, now, longer);
    assert PeriodStart(now, longer) == PeriodStart(now, shorter) - (longer - shorter) * DayMs;
    assert PeriodStart(now, longer) <= PeriodStart(now, shorter);
    forall t | t in a ensures t in b {
      var i :| 0 <= i < |a| && a[i] == t;
      var j :| 0 <= j < |ts| && ts[j] == t;
    }
  }
}
