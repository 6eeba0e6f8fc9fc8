/** The pure building blocks of the stock ledger engine: looking a product
    up, rewriting entries by id, the clamped stock movement, and the stable
    date-descending order the transaction ledger is kept in. */
module Ledger {
  import opened Common
  import opened Entities

  const InitialStockNote: string := "Stock initial"
  const AdjustmentNote: string := "Mise à jour manuelle du stock"

  // ---------------------------------------------------------------------
  // Lookup and rewriting by id
  // ---------------------------------------------------------------------

  /** `products.find(p => p.id === id)`: the first product with that id. */
  function FindProduct(ps: seq<Product>, id: Id): (r: Option<Product>)
    ensures r.None? <==> forall p :: p in ps ==> p.id != id
    ensures r.Some? ==> r.value in ps && r.value.id == id
    ensures r.Some? ==> exists i :: 0 <= i < |ps| && ps[i] == r.value && forall j :: 0 <= j < i ==> ps[j].id != id
    decreases |ps|
  {
    if ps == [] then None
    else if ps[0].id == id then
      Some(ps[0])
    else
      var r := FindProduct(ps[1..], id);
      assert forall p :: p in ps ==> p == ps[0] || p in ps[1..];
      assert r.Some? ==> exists i :: 0 < i < |ps| && ps[i] == r.value && forall j :: 0 <= j < i ==> ps[j].id != id by {
        if r.Some? {
          var k :| 0 <= k < |ps[1..]| && ps[1..][k] == r.value && forall j :: 0 <= j < k ==> ps[1..][j].id != id;
          assert ps[k + 1] == r.value;
          assert forall j :: 0 <= j < k + 1 ==> ps[j].id != id by {
            forall j | 0 <= j < k + 1 ensures ps[j].id != id {
              if j > 0 { assert ps[j] == ps[1..][j - 1]; }
            }
          }
        }
      }
      r
  }

  /** Every product with id `id` takes quantity `q`; the others stay as they are. */
  function SetQuantity(ps: seq<Product>, id: Id, q: int): seq<Product>
  {
    seq(|ps|, i requires 0 <= i < |ps| => if ps[i].id == id then ps[i].(quantity := q) else ps[i])
  }

  /** `{ ...product, ...data }` for a product form: id and creation date survive. */
  function MergeProduct(p: Product, data: ProductData): Product
  {
    p.(name := data.name, sku := data.sku, categoryId := data.categoryId,
       supplierId := data.supplierId, price := data.price, quantity := data.quantity,
       threshold := data.threshold, description := data.description)
  }

  function MergeProducts(ps: seq<Product>, id: Id, data: ProductData): (r: seq<Product>)
    ensures |r| == |ps|
    ensures forall i :: 0 <= i < |r| ==> r[i].id == ps[i].id && r[i].createdAt == ps[i].createdAt
    ensures forall i :: 0 <= i < |r| && ps[i].id != id ==> r[i] == ps[i]
    ensures forall i :: 0 <= i < |r| && ps[i].id == id ==>
              r[i] == Product(id, data.name, data.sku, data.categoryId, data.supplierId, data.price,
                              data.quantity, data.threshold, data.description, ps[i].createdAt)
  {
    seq(|ps|, i requires 0 <= i < |ps| => if ps[i].id == id then MergeProduct(ps[i], data) else ps[i])
  }

  function MergeCategories(cs: seq<Category>, id: Id, data: CategoryData): (r: seq<Category>)
    ensures |r| == |cs|
    ensures forall i :: 0 <= i < |r| && cs[i].id != id ==> r[i] == cs[i]
    ensures forall i :: 0 <= i < |r| && cs[i].id == id ==> r[i] == Category(id, data.name, data.description)
  {
    seq(|cs|, i requires 0 <= i < |cs| =>
      if cs[i].id == id then cs[i].(name := data.name, description := data.description) else cs[i])
  }

  function MergeSuppliers(ss: seq<Supplier>, id: Id, data: SupplierData): (r: seq<Supplier>)
    ensures |r| == |ss|
    ensures forall i :: 0 <= i < |r| && ss[i].id != id ==> r[i] == ss[i]
    ensures forall i :: 0 <= i < |r| && ss[i].id == id ==>
              r[i] == Supplier(id, data.name, data.contact, data.email, data.phone, data.address)
  {
    seq(|ss|, i requires 0 <= i < |ss| =>
      if ss[i].id == id
      then ss[i].(name := data.name, contact := data.contact, email := data.email,
                  phone := data.phone, address := data.address)
      else ss[i])
  }

  function MergeUsers(us: seq<User>, id: Id, data: UserData): (r: seq<User>)
    ensures |r| == |us|
    ensures forall i :: 0 <= i < |r| && us[i].id != id ==> r[i] == us[i]
    ensures forall i :: 0 <= i < |r| && us[i].id == id ==> r[i] == User(id, data.name, data.email, data.role)
  {
    seq(|us|, i requires 0 <= i < |us| =>
      if us[i].id == id then us[i].(name := data.name, email := data.email, role := data.role) else us[i])
  }

  /** `filter(x => x.id !== id)` for each collection. */
  function ProductsWithout(ps: seq<Product>, id: Id): (r: seq<Product>)
    ensures forall p :: p in r <==> p in ps && p.id != id
  {
    Filter(ps, (p: Product) => p.id != id)
  }

  function CategoriesWithout(cs: seq<Category>, id: Id): (r: seq<Category>)
    ensures forall c :: c in r <==> c in cs && c.id != id
  {
    Filter(cs, (c: Category) => c.id != id)
  }

  function SuppliersWithout(ss: seq<Supplier>, id: Id): (r: seq<Supplier>)
    ensures forall s :: s in r <==> s in ss && s.id != id
  {
    Filter(ss, (s: Supplier) => s.id != id)
  }

  function UsersWithout(us: seq<User>, id: Id): (r: seq<User>)
    ensures forall u :: u in r <==> u in us && u.id != id
  {
    Filter(us, (u: User) => u.id != id)
  }

  /** Each removal keeps the survivors in list order, repeats included: it
      is computed piecewise over any split, and on one entry it keeps that
      entry exactly when its id differs. */
  lemma ProductsWithoutKeepsOrder(a: seq<Product>, b: seq<Product>, p: Product, id: Id)
    ensures ProductsWithout(a + b, id) == ProductsWithout(a, id) + ProductsWithout(b, id)
    ensures ProductsWithout([p], id) == if p.id != id then [p] else []
  {
    FilterConcat(a, b, (q: Product) => q.id != id);
  }

  lemma CategoriesWithoutKeepsOrder(a: seq<Category>, b: seq<Category>, c: Category, id: Id)
    ensures CategoriesWithout(a + b, id) == CategoriesWithout(a, id) + CategoriesWithout(b, id)
    ensures CategoriesWithout([c], id) == if c.id != id then [c] else []
  {
    FilterConcat(a, b, (x: Category) => x.id != id);
  }

  lemma SuppliersWithoutKeepsOrder(a: seq<Supplier>, b: seq<Supplier>, s: Supplier, id: Id)
    ensures SuppliersWithout(a + b, id) == SuppliersWithout(a, id) + SuppliersWithout(b, id)
    ensures SuppliersWithout([s], id) == if s.id != id then [s] else []
  {
    FilterConcat(a, b, (x: Supplier) => x.id != id);
  }

  lemma UsersWithoutKeepsOrder(a: seq<User>, b: seq<User>, u: User, id: Id)
    ensures UsersWithout(a + b, id) == UsersWithout(a, id) + UsersWithout(b, id)
    ensures UsersWithout([u], id) == if u.id != id then [u] else []
  {
    FilterConcat(a, b, (x: User) => x.id != id);
  }

  predicate DistinctUserIds(us: seq<User>)
  {
    forall i, j :: 0 <= i < j < |us| ==> us[i].id != us[j].id
  }

  /** Removing one id from a list of two or more users with distinct ids
      leaves at least one user. */
  lemma RemovingOneUserLeavesOthers(us: seq<User>, id: Id)
    requires |us| > 1 && DistinctUserIds(us)
    ensures |UsersWithout(us, id)| > 0
  {
    var k := if us[0].id != id then 0 else 1;
    assert us[k] in UsersWithout(us, id);
  }

  /** Without distinct ids the removal can empty the list: two users sharing
      one id both go. */
  lemma DuplicateUserIdsEmptyTheList()
    ensures var us := [User("7", "A", "a@x.io", "Admin"), User("7", "B", "b@x.io", "Viewer")];
            |us| > 1 && UsersWithout(us, "7") == []
  {
    var us := [User("7", "A", "a@x.io", "Admin"), User("7", "B", "b@x.io", "Viewer")];
    FilterKeepsNone(us, (u: User) => u.id != "7");
  }

  // ---------------------------------------------------------------------
  // Stock movements
  // ---------------------------------------------------------------------

  /** `Math.max(0, n)`. */
  function Clamp(n: int): nat
  {
    if n < 0 then 0 else n
  }

  /** The quantity a product holding `current` has after a movement of `n`. */
  function MovedQuantity(kind: Movement, current: int, n: int): nat
  {
    if kind == Entry then Clamp(current + n) else Clamp(current - n)
  }

  /** The product side of recording `t`: the product is looked up in
      `snapshot` (the product list the caller saw), and every entry of
      `current` with its id takes the moved quantity. No product, no change. */
  function ApplyMovement(current: seq<Product>, snapshot: seq<Product>, t: Transaction): (r: seq<Product>)
    ensures |r| == |current|
    ensures forall i :: 0 <= i < |r| ==> r[i] == current[i].(quantity := r[i].quantity)
    ensures forall i :: 0 <= i < |r| && current[i].id != t.productId ==> r[i] == current[i]
  {
    match FindProduct(snapshot, t.productId)
    case None => current
    case Some(p) => SetQuantity(current, p.id, MovedQuantity(t.kind, p.quantity, t.quantity))
  }

  /** A movement never leaves a negative quantity behind. */
  lemma MovementKeepsStockNonNegative(current: seq<Product>, snapshot: seq<Product>, t: Transaction)
    requires NonNegativeStock(current)
    ensures NonNegativeStock(ApplyMovement(current, snapshot, t))
  {
    var r := ApplyMovement(current, snapshot, t);
    forall p | p in r ensures p.quantity >= 0 {
      var i :| 0 <= i < |r| && r[i] == p;
      assert current[i] in current;
    }
  }

  /** On a product found in the snapshot, the movement sets the quantity to
      `max(0, q + n)` for an entry and `max(0, q - n)` for an exit. */
  lemma MovementOnKnownProduct(current: seq<Product>, snapshot: seq<Product>, t: Transaction, p: Product)
    requires FindProduct(snapshot, t.productId) == Some(p)
    ensures |ApplyMovement(current, snapshot, t)| == |current|
    ensures forall i :: 0 <= i < |current| && current[i].id != t.productId ==>
              ApplyMovement(current, snapshot, t)[i] == current[i]
    ensures forall i :: 0 <= i < |current| && current[i].id == t.productId ==>
              ApplyMovement(current, snapshot, t)[i]
                == current[i].(quantity := if t.kind == Entry then Clamp(p.quantity + t.quantity)
                                           else Clamp(p.quantity - t.quantity))
  {
  }

  /** A movement looked up in the list it changes: the entries with the
      found id move, the others stay, and stock stays non-negative. */
  lemma MovementOnOwnList(ps: seq<Product>, t: Transaction)
    ensures FindProduct(ps, t.productId).None? ==> ApplyMovement(ps, ps, t) == ps
    ensures FindProduct(ps, t.productId).Some? ==>
              && |ApplyMovement(ps, ps, t)| == |ps|
              && (forall i :: 0 <= i < |ps| && ps[i].id != t.productId ==> ApplyMovement(ps, ps, t)[i] == ps[i])
              && (forall i :: 0 <= i < |ps| && ps[i].id == t.productId ==>
                    ApplyMovement(ps, ps, t)[i]
                      == ps[i].(quantity := MovedQuantity(t.kind, FindProduct(ps, t.productId).value.quantity, t.quantity)))
    ensures NonNegativeStock(ps) ==> NonNegativeStock(ApplyMovement(ps, ps, t))
  {
    var found := FindProduct(ps, t.productId);
    if found.Some? {
      MovementOnKnownProduct(ps, ps, t, found.value);
    }
    if NonNegativeStock(ps) {
      MovementKeepsStockNonNegative(ps, ps, t);
    }
  }

  /** A movement on a product the snapshot lacks changes nothing. */
  lemma MovementOnUnknownProduct(current: seq<Product>, snapshot: seq<Product>, t: Transaction)
    requires forall p :: p in snapshot ==> p.id != t.productId
    ensures ApplyMovement(current, snapshot, t) == current
  {
  }

  /** Stock-adjustment entry for an edit from `before` to `after`: an entry
      when stock grows, an exit otherwise, of the absolute difference. */
  function AdjustmentKind(before: int, after: int): Movement
  {
    if after - before > 0 then Entry else Exit
  }

  function AbsDiff(before: int, after: int): nat
  {
    if after - before < 0 then before - after else after - before
  }

  /** Applying the adjustment entry of an edit to the old quantity reaches
      the new quantity (clamped at zero): the ledger explains the edit. */
  lemma AdjustmentReachesTarget(before: int, after: int)
    requires before != after
    ensures MovedQuantity(AdjustmentKind(before, after), before, AbsDiff(before, after)) == Clamp(after)
    ensures AbsDiff(before, after) > 0
  {
  }

  /** An edit that changes the quantity, followed by its adjustment entry
      (looked up in the list from before the edit), leaves every edited
      product with the merged fields and the new quantity, clamped at zero,
      and every other product as it was. */
  lemma EditWithAdjustment(ps: seq<Product>, id: Id, data: ProductData, p: Product, t: Transaction)
    requires FindProduct(ps, id) == Some(p) && p.quantity != data.quantity
    requires t.productId == id && t.kind == AdjustmentKind(p.quantity, data.quantity)
    requires t.quantity == AbsDiff(p.quantity, data.quantity)
    ensures |ApplyMovement(MergeProducts(ps, id, data), ps, t)| == |ps|
    ensures forall i :: 0 <= i < |ps| && ps[i].id != id ==>
              ApplyMovement(MergeProducts(ps, id, data), ps, t)[i] == ps[i]
    ensures forall i :: 0 <= i < |ps| && ps[i].id == id ==>
              ApplyMovement(MergeProducts(ps, id, data), ps, t)[i]
                == MergeProduct(ps[i], data).(quantity := Clamp(data.quantity))
    ensures NonNegativeStock(ps) ==> NonNegativeStock(ApplyMovement(MergeProducts(ps, id, data), ps, t))
  {
    AdjustmentReachesTarget(p.quantity, data.quantity);
    var r := ApplyMovement(MergeProducts(ps, id, data), ps, t);
    if NonNegativeStock(ps) {
      forall q | q in r ensures q.quantity >= 0 {
        var i :| 0 <= i < |r| && r[i] == q;
        assert ps[i] in ps;
      }
    }
  }

  /** An edit that keeps the quantity leaves every edited product with the
      merged fields, and every other product as it was. */
  lemma EditWithoutAdjustment(ps: seq<Product>, id: Id, data: ProductData, p: Product)
    requires FindProduct(ps, id) == Some(p) && p.quantity == data.quantity
    ensures |MergeProducts(ps, id, data)| == |ps|
    ensures forall i :: 0 <= i < |ps| && ps[i].id != id ==> MergeProducts(ps, id, data)[i] == ps[i]
    ensures forall i :: 0 <= i < |ps| && ps[i].id == id ==>
              MergeProducts(ps, id, data)[i] == MergeProduct(ps[i], data).(quantity := p.quantity)
    ensures NonNegativeStock(ps) ==> NonNegativeStock(MergeProducts(ps, id, data))
  {
    if NonNegativeStock(ps) {
      forall q | q in MergeProducts(ps, id, data) ensures q.quantity >= 0 {
        var i :| 0 <= i < |ps| && MergeProducts(ps, id, data)[i] == q;
        assert ps[i] in ps;
      }
    }
  }

  /** Editing an id no product has changes nothing. */
  lemma EditUnknownId(ps: seq<Product>, id: Id, data: ProductData)
    requires FindProduct(ps, id).None?
    ensures MergeProducts(ps, id, data) == ps
  {
  }

  // ---------------------------------------------------------------------
  // The ledger order: descending by date, ties in insertion order
  // ---------------------------------------------------------------------

  ghost predicate SortedByDateDesc(ts: seq<Transaction>)
  {
    forall i, j :: 0 <= i < j < |ts| ==> ts[i].date >= ts[j].date
  }

  function DatedAt(d: Timestamp): Transaction -> bool
  {
    (t: Transaction) => t.date == d
  }

  /** The entries of `ts` dated `d`, in their order in `ts`. Stability of a
      sort means it leaves every such subsequence as it was. */
  function SameDate(ts: seq<Transaction>, d: Timestamp): seq<Transaction>
  {
    Filter(ts, DatedAt(d))
  }

  /** Inserts `t` into a date-descending ledger after every entry that is at
      least as recent. */
  function InsertByDate(s: seq<Transaction>, t: Transaction): (r: seq<Transaction>)
    requires SortedByDateDesc(s)
    ensures |r| == |s| + 1
    ensures multiset(r) == multiset(s) + multiset{t}
    ensures SortedByDateDesc(r)
    decreases |s|
  {
    if s == [] || s[0].date < t.date then [t] + s
    else
      var rest := InsertByDate(s[1..], t);
      HeadLeadsInsertion(s, t, rest);
      [s[0]] + rest
  }

  /** The step of `InsertByDate` that keeps the head: the head is at least
      as recent as everything inserted behind it, and nothing is lost. */
  lemma HeadLeadsInsertion(s: seq<Transaction>, t: Transaction, rest: seq<Transaction>)
    requires SortedByDateDesc(s) && s != [] && s[0].date >= t.date
    requires multiset(rest) == multiset(s[1..]) + multiset{t}
    ensures forall k :: 0 <= k < |rest| ==> s[0].date >= rest[k].date
    ensures multiset([s[0]] + rest) == multiset(s) + multiset{t}
  {
    assert s == [s[0]] + s[1..];
    forall k | 0 <= k < |rest| ensures s[0].date >= rest[k].date {
      assert rest[k] in multiset(rest);
      if rest[k] != t {
        assert rest[k] in multiset(s[1..]);
        assert rest[k] in s[1..];
      }
    }
  }

  /** The comparator sort `(a, b) => new Date(b.date) - new Date(a.date)`,
      stable, written as an insertion sort. */
  function SortByDateDesc(ts: seq<Transaction>): (r: seq<Transaction>)
    ensures |r| == |ts|
    ensures multiset(r) == multiset(ts)
    ensures SortedByDateDesc(r)
    decreases |ts|
  {
    if ts == [] then []
    else
      var init := ts[..|ts| - 1];
      assert ts == init + [ts[|ts| - 1]];
      InsertByDate(SortByDateDesc(init), ts[|ts| - 1])
  }

  lemma NoEntryDatedAfterHead(s: seq<Transaction>, d: Timestamp)
    requires SortedByDateDesc(s)
    requires s != [] && s[0].date < d
    ensures SameDate(s, d) == []
  {
    assert forall i :: 0 <= i < |s| ==> !DatedAt(d)(s[i]) by {
      forall i | 0 <= i < |s| ensures s[i].date < d {
        if i > 0 { assert s[0].date >= s[i].date; }
      }
    }
    FilterKeepsNone(s, DatedAt(d));
  }

  lemma InsertNewestIsStable(s: seq<Transaction>, t: Transaction, d: Timestamp)
    requires SortedByDateDesc(s)
    requires s != [] && s[0].date < t.date
    ensures SameDate([t] + s, d) == SameDate(s, d) + SameDate([t], d)
  {
    FilterConcat([t], s, DatedAt(d));
    if t.date == d {
      NoEntryDatedAfterHead(s, d);
    } else {
      assert SameDate([t], d) == [];
    }
  }

  lemma {:induction false} InsertByDateIsStable(s: seq<Transaction>, t: Transaction, d: Timestamp)
    requires SortedByDateDesc(s)
    ensures SameDate(InsertByDate(s, t), d) == SameDate(s, d) + SameDate([t], d)
    decreases |s|
  {
    if s == [] {
      assert InsertByDate(s, t) == [t];
    } else if s[0].date < t.date {
      assert InsertByDate(s, t) == [t] + s;
      InsertNewestIsStable(s, t, d);
    } else {
      var rest := InsertByDate(s[1..], t);
      assert InsertByDate(s, t) == [s[0]] + rest;
      InsertByDateIsStable(s[1..], t, d);
      ConsIsStable(s, rest, t, d);
    }
  }

  lemma ConsIsStable(s: seq<Transaction>, rest: seq<Transaction>, t: Transaction, d: Timestamp)
    requires s != []
    requires SameDate(rest, d) == SameDate(s[1..], d) + SameDate([t], d)
    ensures SameDate([s[0]] + rest, d) == SameDate(s, d) + SameDate([t], d)
  {
    FilterConcat([s[0]], rest, DatedAt(d));
    assert s == [s[0]] + s[1..];
    FilterConcat([s[0]], s[1..], DatedAt(d));
  }

  /** The ledger sort is stable: entries that share a date keep their order. */
  lemma {:induction false} SortIsStable(ts: seq<Transaction>, d: Timestamp)
    ensures SameDate(SortByDateDesc(ts), d) == SameDate(ts, d)
    decreases |ts|
  {
    if ts != [] {
      var init, last := ts[..|ts| - 1], ts[|ts| - 1];
      assert ts == init + [last];
      SortIsStable(init, d);
      InsertByDateIsStable(SortByDateDesc(init), last, d);
      FilterConcat(init, [last], DatedAt(d));
    }
  }

  lemma {:induction false} InsertOldest(s: seq<Transaction>, t: Transaction)
    requires SortedByDateDesc(s)
    requires forall x :: x in s ==> x.date >= t.date
    ensures InsertByDate(s, t) == s + [t]
    decreases |s|
  {
    if s != [] {
      assert s[0] in s;
      InsertOldest(s[1..], t);
      assert s == [s[0]] + s[1..];
    }
  }

  /** Sorting a ledger that is already in date-descending order leaves it
      exactly as it is. */
  lemma {:induction false} SortKeepsSortedLedger(ts: seq<Transaction>)
    requires SortedByDateDesc(ts)
    ensures SortByDateDesc(ts) == ts
    decreases |ts|
  {
    if ts != [] {
      var init, last := ts[..|ts| - 1], ts[|ts| - 1];
      assert ts == init + [last];
      SortKeepsSortedLedger(init);
      forall x | x in init ensures x.date >= last.date {
        var i :| 0 <= i < |init| && init[i] == x;
      }
      InsertOldest(init, last);
    }
  }

  /** `[...prev, t].sort(byDateDesc)`: the ledger after recording `t`. */
  function Record(ledger: seq<Transaction>, t: Transaction): (r: seq<Transaction>)
    ensures |r| == |ledger| + 1
    ensures multiset(r) == multiset(ledger) + multiset{t}
    ensures SortedByDateDesc(r)
  {
    SortByDateDesc(ledger + [t])
  }

  /** Recording keeps insertion order among equal dates: the new entry comes
      after every earlier entry with its date. */
  lemma RecordIsStable(ledger: seq<Transaction>, t: Transaction, d: Timestamp)
    ensures SameDate(Record(ledger, t), d) == SameDate(ledger, d) + SameDate([t], d)
  {
    SortIsStable(ledger + [t], d);
    FilterConcat(ledger, [t], DatedAt(d));
  }

  /** On a ledger already in order, recording is an insertion that leaves
      every other entry where it was. */
  lemma RecordOnSortedLedger(ledger: seq<Transaction>, t: Transaction)
    requires SortedByDateDesc(ledger)
    ensures Record(ledger, t) == InsertByDate(ledger, t)
  {
    var init := (ledger + [t])[..|ledger|];
    assert init == ledger;
    SortKeepsSortedLedger(ledger);
  }
}
