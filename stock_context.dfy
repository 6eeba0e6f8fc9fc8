/** The stock ledger engine: the five collections of the running session and
    the mutators that keep product quantities and the transaction ledger
    consistent. Each mutator returns a value or a success flag; none fails by
    raising. */
module StockContext {
  import opened Common
  import opened Entities
  import opened Ledger
  import LocalStorageService
  import Aggregation

  class StockStore {
    var products: seq<Product>
    var categories: seq<Category>
    var suppliers: seq<Supplier>
    var transactions: seq<Transaction>
    var users: seq<User>
    var isLoading: bool

    /** Before the first load every collection is empty. */
    constructor ()
      ensures Data() == StockData([], [], [], [], []) && isLoading
    {
      products, categories, suppliers, transactions, users := [], [], [], [], [];
      isLoading := true;
    }

    function Data(): StockData
      reads this
    {
      StockData(products, categories, suppliers, transactions, users)
    }

    // -------------------------------------------------------------------
    // Loading and write-back
    // -------------------------------------------------------------------

    /** The mount effect: take over what the storage loads. */
    method Load(storage: LocalStorageService.LocalStorage, now: Timestamp)
      modifies this, storage
      ensures Data() == LocalStorageService.LoadedData(old(storage.Snapshot()), now)
      ensures storage.Snapshot() == LocalStorageService.Stored(Data())
      ensures |users| > 0 && !isLoading
    {
      var d := storage.LoadDataFromStorage(now);
      products, categories, suppliers, transactions, users := d.products, d.categories, d.suppliers, d.transactions, d.users;
      isLoading := false;
      LocalStorageService.LoadAlwaysHasAUser(old(storage.Snapshot()), now);
    }

    /** The mount effect when reading the storage raises: the error is
        reported, the collections keep what they held, and loading ends all
        the same. */
    method LoadFailed()
      modifies this
      ensures Data() == old(Data()) && !isLoading
    {
      isLoading := false;
    }

    /** The write-back effect after every change: once loaded, all five
        collections are saved. */
    method Persist(storage: LocalStorageService.LocalStorage)
      modifies storage
      ensures isLoading ==> storage.Snapshot() == old(storage.Snapshot())
      ensures !isLoading ==> storage.Snapshot() == LocalStorageService.Stored(Data())
    {
      if !isLoading {
        storage.SaveDataToStorage(LocalStorageService.FullSave(Data()));
      }
    }

    // -------------------------------------------------------------------
    // Transactions
    // -------------------------------------------------------------------

    /** The body of `addTransaction` as seen from a caller whose product list
        is `snapshot`: the entry joins the ledger, which is re-sorted, and the
        product the snapshot knows under `t.productId` gets its moved quantity. */
    method RecordTransaction(t: Transaction, snapshot: seq<Product>)
      modifies this
      ensures transactions == Record(old(transactions), t)
      ensures products == ApplyMovement(old(products), snapshot, t)
      ensures categories == old(categories) && suppliers == old(suppliers) && users == old(users)
      ensures isLoading == old(isLoading)
    {
      transactions := Record(transactions, t);
      var product := FindProduct(snapshot, t.productId);
      if product.Some? {
        var newQuantity := if t.kind == Entry then product.value.quantity + t.quantity
                           else product.value.quantity - t.quantity;
        products := SetQuantity(products, product.value.id, Clamp(newQuantity));
      }
    }

    /** `addTransaction`: records a stock movement. The ledger grows by the
        new entry and stays in date order; the product moves by the quantity,
        never below zero; an unknown product id changes no product. */
    method AddTransaction(data: TransactionData, id: Id) returns (t: Transaction)
      modifies this
      ensures t == Transaction(id, data.kind, data.productId, data.quantity, data.date, data.notes)
      ensures transactions == Record(old(transactions), t)
      ensures |transactions| == |old(transactions)| + 1
      ensures multiset(transactions) == multiset(old(transactions)) + multiset{t}
      ensures SortedByDateDesc(transactions)
      ensures FindProduct(old(products), t.productId).None? ==> products == old(products)
      ensures FindProduct(old(products), t.productId).Some? ==>
                && |products| == |old(products)|
                && (forall i :: 0 <= i < |products| && old(products)[i].id != t.productId ==>
                      products[i] == old(products)[i])
                && (forall i :: 0 <= i < |products| && old(products)[i].id == t.productId ==>
                      products[i] == old(products)[i].(quantity :=
                        MovedQuantity(t.kind, FindProduct(old(products), t.productId).value.quantity, t.quantity)))
      ensures old(NonNegativeStock(products)) ==> NonNegativeStock(products)
      ensures categories == old(categories) && suppliers == old(suppliers) && users == old(users)
      ensures isLoading == old(isLoading)
    {
      t := Transaction(id, data.kind, data.productId, data.quantity, data.date, data.notes);
      ghost var before := products;
      RecordTransaction(t, products);
      MovementOnOwnList(before, t);
    }

    // -------------------------------------------------------------------
    // Products
    // -------------------------------------------------------------------

    /** `addProduct`: appends the product and, when it arrives with stock,
        records one initial-stock entry. The entry is looked up in the product
        list from before the append, so the stock is not counted twice. */
    method AddProduct(data: ProductData, id: Id, txId: Id, now: Timestamp) returns (p: Product)
      modifies this
      ensures p == Product(id, data.name, data.sku, data.categoryId, data.supplierId, data.price,
                           data.quantity, data.threshold, data.description, now)
      ensures data.quantity > 0 ==>
                transactions == Record(old(transactions), Transaction(txId, Entry, id, data.quantity, now, InitialStockNote))
      ensures data.quantity <= 0 ==> transactions == old(transactions)
      ensures data.quantity > 0 ==>
                products == ApplyMovement(old(products) + [p], old(products),
                                          Transaction(txId, Entry, id, data.quantity, now, InitialStockNote))
      ensures data.quantity <= 0 ==> products == old(products) + [p]
      ensures (forall q :: q in old(products) ==> q.id != id) ==> products == old(products) + [p]
      ensures old(NonNegativeStock(products)) && data.quantity >= 0 ==> NonNegativeStock(products)
      ensures categories == old(categories) && suppliers == old(suppliers) && users == old(users)
      ensures isLoading == old(isLoading)
    {
      p := Product(id, data.name, data.sku, data.categoryId, data.supplierId, data.price,
                   data.quantity, data.threshold, data.description, now);
      var snapshot := products;
      products := products + [p];
      if p.quantity > 0 {
        var t := Transaction(txId, Entry, p.id, p.quantity, now, InitialStockNote);
        RecordTransaction(t, snapshot);
        if NonNegativeStock(snapshot) {
          MovementKeepsStockNonNegative(snapshot + [p], snapshot, t);
        }
        if forall q :: q in snapshot ==> q.id != id {
          MovementOnUnknownProduct(snapshot + [p], snapshot, t);
        }
      }
    }

    /** `updateProduct`: merges the form into every product with that id and,
        when the quantity changed, records one adjustment entry of the
        difference, so the ledger accounts for the edit. An unknown id
        changes nothing. */
    method UpdateProduct(id: Id, data: ProductData, txId: Id, now: Timestamp)
      modifies this
      ensures FindProduct(old(products), id).None? ==>
                products == old(products) && transactions == old(transactions)
      ensures FindProduct(old(products), id).Some? ==>
                var before := FindProduct(old(products), id).value.quantity;
                && (data.quantity == before ==> transactions == old(transactions))
                && (data.quantity != before ==>
                      transactions == Record(old(transactions),
                        Transaction(txId, AdjustmentKind(before, data.quantity), id,
                                    AbsDiff(before, data.quantity), now, AdjustmentNote)))
                && |products| == |old(products)|
                && (forall i :: 0 <= i < |products| && old(products)[i].id != id ==>
                      products[i] == old(products)[i])
                && (forall i :: 0 <= i < |products| && old(products)[i].id == id ==>
                      products[i] == MergeProduct(old(products)[i], data).(quantity :=
                        if data.quantity == before then before else Clamp(data.quantity)))
      ensures data.quantity >= 0 ==>
                forall i :: 0 <= i < |products| && old(products)[i].id == id ==>
                  products[i] == MergeProduct(old(products)[i], data)
      ensures old(NonNegativeStock(products)) ==> NonNegativeStock(products)
      ensures categories == old(categories) && suppliers == old(suppliers) && users == old(users)
      ensures isLoading == old(isLoading)
    {
      var snapshot := products;
      var oldProduct := FindProduct(products, id);
      products := MergeProducts(products, id, data);
      if oldProduct.Some? {
        var before := oldProduct.value.quantity;
        if data.quantity - before != 0 {
          var t := Transaction(txId, AdjustmentKind(before, data.quantity), id,
                               AbsDiff(before, data.quantity), now, AdjustmentNote);
          RecordTransaction(t, snapshot);
          EditWithAdjustment(snapshot, id, data, oldProduct.value, t);
        } else {
          EditWithoutAdjustment(snapshot, id, data, oldProduct.value);
        }
      } else {
        EditUnknownId(snapshot, id, data);
      }
    }

    /** `deleteProduct`: removes the products with that id; transactions that
        name it are kept and now point nowhere. */
    method DeleteProduct(id: Id)
      modifies this
      ensures products == ProductsWithout(old(products), id)
      ensures (forall p :: p in old(products) ==> p.id != id) ==> products == old(products)
      ensures transactions == old(transactions)
      ensures categories == old(categories) && suppliers == old(suppliers) && users == old(users)
      ensures isLoading == old(isLoading)
      ensures old(NonNegativeStock(products)) ==> NonNegativeStock(products)
    {
      var product := FindProduct(products, id);
      if product.None? {
        FilterKeepsAll(products, (p: Product) => p.id != id);
        return;
      }
      products := ProductsWithout(products, id);
    }

    // -------------------------------------------------------------------
    // Categories
    // -------------------------------------------------------------------

    method AddCategory(data: CategoryData, id: Id) returns (c: Category)
      modifies this
      ensures c == Category(id, data.name, data.description)
      ensures categories == old(categories) + [c]
      ensures products == old(products) && suppliers == old(suppliers)
      ensures transactions == old(transactions) && users == old(users)
      ensures isLoading == old(isLoading)
    {
      c := Category(id, data.name, data.description);
      categories := categories + [c];
    }

    method UpdateCategory(id: Id, data: CategoryData)
      modifies this
      ensures categories == MergeCategories(old(categories), id, data)
      ensures products == old(products) && suppliers == old(suppliers)
      ensures transactions == old(transactions) && users == old(users)
      ensures isLoading == old(isLoading)
    {
      categories := MergeCategories(categories, id, data);
    }

    /** `deleteCategory`: refused while the category is unknown or any
        product refers to it; otherwise removes it. */
    method DeleteCategory(id: Id) returns (ok: bool)
      modifies this
      ensures ok <==> (exists c :: c in old(categories) && c.id == id)
                      && (forall p :: p in products ==> p.categoryId != id)
      ensures ok ==> categories == CategoriesWithout(old(categories), id)
                     && |categories| < |old(categories)|
      ensures !ok ==> categories == old(categories)
      ensures products == old(products) && suppliers == old(suppliers)
      ensures transactions == old(transactions) && users == old(users)
      ensures isLoading == old(isLoading)
    {
      if !exists c :: c in categories && c.id == id {
        return false;
      }
      if exists p :: p in products && p.categoryId == id {
        return false;
      }
      var k :| 0 <= k < |categories| && categories[k].id == id;
      FilterDrops(categories, (c: Category) => c.id != id, k);
      categories := CategoriesWithout(categories, id);
      return true;
    }

    // -------------------------------------------------------------------
    // Suppliers
    // -------------------------------------------------------------------

    method AddSupplier(data: SupplierData, id: Id) returns (s: Supplier)
      modifies this
      ensures s == Supplier(id, data.name, data.contact, data.email, data.phone, data.address)
      ensures suppliers == old(suppliers) + [s]
      ensures products == old(products) && categories == old(categories)
      ensures transactions == old(transactions) && users == old(users)
      ensures isLoading == old(isLoading)
    {
      s := Supplier(id, data.name, data.contact, data.email, data.phone, data.address);
      suppliers := suppliers + [s];
    }

    method UpdateSupplier(id: Id, data: SupplierData)
      modifies this
      ensures suppliers == MergeSuppliers(old(suppliers), id, data)
      ensures products == old(products) && categories == old(categories)
      ensures transactions == old(transactions) && users == old(users)
      ensures isLoading == old(isLoading)
    {
      suppliers := MergeSuppliers(suppliers, id, data);
    }

    /** `deleteSupplier`: refused while the supplier is unknown or any
        product refers to it; otherwise removes it. */
    method DeleteSupplier(id: Id) returns (ok: bool)
      modifies this
      ensures ok <==> (exists s :: s in old(suppliers) && s.id == id)
                      && (forall p :: p in products ==> p.supplierId != id)
      ensures ok ==> suppliers == SuppliersWithout(old(suppliers), id)
                     && |suppliers| < |old(suppliers)|
      ensures !ok ==> suppliers == old(suppliers)
      ensures products == old(products) && categories == old(categories)
      ensures transactions == old(transactions) && users == old(users)
      ensures isLoading == old(isLoading)
    {
      if !exists s :: s in suppliers && s.id == id {
        return false;
      }
      if exists p :: p in products && p.supplierId == id {
        return false;
      }
      var k :| 0 <= k < |suppliers| && suppliers[k].id == id;
      FilterDrops(suppliers, (s: Supplier) => s.id != id, k);
      suppliers := SuppliersWithout(suppliers, id);
      return true;
    }

    // -------------------------------------------------------------------
    // Users
    // -------------------------------------------------------------------

    method AddUser(data: UserData, id: Id) returns (u: User)
      modifies this
      ensures u == User(id, data.name, data.email, data.role)
      ensures users == old(users) + [u]
      ensures products == old(products) && categories == old(categories)
      ensures suppliers == old(suppliers) && transactions == old(transactions)
      ensures isLoading == old(isLoading)
    {
      u := User(id, data.name, data.email, data.role);
      users := users + [u];
    }

    method UpdateUser(id: Id, data: UserData)
      modifies this
      ensures users == MergeUsers(old(users), id, data)
      ensures products == old(products) && categories == old(categories)
      ensures suppliers == old(suppliers) && transactions == old(transactions)
      ensures isLoading == old(isLoading)
    {
      users := MergeUsers(users, id, data);
    }

    /** `deleteUser`: refused when at most one user is left or the id is
        unknown; otherwise removes the users with that id. A user with
        another id always survives, so with distinct ids the list never
        becomes empty. */
    method DeleteUser(id: Id) returns (ok: bool)
      modifies this
      ensures ok <==> |old(users)| > 1 && exists u :: u in old(users) && u.id == id
      ensures ok ==> users == UsersWithout(old(users), id) && |users| < |old(users)|
      ensures !ok ==> users == old(users)
      ensures |old(users)| > 0 && DistinctUserIds(old(users)) ==> |users| > 0
      ensures products == old(products) && categories == old(categories)
      ensures suppliers == old(suppliers) && transactions == old(transactions)
      ensures isLoading == old(isLoading)
    {
      if |users| <= 1 {
        return false;
      }
      if !exists u :: u in users && u.id == id {
        return false;
      }
      var k :| 0 <= k < |users| && users[k].id == id;
      FilterDrops(users, (u: User) => u.id != id, k);
      if DistinctUserIds(users) {
        RemovingOneUserLeavesOthers(users, id);
      }
      users := UsersWithout(users, id);
      return true;
    }
  }

  /** A first load that raises leaves the session empty but no longer
      loading, so the next write-back stores five empty collections over
      whatever the storage held. */
  method FailedLoadEmptiesStorage(storage: LocalStorageService.LocalStorage)
    modifies storage
    ensures storage.Snapshot() == LocalStorageService.Stored(StockData([], [], [], [], []))
  {
    var store := new StockStore();
    store.LoadFailed();
    store.Persist(storage);
  }

  /** A product that arrives with 15 units is recorded once and is not low
      on stock at threshold 5; an exit of 20 then clamps it to zero, where it
      is low on stock. Both entries fit in the default recent view. */
  method InitialStockThenOversizedExit()
  {
    var store := new StockStore();
    var data := ProductData("Clavier", "CLV-001", "1", "1", 1000, 15, 5, "");
    var p := store.AddProduct(data, "p1", "t1", 100);
    assert store.products == [p] && p.quantity == 15;
    assert |store.transactions| == 1;
    assert store.transactions[0] in multiset(store.transactions);
    assert store.transactions[0] == Transaction("t1", Entry, "p1", 15, 100, InitialStockNote);
    assert p !in Aggregation.ProductsLowInStock(store.products);

    var t := store.AddTransaction(TransactionData(Exit, "p1", 20, 200, "Vente"), "t2");
    assert FindProduct([p], "p1") == Some(p);
    assert store.products[0].quantity == 0;
    assert store.products[0] in Aggregation.ProductsLowInStock(store.products);
    assert store.transactions[0] == t;
    assert |Aggregation.RecentTransactions(store.transactions)| == 2;
  }
}
