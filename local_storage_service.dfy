/** The persistence adapter: the browser's key-value store holds one JSON
    array per collection under the keys `products`, `categories`,
    `suppliers`, `transactions` and `users`. JSON encoding is taken to be
    lossless, so a key holds either nothing or the collection itself. */
module LocalStorageService {
  import opened Common
  import opened Entities

  /** What the five keys hold; `None` is a key that is not set. */
  datatype StorageState = StorageState(
    products: Option<seq<Product>>,
    categories: Option<seq<Category>>,
    suppliers: Option<seq<Supplier>>,
    transactions: Option<seq<Transaction>>,
    users: Option<seq<User>>)

  const EmptyStorage: StorageState := StorageState(None, None, None, None, None)

  /** The argument of `saveDataToStorage`; `None` is a collection left out. */
  datatype SaveRequest = SaveRequest(
    products: Option<seq<Product>>,
    categories: Option<seq<Category>>,
    suppliers: Option<seq<Supplier>>,
    transactions: Option<seq<Transaction>>,
    users: Option<seq<User>>)

  function FullSave(d: StockData): SaveRequest
  {
    SaveRequest(Some(d.products), Some(d.categories), Some(d.suppliers), Some(d.transactions), Some(d.users))
  }

  // ---------------------------------------------------------------------
  // Seed data
  // ---------------------------------------------------------------------

  function SampleProducts(now: Timestamp): seq<Product>
  {
    [ Product("1", "Ordinateur Portable", "ORD-001", "1", "1", 590000, 15, 5,
              "Ordinateur portable haute performance", now),
      Product("2", "Smartphone", "SMART-001", "1", "2", 325000, 25, 8,
              "Smartphone dernière génération", now) ]
  }

  function SampleCategories(): seq<Category>
  {
    [ Category("1", "Électronique", "Produits électroniques et gadgets"),
      Category("2", "Mobilier", "Meubles et accessoires de bureau") ]
  }

  function SampleSuppliers(): seq<Supplier>
  {
    [ Supplier("1", "TechPro", "Jean Dupont", "contact@techpro.com", "01 23 45 67 89",
               "123 Rue de la Tech, Paris"),
      Supplier("2", "MobileTech", "Marie Martin", "info@mobiletech.com", "01 98 76 54 32",
               "456 Avenue Mobile, Lyon") ]
  }

  function SampleTransactions(now: Timestamp): seq<Transaction>
  {
    [ Transaction("1", Entry, "1", 10, now - 7 * DayMs, "Réapprovisionnement régulier"),
      Transaction("2", Exit, "1", 2, now - 5 * DayMs, "Vente client") ]
  }

  function DefaultUser(): User
  {
    User("1", "Admin", "admin@mic-services.com", "Admin")
  }

  /** What a load of an empty store yields. */
  function SampleData(now: Timestamp): StockData
  {
    StockData(SampleProducts(now), SampleCategories(), SampleSuppliers(), SampleTransactions(now), [DefaultUser()])
  }

  // ---------------------------------------------------------------------
  // The effect of each operation on the store, as values
  // ---------------------------------------------------------------------

  /** What `loadDataFromStorage` returns: a stored collection is kept even
      when empty, a missing one is seeded; the users fall back to the default
      administrator when missing or empty. */
  function LoadedData(s: StorageState, now: Timestamp): StockData
  {
    StockData(
      if s.products.Some? then s.products.value else SampleProducts(now),
      if s.categories.Some? then s.categories.value else SampleCategories(),
      if s.suppliers.Some? then s.suppliers.value else SampleSuppliers(),
      if s.transactions.Some? then s.transactions.value else SampleTransactions(now),
      if s.users.None? || |s.users.value| == 0 then [DefaultUser()] else s.users.value)
  }

  /** The store after writing all five collections of `d`. */
  function Stored(d: StockData): StorageState
  {
    StorageState(Some(d.products), Some(d.categories), Some(d.suppliers), Some(d.transactions), Some(d.users))
  }

  /** The store after `saveDataToStorage(req)`: each key whose collection is
      provided is overwritten, every other key keeps what it held. */
  function Saved(s: StorageState, req: SaveRequest): StorageState
  {
    StorageState(
      if req.products.Some? then req.products else s.products,
      if req.categories.Some? then req.categories else s.categories,
      if req.suppliers.Some? then req.suppliers else s.suppliers,
      if req.transactions.Some? then req.transactions else s.transactions,
      if req.users.Some? then req.users else s.users)
  }

  // ---------------------------------------------------------------------
  // The store itself
  // ---------------------------------------------------------------------

  class LocalStorage {
    var products: Option<seq<Product>>
    var categories: Option<seq<Category>>
    var suppliers: Option<seq<Supplier>>
    var transactions: Option<seq<Transaction>>
    var users: Option<seq<User>>

    /** A browser store with none of the five keys set. */
    constructor ()
      ensures Snapshot() == EmptyStorage
    {
      products, categories, suppliers, transactions, users := None, None, None, None, None;
    }

    function Snapshot(): StorageState
      reads this
    {
      StorageState(products, categories, suppliers, transactions, users)
    }

    /** Reads the five keys, seeds what is missing and writes every
        collection back, so the seeds become durable. */
    method LoadDataFromStorage(now: Timestamp) returns (d: StockData)
      modifies this
      ensures d == LoadedData(old(Snapshot()), now)
      ensures Snapshot() == Stored(d)
    {
      var ps := if products.Some? then products.value else SampleProducts(now);
      var cs := if categories.Some? then categories.value else SampleCategories();
      var ss := if suppliers.Some? then suppliers.value else SampleSuppliers();
      var ts := if transactions.Some? then transactions.value else SampleTransactions(now);
      var stored := users;
      var us: seq<User>;
      if stored.None? || |stored.value| == 0 {
        us := [DefaultUser()];
      } else {
        us := stored.value;
      }
      products := Some(ps);
      categories := Some(cs);
      suppliers := Some(ss);
      transactions := Some(ts);
      users := Some(us);
      d := StockData(ps, cs, ss, ts, us);
    }

    method SaveDataToStorage(req: SaveRequest)
      modifies this
      ensures Snapshot() == Saved(old(Snapshot()), req)
    {
      if req.products.Some? { products := req.products; }
      if req.categories.Some? { categories := req.categories; }
      if req.suppliers.Some? { suppliers := req.suppliers; }
      if req.transactions.Some? { transactions := req.transactions; }
      if req.users.Some? { users := req.users; }
    }

    /** Removes the five keys, then loads: the store is re-seeded. */
    method ResetAllData(now: Timestamp) returns (d: StockData)
      modifies this
      ensures d == SampleData(now)
      ensures Snapshot() == Stored(d)
    {
      products := None;
      categories := None;
      suppliers := None;
      transactions := None;
      users := None;
      d := LoadDataFromStorage(now);
    }
  }

  // ---------------------------------------------------------------------
  // Properties of load, save and reset
  // ---------------------------------------------------------------------

  /** A load always yields at least one user; a store without users, or with
      an empty user list, yields exactly the default administrator. */
  lemma LoadAlwaysHasAUser(s: StorageState, now: Timestamp)
    ensures |LoadedData(s, now).users| > 0
    ensures s.users.None? || s.users == Some([]) ==>
              LoadedData(s, now).users == [DefaultUser()]
              && DefaultUser().id == "1" && DefaultUser().role == "Admin"
    ensures s.users.Some? && |s.users.value| > 0 ==> LoadedData(s, now).users == s.users.value
  {
  }

  /** A stored collection wins over the seed even when it is empty; the seed
      is used only for a key that is not set. */
  lemma LoadKeepsStoredCollections(s: StorageState, now: Timestamp)
    ensures s.products.Some? ==> LoadedData(s, now).products == s.products.value
    ensures s.categories.Some? ==> LoadedData(s, now).categories == s.categories.value
    ensures s.suppliers.Some? ==> LoadedData(s, now).suppliers == s.suppliers.value
    ensures s.transactions.Some? ==> LoadedData(s, now).transactions == s.transactions.value
    ensures s.products == Some([]) ==> LoadedData(s, now).products == []
    ensures s.products.None? ==> LoadedData(s, now).products == SampleProducts(now)
    ensures s.categories.None? ==> LoadedData(s, now).categories == SampleCategories()
    ensures s.suppliers.None? ==> LoadedData(s, now).suppliers == SampleSuppliers()
    ensures s.transactions.None? ==> LoadedData(s, now).transactions == SampleTransactions(now)
  {
  }

  /** Loading twice gives the same collections and the same store as
      loading once, whenever the second load happens. */
  lemma LoadIsIdempotent(s: StorageState, now: Timestamp, later: Timestamp)
    ensures LoadedData(Stored(LoadedData(s, now)), later) == LoadedData(s, now)
    ensures Stored(LoadedData(Stored(LoadedData(s, now)), later)) == Stored(LoadedData(s, now))
  {
    LoadAlwaysHasAUser(s, now);
  }

  /** Saving all five collections and loading them back returns them, as
      long as the user list saved is not empty. */
  lemma SaveThenLoad(s: StorageState, d: StockData, now: Timestamp)
    requires |d.users| > 0
    ensures LoadedData(Saved(s, FullSave(d)), now) == d
    ensures Saved(s, FullSave(d)) == Stored(d)
  {
  }

  /** Saving an empty user list is not undone by the save but by the next
      load, which brings the default administrator back. */
  lemma SaveEmptyUsersThenLoad(s: StorageState, d: StockData, now: Timestamp)
    requires d.users == []
    ensures LoadedData(Saved(s, FullSave(d)), now) == d.(users := [DefaultUser()])
  {
  }

  /** A save writes every collection it provides, and a collection it
      leaves out does not touch its key. */
  lemma SaveLeavesOmittedKeys(s: StorageState, req: SaveRequest)
    ensures req.products.Some? ==> Saved(s, req).products == req.products
    ensures req.categories.Some? ==> Saved(s, req).categories == req.categories
    ensures req.suppliers.Some? ==> Saved(s, req).suppliers == req.suppliers
    ensures req.transactions.Some? ==> Saved(s, req).transactions == req.transactions
    ensures req.users.Some? ==> Saved(s, req).users == req.users
    ensures req.products.None? ==> Saved(s, req).products == s.products
    ensures req.categories.None? ==> Saved(s, req).categories == s.categories
    ensures req.suppliers.None? ==> Saved(s, req).suppliers == s.suppliers
    ensures req.transactions.None? ==> Saved(s, req).transactions == s.transactions
    ensures req.users.None? ==> Saved(s, req).users == s.users
  {
  }

  /** A reset yields the two sample products, categories, suppliers and
      transactions and exactly one user, the default administrator. */
  lemma ResetYieldsSeedData(now: Timestamp)
    ensures LoadedData(EmptyStorage, now) == SampleData(now)
    ensures |SampleData(now).products| == 2 && |SampleData(now).categories| == 2
    ensures |SampleData(now).suppliers| == 2 && |SampleData(now).transactions| == 2
    ensures SampleData(now).users == [DefaultUser()] && DefaultUser().role == "Admin"
  {
  }
}
