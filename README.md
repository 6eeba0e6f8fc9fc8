# Stock ledger engine — a Dafny model

This project models the core of a browser-based stock management dashboard.
The dashboard keeps five collections: products, categories, suppliers, stock
movements (transactions) and users. It keeps them in the browser's key-value
storage and gates actions by user role.

Three source files are modelled:

- `src/context/StockContext.jsx`, the stock ledger engine. It is the class
  `StockContext.StockStore`, with one `seq` field per collection and one
  method per mutator. The pure parts it relies on are in module `Ledger`:
  - product lookup and merge-by-id;
  - the movement clamped at zero;
  - the stable date-descending order of the ledger.

  Its read-only views (`get*`) are functions in module `Aggregation`.
- `src/context/AuthContext.jsx`, the permission table and the rule that the
  current user is the first user. These are functions in module `AuthContext`.
- `src/services/localStorageService.js`, the persistence adapter. It is the
  class `LocalStorageService.LocalStorage`, with one `Option` field per storage
  key. Each of its operations (load with seeding and write-back, save, reset)
  is a method. A pure function gives the effect of each operation, and lemmas
  state the load/save/reset rules.

Modelling choices:

- **Ids and the clock are inputs.** Ids come from `Date.now()` in the source.
  Here they are parameters (`id`, `txId`), and so is the current time (`now`).
- **Dates** are millisecond timestamps.
- **Prices** are whole non-negative FCFA amounts (`nat`); fractional prices are not modelled (see "## Left out"). Quantities and thresholds are
  `int`, so the source's `> 0` tests and its clamp are modelled exactly.
- **The stale product list.** `addTransaction` finds the product in the
  product list its caller saw, not in the list after the caller's own update.
  `StockStore.RecordTransaction` models this with an explicit `snapshot`
  parameter. `AddProduct` passes the list from before the append, so the
  initial stock is not counted twice. `UpdateProduct` passes the list from
  before the merge, so the product ends at the new quantity, clamped at zero.
- **The ledger sort.** `sort` on the ledger is JavaScript's stable sort with a
  date-descending comparator. It is modelled as an insertion sort
  (`Ledger.SortByDateDesc`). The model proves that this sort returns a
  date-descending permutation of its input, keeps entries with the same date
  in their input order, and leaves a sorted ledger unchanged.

Four behaviours of the code:

- `resetAllData` does not keep the previous first user. It removes all five
  keys and reloads, which yields the sample data and the default
  administrator only.
- A load fills in a collection only when its key is not set. A stored empty
  array is kept. Only the user list is also re-seeded when it is empty.
- `deleteUser` refuses when at most one user remains. It also refuses when
  the id is unknown. If the id is known, it removes every user with that id.
- When reading the storage raises, the mount effect reports the error and
  still ends the loading phase with empty collections. The write-back effect
  then stores five empty arrays, because an empty array passes the save
  guards. One unreadable key therefore wipes every stored collection.

## Model

| member | source | states |
|---|---|---|
| `Ledger.FindProduct` | src/context/StockContext.jsx:184 | `None` exactly when no product has the id; otherwise the first product with that id, taken from the list |
| `Ledger.MergeProducts` | src/context/StockContext.jsx:70-74 | same length; every product keeps its id and creation date; products with another id are unchanged; those with the id take every field of the form (name, sku, category, supplier, price, quantity, threshold, description) |
| `Ledger.MergeCategories` | src/context/StockContext.jsx:115 | same length; other ids unchanged; a category with the id becomes the form under the same id |
| `Ledger.MergeSuppliers` | src/context/StockContext.jsx:153 | same length; other ids unchanged; a supplier with the id becomes the form under the same id |
| `Ledger.MergeUsers` | src/context/StockContext.jsx:213 | same length; other ids unchanged; a user with the id becomes the form under the same id |
| `Ledger.ProductsWithout` | src/context/StockContext.jsx:97 | keeps exactly the products whose id differs |
| `Ledger.CategoriesWithout` | src/context/StockContext.jsx:134 | keeps exactly the categories whose id differs |
| `Ledger.SuppliersWithout` | src/context/StockContext.jsx:172 | keeps exactly the suppliers whose id differs |
| `Ledger.UsersWithout` | src/context/StockContext.jsx:231 | keeps exactly the users whose id differs |
| `Ledger.ProductsWithoutKeepsOrder` | src/context/StockContext.jsx:97 | the removal keeps the survivors in list order, repeats included: piecewise over any split, and one entry is kept exactly when its id differs |
| `Ledger.CategoriesWithoutKeepsOrder` | src/context/StockContext.jsx:134 | the same order-keeping for the categories |
| `Ledger.SuppliersWithoutKeepsOrder` | src/context/StockContext.jsx:172 | the same order-keeping for the suppliers |
| `Ledger.UsersWithoutKeepsOrder` | src/context/StockContext.jsx:231 | the same order-keeping for the users |
| `Ledger.RemovingOneUserLeavesOthers` | src/context/StockContext.jsx:220-237 | with two or more users and distinct ids, deleting one id leaves a non-empty user list |
| `Ledger.DuplicateUserIdsEmptyTheList` | src/context/StockContext.jsx:231 | two users that share one id are both removed, so the list can become empty |
| `Ledger.ApplyMovement` | src/context/StockContext.jsx:184-193 | same length; only quantities change; products with another id are unchanged. The moved quantity is fixed by `MovementOnKnownProduct` and `MovementOnUnknownProduct` |
| `Ledger.MovementKeepsStockNonNegative` | src/context/StockContext.jsx:184-193 | a movement never leaves a negative quantity, even when an exit exceeds the stock |
| `Ledger.MovementOnKnownProduct` | src/context/StockContext.jsx:184-193 | the product becomes `max(0, q + n)` for an entry and `max(0, q - n)` for an exit; every other product is unchanged |
| `Ledger.MovementOnOwnList` | src/context/StockContext.jsx:184-193 | looked up in the list it changes, a movement moves exactly the entries with the found id, to the clamped quantity, and keeps stock non-negative; an unknown id changes nothing |
| `Ledger.MovementOnUnknownProduct` | src/context/StockContext.jsx:184-185 | a movement naming no known product changes no product |
| `Ledger.AdjustmentReachesTarget` | src/context/StockContext.jsx:77-85 | the adjustment entry (entry when stock rises, else exit, of `\|Q2-Q1\|`) applied to Q1 gives Q2, clamped at zero |
| `Ledger.EditWithAdjustment` | src/context/StockContext.jsx:67-87 | an edit from Q1 to Q2 ≠ Q1 leaves the product with the merged fields and quantity `max(0, Q2)`; other products unchanged; non-negative stock stays non-negative |
| `Ledger.EditWithoutAdjustment` | src/context/StockContext.jsx:70-78 | an edit that keeps the quantity merges the fields and nothing else |
| `Ledger.EditUnknownId` | src/context/StockContext.jsx:70-76 | editing an unknown id leaves the products unchanged |
| `Ledger.InsertByDate` | src/context/StockContext.jsx:182 | inserting into a date-descending ledger adds exactly that entry and keeps the order |
| `Ledger.SortByDateDesc` | src/context/StockContext.jsx:182 | the sort returns a date-descending permutation of its input |
| `Ledger.SortIsStable` | src/context/StockContext.jsx:182 | entries with the same date keep their input order (stable sort) |
| `Ledger.SortKeepsSortedLedger` | src/context/StockContext.jsx:182 | sorting a ledger already in date-descending order leaves it unchanged |
| `Ledger.Record` | src/context/StockContext.jsx:180-182 | recording adds exactly one entry, the new one, and leaves the ledger date-descending |
| `Ledger.RecordIsStable` | src/context/StockContext.jsx:182 | the new entry comes after every existing entry with the same date |
| `Ledger.RecordOnSortedLedger` | src/context/StockContext.jsx:182 | on a sorted ledger, recording inserts the entry and moves no other entry |
| `Aggregation.ProductsLowInStock` | src/context/StockContext.jsx:239 | exactly the products with quantity ≤ threshold, including quantity 0 |
| `Aggregation.LowStockKeepsOrder` | src/context/StockContext.jsx:239 | the low-stock view keeps catalogue order |
| `Aggregation.LowStockMatchesBadges` | src/components/products/ProductCard.jsx:82-88 | `Badge` is the card's rule (0 is out of stock, at or below the threshold is low, otherwise in stock); with a non-negative threshold, a product is in the low-stock view exactly when its card shows "rupture" or "faible" |
| `Aggregation.ProductsInCategory` | src/context/StockContext.jsx:243 | exactly the products whose `categoryId` is the category's id |
| `Aggregation.ProductsInCategoryKeepsOrder` | src/context/StockContext.jsx:243 | a category's products come in catalogue order, repeats included |
| `Aggregation.ProductsByCategory` | src/context/StockContext.jsx:240-246 | one key per category name, including categories without products; under each name, the products of the last category with that name |
| `Aggregation.RecentTransactions` | src/context/StockContext.jsx:247 | `limit` defaults to 5; length `min(limit, n)`, or `slice` semantics for a negative limit; date-descending; drawn from the ledger; no omitted entry is newer than a returned one |
| `Aggregation.RecentOfSortedLedger` | src/context/StockContext.jsx:247 | on a ledger already in order, the view is a prefix of the ledger |
| `Aggregation.TotalStockValue` | src/context/StockContext.jsx:248 | no contract of its own; its meaning, the sum of price × quantity, is fixed by `StockValueAdditive` and `StockValueOfOne` |
| `Aggregation.StockValueAdditive` | src/context/StockContext.jsx:248 | the stock value of a concatenation is the sum of the stock values of its parts |
| `Aggregation.StockValueOfOne` | src/context/StockContext.jsx:248 | the value of a single product is price × quantity |
| `Aggregation.StockValueNonNegative` | src/context/StockContext.jsx:248 | with no negative quantity, the stock value is not negative |
| `Aggregation.StockValueExample` | src/context/StockContext.jsx:248 | 1000 × 3 plus 500 × 10 gives 8000 |
| `Aggregation.TransactionsByPeriod` | src/context/StockContext.jsx:249-253 | `days` defaults to 7; exactly the transactions dated at or after `now - days` days |
| `Aggregation.PeriodKeepsOrder` | src/context/StockContext.jsx:249-253 | the period view keeps ledger order, repeats included: piecewise over any split, and one entry is kept exactly when it is dated at or after the window start |
| `Aggregation.PeriodsNest` | src/context/StockContext.jsx:249-253 | a longer period contains every transaction of a shorter one |
| `AuthContext.CurrentUser` | src/context/AuthContext.jsx:12-16 | no contract of its own; fixed by `CurrentUserAfterLoad` and `FirstStartIsAdmin` |
| `AuthContext.HasPermission` | src/context/AuthContext.jsx:18-31 | no contract of its own; fixed by `PermissionsFollowLevels` and the role-by-role lemmas below |
| `AuthContext.PermissionsFollowLevels` | src/context/AuthContext.jsx:18-31 | the table equals an independent level reading: Viewer 1 < Editor 2 < Admin 3; viewing needs 1, `add_transactions` 2, anything else 3 |
| `AuthContext.NoUserNoPermission` | src/context/AuthContext.jsx:19 | with no current user, every permission is denied |
| `AuthContext.AdminHasEveryPermission` | src/context/AuthContext.jsx:22-23 | Admin is granted every permission string |
| `AuthContext.EditorPermissionsExactly` | src/context/AuthContext.jsx:24-25 | Editor is granted exactly the four listed permissions; `admin` and `view_reports` are denied |
| `AuthContext.ViewerPermissionsExactly` | src/context/AuthContext.jsx:26-27 | Viewer is granted exactly the three view permissions and is denied `add_transactions` |
| `AuthContext.UnknownRoleHasNoPermission` | src/context/AuthContext.jsx:28-29 | any other role is denied everything |
| `AuthContext.PermissionsAreMonotone` | src/context/AuthContext.jsx:22-27 | Viewer ⊆ Editor ⊆ Admin |
| `AuthContext.CurrentUserAfterLoad` | src/context/AuthContext.jsx:12-16 | after any load, the current user is the first loaded user |
| `AuthContext.FirstStartIsAdmin` | src/context/AuthContext.jsx:12-23 | on an empty store, the current user is the default Admin, who holds every permission |
| `LocalStorageService.SampleProducts` | src/services/localStorageService.js:9-12 | no contract of its own; the two sample products, counted by `ResetYieldsSeedData` |
| `LocalStorageService.SampleCategories` | src/services/localStorageService.js:14-17 | no contract of its own; the two sample categories, counted by `ResetYieldsSeedData` |
| `LocalStorageService.SampleSuppliers` | src/services/localStorageService.js:19-22 | no contract of its own; the two sample suppliers, counted by `ResetYieldsSeedData` |
| `LocalStorageService.SampleTransactions` | src/services/localStorageService.js:24-27 | no contract of its own; an entry of 10 seven days back and an exit of 2 five days back, counted by `ResetYieldsSeedData` |
| `LocalStorageService.DefaultUser` | src/services/localStorageService.js:29 | no contract of its own; `LoadAlwaysHasAUser` states its id `'1'` and role `Admin` |
| `LocalStorageService.LoadedData` | src/services/localStorageService.js:32-49 | no contract of its own; fixed by `LoadAlwaysHasAUser`, `LoadKeepsStoredCollections`, `LoadIsIdempotent` and `SaveThenLoad` |
| `LocalStorageService.Saved` | src/services/localStorageService.js:52-58 | no contract of its own; fixed by `SaveLeavesOmittedKeys` and `SaveThenLoad` |
| `LocalStorageService.LocalStorage.LoadDataFromStorage` | src/services/localStorageService.js:32-50 | returns the loaded collections and leaves each of the five keys holding exactly what it returned |
| `LocalStorageService.LocalStorage.SaveDataToStorage` | src/services/localStorageService.js:52-58 | overwrites only the keys whose collection is provided |
| `LocalStorageService.LocalStorage.ResetAllData` | src/services/localStorageService.js:60-66 | returns the seed data and stores it under all five keys |
| `LocalStorageService.LoadAlwaysHasAUser` | src/services/localStorageService.js:37-41 | a load yields at least one user; missing or empty users become exactly `[default Admin]` with id `'1'` |
| `LocalStorageService.LoadKeepsStoredCollections` | src/services/localStorageService.js:33-36 | a stored collection is kept even when empty; for each of products, categories, suppliers and transactions, an absent key yields that collection's sample set |
| `LocalStorageService.LoadIsIdempotent` | src/services/localStorageService.js:32-50 | a second load returns the same collections and leaves the same store |
| `LocalStorageService.SaveThenLoad` | src/services/localStorageService.js:32-58 | saving all five collections, with a non-empty user list, and loading returns them unchanged |
| `LocalStorageService.SaveEmptyUsersThenLoad` | src/services/localStorageService.js:37-41 | a saved empty user list comes back as the default Admin |
| `LocalStorageService.SaveLeavesOmittedKeys` | src/services/localStorageService.js:52-58 | a save writes each collection it provides under its key, and a key whose collection is not provided keeps its stored value |
| `LocalStorageService.ResetYieldsSeedData` | src/services/localStorageService.js:60-66 | a reset gives two sample products, categories, suppliers and transactions, and exactly one user, the default Admin |
| `StockContext.StockStore.constructor` | src/context/StockContext.jsx:11-16 | before loading, every collection is empty |
| `StockContext.StockStore.Load` | src/context/StockContext.jsx:18-36 | the store takes over the loaded collections, has at least one user and is no longer loading |
| `StockContext.StockStore.LoadFailed` | src/context/StockContext.jsx:26-35 | when loading raises, the collections keep what they held and loading ends |
| `StockContext.FailedLoadEmptiesStorage` | src/context/StockContext.jsx:18-42 | after a first load that raises, the write-back stores five empty collections over the storage |
| `StockContext.StockStore.Persist` | src/context/StockContext.jsx:38-42 | once loaded, all five collections are written back; while loading, nothing is written |
| `StockContext.StockStore.RecordTransaction` | src/context/StockContext.jsx:180-193 | the ledger becomes `sort(old + [t])`; the product found in the caller's snapshot gets its clamped quantity |
| `StockContext.StockStore.AddTransaction` | src/context/StockContext.jsx:180-200 | the ledger grows by exactly the new entry and is date-descending; the product's quantity moves with a clamp at zero; an unknown product changes nothing; other collections are unchanged; `isLoading` is unchanged, so `Persist` still writes the change back |
| `StockContext.StockStore.AddProduct` | src/context/StockContext.jsx:44-65 | appends the product; when quantity > 0, records one `'Stock initial'` entry, else none and the list is exactly the old one plus the product; with a fresh id the quantity is not doubled; a non-negative quantity keeps all stock non-negative; `isLoading` is unchanged, so `Persist` still writes the change back |
| `StockContext.StockStore.UpdateProduct` | src/context/StockContext.jsx:67-92 | an unknown id changes nothing; Q1 = Q2 records no entry; otherwise exactly one adjustment entry of `\|Q2-Q1\|`; the product ends with the merged fields and quantity Q2 (clamped at zero); others unchanged; `isLoading` is unchanged, so `Persist` still writes the change back |
| `StockContext.StockStore.DeleteProduct` | src/context/StockContext.jsx:94-102 | removes only the products with that id, is a no-op when the id is absent, and leaves transactions untouched; `isLoading` is unchanged, so `Persist` still writes the change back |
| `StockContext.StockStore.AddCategory` | src/context/StockContext.jsx:104-112 | appends the new category; `isLoading` is unchanged, so `Persist` still writes the change back |
| `StockContext.StockStore.UpdateCategory` | src/context/StockContext.jsx:114-120 | merges the form into the categories with that id; `isLoading` is unchanged, so `Persist` still writes the change back |
| `StockContext.StockStore.DeleteCategory` | src/context/StockContext.jsx:122-140 | succeeds exactly when the id exists and no product uses it; then removes exactly those entries; otherwise changes nothing; `isLoading` is unchanged, so `Persist` still writes the change back |
| `StockContext.StockStore.AddSupplier` | src/context/StockContext.jsx:142-150 | appends the new supplier; `isLoading` is unchanged, so `Persist` still writes the change back |
| `StockContext.StockStore.UpdateSupplier` | src/context/StockContext.jsx:152-158 | merges the form into the suppliers with that id; `isLoading` is unchanged, so `Persist` still writes the change back |
| `StockContext.StockStore.DeleteSupplier` | src/context/StockContext.jsx:160-178 | succeeds exactly when the id exists and no product uses it; then removes exactly those entries; otherwise changes nothing; `isLoading` is unchanged, so `Persist` still writes the change back |
| `StockContext.StockStore.AddUser` | src/context/StockContext.jsx:202-210 | appends the new user; `isLoading` is unchanged, so `Persist` still writes the change back |
| `StockContext.StockStore.UpdateUser` | src/context/StockContext.jsx:212-218 | merges the form into the users with that id; `isLoading` is unchanged, so `Persist` still writes the change back |
| `StockContext.StockStore.DeleteUser` | src/context/StockContext.jsx:220-237 | refused when at most one user is left or the id is unknown; otherwise removes that id; with distinct ids the list never becomes empty; `isLoading` is unchanged, so `Persist` still writes the change back |

## Left out

- Toast notifications, `console.error` and React's effect scheduling are not modelled. They are presentation or framework behaviour. Only the sequential outcome of each mutator is modelled, including the stale product list that `addTransaction` reads.
- What makes `JSON.parse` raise, a malformed stored value, is not modelled: the storage holds well-formed collections. The outcome of the raise is modelled by `StockStore.LoadFailed` and `StockContext.FailedLoadEmptiesStorage`.
- Ids and timestamps come from `Date.now()` and `new Date()` in the source. Here they are inputs, and nothing is claimed about their uniqueness.
- `StockContext.StockStore.AddProduct`: the "not doubled" property is proved only when the new id differs from every existing product id. If the ids collide, the stale lookup would move the existing product instead.
- `StockContext.StockStore.DeleteUser`: the "never empties" property is proved only for user lists with distinct ids. With repeated ids, the source's filter can empty the list (`Ledger.DuplicateUserIdsEmptyTheList`).
- `Aggregation.TransactionsByPeriod`: the window start is `now - days × 86 400 000 ms`. The source subtracts calendar days in local time (`setDate`), which differs by an hour across a daylight-saving change.
- Prices in the source are JavaScript numbers. The product page reads them with `parseFloat`, which accepts fractional prices such as 12.5. The model restricts prices to whole non-negative amounts, so fractional prices and floating-point arithmetic are not modelled.
- Aggregation.ProductsByCategory: the source builds a plain object, whose keys keep their insertion order. A Dafny `map` has no key order, so the model does not capture the order of the category names, only which names are present and what each holds.
- Transaction types are strings in the source. Anything other than `'entrée'` is treated as an exit. The model uses a two-valued type, `Entry` or `Exit`.
- Form validation is not modelled: required fields, negative numbers, email format and `parseInt`/`parseFloat`. It lives in the pages. The non-negative-stock results therefore assume a non-negative quantity wherever a form supplies one.
- These are UI, I/O or a foreign authentication provider, and are not modelled: pages, dialogs, charts, reports, PDF export, the data import/export bundle, the settings page's own storage reset, routing and the authentication session provider.
- `setCurrentUser`, which pages can call to change the current user directly, is not modelled. Only the "first user becomes current" effect is modelled.
