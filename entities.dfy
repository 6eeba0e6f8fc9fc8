/** The five entity kinds the stock ledger holds, as values. Identifiers are
    opaque strings; dates are millisecond timestamps; prices are whole FCFA
    amounts. */
module Entities {

  type Id = string

  /** Milliseconds since the epoch (the source keeps ISO strings and
      compares them through `new Date(...)`). */
  type Timestamp = int

  const DayMs: int := 24 * 60 * 60 * 1000

  datatype Product = Product(
    id: Id,
    name: string,
    sku: string,
    categoryId: Id,
    supplierId: Id,
    price: nat,
    quantity: int,
    threshold: int,
    description: string,
    createdAt: Timestamp)

  /** The fields a product form submits, for creation and for edits. */
  datatype ProductData = ProductData(
    name: string,
    sku: string,
    categoryId: Id,
    supplierId: Id,
    price: nat,
    quantity: int,
    threshold: int,
    description: string)

  datatype Category = Category(id: Id, name: string, description: string)

  datatype CategoryData = CategoryData(name: string, description: string)

  datatype Supplier = Supplier(
    id: Id,
    name: string,
    contact: string,
    email: string,
    phone: string,
    address: string)

  datatype SupplierData = SupplierData(
    name: string,
    contact: string,
    email: string,
    phone: string,
    address: string)

  /** `'entrée'` increases stock; every other type string is treated as an
      exit (`'sortie'`). */
  datatype Movement = Entry | Exit

  /** A ledger entry. */
  datatype Transaction = Transaction(
    id: Id,
    kind: Movement,
    productId: Id,
    quantity: int,
    date: Timestamp,
    notes: string)

  /** The fields a stock-movement form submits. */
  datatype TransactionData = TransactionData(
    kind: Movement,
    productId: Id,
    quantity: int,
    date: Timestamp,
    notes: string)

  /** Roles are free strings; only "Admin", "Editor" and "Viewer" grant
      anything. */
  datatype User = User(id: Id, name: string, email: string, role: string)

  datatype UserData = UserData(name: string, email: string, role: string)

  /** The five collections the ledger owns, as loaded from or saved to storage. */
  datatype StockData = StockData(
    products: seq<Product>,
    categories: seq<Category>,
    suppliers: seq<Supplier>,
    transactions: seq<Transaction>,
    users: seq<User>)

  /** Every product quantity is non-negative. */
  predicate NonNegativeStock(ps: seq<Product>)
  {
    forall p :: p in ps ==> p.quantity >= 0
  }
}
