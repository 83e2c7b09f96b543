/**
 * The rows of the hosted database and an in-memory stand-in for it.
 * Every table the route handlers touch is a field of `Db`: the tables the
 * handlers address by id are maps from id to row, and `users` is a sequence
 * because login takes the first row that has a given user name.
 */
module Store {
  import opened Wrappers

  /**
   * JavaScript's `x || fallback` on a nullable numeric column: a NULL and a
   * zero both give way to the fallback.
   */
  function Or(x: Option<real>, fallback: real): real
  {
    if x.Some? && x.value != 0.0 then x.value else fallback
  }

  /** A row of `users`. */
  datatype User = User(id: int, username: string, passwordHash: string, role: string)

  /** What `req.session.user` holds once a user has logged in. */
  datatype SessionUser = SessionUser(id: int, username: string, role: string)

  /** A row of `products`. */
  datatype Product = Product(
    id: int, name: string, sku: string, price: real,
    stock: int, category: string, minStock: int)

  /** A row of `payment_methods`; `surchargePercent` may be NULL. */
  datatype PaymentMethod = PaymentMethod(id: int, name: string, surchargePercent: Option<real>, active: bool)

  /**
   * A row of `sales`. `total` is the legacy column of rows written before
   * the base/surcharge split; `createdAt` is the store's insertion timestamp.
   */
  datatype Sale = Sale(
    id: int, userId: int,
    totalBase: Option<real>, totalSurcharge: Option<real>, total: Option<real>,
    createdAt: int)

  /** A row of `sale_items`: the price is the one the cart carried, copied. */
  datatype SaleItem = SaleItem(saleId: int, productId: int, quantity: int, priceAtSale: real)

  /** A row of `sale_payments`. */
  datatype SalePayment = SalePayment(saleId: int, methodId: int, amount: real, surchargeAmount: real)

  /** The database. `nextId` is the next identifier the store will generate. */
  class Db {
    var users: seq<User>
    var products: map<int, Product>
    var methods: map<int, PaymentMethod>
    var sales: map<int, Sale>
    var saleItems: seq<SaleItem>
    var salePayments: seq<SalePayment>
    var nextId: nat

    /** Every id in use is below `nextId`, so the next one generated is fresh. */
    ghost predicate Valid()
      reads this
    {
      && (forall k :: k in products ==> k < nextId)
      && (forall k :: k in methods ==> k < nextId)
      && (forall k :: k in sales ==> k < nextId)
      && (forall i :: 0 <= i < |users| ==> users[i].id < nextId)
    }

    /** An empty database. */
    constructor ()
      ensures Valid()
      ensures users == [] && products == map[] && methods == map[] && sales == map[]
      ensures saleItems == [] && salePayments == [] && nextId == 0
    {
      users, products, methods, sales := [], map[], map[], map[];
      saleItems, salePayments, nextId := [], [], 0;
    }
  }

  /** The server-side session of one browser. */
  class Session {
    var user: Option<SessionUser>

    /** A fresh session has no user. */
    constructor ()
      ensures user == None
    {
      user := None;
    }
  }
}
