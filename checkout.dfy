/** The point-of-sale routes (routes/pos.js): the sale screen and checkout. */
module Pos {
  import opened Wrappers
  import opened Store
  import Seqs

  /** One line of the posted cart: product id, unit price and quantity as sent. */
  datatype CartLine = CartLine(id: int, price: real, quantity: int)

  /** One posted payment: the method and the part of the base total it covers. */
  datatype Payment = Payment(methodId: int, amount: real)

  datatype CheckoutError =
    | EmptyCart
    | MissingPayment
    | PaymentMismatch(covered: real, base: real)

  /** The JSON reply: `{success, saleId}`, a 400 `{error}` or a 500 `{error}`. */
  datatype CheckoutReply = Completed(saleId: int) | BadRequest(error: CheckoutError) | ServerError

  function Status(r: CheckoutReply): int
  {
    match r
    case Completed(_) => 200
    case BadRequest(_) => 400
    case ServerError => 500
  }

  /** The message of the two fixed 400 replies (the mismatch one embeds its figures). */
  function ErrorText(e: CheckoutError): string
    requires !e.PaymentMismatch?
  {
    match e
    case EmptyCart => "Carrito vacío"
    case MissingPayment => "Falta método de pago"
  }

  /** How far the amounts paid may be from the base total. */
  const Tolerance: real := 0.1

  function Abs(x: real): real { if x < 0.0 then -x else x }

  function LineTotal(l: CartLine): real { l.price * (l.quantity as real) }

  /** Σ price × quantity over the cart: `totalBase`. */
  function CartTotal(cart: seq<CartLine>): real
  {
    if cart == [] then 0.0 else CartTotal(cart[..|cart| - 1]) + LineTotal(cart[|cart| - 1])
  }

  /** Σ of the payment amounts: `totalCovered`. */
  function PaymentsTotal(ps: seq<Payment>): real
  {
    if ps == [] then 0.0 else PaymentsTotal(ps[..|ps| - 1]) + ps[|ps| - 1].amount
  }

  /**
   * The checks made before anything is written, in their order: a missing
   * or empty cart, then missing or empty payments, then payments that are
   * more than the tolerance away from the base total.
   */
  function Validate(cart: Option<seq<CartLine>>, payments: Option<seq<Payment>>): (r: Option<CheckoutError>)
    ensures r == Some(EmptyCart) <==> cart.None? || cart.value == []
    ensures r == Some(MissingPayment) <==> cart.Some? && cart.value != [] && (payments.None? || payments.value == [])
    ensures r.None? <==> cart.Some? && cart.value != [] && payments.Some? && payments.value != []
                         && Abs(PaymentsTotal(payments.value) - CartTotal(cart.value)) <= Tolerance
    ensures r.Some? && r.value.PaymentMismatch? ==>
              r.value == PaymentMismatch(PaymentsTotal(payments.value), CartTotal(cart.value))
  {
    if cart.None? || cart.value == [] then Some(EmptyCart)
    else if payments.None? || payments.value == [] then Some(MissingPayment)
    else
      var base := CartTotal(cart.value);
      var covered := PaymentsTotal(payments.value);
      if Abs(covered - base) > Tolerance then Some(PaymentMismatch(covered, base)) else None
  }

  /** The `sale_items` rows of the first `n` cart lines: one per line, in cart order. */
  function ItemRows(saleId: int, cart: seq<CartLine>, n: nat): seq<SaleItem>
    requires n <= |cart|
  {
    if n == 0 then []
    else ItemRows(saleId, cart, n - 1) + [SaleItem(saleId, cart[n - 1].id, cart[n - 1].quantity, cart[n - 1].price)]
  }

  /** A method's `surcharge_percent || 0`. */
  function PercentOf(m: PaymentMethod): real { m.surchargePercent.GetOr(0.0) }

  /** The methods of the first `n` payments all exist. */
  predicate MethodsKnown(methods: map<int, PaymentMethod>, ps: seq<Payment>, n: nat)
  {
    n <= |ps| && forall i :: 0 <= i < n ==> ps[i].methodId in methods
  }

  function SurchargeOf(methods: map<int, PaymentMethod>, p: Payment): real
    requires p.methodId in methods
  {
    p.amount * (PercentOf(methods[p.methodId]) / 100.0)
  }

  /** The `sale_payments` rows of the first `n` payments, in order, each with its surcharge. */
  function PaymentRows(saleId: int, methods: map<int, PaymentMethod>, ps: seq<Payment>, n: nat): seq<SalePayment>
    requires MethodsKnown(methods, ps, n)
  {
    if n == 0 then []
    else PaymentRows(saleId, methods, ps, n - 1) + [SalePayment(saleId, ps[n - 1].methodId, ps[n - 1].amount, SurchargeOf(methods, ps[n - 1]))]
  }

  /** `totalSurcharge` after the first `n` payments: Σ amount × percent / 100. */
  function SurchargeTotal(methods: map<int, PaymentMethod>, ps: seq<Payment>, n: nat): real
    requires MethodsKnown(methods, ps, n)
  {
    if n == 0 then 0.0 else SurchargeTotal(methods, ps, n - 1) + SurchargeOf(methods, ps[n - 1])
  }

  /**
   * The stock table after the read-then-write of the first `n` cart lines
   * in order: each line reads the stock as the earlier lines left it. An
   * update of a row that does not exist changes nothing.
   */
  function StockAfter(products: map<int, Product>, cart: seq<CartLine>, n: nat): (r: map<int, Product>)
    requires n <= |cart|
    ensures r.Keys == products.Keys
  {
    if n == 0 then products
    else
      var before := StockAfter(products, cart, n - 1);
      var l := cart[n - 1];
      if l.id in before then before[l.id := before[l.id].(stock := before[l.id].stock - l.quantity)]
      else before
  }

  /** Total quantity of the first `n` cart lines for product `id`. */
  function QuantityOf(cart: seq<CartLine>, n: nat, id: int): int
    requires n <= |cart|
  {
    if n == 0 then 0
    else QuantityOf(cart, n - 1, id) + (if cart[n - 1].id == id then cart[n - 1].quantity else 0)
  }

  /** Index of the first cart line whose product is not in `keys`, or |cart|. */
  function FirstUnknownProduct(cart: seq<CartLine>, keys: set<int>): (k: nat)
    ensures k <= |cart|
    ensures forall i :: 0 <= i < k ==> cart[i].id in keys
    ensures k < |cart| ==> cart[k].id !in keys
  {
    if cart == [] || cart[0].id !in keys then 0 else 1 + FirstUnknownProduct(cart[1..], keys)
  }

  /**
   * How many cart lines get a `sale_items` row: all of them, or those up to
   * and including the first one whose product does not exist.
   */
  function LinesAttempted(cart: seq<CartLine>, keys: set<int>): (n: nat)
    ensures n <= |cart|
  {
    var k := FirstUnknownProduct(cart, keys);
    if k < |cart| then k + 1 else k
  }

  /** Index of the first payment whose method is not in `keys`, or |ps|. */
  function FirstUnknownMethod(ps: seq<Payment>, keys: set<int>): (j: nat)
    ensures j <= |ps|
    ensures forall i :: 0 <= i < j ==> ps[i].methodId in keys
    ensures j < |ps| ==> ps[j].methodId !in keys
  {
    if ps == [] || ps[0].methodId !in keys then 0 else 1 + FirstUnknownMethod(ps[1..], keys)
  }

  /** The header row as inserted, with the surcharge placeholder or its final value. */
  function Header(saleId: int, userId: int, base: real, surcharge: real, createdAt: int): Sale
  {
    Sale(saleId, userId, Some(base), Some(surcharge), None, createdAt)
  }

  /**
   * Step 4 of checkout on the two tables it touches, for each line in
   * order: append its `sale_items` row, then read the product's stock and
   * write back stock − quantity. A line whose product does not exist stops
   * the loop after its row was appended (`product.stock` on a missing row
   * throws); `ok` says whether every line went through.
   */
  method ProcessLines(products: map<int, Product>, items: seq<SaleItem>, saleId: int, cart: seq<CartLine>)
    returns (products': map<int, Product>, items': seq<SaleItem>, ok: bool)
    ensures var k := FirstUnknownProduct(cart, products.Keys);
      && (ok <==> k == |cart|)
      && items' == items + ItemRows(saleId, cart, LinesAttempted(cart, products.Keys))
      && products' == StockAfter(products, cart, k)
  {
    products', items' := products, items;
    var i := 0;
    ok := true;
    while i < |cart|
      invariant 0 <= i <= |cart|
      invariant forall l :: 0 <= l < i ==> cart[l].id in products
      invariant products' == StockAfter(products, cart, i)
      invariant items' == items + ItemRows(saleId, cart, i)
    {
      var line := cart[i];
      items' := items' + [SaleItem(saleId, line.id, line.quantity, line.price)];
      if line.id !in products' {
        ok := false;
        break;
      }
      var stock := products'[line.id].stock;
      products' := products'[line.id := products'[line.id].(stock := stock - line.quantity)];
      i := i + 1;
    }
    assert FirstUnknownProduct(cart, products.Keys) == i;
  }

  /**
   * Step 5 of checkout, for each payment in order: read its method's
   * surcharge percent, add amount × percent / 100 to the running total and
   * append its `sale_payments` row. A payment whose method does not exist
   * stops the loop before its row is written.
   */
  method ProcessPayments(methods: map<int, PaymentMethod>, rows: seq<SalePayment>, saleId: int, ps: seq<Payment>)
    returns (rows': seq<SalePayment>, ok: bool, totalSurcharge: real)
    ensures var j := FirstUnknownMethod(ps, methods.Keys);
      && (ok <==> j == |ps|)
      && rows' == rows + PaymentRows(saleId, methods, ps, j)
      && (ok ==> totalSurcharge == SurchargeTotal(methods, ps, |ps|))
  {
    rows', totalSurcharge := rows, 0.0;
    var i := 0;
    ok := true;
    while i < |ps|
      invariant 0 <= i <= |ps|
      invariant MethodsKnown(methods, ps, i)
      invariant totalSurcharge == SurchargeTotal(methods, ps, i)
      invariant rows' == rows + PaymentRows(saleId, methods, ps, i)
    {
      var p := ps[i];
      if p.methodId !in methods {
        ok := false;
        break;
      }
      var percent := PercentOf(methods[p.methodId]);
      var surcharge := p.amount * (percent / 100.0);
      totalSurcharge := totalSurcharge + surcharge;
      rows' := rows' + [SalePayment(saleId, p.methodId, p.amount, surcharge)];
      i := i + 1;
    }
    assert FirstUnknownMethod(ps, methods.Keys) == i;
  }

  /**
   * Steps 3 to 6 of checkout, once the request has passed validation:
   * insert the header (base total, surcharge 0), record the items and
   * stock updates, then the payments, and finally set the header's
   * surcharge. A missing product or payment method ends with a 500 and
   * leaves what was written so far in place. The tables are written once
   * at the end; the state they reach is the one the sequence of writes
   * leaves.
   */
  method RecordSale(db: Db, userId: int, c: seq<CartLine>, ps: seq<Payment>, totalBase: real, now: int)
    returns (reply: CheckoutReply)
    requires db.Valid()
    modifies db
    ensures db.Valid()
    ensures db.users == old(db.users) && db.methods == old(db.methods)
    ensures var saleId := old(db.nextId);
      var k := FirstUnknownProduct(c, old(db.products).Keys);
      var j := FirstUnknownMethod(ps, db.methods.Keys);
      var done := k == |c| && j == |ps|;
      && db.nextId == saleId + 1
      && db.products == StockAfter(old(db.products), c, k)
      && db.saleItems == old(db.saleItems) + ItemRows(saleId, c, LinesAttempted(c, old(db.products).Keys))
      && db.salePayments == old(db.salePayments) + (if k < |c| then [] else PaymentRows(saleId, db.methods, ps, j))
      && db.sales == old(db.sales)[saleId := Header(saleId, userId, totalBase,
                                                    if done then SurchargeTotal(db.methods, ps, |ps|) else 0.0, now)]
      && reply == (if done then Completed(saleId) else ServerError)
  {
    var saleId := db.nextId;
    var products, items, itemsOk := ProcessLines(db.products, db.saleItems, saleId, c);
    var rows, paymentsOk, totalSurcharge := db.salePayments, false, 0.0;
    if itemsOk {
      rows, paymentsOk, totalSurcharge := ProcessPayments(db.methods, db.salePayments, saleId, ps);
    }
    var header := Header(saleId, userId, totalBase, if paymentsOk then totalSurcharge else 0.0, now);
    db.sales, db.nextId := db.sales[saleId := header], db.nextId + 1;
    db.products, db.saleItems, db.salePayments := products, items, rows;
    reply := if paymentsOk then Completed(saleId) else ServerError;
  }

  /**
   * `POST /checkout` by the user `userId`, stamped `now`. A request the
   * checks reject writes nothing; one they accept is recorded by
   * `RecordSale` with the cart's base total.
   */
  method Checkout(db: Db, userId: int, cart: Option<seq<CartLine>>, payments: Option<seq<Payment>>, now: int)
    returns (reply: CheckoutReply)
    requires db.Valid()
    modifies db
    ensures db.Valid()
    ensures db.users == old(db.users) && db.methods == old(db.methods)
    ensures Status(reply) == 400 <==> Validate(cart, payments).Some?
    ensures reply.BadRequest? && !reply.error.PaymentMismatch? ==>
      ErrorText(reply.error) == if cart.None? || cart.value == [] then "Carrito vacío" else "Falta método de pago"
    ensures Validate(cart, payments).Some? ==>
      && reply == BadRequest(Validate(cart, payments).value)
      && db.products == old(db.products) && db.sales == old(db.sales) && db.nextId == old(db.nextId)
      && db.saleItems == old(db.saleItems) && db.salePayments == old(db.salePayments)
    ensures Validate(cart, payments).None? ==>
      var c, ps, saleId := cart.value, payments.value, old(db.nextId);
      var k := FirstUnknownProduct(c, old(db.products).Keys);
      var j := FirstUnknownMethod(ps, db.methods.Keys);
      var done := k == |c| && j == |ps|;
      && db.nextId == saleId + 1
      && db.products == StockAfter(old(db.products), c, k)
      && db.saleItems == old(db.saleItems) + ItemRows(saleId, c, LinesAttempted(c, old(db.products).Keys))
      && db.salePayments == old(db.salePayments) + (if k < |c| then [] else PaymentRows(saleId, db.methods, ps, j))
      && db.sales == old(db.sales)[saleId := Header(saleId, userId, CartTotal(c),
                                                    if done then SurchargeTotal(db.methods, ps, |ps|) else 0.0, now)]
      && reply == (if done then Completed(saleId) else ServerError)
      && Status(reply) == (if done then 200 else 500)
  {
    if cart.None? || cart.value == [] {
      return BadRequest(EmptyCart);
    }
    if payments.None? || payments.value == [] {
      return BadRequest(MissingPayment);
    }
    var c, ps := cart.value, payments.value;

    var totalBase := 0.0;
    var i := 0;
    while i < |c|
      invariant 0 <= i <= |c|
      invariant totalBase == CartTotal(c[..i])
    {
      assert c[..i + 1][..i] == c[..i];
      totalBase := totalBase + c[i].price * (c[i].quantity as real);
      i := i + 1;
    }
    assert c[..i] == c;

    var totalCovered := PaymentsTotal(ps);
    if Abs(totalCovered - totalBase) > Tolerance {
      return BadRequest(PaymentMismatch(totalCovered, totalBase));
    }
    reply := RecordSale(db, userId, c, ps, totalBase, now);
  }

  /** `products || []` of the sale screen: the rows with stock > 0, or none when the read failed. */
  function SellableProducts(rows: Option<seq<Product>>): (r: seq<Product>)
    ensures rows.None? ==> r == []
    ensures forall i :: 0 <= i < |r| ==> r[i].stock > 0 && r[i] in rows.value
    ensures rows.Some? ==> forall i :: 0 <= i < |rows.value| && rows.value[i].stock > 0 ==> rows.value[i] in r
    ensures rows.Some? ==> multiset(r) <= multiset(rows.value)
  {
    if rows.None? then [] else Seqs.Filter(rows.value, (p: Product) => p.stock > 0)
  }

  /** `paymentMethods || []` of the sale screen: the active methods, or none when the read failed. */
  function ActiveMethods(rows: Option<seq<PaymentMethod>>): (r: seq<PaymentMethod>)
    ensures rows.None? ==> r == []
    ensures forall i :: 0 <= i < |r| ==> r[i].active && r[i] in rows.value
    ensures rows.Some? ==> forall i :: 0 <= i < |rows.value| && rows.value[i].active ==> rows.value[i] in r
    ensures rows.Some? ==> multiset(r) <= multiset(rows.value)
  {
    if rows.None? then [] else Seqs.Filter(rows.value, (m: PaymentMethod) => m.active)
  }

  /** Exactly one `sale_items` row per cart line, in cart order, copying its id, quantity and price. */
  lemma {:induction false} ItemRowsMatchCart(saleId: int, cart: seq<CartLine>, n: nat)
    requires n <= |cart|
    ensures |ItemRows(saleId, cart, n)| == n
    ensures forall i :: 0 <= i < n ==>
      ItemRows(saleId, cart, n)[i] == SaleItem(saleId, cart[i].id, cart[i].quantity, cart[i].price)
  {
    if n > 0 {
      ItemRowsMatchCart(saleId, cart, n - 1);
    }
  }

  /**
   * The stock decrement: every product ends with its stock less the total
   * quantity of its cart lines (repeated ids accumulate, nothing stops it
   * going negative), and keeps all its other fields.
   */
  lemma {:induction false} StockAfterSubtractsQuantities(products: map<int, Product>, cart: seq<CartLine>, n: nat, id: int)
    requires n <= |cart|
    requires id in products
    ensures id in StockAfter(products, cart, n)
    ensures StockAfter(products, cart, n)[id] == products[id].(stock := products[id].stock - QuantityOf(cart, n, id))
  {
    if n > 0 {
      StockAfterSubtractsQuantities(products, cart, n - 1, id);
    }
  }

  /** Σ price_at_sale × quantity over a list of item rows. */
  function ItemsValue(items: seq<SaleItem>): real
  {
    if items == [] then 0.0
    else ItemsValue(items[..|items| - 1]) + items[|items| - 1].priceAtSale * (items[|items| - 1].quantity as real)
  }

  /** The item rows of a recorded sale are worth exactly its base total. */
  lemma {:induction false} ItemRowsValueIsCartTotal(saleId: int, cart: seq<CartLine>, n: nat)
    requires n <= |cart|
    ensures ItemsValue(ItemRows(saleId, cart, n)) == CartTotal(cart[..n])
  {
    if n > 0 {
      ItemRowsValueIsCartTotal(saleId, cart, n - 1);
      var rows := ItemRows(saleId, cart, n);
      assert rows[..|rows| - 1] == ItemRows(saleId, cart, n - 1);
      assert cart[..n][..n - 1] == cart[..n - 1];
    }
  }

  /** Σ surcharge_amount over a list of payment rows. */
  function PaymentSurchargeSum(rows: seq<SalePayment>): real
  {
    if rows == [] then 0.0 else PaymentSurchargeSum(rows[..|rows| - 1]) + rows[|rows| - 1].surchargeAmount
  }

  /** The header's back-filled surcharge is the sum of the surcharges of its payment rows. */
  lemma {:induction false} HeaderSurchargeMatchesRows(saleId: int, methods: map<int, PaymentMethod>, ps: seq<Payment>, n: nat)
    requires MethodsKnown(methods, ps, n)
    ensures PaymentSurchargeSum(PaymentRows(saleId, methods, ps, n)) == SurchargeTotal(methods, ps, n)
  {
    if n > 0 {
      HeaderSurchargeMatchesRows(saleId, methods, ps, n - 1);
      var rows := PaymentRows(saleId, methods, ps, n);
      assert rows[..|rows| - 1] == PaymentRows(saleId, methods, ps, n - 1);
    }
  }

  /** Exactly one `sale_payments` row per payment, in order, with the amount as posted. */
  lemma {:induction false} PaymentRowsMatchPayments(saleId: int, methods: map<int, PaymentMethod>, ps: seq<Payment>, n: nat)
    requires MethodsKnown(methods, ps, n)
    ensures |PaymentRows(saleId, methods, ps, n)| == n
    ensures forall i :: 0 <= i < n ==>
      PaymentRows(saleId, methods, ps, n)[i] == SalePayment(saleId, ps[i].methodId, ps[i].amount, SurchargeOf(methods, ps[i]))
  {
    if n > 0 {
      PaymentRowsMatchPayments(saleId, methods, ps, n - 1);
    }
  }

  /**
   * A worked case: cash at 0 %, debit at 5 % and credit at 10 % (a method
   * with no percent counts as 0 %) covering 100, 50 and 20 add 4.5 of surcharge.
   */
  lemma SurchargeExample()
    ensures var methods := map[1 := PaymentMethod(1, "Efectivo", None, true),
                               2 := PaymentMethod(2, "Débito", Some(5.0), true),
                               3 := PaymentMethod(3, "Crédito", Some(10.0), true)];
            var ps := [Payment(1, 100.0), Payment(2, 50.0), Payment(3, 20.0)];
            MethodsKnown(methods, ps, 3) && SurchargeTotal(methods, ps, 3) == 4.5
  {
  }

  /** A cart of several lines with a repeated product: stock drops by the sum of both lines. */
  lemma RepeatedProductAccumulates(p: Product)
    ensures var cart := [CartLine(p.id, p.price, 2), CartLine(p.id, p.price, 3)];
            StockAfter(map[p.id := p], cart, 2)[p.id].stock == p.stock - 5
  {
    var cart := [CartLine(p.id, p.price, 2), CartLine(p.id, p.price, 3)];
    StockAfterSubtractsQuantities(map[p.id := p], cart, 2, p.id);
    assert QuantityOf(cart, 1, p.id) == 2;
    assert QuantityOf(cart, 2, p.id) == 5;
  }
}
