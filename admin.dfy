/**
 * The administration routes (routes/admin.js) that compute or change
 * something: the dashboard's sales-today figure and the payment-method
 * toggle. The analytics page is in the `Analytics` module.
 */
module Admin {
  import opened Wrappers
  import opened Store

  /**
   * What one fetched row adds to the dashboard's sales-today figure: its
   * base total, or else its legacy `total`, or else 0, plus its surcharge
   * or 0.
   */
  function DashboardAmount(s: Sale): real
  {
    Or(s.totalBase, Or(s.total, 0.0)) + Or(s.totalSurcharge, 0.0)
  }

  /** The `reduce` over the fetched rows, from 0, left to right. */
  function SalesSum(rows: seq<Sale>): real
  {
    if rows == [] then 0.0 else SalesSum(rows[..|rows| - 1]) + DashboardAmount(rows[|rows| - 1])
  }

  /** Σ over the rows of the base part: `total_base`, else `total`, else 0. */
  function BaseColumn(rows: seq<Sale>): real
  {
    if rows == [] then 0.0 else Or(rows[0].totalBase, Or(rows[0].total, 0.0)) + BaseColumn(rows[1..])
  }

  /** Σ over the rows of `total_surcharge`, else 0. */
  function SurchargeColumn(rows: seq<Sale>): real
  {
    if rows == [] then 0.0 else Or(rows[0].totalSurcharge, 0.0) + SurchargeColumn(rows[1..])
  }

  /**
   * `salesTodayTotal`: 0 when the read returned no data, otherwise the sum of
   * the base column (with the legacy fallback) and the surcharge column.
   */
  function SalesTodayTotal(data: Option<seq<Sale>>): (r: real)
    ensures data.None? ==> r == 0.0
    ensures data.Some? ==> r == BaseColumn(data.value) + SurchargeColumn(data.value)
  {
    if data.None? then 0.0
    else
      SalesSumIsColumns(data.value);
      SalesSum(data.value)
  }

  /** The left-to-right `reduce` agrees with the column sums taken from the front. */
  lemma {:induction false} SalesSumIsColumns(rows: seq<Sale>)
    ensures SalesSum(rows) == BaseColumn(rows) + SurchargeColumn(rows)
  {
    if rows != [] {
      var init, last := rows[..|rows| - 1], rows[|rows| - 1];
      SalesSumIsColumns(init);
      ColumnsAppend(init, last);
      assert rows == init + [last];
    }
  }

  lemma {:induction false} ColumnsAppend(init: seq<Sale>, last: Sale)
    ensures BaseColumn(init + [last]) == BaseColumn(init) + Or(last.totalBase, Or(last.total, 0.0))
    ensures SurchargeColumn(init + [last]) == SurchargeColumn(init) + Or(last.totalSurcharge, 0.0)
  {
    if init == [] {
      assert [last][1..] == [];
    } else {
      assert (init + [last])[1..] == init[1..] + [last];
      ColumnsAppend(init[1..], last);
    }
  }

  /** The figure of a day split in two parts is the sum of the two parts' figures. */
  lemma {:induction false} SalesSumAppend(a: seq<Sale>, b: seq<Sale>)
    ensures SalesSum(a + b) == SalesSum(a) + SalesSum(b)
  {
    if b == [] {
      assert a + b == a;
    } else {
      var init := b[..|b| - 1];
      SalesSumAppend(a, init);
      assert (a + b)[..|a + b| - 1] == a + init;
    }
  }

  /**
   * A row written by checkout (base and surcharge set, no legacy total)
   * counts its base plus its surcharge; a legacy row with no base counts
   * its `total` plus whatever surcharge it has.
   */
  lemma RowContributions(s: Sale)
    ensures s.totalBase.Some? && s.totalSurcharge.Some? ==>
      DashboardAmount(s) == if s.totalBase.value != 0.0 then s.totalBase.value + s.totalSurcharge.value
                            else Or(s.total, 0.0) + s.totalSurcharge.value
    ensures s.totalBase.None? ==> DashboardAmount(s) == Or(s.total, 0.0) + Or(s.totalSurcharge, 0.0)
  {
  }

  /** The payment methods after `POST /payments/toggle/:id`: that method's `active` flips. */
  function Toggled(methods: map<int, PaymentMethod>, id: int): (r: map<int, PaymentMethod>)
    ensures r.Keys == methods.Keys
    ensures forall k :: k in methods && k != id ==> r[k] == methods[k]
  {
    if id in methods then methods[id := methods[id].(active := !methods[id].active)] else methods
  }

  /** Toggling a method twice restores every method as it was. */
  lemma ToggleTwice(methods: map<int, PaymentMethod>, id: int)
    ensures Toggled(Toggled(methods, id), id) == methods
  {
  }

  /** A toggle changes only `active`, and only of that method, to the negation of its value. */
  lemma ToggleFlipsOnlyActive(methods: map<int, PaymentMethod>, id: int)
    requires id in methods
    ensures Toggled(methods, id)[id].active == !methods[id].active
    ensures Toggled(methods, id)[id].(active := methods[id].active) == methods[id]
  {
  }

  /**
   * `POST /payments/toggle/:id`: read the method's `active` flag, then write
   * its negation. With no such method the read yields nothing,
   * `method.active` throws and nothing is written; `ok` is false then.
   */
  method TogglePaymentMethod(db: Db, id: int) returns (ok: bool)
    requires db.Valid()
    modifies db
    ensures db.Valid()
    ensures ok <==> id in old(db.methods)
    ensures db.methods == Toggled(old(db.methods), id)
    ensures db.users == old(db.users) && db.products == old(db.products) && db.sales == old(db.sales)
    ensures db.saleItems == old(db.saleItems) && db.salePayments == old(db.salePayments)
    ensures db.nextId == old(db.nextId)
  {
    if id !in db.methods {
      return false;
    }
    var active := db.methods[id].active;
    db.methods := db.methods[id := db.methods[id].(active := !active)];
    ok := true;
  }
}
