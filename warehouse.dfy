/**
 * The warehouse routes (routes/warehouse.js): the low-stock alerts, the
 * restock and the product insert.
 */
module Warehouse {
  import opened Wrappers
  import opened Store
  import Seqs

  /** Where every warehouse form redirects to. */
  const InventoryUrl := "/warehouse/inventory"

  /** The alert condition: stock at or below the product's minimum. */
  predicate IsLow(p: Product)
  {
    p.stock <= p.minStock
  }

  /**
   * `alerts`: the fetched products that are low, in fetched order, or none
   * when the read returned no data.
   */
  function Alerts(all: Option<seq<Product>>): (r: seq<Product>)
    ensures all.None? ==> r == []
    ensures forall i :: 0 <= i < |r| ==> IsLow(r[i]) && r[i] in all.value
    ensures all.Some? ==> forall i :: 0 <= i < |all.value| && IsLow(all.value[i]) ==> all.value[i] in r
    ensures all.Some? ==> multiset(r) <= multiset(all.value)
  {
    if all.None? then [] else Seqs.Filter(all.value, IsLow)
  }

  /** Taking the alerts of the alerts changes nothing. */
  lemma AlertsIdempotent(all: Option<seq<Product>>)
    ensures Alerts(Some(Alerts(all))) == Alerts(all)
  {
    if all.Some? {
      Seqs.FilterIdempotent(all.value, IsLow);
    }
  }

  /** The alerts of two lists of products, one after the other, are the alerts of each in turn. */
  lemma AlertsAppend(a: seq<Product>, b: seq<Product>)
    ensures Alerts(Some(a + b)) == Alerts(Some(a)) + Alerts(Some(b))
  {
    Seqs.FilterAppend(a, b, IsLow);
  }

  /** When every product is low, every product is an alert, in order. */
  lemma AllLowAllAlerts(all: seq<Product>)
    requires forall i :: 0 <= i < |all| ==> IsLow(all[i])
    ensures Alerts(Some(all)) == all
  {
    Seqs.FilterAll(all, IsLow);
  }

  /** The products table after restocking `id` by `qty`. */
  function Restocked(products: map<int, Product>, id: int, qty: int): (r: map<int, Product>)
    ensures r.Keys == products.Keys
    ensures forall k :: k in products && k != id ==> r[k] == products[k]
  {
    if qty <= 0 || id !in products then products
    else products[id := products[id].(stock := products[id].stock + qty)]
  }

  /** A restock with a positive quantity adds it to that product's stock and changes nothing else of it. */
  lemma RestockAddsQuantity(products: map<int, Product>, id: int, qty: int)
    requires qty > 0 && id in products
    ensures Restocked(products, id, qty)[id].stock == products[id].stock + qty
    ensures Restocked(products, id, qty)[id].(stock := products[id].stock) == products[id]
  {
  }

  /** Two positive restocks of a product are one restock by their sum. */
  lemma RestocksCombine(products: map<int, Product>, id: int, a: int, b: int)
    requires a > 0 && b > 0
    ensures Restocked(Restocked(products, id, a), id, b) == Restocked(products, id, a + b)
  {
  }

  /**
   * `POST /restock` with the parsed quantity `qty`. A quantity of 0 or less
   * redirects at once; otherwise the product's stock is read and
   * stock + qty written back. An unknown product makes `product.stock`
   * throw, which the handler catches, so nothing is written. Every path
   * redirects to the inventory.
   */
  method Restock(db: Db, id: int, qty: int) returns (redirect: string)
    requires db.Valid()
    modifies db
    ensures db.Valid()
    ensures redirect == InventoryUrl
    ensures db.products == Restocked(old(db.products), id, qty)
    ensures db.users == old(db.users) && db.methods == old(db.methods) && db.sales == old(db.sales)
    ensures db.saleItems == old(db.saleItems) && db.salePayments == old(db.salePayments)
    ensures db.nextId == old(db.nextId)
  {
    redirect := InventoryUrl;
    if qty <= 0 {
      return;
    }
    if id !in db.products {
      return;
    }
    var stock := db.products[id].stock;
    db.products := db.products[id := db.products[id].(stock := stock + qty)];
  }

  /**
   * `POST /products`: insert a row with exactly the submitted fields under
   * the id the store generates, then redirect to the inventory.
   */
  method AddProduct(db: Db, name: string, sku: string, price: real, stock: int, category: string, minStock: int)
    returns (id: int, redirect: string)
    requires db.Valid()
    modifies db
    ensures db.Valid()
    ensures redirect == InventoryUrl
    ensures id == old(db.nextId) && id !in old(db.products)
    ensures db.products == old(db.products)[id := Product(id, name, sku, price, stock, category, minStock)]
    ensures db.nextId == old(db.nextId) + 1
    ensures db.users == old(db.users) && db.methods == old(db.methods) && db.sales == old(db.sales)
    ensures db.saleItems == old(db.saleItems) && db.salePayments == old(db.salePayments)
  {
    id := db.nextId;
    db.products := db.products[id := Product(id, name, sku, price, stock, category, minStock)];
    db.nextId := db.nextId + 1;
    redirect := InventoryUrl;
  }
}
