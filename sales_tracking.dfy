/** The sales-tracking contract: a ledger of sales under sequential ids and
    running quantity and revenue totals per (store, product) pair. */
module SalesTracking {
  import opened Outcomes

  /** One recorded sale; immutable once stored. */
  datatype Sale = Sale(storeId: int, productId: int, quantity: int, timestamp: int, price: int)

  /** The pair a running total is kept for. */
  type StoreProduct = (int, int)

  /** The running totals kept for one (store, product) pair. */
  datatype SalesTotal = SalesTotal(totalQuantity: int, totalRevenue: int)

  /** The totals a pair starts from before its first sale. */
  const NoSales := SalesTotal(0, 0)

  function KeyOf(sale: Sale): StoreProduct {
    (sale.storeId, sale.productId)
  }

  /** Totals `t` with one more sale of `quantity` units at `price` added. */
  function AddSale(t: SalesTotal, quantity: int, price: int): SalesTotal {
    SalesTotal(t.totalQuantity + quantity, t.totalRevenue + quantity * price)
  }

  /** Whether some sale in `log` is for the pair `key`. */
  ghost predicate HasSale(log: seq<Sale>, key: StoreProduct) {
    exists i :: 0 <= i < |log| && KeyOf(log[i]) == key
  }

  /** The sum of the quantities and of quantity * price over exactly the
      sales in `log` that are for the pair `key`. */
  ghost function Totals(log: seq<Sale>, key: StoreProduct): (t: SalesTotal)
    ensures !HasSale(log, key) ==> t == NoSales
  {
    if log == [] then NoSales
    else
      var last := log[|log| - 1];
      var prior := Totals(log[..|log| - 1], key);
      if KeyOf(last) == key then AddSale(prior, last.quantity, last.price) else prior
  }

  /** Appending a sale adds its pair, and only its pair, to those with sales. */
  lemma HasSaleAppend(log: seq<Sale>, sale: Sale, key: StoreProduct)
    ensures HasSale(log + [sale], key) <==> HasSale(log, key) || KeyOf(sale) == key
  {
    var log' := log + [sale];
    if HasSale(log, key) {
      var i :| 0 <= i < |log| && KeyOf(log[i]) == key;
      assert log'[i] == log[i];
    }
    if KeyOf(sale) == key {
      assert log'[|log|] == sale;
    }
    if HasSale(log', key) && KeyOf(sale) != key {
      var i :| 0 <= i < |log'| && KeyOf(log'[i]) == key;
      assert i < |log| && log[i] == log'[i];
    }
  }

  /** Appending a sale adds it to the totals of its own pair and leaves the
      totals of every other pair as they were. */
  lemma TotalsAppend(log: seq<Sale>, sale: Sale, key: StoreProduct)
    ensures Totals(log + [sale], key)
         == if KeyOf(sale) == key then AddSale(Totals(log, key), sale.quantity, sale.price)
            else Totals(log, key)
  {
  }

  class SalesLedger {
    var sales: map<int, Sale>
    var storeSales: map<StoreProduct, SalesTotal>
    var nextSaleId: int
    var admin: Principal
    /** Every sale recorded so far, in id order: sale id k is log[k - 1]. */
    ghost var log: seq<Sale>

    /** Sale ids are exactly 1 .. nextSaleId - 1, each holding its sale from
        the log; a pair has an aggregate exactly when it has a sale, and the
        aggregate is the sum over that pair's sales. */
    ghost predicate Valid()
      reads this
    {
      && nextSaleId == |log| + 1
      && (forall id :: id in sales <==> 1 <= id < nextSaleId)
      && (forall id :: id in sales ==> sales[id] == log[id - 1])
      && (forall key :: key in storeSales <==> HasSale(log, key))
      && (forall key :: key in storeSales ==> storeSales[key] == Totals(log, key))
    }

    /** The state after a reset: no sales, no totals, the counter at 1, the default admin. */
    constructor ()
      ensures Valid()
      ensures sales == map[] && storeSales == map[] && nextSaleId == 1 && admin == DefaultAdmin
      ensures log == []
    {
      sales := map[];
      storeSales := map[];
      nextSaleId := 1;
      admin := DefaultAdmin;
      log := [];
    }

    /** Records a sale under the next id and adds it to its pair's totals.
        Any sender may record a sale for any store id; `now` stands for the
        clock reading stored as the timestamp. */
    method RecordSale(storeId: int, productId: int, quantity: int, price: int, sender: Principal, now: int)
      returns (r: Result<int>)
      requires Valid()
      modifies this
      ensures Valid() && admin == old(admin)
      ensures r == Ok(old(nextSaleId)) && nextSaleId == old(nextSaleId) + 1
      ensures r.value !in old(sales) && forall id :: id in old(sales) ==> id < r.value
      ensures log == old(log) + [Sale(storeId, productId, quantity, now, price)]
      ensures sales == old(sales)[r.value := Sale(storeId, productId, quantity, now, price)]
      ensures GetSale(r.value) == Some(Sale(storeId, productId, quantity, now, price))
      ensures storeSales == old(storeSales)[(storeId, productId) :=
        if (storeId, productId) in old(storeSales)
        then AddSale(old(storeSales)[(storeId, productId)], quantity, price)
        else AddSale(NoSales, quantity, price)]
      // the totals of every other pair are untouched
      ensures forall key :: key != (storeId, productId) ==>
        (key in storeSales <==> key in old(storeSales)) &&
        (key in storeSales ==> storeSales[key] == old(storeSales)[key])
    {
      ghost var prior := log;
      var saleId := nextSaleId;
      nextSaleId := nextSaleId + 1;
      var sale := Sale(storeId, productId, quantity, now, price);
      sales := sales[saleId := sale];
      log := log + [sale];

      var key := (storeId, productId);
      var current := if key in storeSales then storeSales[key] else NoSales;
      storeSales := storeSales[key := AddSale(current, quantity, price)];

      forall k: StoreProduct
        ensures HasSale(log, k) <==> HasSale(prior, k) || k == key
        ensures Totals(log, k) == if k == key then AddSale(Totals(prior, k), quantity, price) else Totals(prior, k)
      {
        HasSaleAppend(prior, sale, k);
        TotalsAppend(prior, sale, k);
      }
      r := Ok(saleId);
    }

    /** The sale recorded under `saleId`, or None when that id was never handed out. */
    function GetSale(saleId: int): (r: Option<Sale>)
      reads this
      requires Valid()
      ensures r.Some? <==> 1 <= saleId < nextSaleId
      ensures r.Some? ==> r.value == log[saleId - 1]
    {
      if saleId !in sales then None else Some(sales[saleId])
    }

    /** The running totals of a pair, or None when no sale was ever recorded for it. */
    function GetStoreProductSales(storeId: int, productId: int): (r: Option<SalesTotal>)
      reads this
      requires Valid()
      ensures r.Some? <==> HasSale(log, (storeId, productId))
      ensures r.Some? ==> r.value == Totals(log, (storeId, productId))
    {
      if (storeId, productId) !in storeSales then None else Some(storeSales[(storeId, productId)])
    }

    /** Hands the admin role to `newAdmin`; only the current admin may. */
    method TransferAdmin(newAdmin: Principal, sender: Principal) returns (r: Result<bool>)
      requires Valid()
      modifies this
      ensures Valid() && sales == old(sales) && storeSales == old(storeSales)
      ensures nextSaleId == old(nextSaleId) && log == old(log)
      ensures sender != old(admin) ==> r == Err(Unauthorized) && admin == old(admin)
      ensures sender == old(admin) ==> r == Ok(true) && admin == newAdmin
    {
      if sender != admin {
        return Err(Unauthorized);
      }
      admin := newAdmin;
      return Ok(true);
    }
  }
}
