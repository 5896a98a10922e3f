/** Client runs of the two contracts from a freshly reset state, mirroring
    the behaviour their test suites expect. Each result is derived from the
    operations' contracts alone. */
module Scenarios {
  import opened Outcomes
  import opened StoreVerification
  import opened SalesTracking

  /** A principal other than the default admin. */
  const Outsider: Principal := "ST2PQHQKV0RJXZFY1DGX8MNSNYVE3VGZJSRTPGZGM"

  /** The admin's first registration gets id 1 and stores the given name;
      the second gets id 2. */
  method RegisterTwice() returns (first: Result<int>, second: Result<int>, count: nat, name: string)
    ensures first == Ok(1) && second == Ok(2)
    ensures count == 2 && name == "Test Store"
  {
    var registry := new StoreRegistry();
    first := registry.RegisterStore("Test Store", "Test Location", registry.admin);
    second := registry.RegisterStore("Other Store", "Other Location", registry.admin);
    assert registry.stores.Keys == {1, 2};
    count := |registry.stores|;
    name := registry.stores[1].name;
  }

  /** A non-admin cannot register a store, and nothing is stored. */
  method RegisterByOutsider() returns (r: Result<int>, count: nat)
    ensures r == Err(Unauthorized) && count == 0
  {
    var registry := new StoreRegistry();
    r := registry.RegisterStore("Test Store", "Test Location", Outsider);
    count := |registry.stores|;
  }

  /** A registered store starts unverified and is verified by the admin. */
  method RegisterThenVerify() returns (before: bool, r: Result<bool>, after: bool)
    ensures !before && r == Ok(true) && after
  {
    var registry := new StoreRegistry();
    var id := registry.RegisterStore("Test Store", "Test Location", registry.admin);
    before := registry.IsStoreVerified(1);
    r := registry.VerifyStore(1, registry.admin);
    after := registry.IsStoreVerified(1);
  }

  /** Verifying an id that was never registered yields 404 for the admin,
      and 403 for anyone else. */
  method VerifyMissing() returns (byAdmin: Result<bool>, byOutsider: Result<bool>)
    ensures byAdmin == Err(NotFound) && byOutsider == Err(Unauthorized)
  {
    var registry := new StoreRegistry();
    byAdmin := registry.VerifyStore(999, registry.admin);
    byOutsider := registry.VerifyStore(999, Outsider);
  }

  /** After the admin role is transferred, the old admin is refused and the
      new one accepted. */
  method TransferThenRegister(newAdmin: Principal) returns (byOld: Result<int>, byNew: Result<int>)
    requires newAdmin != DefaultAdmin
    ensures byOld == Err(Unauthorized) && byNew == Ok(1)
  {
    var registry := new StoreRegistry();
    var t := registry.TransferAdmin(newAdmin, DefaultAdmin);
    byOld := registry.RegisterStore("Test Store", "Test Location", DefaultAdmin);
    byNew := registry.RegisterStore("Test Store", "Test Location", newAdmin);
  }

  /** The first sale gets id 1 and is stored as given. */
  method RecordOne(now: int) returns (r: Result<int>, count: nat, sale: Option<Sale>)
    ensures r == Ok(1) && count == 1
    ensures sale.Some? && sale.value.storeId == 1 && sale.value.productId == 101
    ensures sale.value.quantity == 5 && sale.value.price == 10
  {
    var ledger := new SalesLedger();
    r := ledger.RecordSale(1, 101, 5, 10, ledger.admin, now);
    count := |ledger.sales|;
    sale := ledger.GetSale(1);
  }

  /** Two sales of the same pair accumulate: 5 + 3 units, 50 + 30 revenue. */
  method RecordSamePair(now1: int, now2: int) returns (first: Result<int>, second: Result<int>, totals: Option<SalesTotal>)
    ensures first == Ok(1) && second == Ok(2)
    ensures totals == Some(SalesTotal(8, 80))
  {
    var ledger := new SalesLedger();
    first := ledger.RecordSale(1, 101, 5, 10, ledger.admin, now1);
    second := ledger.RecordSale(1, 101, 3, 10, ledger.admin, now2);
    totals := ledger.GetStoreProductSales(1, 101);
  }

  /** Sales of different products of one store are totalled separately. */
  method RecordTwoProducts(now1: int, now2: int) returns (product1: Option<SalesTotal>, product2: Option<SalesTotal>)
    ensures product1 == Some(SalesTotal(5, 50)) && product2 == Some(SalesTotal(3, 60))
  {
    var ledger := new SalesLedger();
    var first := ledger.RecordSale(1, 101, 5, 10, ledger.admin, now1);
    var second := ledger.RecordSale(1, 102, 3, 20, ledger.admin, now2);
    product1 := ledger.GetStoreProductSales(1, 101);
    product2 := ledger.GetStoreProductSales(1, 102);
  }

  /** Sales of one product at different stores are totalled separately, and
      a pair with no sale has no totals. */
  method RecordTwoStores(now1: int, now2: int) returns (store1: Option<SalesTotal>, store2: Option<SalesTotal>, none: Option<SalesTotal>)
    ensures store1.Some? && store1.value.totalQuantity == 5
    ensures store2.Some? && store2.value.totalQuantity == 3
    ensures none == None
  {
    var ledger := new SalesLedger();
    var first := ledger.RecordSale(1, 101, 5, 10, ledger.admin, now1);
    var second := ledger.RecordSale(2, 101, 3, 10, ledger.admin, now2);
    store1 := ledger.GetStoreProductSales(1, 101);
    store2 := ledger.GetStoreProductSales(2, 101);
    none := ledger.GetStoreProductSales(3, 101);
  }

  /** Recording a sale needs no admin rights, while a non-admin cannot take
      over the ledger's admin role. */
  method OutsiderOnLedger(now: int) returns (sale: Result<int>, transfer: Result<bool>, admin: Principal)
    ensures sale == Ok(1) && transfer == Err(Unauthorized) && admin == DefaultAdmin
  {
    var ledger := new SalesLedger();
    sale := ledger.RecordSale(7, 101, 1, 1, Outsider, now);
    transfer := ledger.TransferAdmin(Outsider, Outsider);
    admin := ledger.admin;
  }
}
