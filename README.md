# Retail store verification and sales tracking, modelled in Dafny

The repository simulates two smart contracts with in-memory mocks:

- **Store verification.** A registry maps store ids to records
  `{name, location, isVerified, owner}`. Ids come from a counter that starts
  at 1. A single admin principal may register stores, mark them verified and
  hand the admin role to someone else. Callers get `{ ok: value }` or
  `{ err: 403 }` (sender is not the admin) or `{ err: 404 }` (no such store).
- **Sales tracking.** A ledger maps sale ids to sale records
  `{storeId, productId, quantity, timestamp, price}`. It also keeps running
  totals `{totalQuantity, totalRevenue}` per (store, product) pair. Anyone may
  record a sale, for any store id. Only the ledger's own admin may transfer
  its admin role.

The two contracts share no state. Each one is a class:
`StoreVerification.StoreRegistry` in `store_verification.dfy` and
`SalesTracking.SalesLedger` in `sales_tracking.dfy`. Their fields are the
mock's module-level variables. Each class has an object invariant `Valid()`:

- The registered store ids are exactly `1 .. nextStoreId - 1`.
- The recorded sale ids are exactly `1 .. nextSaleId - 1`.
- Sale `k` is the `k`-th entry of a ghost log of all recorded sales.
- A pair has totals exactly when some logged sale is for it (`HasSale`).
- A pair's totals are Σ quantity and Σ quantity × price over exactly that
  pair's logged sales (`Totals`).

The methods that change state say exactly what the new state is. Among
other things, they state that:

- ids are fresh and strictly increasing;
- a refused call changes nothing;
- a write to one key leaves every other key unchanged;
- verification is one-way and idempotent.

The read-only lookups are functions over the class state.
`outcomes.dfy` holds the shared result types, error codes and the default
admin. `scenarios.dfy` replays the test suites' expected outcomes as client
methods, using only the operations' contracts.

## Model

| member | source | states |
|---|---|---|
| `StoreVerification.StoreRegistry.constructor` | tests/store-verification.test.ts:72-77 | A reset registry has no stores, its counter at 1 and the default admin. |
| `StoreVerification.StoreRegistry.RegisterStore` | tests/store-verification.test.ts:13-27 | A non-admin gets 403 and nothing changes. The admin gets `ok` with the old counter, which is fresh and above every earlier id. The counter goes up by one, and the store is stored unverified, owned by the sender. |
| `StoreVerification.StoreRegistry.VerifyStore` | tests/store-verification.test.ts:29-43 | A non-admin gets 403, even for a missing id. The admin gets 404 for an unregistered id. Neither case changes anything. Otherwise only that store's flag becomes true and the result is `ok true`. Verified stores stay verified, and reapplying to a verified store changes nothing. |
| `StoreVerification.StoreRegistry.IsStoreVerified` | tests/store-verification.test.ts:45-51 | Is true exactly when `GetStore` finds the store and its flag is set. It is therefore false for any id never handed out. |
| `StoreVerification.StoreRegistry.GetStore` | tests/store-verification.test.ts:53-59 | Finds a record exactly for ids `1 .. nextStoreId - 1`, and the record it finds is the stored one. |
| `StoreVerification.StoreRegistry.TransferAdmin` | tests/store-verification.test.ts:61-68 | A non-admin gets 403 and the admin is unchanged. The admin gets `ok true` and `newAdmin` becomes admin. The stores and the counter never change. |
| `SalesTracking.Totals` | tests/sales-tracking.test.ts:25-32 | The reference sum over a pair's sales. It is (0, 0) for a pair with no sale in the log. |
| `SalesTracking.HasSaleAppend` | tests/sales-tracking.test.ts:26-32 | After one more sale, the pairs that have sales are the old ones plus the new sale's pair. |
| `SalesTracking.TotalsAppend` | tests/sales-tracking.test.ts:26-32 | One more sale adds (quantity, quantity × price) to its own pair's sum. Every other pair's sum is unchanged. |
| `SalesTracking.SalesLedger.constructor` | tests/sales-tracking.test.ts:65-71 | A reset ledger has no sales, no totals, its counter at 1, an empty log and the default admin. |
| `SalesTracking.SalesLedger.RecordSale` | tests/sales-tracking.test.ts:13-35 | Any sender may record a sale. The result is `ok` with the old counter, which is fresh and above every earlier id, and the counter goes up by one. The sale is appended to the log, stored under that id and returned by `GetSale`. Earlier sales are kept. The pair's totals become the old ones (or (0, 0)) plus (quantity, quantity × price). Every other pair's totals and the admin are unchanged, and the invariant tying totals to the log is kept. |
| `SalesTracking.SalesLedger.GetSale` | tests/sales-tracking.test.ts:37-43 | Finds a sale exactly for ids `1 .. nextSaleId - 1`. The sale it finds is the one logged under that id. |
| `SalesTracking.SalesLedger.GetStoreProductSales` | tests/sales-tracking.test.ts:45-52 | Finds totals exactly when some recorded sale is for the pair. What it finds equals `Totals` over the log for that pair. |
| `SalesTracking.SalesLedger.TransferAdmin` | tests/sales-tracking.test.ts:54-61 | A non-admin gets 403 and the admin is unchanged. The admin gets `ok true` and `newAdmin` becomes admin. Sales, totals, counter and log never change. |
| `Scenarios.RegisterTwice` | tests/store-verification.test.ts:79-85 | From a reset, the admin's registrations get ids 1 then 2. Two stores are stored, and store 1 has the given name. |
| `Scenarios.RegisterByOutsider` | tests/store-verification.test.ts:87-91 | A non-admin registration gets 403 and stores nothing. |
| `Scenarios.RegisterThenVerify` | tests/store-verification.test.ts:93-99 | Store 1 is unverified after registration. Verifying it gives `ok true`, and it is verified afterwards. |
| `Scenarios.VerifyMissing` | tests/store-verification.test.ts:101-105 | Verifying id 999 in an empty registry gives 404 to the admin and 403 to anyone else. |
| `Scenarios.TransferThenRegister` | tests/store-verification.test.ts:61-68 | After a transfer, the old admin is refused with 403 and the new admin's registration gets id 1. |
| `Scenarios.RecordOne` | tests/sales-tracking.test.ts:73-84 | The first sale gets id 1, one sale is stored, and `GetSale(1)` returns its store, product, quantity and price. |
| `Scenarios.RecordSamePair` | tests/sales-tracking.test.ts:86-94 | Sales (1,101,5,10) then (1,101,3,10) get ids 1 and 2 and total (8, 80). |
| `Scenarios.RecordTwoProducts` | tests/sales-tracking.test.ts:96-107 | Sales (1,101,5,10) then (1,102,3,20) total (5, 50) and (3, 60) separately. |
| `Scenarios.RecordTwoStores` | tests/sales-tracking.test.ts:109-118 | Stores 1 and 2 total quantities 5 and 3 separately for product 101. A pair with no sale has no totals. |
| `Scenarios.OutsiderOnLedger` | tests/sales-tracking.test.ts:13-14 | A non-admin's sale is recorded. The same principal's admin transfer is refused with 403, and the admin stays the default. |

## Left out

- The test framework itself (`describe`, `it`, `expect`). The resets are the
  constructors, and the expectations are the methods of `Scenarios`.
- `Date.now()`: the timestamp of a sale is the parameter `now` of
  `RecordSale`.
- The string key `` `${storeId}-${productId}` ``: the pair `(storeId, productId)`
  is used directly. The encoding is injective on integer ids, so behaviour is
  the same.
- JavaScript `number` semantics: quantities, prices, ids and revenue are
  unbounded integers. Floating-point rounding and loss of precision on large
  `quantity * price` are not modelled.
- Aliasing: `getStore` returns the live record object that `verifyStore`
  mutates in place. Here records are immutable values, and verifying replaces
  the record in the map.
- A check that a store exists or is verified before a sale is recorded. The
  source does not perform one. The `sender` of `RecordSale` is accepted and
  ignored, as in the source.
- Real contract execution, signatures and persistence are not part of this
  model.
