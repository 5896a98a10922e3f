/** The store-verification contract: a registry of stores under sequential
    ids, where only the admin may register a store, mark it verified, or
    hand the admin role to another principal. */
module StoreVerification {
  import opened Outcomes

  /** A registered store. `isVerified` starts false and can only become true. */
  datatype Store = Store(name: string, location: string, isVerified: bool, owner: Principal)

  class StoreRegistry {
    var stores: map<int, Store>
    var nextStoreId: int
    var admin: Principal

    /** Ids are handed out from 1 upwards and no store is ever removed, so
        the registered ids are exactly 1 .. nextStoreId - 1. */
    ghost predicate Valid()
      reads this
    {
      && nextStoreId >= 1
      && forall id :: id in stores <==> 1 <= id < nextStoreId
    }

    /** The state after a reset: no stores, the counter at 1, the default admin. */
    constructor ()
      ensures Valid()
      ensures stores == map[] && nextStoreId == 1 && admin == DefaultAdmin
    {
      stores := map[];
      nextStoreId := 1;
      admin := DefaultAdmin;
    }

    /** Registers a store owned by the sender under the next id. */
    method RegisterStore(name: string, location: string, sender: Principal) returns (r: Result<int>)
      requires Valid()
      modifies this
      ensures Valid() && admin == old(admin)
      ensures r.Ok? <==> sender == old(admin)
      ensures r.Err? ==> r.code == Unauthorized && stores == old(stores) && nextStoreId == old(nextStoreId)
      ensures r.Ok? ==>
        && r.value == old(nextStoreId)
        && nextStoreId == old(nextStoreId) + 1
        && stores == old(stores)[r.value := Store(name, location, false, sender)]
      // the new id is fresh and larger than every id handed out before
      ensures r.Ok? ==> r.value !in old(stores) && forall id :: id in old(stores) ==> id < r.value
    {
      if sender != admin {
        return Err(Unauthorized);
      }
      var storeId := nextStoreId;
      nextStoreId := nextStoreId + 1;
      stores := stores[storeId := Store(name, location, false, sender)];
      return Ok(storeId);
    }

    /** Marks a registered store as verified. Authorization is checked
        before existence, so a non-admin gets 403 even for a missing id. */
    method VerifyStore(storeId: int, sender: Principal) returns (r: Result<bool>)
      requires Valid()
      modifies this
      ensures Valid() && admin == old(admin) && nextStoreId == old(nextStoreId)
      ensures sender != old(admin) ==> r == Err(Unauthorized) && stores == old(stores)
      ensures sender == old(admin) && storeId !in old(stores) ==> r == Err(NotFound) && stores == old(stores)
      ensures sender == old(admin) && storeId in old(stores) ==>
        && r == Ok(true)
        && stores == old(stores)[storeId := old(stores)[storeId].(isVerified := true)]
      ensures IsStoreVerified(storeId) <==> r.Ok? || old(IsStoreVerified(storeId))
      // verification is one-way: no verified store becomes unverified
      ensures forall id :: id in old(stores) && old(stores)[id].isVerified ==> stores[id].isVerified
      // reapplying it to a store that is already verified changes nothing
      ensures old(IsStoreVerified(storeId)) ==> stores == old(stores)
    {
      if sender != admin {
        return Err(Unauthorized);
      }
      if storeId !in stores {
        return Err(NotFound);
      }
      var store := stores[storeId];
      stores := stores[storeId := store.(isVerified := true)];
      return Ok(true);
    }

    /** Whether a store is verified; an unregistered id is not. */
    function IsStoreVerified(storeId: int): (b: bool)
      reads this
      requires Valid()
      ensures b ==> 1 <= storeId < nextStoreId
      ensures b <==> GetStore(storeId).Some? && GetStore(storeId).value.isVerified
    {
      if storeId !in stores then false else stores[storeId].isVerified
    }

    /** The record registered under `storeId`, or None when that id was never handed out. */
    function GetStore(storeId: int): (r: Option<Store>)
      reads this
      requires Valid()
      ensures r.Some? <==> 1 <= storeId < nextStoreId
      ensures r.Some? ==> storeId in stores && r.value == stores[storeId]
    {
      if storeId !in stores then None else Some(stores[storeId])
    }

    /** Hands the admin role to `newAdmin`; only the current admin may. */
    method TransferAdmin(newAdmin: Principal, sender: Principal) returns (r: Result<bool>)
      requires Valid()
      modifies this
      ensures Valid() && stores == old(stores) && nextStoreId == old(nextStoreId)
      ensures sender != old(admin) ==> r == Err(Unauthorized) && admin == old(admin)
      ensures sender == old(admin) ==> r == Ok(true) && admin == newAdmin
    {
      if sender != admin {
        return Err(Unauthorized);
      }
      admin := newAdmin;
      return Ok(true);
    }
  }
}
