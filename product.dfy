/**
 * The `Product` contract of src/lib.rs as an object whose methods update its
 * fields in place. Each method is tied, through Abstract(), to the function
 * of module Registry that specifies it, and states directly what it changes
 * and what it leaves alone.
 *
 * `caller` stands for the account the host reports as making the call: the
 * signer for the role checks, and the account the owner assertion compares
 * with the owner.
 */
module ProductContract {
  import opened Types
  import opened Access
  import Registry

  class Product {
    var initialized: bool
    var records: map<string, Item>
    var owner: Principal
    var access: AccessControl

    /** The stored state, as a value. */
    function Abstract(): Registry.State
      reads this
    {
      Registry.State(initialized, records, owner, access)
    }

    /** A contract account whose storage does not yet hold the contract state. */
    constructor ()
      ensures Abstract() == Registry.UNINITIALIZED
    {
      initialized, records, owner, access := false, map[], "", EMPTY;
    }

    /** #[init] new. */
    method New(caller: Principal) returns (r: Outcome)
      modifies this
      ensures r == Registry.OutcomeOf(Registry.Init(old(Abstract()), caller))
      ensures Abstract() == Registry.After(old(Abstract()), Registry.Init(old(Abstract()), caller))
      ensures r.Fail? <==> old(initialized)
      ensures r.Fail? ==> r.error == AlreadyInitialized && Abstract() == old(Abstract())
      ensures r.Pass? ==> && records == map[] && owner == caller
                          && access.HasRole(Registry.ROLE_SET_PRODUCT, caller)
                          && access.HasRole(Registry.ROLE_DELETE_PRODUCT, caller)
    {
      if initialized {
        return Fail(AlreadyInitialized);
      }
      initialized, records, owner, access := true, map[], caller, EMPTY;
      r := AddRoleSetProduct(caller, caller);
      if r.Pass? {
        r := AddRoleDeleteProduct(caller, caller);
      }
    }

    /** Ownable::get_owner. */
    method GetOwner() returns (r: Result<Principal>)
      ensures r == Registry.GetOwner(Abstract())
    {
      if !initialized {
        return Err(NotInitialized);
      }
      return Ok(owner);
    }

    /** Ownable::set_owner. */
    method SetOwner(caller: Principal, newOwner: Principal) returns (r: Outcome)
      modifies this
      ensures r == Registry.OutcomeOf(Registry.SetOwner(old(Abstract()), caller, newOwner))
      ensures Abstract() == Registry.After(old(Abstract()), Registry.SetOwner(old(Abstract()), caller, newOwner))
      ensures r.Pass? <==> old(initialized) && caller == old(owner)
      ensures owner == if r.Pass? then newOwner else old(owner)
      ensures initialized == old(initialized) && records == old(records) && access == old(access)
    {
      if !initialized {
        return Fail(NotInitialized);
      }
      if caller != owner {
        return Fail(NotOwner);
      }
      owner := newOwner;
      r := Pass;
    }

    /** add_role_set_product. */
    method AddRoleSetProduct(caller: Principal, account: Principal) returns (r: Outcome)
      modifies this
      ensures r == Registry.OutcomeOf(Registry.AddRoleSetProduct(old(Abstract()), caller, account))
      ensures Abstract() == Registry.After(old(Abstract()), Registry.AddRoleSetProduct(old(Abstract()), caller, account))
      ensures r.Pass? <==> old(initialized) && caller == old(owner)
      ensures access == if r.Pass? then old(access).SetupRole(Registry.ROLE_SET_PRODUCT, account) else old(access)
      ensures initialized == old(initialized) && records == old(records) && owner == old(owner)
    {
      if !initialized {
        return Fail(NotInitialized);
      }
      if caller != owner {
        return Fail(NotOwner);
      }
      access := access.SetupRole(Registry.ROLE_SET_PRODUCT, account);
      r := Pass;
    }

    /** add_role_delete_product. */
    method AddRoleDeleteProduct(caller: Principal, account: Principal) returns (r: Outcome)
      modifies this
      ensures r == Registry.OutcomeOf(Registry.AddRoleDeleteProduct(old(Abstract()), caller, account))
      ensures Abstract() == Registry.After(old(Abstract()), Registry.AddRoleDeleteProduct(old(Abstract()), caller, account))
      ensures r.Pass? <==> old(initialized) && caller == old(owner)
      ensures access == if r.Pass? then old(access).SetupRole(Registry.ROLE_DELETE_PRODUCT, account) else old(access)
      ensures initialized == old(initialized) && records == old(records) && owner == old(owner)
    {
      if !initialized {
        return Fail(NotInitialized);
      }
      if caller != owner {
        return Fail(NotOwner);
      }
      access := access.SetupRole(Registry.ROLE_DELETE_PRODUCT, account);
      r := Pass;
    }

    /** set_products. */
    method SetProducts(caller: Principal, address: string, name: string, price: U128, stock: U8) returns (r: Outcome)
      modifies this
      ensures r == Registry.OutcomeOf(Registry.SetProducts(old(Abstract()), caller, address, name, price, stock))
      ensures Abstract() == Registry.After(old(Abstract()),
                                           Registry.SetProducts(old(Abstract()), caller, address, name, price, stock))
      ensures r.Pass? <==> old(initialized) && old(access).HasRole(Registry.ROLE_SET_PRODUCT, caller)
      ensures records == if r.Pass? then old(records)[address := Item(name, price, stock)] else old(records)
      ensures initialized == old(initialized) && owner == old(owner) && access == old(access)
    {
      if !initialized {
        return Fail(NotInitialized);
      }
      if !access.HasRole(Registry.ROLE_SET_PRODUCT, caller) {
        return Fail(Unauthorized);
      }
      var item := Item(name, price, stock);
      records := records[address := item];
      r := Pass;
    }

    /** get_products. */
    method GetProducts(address: string) returns (r: Result<Option<Item>>)
      ensures r == Registry.GetProducts(Abstract(), address)
    {
      if !initialized {
        return Err(NotInitialized);
      }
      if address in records {
        return Ok(Some(records[address]));
      }
      return Ok(None);
    }

    /** delete_products. */
    method DeleteProducts(caller: Principal, address: string) returns (r: Outcome)
      modifies this
      ensures r == Registry.OutcomeOf(Registry.DeleteProducts(old(Abstract()), caller, address))
      ensures Abstract() == Registry.After(old(Abstract()), Registry.DeleteProducts(old(Abstract()), caller, address))
      ensures r.Pass? <==> old(initialized) && old(access).HasRole(Registry.ROLE_DELETE_PRODUCT, caller)
      ensures records == if r.Pass? then old(records) - {address} else old(records)
      ensures initialized == old(initialized) && owner == old(owner) && access == old(access)
    {
      if !initialized {
        return Fail(NotInitialized);
      }
      if !access.HasRole(Registry.ROLE_DELETE_PRODUCT, caller) {
        return Fail(Unauthorized);
      }
      records := records - {address};
      r := Pass;
    }
  }
}
