/**
 * The product registry of src/lib.rs as a state machine over values: one
 * function per contract call, from the stored state before the call to the
 * stored state after it, or to the error the call aborts with. An aborted
 * call leaves the stored state as it was (see After).
 */
module Registry {
  import opened Types
  import opened Access

  const ROLE_SET_PRODUCT: Role := "ROLE_SET_PRODUCT"
  const ROLE_DELETE_PRODUCT: Role := "ROLE_DELETE_PRODUCT"

  /**
   * The contract's stored state. `records` and `access` are two separate maps
   * here; in the source both LookupMaps share the storage prefix "a" (see
   * module SharedStorage for what that does).
   */
  datatype State = State(
    initialized: bool,
    records: map<string, Item>,
    owner: Principal,
    access: AccessControl)

  /** Storage of an account on which `new` has not run. */
  const UNINITIALIZED: State := State(false, map[], "", EMPTY)

  /** The stored state once a call has returned: a call that aborts leaves it as it was. */
  function After(s: State, r: Result<State>): State {
    match r
    case Ok(t) => t
    case Err(_) => s
  }

  /** What the caller of a call that returns nothing sees. */
  function OutcomeOf(r: Result<State>): Outcome {
    match r
    case Ok(_) => Pass
    case Err(e) => Fail(e)
  }

  /** `t` is `s` with `role` granted to `account` and nothing else changed. */
  ghost predicate Granted(s: State, t: State, role: Role, account: Principal) {
    && t.initialized == s.initialized
    && t.records == s.records
    && t.owner == s.owner
    && forall r, p :: t.access.HasRole(r, p) <==> s.access.HasRole(r, p) || (r == role && p == account)
  }

  /** Ownable::get_owner. */
  function GetOwner(s: State): (r: Result<Principal>)
    ensures r.Err? <==> !s.initialized
    ensures r.Err? ==> r.error == NotInitialized
    ensures r.Ok? ==> r.value == s.owner
  {
    if !s.initialized then Err(NotInitialized) else Ok(s.owner)
  }

  /** Ownable::set_owner: only the owner may hand ownership on; nothing but the owner changes. */
  function SetOwner(s: State, caller: Principal, newOwner: Principal): (r: Result<State>)
    ensures r.Ok? <==> s.initialized && caller == s.owner
    ensures !s.initialized ==> r == Err(NotInitialized)
    ensures s.initialized && caller != s.owner ==> r == Err(NotOwner)
    ensures r.Ok? ==> && r.value.owner == newOwner
                      && r.value.initialized
                      && r.value.records == s.records
                      && r.value.access == s.access
  {
    if !s.initialized then Err(NotInitialized)
    else if caller != s.owner then Err(NotOwner)
    else Ok(s.(owner := newOwner))
  }

  /** add_role_set_product: the owner grants ROLE_SET_PRODUCT to `account`. */
  function AddRoleSetProduct(s: State, caller: Principal, account: Principal): (r: Result<State>)
    ensures r.Ok? <==> s.initialized && caller == s.owner
    ensures !s.initialized ==> r == Err(NotInitialized)
    ensures s.initialized && caller != s.owner ==> r == Err(NotOwner)
    ensures r.Ok? ==> Granted(s, r.value, ROLE_SET_PRODUCT, account)
  {
    if !s.initialized then Err(NotInitialized)
    else if caller != s.owner then Err(NotOwner)
    else Ok(s.(access := s.access.SetupRole(ROLE_SET_PRODUCT, account)))
  }

  /** add_role_delete_product: the owner grants ROLE_DELETE_PRODUCT to `account`. */
  function AddRoleDeleteProduct(s: State, caller: Principal, account: Principal): (r: Result<State>)
    ensures r.Ok? <==> s.initialized && caller == s.owner
    ensures !s.initialized ==> r == Err(NotInitialized)
    ensures s.initialized && caller != s.owner ==> r == Err(NotOwner)
    ensures r.Ok? ==> Granted(s, r.value, ROLE_DELETE_PRODUCT, account)
  {
    if !s.initialized then Err(NotInitialized)
    else if caller != s.owner then Err(NotOwner)
    else Ok(s.(access := s.access.SetupRole(ROLE_DELETE_PRODUCT, account)))
  }

  /**
   * new: refuses storage that already holds the state; otherwise starts with no
   * records, the caller as owner, and the caller holding exactly the two
   * built-in roles, granted through the owner-gated grant operations.
   */
  function Init(s: State, caller: Principal): (r: Result<State>)
    ensures r.Err? <==> s.initialized
    ensures r.Err? ==> r.error == AlreadyInitialized
    ensures r.Ok? ==> && r.value.initialized
                      && r.value.records == map[]
                      && r.value.owner == caller
    ensures r.Ok? ==> && r.value.access.HasRole(ROLE_SET_PRODUCT, caller)
                      && r.value.access.HasRole(ROLE_DELETE_PRODUCT, caller)
    ensures r.Ok? ==> forall role, p :: r.value.access.HasRole(role, p) ==>
                        p == caller && (role == ROLE_SET_PRODUCT || role == ROLE_DELETE_PRODUCT)
  {
    if s.initialized then Err(AlreadyInitialized)
    else
      var start := State(true, map[], caller, EMPTY);
      match AddRoleSetProduct(start, caller, caller)
      case Err(e) => Err(e)
      case Ok(s1) => AddRoleDeleteProduct(s1, caller, caller)
  }

  /**
   * set_products: a caller holding ROLE_SET_PRODUCT stores a new Item at
   * `address`, replacing whatever was there; no other key changes.
   */
  function SetProducts(s: State, caller: Principal, address: string, name: string, price: U128, stock: U8)
    : (r: Result<State>)
    ensures r.Ok? <==> s.initialized && s.access.HasRole(ROLE_SET_PRODUCT, caller)
    ensures !s.initialized ==> r == Err(NotInitialized)
    ensures s.initialized && !s.access.HasRole(ROLE_SET_PRODUCT, caller) ==> r == Err(Unauthorized)
    ensures r.Ok? ==> address in r.value.records && r.value.records[address] == Item(name, price, stock)
    ensures r.Ok? ==> forall k :: k != address ==>
                        && (k in r.value.records <==> k in s.records)
                        && (k in s.records ==> r.value.records[k] == s.records[k])
    ensures r.Ok? ==> r.value.initialized && r.value.owner == s.owner && r.value.access == s.access
  {
    if !s.initialized then Err(NotInitialized)
    else if !s.access.HasRole(ROLE_SET_PRODUCT, caller) then Err(Unauthorized)
    else
      var item := Item(name, price, stock);
      Ok(s.(records := s.records[address := item]))
  }

  /** get_products: any caller may read; a key never set, or deleted, reads as None. */
  function GetProducts(s: State, address: string): (r: Result<Option<Item>>)
    ensures r.Err? <==> !s.initialized
    ensures r.Err? ==> r.error == NotInitialized
    ensures r == Ok(None) <==> s.initialized && address !in s.records
    ensures r.Ok? && r.value.Some? ==> address in s.records && s.records[address] == r.value.value
  {
    if !s.initialized then Err(NotInitialized)
    else if address in s.records then Ok(Some(s.records[address]))
    else Ok(None)
  }

  /**
   * delete_products: a caller holding ROLE_DELETE_PRODUCT removes whatever is
   * stored at `address` (nothing at all is fine); no other key changes.
   */
  function DeleteProducts(s: State, caller: Principal, address: string): (r: Result<State>)
    ensures r.Ok? <==> s.initialized && s.access.HasRole(ROLE_DELETE_PRODUCT, caller)
    ensures !s.initialized ==> r == Err(NotInitialized)
    ensures s.initialized && !s.access.HasRole(ROLE_DELETE_PRODUCT, caller) ==> r == Err(Unauthorized)
    ensures r.Ok? ==> address !in r.value.records
    ensures r.Ok? ==> forall k :: k != address ==>
                        && (k in r.value.records <==> k in s.records)
                        && (k in s.records ==> r.value.records[k] == s.records[k])
    ensures r.Ok? ==> r.value.initialized && r.value.owner == s.owner && r.value.access == s.access
  {
    if !s.initialized then Err(NotInitialized)
    else if !s.access.HasRole(ROLE_DELETE_PRODUCT, caller) then Err(Unauthorized)
    else Ok(s.(records := s.records - {address}))
  }

  // Properties relating several calls.

  /** Right after `new`, no key holds an item, and the initialising caller may write and delete at once. */
  lemma InitBootstrap(s: State, caller: Principal, address: string, name: string, price: U128, stock: U8)
    requires !s.initialized
    ensures Init(s, caller).Ok?
    ensures GetProducts(Init(s, caller).value, address) == Ok(None)
    ensures SetProducts(Init(s, caller).value, caller, address, name, price, stock).Ok?
    ensures DeleteProducts(Init(s, caller).value, caller, address).Ok?
  {
  }

  /** Once `new` has run, a second `new`, by anyone, fails, and the stored state stays as it was. */
  lemma InitOnce(s: State, caller: Principal, again: Principal)
    requires Init(s, caller).Ok?
    ensures var t := Init(s, caller).value;
            Init(t, again) == Err(AlreadyInitialized) && After(t, Init(t, again)) == t
  {
  }

  /** After an authorised set, reading the same key gives exactly the new item and reading any other key is unaffected. */
  lemma SetThenGet(s: State, caller: Principal, address: string, name: string, price: U128, stock: U8, other: string)
    requires SetProducts(s, caller, address, name, price, stock).Ok?
    ensures GetProducts(SetProducts(s, caller, address, name, price, stock).value, address)
         == Ok(Some(Item(name, price, stock)))
    ensures other != address ==>
              GetProducts(SetProducts(s, caller, address, name, price, stock).value, other) == GetProducts(s, other)
  {
  }

  /** A second set on the same key replaces the whole item: nothing of the first one survives. */
  lemma SetOverwrites(s: State, caller: Principal, address: string,
                      name1: string, price1: U128, stock1: U8,
                      name2: string, price2: U128, stock2: U8)
    requires SetProducts(s, caller, address, name1, price1, stock1).Ok?
    ensures var t := SetProducts(s, caller, address, name1, price1, stock1).value;
            SetProducts(t, caller, address, name2, price2, stock2).Ok?
            && GetProducts(SetProducts(t, caller, address, name2, price2, stock2).value, address)
               == Ok(Some(Item(name2, price2, stock2)))
  {
  }

  /** After an authorised delete the key reads as None, whether or not it held an item; other keys are unaffected. */
  lemma DeleteThenGet(s: State, caller: Principal, address: string, other: string)
    requires DeleteProducts(s, caller, address).Ok?
    ensures GetProducts(DeleteProducts(s, caller, address).value, address) == Ok(None)
    ensures other != address ==>
              GetProducts(DeleteProducts(s, caller, address).value, other) == GetProducts(s, other)
  {
  }

  /** Deleting a key that holds nothing succeeds and leaves the state exactly as it was. */
  lemma DeleteAbsentIsNoop(s: State, caller: Principal, address: string)
    requires GetProducts(s, address) == Ok(None)
    requires s.access.HasRole(ROLE_DELETE_PRODUCT, caller)
    ensures DeleteProducts(s, caller, address) == Ok(s)
  {
    assert s.records - {address} == s.records;
  }

  /** Granting ROLE_SET_PRODUCT twice to the same account is the same as granting it once. */
  lemma AddRoleSetProductIdempotent(s: State, caller: Principal, account: Principal)
    requires AddRoleSetProduct(s, caller, account).Ok?
    ensures var t := AddRoleSetProduct(s, caller, account).value;
            AddRoleSetProduct(t, caller, account) == Ok(t)
  {
    SetupRoleIdempotent(s.access, ROLE_SET_PRODUCT, account);
  }

  /** Granting ROLE_DELETE_PRODUCT twice to the same account is the same as granting it once. */
  lemma AddRoleDeleteProductIdempotent(s: State, caller: Principal, account: Principal)
    requires AddRoleDeleteProduct(s, caller, account).Ok?
    ensures var t := AddRoleDeleteProduct(s, caller, account).value;
            AddRoleDeleteProduct(t, caller, account) == Ok(t)
  {
    SetupRoleIdempotent(s.access, ROLE_DELETE_PRODUCT, account);
  }

  /**
   * After a transfer to someone else, the previous owner keeps every role it
   * held but can no longer grant roles or transfer ownership again.
   */
  lemma TransferKeepsRolesNotOwnership(s: State, caller: Principal, newOwner: Principal,
                                       role: Role, account: Principal)
    requires SetOwner(s, caller, newOwner).Ok?
    requires newOwner != caller
    ensures var t := SetOwner(s, caller, newOwner).value;
            && (t.access.HasRole(role, caller) <==> s.access.HasRole(role, caller))
            && AddRoleSetProduct(t, caller, account) == Err(NotOwner)
            && AddRoleDeleteProduct(t, caller, account) == Err(NotOwner)
            && SetOwner(t, caller, account) == Err(NotOwner)
  {
  }

  /** An account the owner grants ROLE_SET_PRODUCT to may then write. */
  lemma GrantEnablesSet(s: State, caller: Principal, account: Principal,
                        address: string, name: string, price: U128, stock: U8)
    requires AddRoleSetProduct(s, caller, account).Ok?
    ensures SetProducts(AddRoleSetProduct(s, caller, account).value, account, address, name, price, stock).Ok?
  {
  }
}
