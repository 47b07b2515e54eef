/**
 * The storage layout as written in src/lib.rs: `records` and `access.roles`
 * are both LookupMaps created with the prefix "a" (lib.rs:77 and :79). A
 * LookupMap addresses an entry by its prefix followed by the serialised key,
 * and both maps are keyed by strings, so a product key and a role name that
 * are the same string address the same storage entry. This module models
 * that single key space and exhibits its consequences; module Registry
 * models the evidently intended layout, with two separate maps.
 */
module SharedStorage {
  import opened Types
  import Registry

  /** What one storage entry under the prefix "a" holds: a product, or the holders of a role. */
  datatype Entry = ItemEntry(item: Item) | RoleEntry(holders: set<Principal>)

  /** The key space shared by both maps. */
  type Store = map<string, Entry>

  /** Shared storage right after `new` by `caller`: its two role grants. */
  function AfterNew(caller: Principal): (st: Store)
    ensures HasRole(st, Registry.ROLE_SET_PRODUCT, caller)
    ensures HasRole(st, Registry.ROLE_DELETE_PRODUCT, caller)
    ensures st.Keys == {Registry.ROLE_SET_PRODUCT, Registry.ROLE_DELETE_PRODUCT}
    ensures forall k :: k in st ==> st[k] == RoleEntry({caller})
  {
    map[Registry.ROLE_SET_PRODUCT := RoleEntry({caller}),
        Registry.ROLE_DELETE_PRODUCT := RoleEntry({caller})]
  }

  /**
   * Whether the entry at `address` reads back as an Item. A LookupMap's
   * insert and remove return the value they replace, decoded as the map's
   * value type, and a failed decode panics. A product entry decodes; whether
   * the bytes of a role's holder record happen to decode as an Item is not
   * determined here, so `roleDecodesAsItem` says it for each holder set.
   */
  predicate ReadsAsItem(st: Store, address: string, roleDecodesAsItem: set<Principal> -> bool) {
    address !in st || st[address].ItemEntry? || roleDecodesAsItem(st[address].holders)
  }

  /**
   * The storage effect of an authorised set_products (records.insert): the
   * call aborts, writing nothing, when the entry it replaces does not decode
   * as an Item; otherwise it writes the item entry and nothing else.
   */
  function InsertItem(st: Store, address: string, item: Item, roleDecodesAsItem: set<Principal> -> bool)
    : (r: Option<Store>)
    ensures r.None? <==> !ReadsAsItem(st, address, roleDecodesAsItem)
    ensures r.Some? ==> address in r.value && r.value[address] == ItemEntry(item)
    ensures r.Some? ==> forall k :: k != address ==>
                          (k in r.value <==> k in st) && (k in st ==> r.value[k] == st[k])
  {
    if !ReadsAsItem(st, address, roleDecodesAsItem) then None
    else Some(st[address := ItemEntry(item)])
  }

  /**
   * The storage effect of an authorised delete_products (records.remove):
   * the call aborts when the entry it removes does not decode as an Item;
   * otherwise the entry is gone and nothing else changes.
   */
  function RemoveItem(st: Store, address: string, roleDecodesAsItem: set<Principal> -> bool)
    : (r: Option<Store>)
    ensures r.None? <==> !ReadsAsItem(st, address, roleDecodesAsItem)
    ensures r.Some? ==> address !in r.value
    ensures r.Some? ==> forall k :: k != address ==>
                          (k in r.value <==> k in st) && (k in st ==> r.value[k] == st[k])
  {
    if !ReadsAsItem(st, address, roleDecodesAsItem) then None
    else Some(st - {address})
  }

  /**
   * has_role reading the shared key space. An entry that holds a product is
   * never taken for a grant: what the real read does with another map's
   * bytes depends on decoding them, and is not modelled.
   */
  function HasRole(st: Store, role: Role, p: Principal): (b: bool)
    ensures b ==> role in st && st[role].RoleEntry?
    ensures role in st && st[role].RoleEntry? ==> (b <==> p in st[role].holders)
  {
    role in st && st[role].RoleEntry? && p in st[role].holders
  }

  /**
   * Whether the entry get_products reads is empty. When it is occupied by a
   * role entry, what the read then returns depends on decoding another map's
   * bytes as an Item (most likely a panic), and is not modelled.
   */
  predicate GetFindsNothing(st: Store, address: string) {
    address !in st
  }

  /**
   * As written: right after `new`, reading the product key "ROLE_SET_PRODUCT",
   * which was never set, finds its storage entry occupied by the role table's
   * holder set. The intended behaviour (Registry.InitBootstrap) reads None.
   */
  lemma NeverSetKeyIsNotEmpty(caller: Principal)
    ensures !GetFindsNothing(AfterNew(caller), Registry.ROLE_SET_PRODUCT)
  {
  }

  /**
   * As written: right after `new`, the owner, who holds ROLE_SET_PRODUCT,
   * stores a product under the key "ROLE_SET_PRODUCT". If the role's holder
   * record does not decode as an Item (the likely case), the authorised write
   * is refused; if it does, the write goes through and replaces the entry
   * holding the owner's own grant, so the grant is no longer found. The
   * intended behaviour (Registry.SetProducts) always accepts the write and
   * leaves the role table untouched.
   */
  lemma SetProductsOnRoleKey(caller: Principal, item: Item, roleDecodesAsItem: set<Principal> -> bool)
    ensures var r := InsertItem(AfterNew(caller), Registry.ROLE_SET_PRODUCT, item, roleDecodesAsItem);
            && (!roleDecodesAsItem({caller}) ==> r.None?)
            && (roleDecodesAsItem({caller}) ==> r.Some? && !HasRole(r.value, Registry.ROLE_SET_PRODUCT, caller))
  {
  }

  /**
   * As written: right after `new`, the owner, who holds ROLE_DELETE_PRODUCT,
   * deletes the product key "ROLE_DELETE_PRODUCT", which it never set. The
   * call is refused when the role's holder record does not decode as an Item,
   * and otherwise removes the owner's own delete grant. The intended
   * behaviour (Registry.DeleteAbsentIsNoop) succeeds and changes nothing.
   */
  lemma DeleteProductsOnRoleKey(caller: Principal, roleDecodesAsItem: set<Principal> -> bool)
    ensures var r := RemoveItem(AfterNew(caller), Registry.ROLE_DELETE_PRODUCT, roleDecodesAsItem);
            && (!roleDecodesAsItem({caller}) ==> r.None?)
            && (roleDecodesAsItem({caller}) ==> r.Some? && !HasRole(r.value, Registry.ROLE_DELETE_PRODUCT, caller))
  {
  }
}
