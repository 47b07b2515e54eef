# Product registry — a Dafny model

This project models the `Product` contract of `src/lib.rs`, a NEAR smart
contract. The contract keeps a keyed store of products (`Item`: name,
price, stock) and a single owner. It also keeps a role table that maps each
role name to the accounts holding it. Writing a product requires the role
`ROLE_SET_PRODUCT`. Deleting one requires `ROLE_DELETE_PRODUCT`. Only the
owner may grant these roles. `set_owner` would let the owner hand on
ownership, but it is not exported (see Findings). `new` initialises the
contract once: it makes the caller the owner and grants the caller both
roles. Any failed check aborts the call, and the stored state stays as it
was.

Layout:

- `types.dfy` (module `Types`): accounts, `Item` with `u128`/`u8` ranges,
  the error kinds and their panic messages.
- `access_control.dfy` (module `Access`): the role table of
  `utils::access_control`. It is a value with `HasRole` (membership) and
  `SetupRole` (an additive grant).
- `registry.dfy` (module `Registry`): the contract as a state machine over
  values. There is one function per call, from the stored state to the
  next state or an error. Lemmas relate several calls.
- `product.dfy` (module `ProductContract`): class `Product`, whose methods
  update its fields in place as the Rust methods do. Each method is tied to
  its `Registry` function through `Abstract()`, and states what it changes
  and what it leaves alone.
- `traces.dfy` (module `Traces`): arbitrary sequences of calls by arbitrary
  callers. The lemmas here hold along every such sequence.
- `product_tests.dfy` (module `ProductTests`): the unit tests of
  `src/lib.rs`, plus the refused-then-granted writer scenario, as client
  code. Their assertions follow from the class contracts alone.
- `shared_storage.dfy` (module `SharedStorage`): the storage layout as
  written, where both maps share one storage prefix (see Findings).

The caller of every operation is an explicit parameter. A contract account
on which `new` has not run is a `Product` with `initialized == false`. In
that state every call except `new` fails with `NotInitialized`, which models
the panicking `Default` implementation.

`new` grants the bootstrap roles through the owner-gated `add_role_*`
methods, right after setting the owner (src/lib.rs:82, :84). It does not
write to the role table directly. The model follows that path.

## Model

| member | source | states |
|---|---|---|
| `Types.Message` | src/lib.rs:93 | the custom panic message of a role failure is "401"; only the owner-assertion failure has no message in this model |
| `Access.AccessControl.SetupRole` | src/lib.rs:56 | after a grant, the account holds the role; every earlier holding is kept; nobody else gains anything |
| `Access.AccessControl.HasRole` | src/lib.rs:93 | an absent role yields false; for a present role, true exactly when the account is among its holders |
| `Access.EmptyHoldsNothing` | src/lib.rs:79 | a fresh role table grants no role to anybody |
| `Access.SetupRoleHeld` | src/lib.rs:62 | granting a role that is already held leaves the table unchanged |
| `Access.SetupRoleIdempotent` | src/lib.rs:56 | granting the same role to the same account twice gives the same table as granting it once |
| `Registry.GetOwner` | src/lib.rs:40-42 | fails before initialisation; otherwise returns the current owner |
| `Registry.SetOwner` | src/lib.rs:44-47 | succeeds iff initialised and the caller is the owner; on success only the owner changes, and records and roles stay as they were |
| `Registry.AddRoleSetProduct` | src/lib.rs:53-57 | succeeds iff initialised and the caller is the owner; on success exactly one grant of ROLE_SET_PRODUCT is added, and records and owner stay as they were |
| `Registry.AddRoleDeleteProduct` | src/lib.rs:59-63 | the same for ROLE_DELETE_PRODUCT |
| `Registry.Init` | src/lib.rs:72-87 | fails with AlreadyInitialized iff state exists; otherwise no records, the caller is owner and holds exactly the two built-in roles |
| `Registry.SetProducts` | src/lib.rs:90-98 | succeeds iff initialised and the caller holds ROLE_SET_PRODUCT, else fails with "401"; on success the key holds exactly the new item and every other key, the owner and the roles are unchanged |
| `Registry.GetProducts` | src/lib.rs:100-102 | needs no role; reads None exactly when the key holds nothing, otherwise the stored item |
| `Registry.DeleteProducts` | src/lib.rs:104-112 | succeeds iff initialised and the caller holds ROLE_DELETE_PRODUCT, else fails with "401"; on success the key holds nothing and every other key, the owner and the roles are unchanged |
| `Registry.InitBootstrap` | src/lib.rs:171-194 | right after `new`, every key reads None, and the initialising caller may set and delete at once |
| `Registry.InitOnce` | src/lib.rs:73 | after a successful `new`, any second `new` fails and leaves the state unchanged |
| `Registry.SetThenGet` | src/lib.rs:142-168 | after an authorised set, get on that key returns exactly the new item, and get on any other key is unaffected |
| `Registry.SetOverwrites` | src/lib.rs:227-254 | a second set on the same key replaces the whole item; no field of the first item survives |
| `Registry.DeleteThenGet` | src/lib.rs:196-225 | after an authorised delete, get on that key returns None, and other keys are unaffected |
| `Registry.DeleteAbsentIsNoop` | src/lib.rs:111 | deleting a key that holds nothing succeeds and leaves the whole state unchanged |
| `Registry.AddRoleSetProductIdempotent` | src/lib.rs:53-57 | granting ROLE_SET_PRODUCT twice gives the same state as granting it once |
| `Registry.AddRoleDeleteProductIdempotent` | src/lib.rs:59-63 | granting ROLE_DELETE_PRODUCT twice gives the same state as granting it once |
| `Registry.TransferKeepsRolesNotOwnership` | src/lib.rs:44-47 | after handing ownership to another account, the previous owner keeps its roles but can no longer grant or transfer |
| `Registry.GrantEnablesSet` | src/lib.rs:53-57 | an account the owner granted ROLE_SET_PRODUCT to may then write any item |
| `ProductContract.Product.constructor` | src/lib.rs:33-37 | a contract account that holds no contract state yet |
| `ProductContract.Product.New` | src/lib.rs:72-87 | fails and changes nothing when already initialised; otherwise empty records, the caller as owner and holding both roles, granted through the owner-gated methods |
| `ProductContract.Product.GetOwner` | src/lib.rs:40-42 | returns what `Registry.GetOwner` specifies for the current fields |
| `ProductContract.Product.SetOwner` | src/lib.rs:44-47 | changes only `owner`, and only when the caller is the owner |
| `ProductContract.Product.AddRoleSetProduct` | src/lib.rs:53-57 | changes only `access`, by one grant of ROLE_SET_PRODUCT, and only when the caller is the owner |
| `ProductContract.Product.AddRoleDeleteProduct` | src/lib.rs:59-63 | changes only `access`, by one grant of ROLE_DELETE_PRODUCT, and only when the caller is the owner |
| `ProductContract.Product.SetProducts` | src/lib.rs:90-98 | changes only `records`, by storing the item at the key, and only when the caller holds ROLE_SET_PRODUCT |
| `ProductContract.Product.GetProducts` | src/lib.rs:100-102 | returns what `Registry.GetProducts` specifies for the current fields, and changes nothing |
| `ProductContract.Product.DeleteProducts` | src/lib.rs:104-112 | changes only `records`, by removing the key, and only when the caller holds ROLE_DELETE_PRODUCT |
| `Traces.Run` | src/lib.rs:73 | once initialised, a contract stays initialised after any sequence of calls |
| `Traces.NewFailsForever` | src/lib.rs:73 | once initialised, `new` fails after any sequence of calls |
| `Traces.NextKeepsGrant` | src/lib.rs:53-63 | no single call, completed or aborted, takes a role away |
| `Traces.RunKeepsGrant` | src/lib.rs:53-63 | roles are never revoked: a held role is still held after any sequence of calls |
| `Traces.OutsiderStepIsNoop` | src/lib.rs:44-112 | a call by an account that is neither owner nor role holder changes nothing |
| `Traces.OutsiderCannotChangeState` | src/lib.rs:44-112 | such an account cannot change the state by any sequence of calls; in particular it cannot grant itself a role |
| `Traces.OwnerChangesOnlyByTransfer` | src/lib.rs:44-47 | with no set_owner call in a sequence, the owner at the end is the owner at the start |
| `SharedStorage.AfterNew` | src/lib.rs:76-84 | the shared key space right after `new` holds exactly two entries, the two role keys, each granting its role to the caller alone |
| `SharedStorage.InsertItem` | src/lib.rs:97 | an authorised set aborts, writing nothing, exactly when the entry it replaces does not decode as an Item; otherwise it writes the item entry at the key and leaves every other entry, role entries included, unchanged |
| `SharedStorage.RemoveItem` | src/lib.rs:111 | an authorised delete aborts exactly when the entry it removes does not decode as an Item; otherwise the key is empty and every other entry is unchanged |
| `SharedStorage.HasRole` | src/lib.rs:107 | in the shared key space, a grant is found only in a role entry, and then exactly when the account is among its holders |
| `SharedStorage.NeverSetKeyIsNotEmpty` | src/lib.rs:77-79 | as written, the never-set product key "ROLE_SET_PRODUCT" is occupied right after `new` |
| `SharedStorage.SetProductsOnRoleKey` | src/lib.rs:77-97 | as written, the owner's authorised set under "ROLE_SET_PRODUCT" right after `new` aborts when the holder record does not decode as an Item, and otherwise erases the owner's own ROLE_SET_PRODUCT grant |
| `SharedStorage.DeleteProductsOnRoleKey` | src/lib.rs:104-112 | as written, the owner's authorised delete of the never-set key "ROLE_DELETE_PRODUCT" right after `new` aborts when the holder record does not decode as an Item, and otherwise erases the owner's own ROLE_DELETE_PRODUCT grant |

## Left out

- Logging: the `env::log` audit lines of set and delete (src/lib.rs:96, :110) are write-only host output.
- Host glue: `#[near_bindgen]`, `setup_alloc!`, the Borsh and serde derives, and loading and saving state between calls. Storage is modelled as ideal maps.
- Caller identity: the host reports both a signer and a predecessor account. Role checks use the signer. The owner assertion `Ownable::assert_owner` is a library function and is not part of this model. One `caller` parameter stands for both, which is why `new` cannot fail on its own grants here.
- `Types.Message`: the owner assertion's panic message is library text and is not modelled (it gives None). For a role failure it gives only the custom message "401"; the panic text `assert_eq!` builds around it is not modelled. The "already initialized" text may never be reported: depending on the near-sdk version, the SDK's own state check for `#[init]` methods can panic with its own message before src/lib.rs:73 runs.
- Ownership transfer: `impl Ownable for Product` (src/lib.rs:39) carries no `#[near_bindgen]`, unlike the blocks at src/lib.rs:51 and :68, so `get_owner` and `set_owner` are not contract entry points. The model still offers `SetOwner` and `GetOwner`, and `Traces` lets any caller send `SetOwner`. That over-approximates what the deployed contract accepts; the safety lemmas over traces stay sound because they quantify over more call sequences than can occur.
- Integer widths: price and stock are `u128` and `u8`. The model keeps only their ranges, as subset types, because the contract does no arithmetic on them.
- The test harness: the `VMContext` mock and the `println!` output. The four tests are modelled as client methods with assertions.
- Role revocation and role enumeration: the contract has neither.

## Findings

| source | as written | input that shows it | evidently intended | confidence | as-written member | corrected member |
|---|---|---|---|---|---|---|
| src/lib.rs:77-79 | `records` and `access.roles` are created with the same storage prefix "a", and both are keyed by strings, so a product key equal to a role name addresses the role table's entry | `new` by Paul, then `get_products("ROLE_SET_PRODUCT")`: that key was never set, yet its storage entry holds Paul's role grant rather than nothing | every never-set key reads None | medium, not executed; depends on LookupMap addressing entries by prefix plus serialised key | `SharedStorage.NeverSetKeyIsNotEmpty` | `Registry.InitBootstrap` |
| src/lib.rs:38-47 | the `Ownable` impl is not marked `#[near_bindgen]`, so `set_owner` is never exported and ownership can never be handed on | any sequence of exported calls after `new` by Paul: none of them is `set_owner`, so Paul stays owner forever | the owner can transfer ownership, as `set_owner`'s owner check suggests | medium, not executed; depends on near-sdk exporting only methods of `#[near_bindgen]` impl blocks | `Traces.OwnerChangesOnlyByTransfer` | `Registry.TransferKeepsRolesNotOwnership` |
| src/lib.rs:77-79, :97 | with the shared prefix, `records.insert` on a product key equal to a role name first decodes the role's holder record as an Item | `new` by Paul, then Paul calls `set_products("ROLE_SET_PRODUCT", …)`: if the holder record does not decode as an Item (the likely case) the authorised write aborts; if it does, the write replaces the entry and Paul no longer holds ROLE_SET_PRODUCT | an authorised set always succeeds and never changes the role table | medium, not executed; same dependency, and on Borsh decoding of the holder record, whose type is not part of this model | `SharedStorage.SetProductsOnRoleKey` | `Registry.SetProducts` |
| src/lib.rs:77-79, :111 | `records.remove` on a product key equal to a role name decodes the role's holder record as an Item in the same way | `new` by Paul, then Paul calls `delete_products("ROLE_DELETE_PRODUCT")`, a key Paul never set: the call aborts, or, if the record decodes, removes Paul's own ROLE_DELETE_PRODUCT grant | deleting a never-set key succeeds and changes nothing | medium, not executed; same dependencies | `SharedStorage.DeleteProductsOnRoleKey` | `Registry.DeleteAbsentIsNoop` |
