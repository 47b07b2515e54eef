/**
 * Sequences of state-changing calls to the registry, each made by some
 * caller and each either completing or aborting with no effect, and what
 * holds along any such sequence.
 */
module Traces {
  import opened Types
  import opened Access
  import Registry

  /** The calls that may change the stored state. */
  datatype Call =
    | New
    | SetOwner(newOwner: Principal)
    | AddRoleSetProduct(account: Principal)
    | AddRoleDeleteProduct(account: Principal)
    | SetProducts(address: string, name: string, price: U128, stock: U8)
    | DeleteProducts(address: string)

  datatype Request = Request(caller: Principal, call: Call)

  function Step(s: Registry.State, q: Request): Result<Registry.State> {
    match q.call
    case New => Registry.Init(s, q.caller)
    case SetOwner(o) => Registry.SetOwner(s, q.caller, o)
    case AddRoleSetProduct(a) => Registry.AddRoleSetProduct(s, q.caller, a)
    case AddRoleDeleteProduct(a) => Registry.AddRoleDeleteProduct(s, q.caller, a)
    case SetProducts(k, n, p, st) => Registry.SetProducts(s, q.caller, k, n, p, st)
    case DeleteProducts(k) => Registry.DeleteProducts(s, q.caller, k)
  }

  /** The stored state after one request, whether it completed or aborted. */
  function Next(s: Registry.State, q: Request): Registry.State {
    Registry.After(s, Step(s, q))
  }

  /** The stored state after a sequence of requests; once initialised, a contract stays initialised. */
  function Run(s: Registry.State, qs: seq<Request>): (t: Registry.State)
    ensures s.initialized ==> t.initialized
    decreases |qs|
  {
    if qs == [] then s else Run(Next(s, qs[0]), qs[1..])
  }

  /** Once initialised, `new` fails whatever has happened since. */
  lemma NewFailsForever(s: Registry.State, qs: seq<Request>, caller: Principal)
    requires s.initialized
    ensures Step(Run(s, qs), Request(caller, New)) == Err(AlreadyInitialized)
  {
  }

  lemma NextKeepsGrant(s: Registry.State, q: Request, role: Role, p: Principal)
    requires s.initialized && s.access.HasRole(role, p)
    ensures Next(s, q).access.HasRole(role, p)
  {
  }

  /** There is no revocation: a role held by someone is still held after any sequence of requests. */
  lemma {:induction false} RunKeepsGrant(s: Registry.State, qs: seq<Request>, role: Role, p: Principal)
    requires s.initialized && s.access.HasRole(role, p)
    ensures Run(s, qs).access.HasRole(role, p)
    decreases |qs|
  {
    if qs != [] {
      NextKeepsGrant(s, qs[0], role, p);
      RunKeepsGrant(Next(s, qs[0]), qs[1..], role, p);
    }
  }

  /** `p` is neither the owner nor holds either built-in role. */
  ghost predicate Outsider(s: Registry.State, p: Principal) {
    && p != s.owner
    && !s.access.HasRole(Registry.ROLE_SET_PRODUCT, p)
    && !s.access.HasRole(Registry.ROLE_DELETE_PRODUCT, p)
  }

  lemma OutsiderStepIsNoop(s: Registry.State, q: Request)
    requires s.initialized && Outsider(s, q.caller)
    ensures Next(s, q) == s
  {
  }

  /**
   * An initialised registry cannot be changed in any way by a principal that
   * is neither the owner nor a role holder, however many calls it makes: it
   * can neither write records nor grant itself a role.
   */
  lemma {:induction false} OutsiderCannotChangeState(s: Registry.State, qs: seq<Request>, p: Principal)
    requires s.initialized && Outsider(s, p)
    requires forall i :: 0 <= i < |qs| ==> qs[i].caller == p
    ensures Run(s, qs) == s
    decreases |qs|
  {
    if qs != [] {
      OutsiderStepIsNoop(s, qs[0]);
      OutsiderCannotChangeState(Next(s, qs[0]), qs[1..], p);
    }
  }

  /**
   * Without a set_owner request, an initialised registry keeps its owner. The
   * deployed contract does not export set_owner, so along every sequence of
   * calls it can actually receive, the owner is whoever ran `new`.
   */
  lemma {:induction false} OwnerChangesOnlyByTransfer(s: Registry.State, qs: seq<Request>)
    requires s.initialized
    requires forall i :: 0 <= i < |qs| ==> !qs[i].call.SetOwner?
    ensures Run(s, qs).owner == s.owner
    decreases |qs|
  {
    if qs != [] {
      assert Next(s, qs[0]).owner == s.owner;
      OwnerChangesOnlyByTransfer(Next(s, qs[0]), qs[1..]);
    }
  }
}
