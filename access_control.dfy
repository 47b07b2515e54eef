/**
 * The role table used by the product registry (utils::access_control). Only
 * the two operations the registry uses are modelled: granting a role and
 * testing membership.
 */
module Access {
  import opened Types

  /** Role name -> the principals holding it. A role absent from the table is held by nobody. */
  datatype AccessControl = AccessControl(roles: map<Role, set<Principal>>)
  {
    /** has_role: does `account` hold `role`? An absent role, or an absent holder of a present role, yields false. */
    function HasRole(role: Role, account: Principal): (b: bool)
      ensures role !in roles ==> !b
      ensures role in roles ==> (b <==> account in roles[role])
    {
      role in roles && account in roles[role]
    }

    /**
     * setup_role: adds `account` to the holders of `role`, creating the role on
     * its first grant. Never fails and never takes a grant away.
     */
    function SetupRole(role: Role, account: Principal): (ac: AccessControl)
      ensures ac.HasRole(role, account)
      ensures forall r, p :: ac.HasRole(r, p) <==> HasRole(r, p) || (r == role && p == account)
    {
      var holders := if role in roles then roles[role] else {};
      AccessControl(roles[role := holders + {account}])
    }
  }

  /** The table a fresh registry starts from. */
  const EMPTY: AccessControl := AccessControl(map[])

  lemma EmptyHoldsNothing(role: Role, account: Principal)
    ensures !EMPTY.HasRole(role, account)
  {
  }

  /** Granting a role that is already held changes nothing. */
  lemma SetupRoleHeld(ac: AccessControl, role: Role, account: Principal)
    requires ac.HasRole(role, account)
    ensures ac.SetupRole(role, account) == ac
  {
    assert ac.roles[role] + {account} == ac.roles[role];
    assert ac.roles[role := ac.roles[role]] == ac.roles;
  }

  /** Granting twice is the same as granting once. */
  lemma SetupRoleIdempotent(ac: AccessControl, role: Role, account: Principal)
    ensures ac.SetupRole(role, account).SetupRole(role, account) == ac.SetupRole(role, account)
  {
    SetupRoleHeld(ac.SetupRole(role, account), role, account);
  }
}
