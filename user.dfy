/** The User record as the handlers read and write it (the User schema itself is not part of
    this model): identity, role, membership tier and active flag. */
module UserModel {
  import opened Common

  /** `roleName`: the middleware and the queries distinguish `user` and `admin`. */
  datatype Role = RoleUser | RoleAdmin

  /** The stored name of a tier other than `basic` and `vip`. */
  type OtherTierName = s: string | s != "basic" && s != "vip" witness ""

  /** `membership`. The routing filter tests for `vip` and `basic` explicitly and skips anything
      else, so a tier other than those two is kept as its name. */
  datatype Membership = Basic | Vip | OtherTier(name: OtherTierName) {
    function Name(): string {
      match this
      case Basic => "basic"
      case Vip => "vip"
      case OtherTier(n) => n
    }
  }

  /** Each stored string stands for one tier: two tiers with the same name are the same. */
  lemma MembershipNameInjective(a: Membership, b: Membership)
    ensures a.Name() == b.Name() <==> a == b
  {
  }

  datatype User = User(
    id: Id,
    username: string,
    email: string,
    phone: Option<string>,
    roleName: Role,
    membership: Membership,
    isActive: bool)
}
