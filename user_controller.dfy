/** The user handlers: the caller's profile and membership, changing the username or phone,
    asking for a VIP upgrade (which only creates a payment link), and the VIP payment
    history. */
module UserController {
  import opened Common
  import opened Seqs
  import opened Paging
  import opened UserModel
  import opened PaymentModel
  import opened Store
  import opened PaymentService

  const UserNotFound: string := "User not found"
  const UsernameTaken: string := "Username already exists"
  const AlreadyVip: string := "User is already VIP member"

  /** The price of the VIP upgrade and the description sent to the payment provider. */
  const VipPrice: int := 60000
  const VipDescription: string := "Goi vip"

  // ---------------------------------------------------------------------------------------
  // Profile and membership

  /** The fields of the profile answer (the timestamps are not modelled). */
  datatype Profile = Profile(id: Id, username: string, email: string, phone: Option<string>,
                             roleName: Role, membership: Membership)

  function ProfileOf(u: User): Profile {
    Profile(u.id, u.username, u.email, u.phone, u.roleName, u.membership)
  }

  /** `getUserProfile`: the caller's profile, or 404 when the caller is not stored. */
  function UserProfile(users: seq<User>, caller: Id): (r: Reply<Profile>)
    ensures r.Fail? <==> !Registered(users, caller)
    ensures r.Fail? ==> r == Fail(404, UserNotFound)
    ensures r.Ok? ==> r.code == 200 && exists j | 0 <= j < |users| :: users[j].id == caller && r.body == ProfileOf(users[j])
  {
    match UserIndex(users, caller)
    case None => Fail(404, UserNotFound)
    case Some(i) => Ok(200, ProfileOf(users[i]))
  }

  /** `getMembershipStatus`: the caller's tier, or 404 when the caller is not stored. */
  function MembershipStatus(users: seq<User>, caller: Id): (r: Reply<Membership>)
    ensures r.Fail? <==> !Registered(users, caller)
    ensures r.Fail? ==> r == Fail(404, UserNotFound)
    ensures r.Ok? ==> r.code == 200 && r.body == UserProfile(users, caller).body.membership
  {
    match UserIndex(users, caller)
    case None => Fail(404, UserNotFound)
    case Some(i) => Ok(200, users[i].membership)
  }

  // ---------------------------------------------------------------------------------------
  // Updating the profile

  /** `User.findOne({ username, _id: { $ne: caller } })` finds someone. */
  predicate TakenByOther(users: seq<User>, username: string, caller: Id) {
    exists j | 0 <= j < |users| :: users[j].username == username && users[j].id != caller
  }

  /** The caller's record after `updateUserProfile`: a truthy username that differs from the
      current one is taken over unless another user has it (then 400); `phone` is replaced
      whenever it is given (`Some(None)` is an explicit null). */
  function UpdatedProfile(users: seq<User>, caller: Id, username: Option<string>, phone: Option<Option<string>>): (r: Reply<User>)
    ensures r.Fail? ==> r == Fail(404, UserNotFound) || r == Fail(400, UsernameTaken)
    ensures r == Fail(404, UserNotFound) <==> !Registered(users, caller)
    ensures r == Fail(400, UsernameTaken) <==>
      Registered(users, caller) && Truthy(username)
      && username.value != users[UserIndex(users, caller).value].username
      && TakenByOther(users, username.value, caller)
    ensures r.Ok? ==>
      var old_ := users[UserIndex(users, caller).value];
      && r.code == 200
      && r.body.id == caller && r.body.email == old_.email && r.body.roleName == old_.roleName
      && r.body.membership == old_.membership && r.body.isActive == old_.isActive
      && r.body.username == (if Truthy(username) then username.value else old_.username)
      && r.body.phone == (if phone.Some? then phone.value else old_.phone)
  {
    match UserIndex(users, caller)
    case None => Fail(404, UserNotFound)
    case Some(i) =>
      var u := users[i];
      if Truthy(username) && username.value != u.username && TakenByOther(users, username.value, caller) then
        Fail(400, UsernameTaken)
      else
        var u := if Truthy(username) && username.value != u.username then u.(username := username.value) else u;
        var u := if phone.Some? then u.(phone := phone.value) else u;
        Ok(200, u)
  }

  /** No two stored users share a username. */
  ghost predicate UniqueUsernames(users: seq<User>) {
    forall i, j | 0 <= i < j < |users| :: users[i].username != users[j].username
  }

  /** The update keeps usernames unique: the new name is one nobody else has. */
  lemma UpdateKeepsUsernamesUnique(users: seq<User>, caller: Id, username: Option<string>, phone: Option<Option<string>>, bound: Id)
    requires IdsUniqueBelow(users, UserKey, bound) && UniqueUsernames(users)
    requires UpdatedProfile(users, caller, username, phone).Ok?
    ensures UniqueUsernames(users[UserIndex(users, caller).value := UpdatedProfile(users, caller, username, phone).body])
  {
    var i := UserIndex(users, caller).value;
    var u := UpdatedProfile(users, caller, username, phone).body;
    var after := users[i := u];
    forall a, b | 0 <= a < b < |after| ensures after[a].username != after[b].username {
      if a == i || b == i {
        var other := if a == i then b else a;
        assert users[other].id != caller by {
          assert UserKey(users[other]) != UserKey(users[i]);
        }
        if u.username != users[i].username {
          assert !TakenByOther(users, u.username, caller);
        }
      }
    }
  }

  /** `updateUserProfile`. */
  method UpdateUserProfile(db: Db, caller: Id, username: Option<string>, phone: Option<Option<string>>) returns (r: Reply<Profile>)
    requires db.Valid()
    modifies db`users
    ensures db.Valid()
    ensures var u := UpdatedProfile(old(db.users), caller, username, phone);
      && (u.Fail? ==> r == Fail(u.code, u.error) && db.users == old(db.users))
      && (u.Ok? ==>
            && r == Ok(200, ProfileOf(u.body))
            && db.users == old(db.users)[UserIndex(old(db.users), caller).value := u.body])
  {
    var u := UpdatedProfile(db.users, caller, username, phone);
    if u.Fail? {
      return Fail(u.code, u.error);
    }
    db.SetUser(UserIndex(db.users, caller).value, u.body);
    r := Ok(200, ProfileOf(u.body));
  }

  // ---------------------------------------------------------------------------------------
  // VIP upgrade

  /** The answer of `upgradeToVip`: the link with the price and description. */
  datatype VipOffer = VipOffer(paymentLink: PaymentLink, amount: int, description: string)

  /** `upgradeToVip`: for a stored caller who is not yet VIP, a pending payment of 60000 is
      recorded with the caller's id as both its request and its user and the link answered;
      the membership itself is not changed here. A missing caller is 404, a VIP caller 400,
      and a failed link 500; none of them stores anything. */
  method UpgradeToVip(db: Db, caller: Id, orderCode: nat, checkoutUrl: Option<string>) returns (r: Reply<VipOffer>)
    requires db.Valid()
    modifies db`payments, db`nextId
    ensures db.Valid()
    ensures !Registered(old(db.users), caller) ==>
      r == Fail(404, UserNotFound) && db.payments == old(db.payments) && db.nextId == old(db.nextId)
    ensures Registered(old(db.users), caller) && MembershipStatus(old(db.users), caller).body == Vip ==>
      r == Fail(400, AlreadyVip) && db.payments == old(db.payments) && db.nextId == old(db.nextId)
    ensures Registered(old(db.users), caller) && MembershipStatus(old(db.users), caller).body != Vip ==>
      && (LinkCreated(old(db.payments), orderCode, checkoutUrl) ==>
            && r == Ok(200, VipOffer(PaymentLink(checkoutUrl.value, orderCode, old(db.nextId)), VipPrice, VipDescription))
            && db.payments == old(db.payments) + [NewPayment(old(db.nextId), caller, caller, VipPrice, orderCode, checkoutUrl.value)]
            && db.nextId == old(db.nextId) + 1)
      && (!LinkCreated(old(db.payments), orderCode, checkoutUrl) ==>
            r == Fail(500, PaymentLinkError) && db.payments == old(db.payments) && db.nextId == old(db.nextId))
  {
    var status := MembershipStatus(db.users, caller);
    if status.Fail? {
      return Fail(404, UserNotFound);
    }
    if status.body == Vip {
      return Fail(400, AlreadyVip);
    }
    var link := CreatePaymentLink(db, caller, caller, VipPrice, orderCode, checkoutUrl);
    if link.Failure? {
      return Fail(500, link.error);
    }
    r := Ok(200, VipOffer(link.value, VipPrice, VipDescription));
  }

  // ---------------------------------------------------------------------------------------
  // Payment history

  /** `Payment.find({ userId: caller, description: "Goi vip" })` as written. `description` is
      not a field of the Payment schema, so the outcome depends on the query mode of the
      document mapper: in strict query mode the unknown condition is dropped and every payment
      of the caller matches, connection fees included; otherwise it is sent to the database,
      where no stored payment has the field, and nothing matches. */
  function HistoryAsWritten(strictQuery: bool, caller: Id): Payment -> bool {
    (p: Payment) => strictQuery && p.userId == caller
  }

  /** `getPaymentHistory` as written. */
  function PaymentHistoryAsWritten(payments: seq<Payment>, caller: Id, strictQuery: bool, q: PageQuery): (r: Reply<Listing<Payment>>)
    ensures r.Ok? <==> PageLimit(q, 10) == 0 || PageNumber(q) >= 1
    ensures r.Ok? ==> r.body.total == Count(payments, HistoryAsWritten(strictQuery, caller))
    ensures r.Ok? ==> forall p | p in r.body.items :: p in payments && strictQuery && p.userId == caller
    ensures r.Ok? && PageLimit(q, 10) > 0 ==> |r.body.items| <= PageLimit(q, 10)
    ensures r.Ok? ==> NewestPage(r.body.items, Filter(payments, HistoryAsWritten(strictQuery, caller)), q, 10)
  {
    NewestFirst(Filter(payments, HistoryAsWritten(strictQuery, caller)), q, 10)
  }

  /** The two ways the written query misses its purpose: a VIP upgrade payment is not listed
      without strict query mode, and a connection fee is listed with it. */
  lemma PaymentHistoryAsWrittenMisses(caller: Id, other: Id, orderCode: nat, url: string)
    requires other != caller
    ensures var vip := NewPayment(7, caller, caller, VipPrice, orderCode, url);
      PaymentHistoryAsWritten([vip], caller, false, PageQuery(None, None)).body.total == 0
    ensures var fee := NewPayment(7, other, caller, 20000, orderCode, url);
      PaymentHistoryAsWritten([fee], caller, true, PageQuery(None, None)).body.items == [fee]
  {
    var vip := NewPayment(7, caller, caller, VipPrice, orderCode, url);
    var fee := NewPayment(7, other, caller, 20000, orderCode, url);
    FilterOne(vip, HistoryAsWritten(false, caller));
    FilterOne(fee, HistoryAsWritten(true, caller));
    var r := PaymentHistoryAsWritten([fee], caller, true, PageQuery(None, None));
    assert |r.body.items| <= 10 && forall x | x in r.body.items :: x in [fee];
    assert Skip(PageQuery(None, None), 10) == 0;
    assert r.body.items[0] == fee;
  }

  /** A VIP upgrade payment, told apart from a connection fee the way `upgradeToVip` records
      it: its request is the caller's own id. */
  function VipPaymentOf(caller: Id): Payment -> bool {
    (p: Payment) => p.userId == caller && p.requestId == caller
  }

  /** `getPaymentHistory` corrected: the caller's VIP upgrade payments, newest first. */
  function PaymentHistory(payments: seq<Payment>, caller: Id, q: PageQuery): (r: Reply<Listing<Payment>>)
    ensures r.Ok? <==> PageLimit(q, 10) == 0 || PageNumber(q) >= 1
    ensures r.Ok? ==> r.body.total == Count(payments, VipPaymentOf(caller))
    ensures r.Ok? ==> forall p | p in r.body.items :: p in payments && p.userId == caller && p.requestId == caller
    ensures r.Ok? && PageLimit(q, 10) > 0 ==> |r.body.items| <= PageLimit(q, 10)
    ensures r.Ok? ==> NewestPage(r.body.items, Filter(payments, VipPaymentOf(caller)), q, 10)
  {
    NewestFirst(Filter(payments, VipPaymentOf(caller)), q, 10)
  }

  /** The payment an upgrade records is counted in the corrected history, and a connection
      fee paid by the same caller is not. */
  lemma UpgradeShowsInHistory(payments: seq<Payment>, caller: Id, id: Id, orderCode: nat, url: string, fee: Payment)
    requires fee.userId == caller && fee.requestId != caller
    ensures var vip := NewPayment(id, caller, caller, VipPrice, orderCode, url);
      && Count(payments + [vip], VipPaymentOf(caller)) == Count(payments, VipPaymentOf(caller)) + 1
      && Count(payments + [fee], VipPaymentOf(caller)) == Count(payments, VipPaymentOf(caller))
  {
    var vip := NewPayment(id, caller, caller, VipPrice, orderCode, url);
    FilterAppend(payments, [vip], VipPaymentOf(caller));
    FilterOne(vip, VipPaymentOf(caller));
    FilterAppend(payments, [fee], VipPaymentOf(caller));
    FilterOne(fee, VipPaymentOf(caller));
  }
}
