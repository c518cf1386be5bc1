// The admin endpoints: the dashboard figures, the listings (the user
// listing without passwords), the role change and the cascading user
// deletion.

module AdminController {
  import opened Wrappers
  import opened UserModel
  import opened OrderModel
  import opened ProductModel
  import opened Store
  import Seqs

  /** The `$match` stage of the revenue pipeline: every order not cancelled. */
  predicate Counted(o: Order)
  {
    o.status != Cancelled
  }

  /** What one order adds to the revenue. */
  function OrderRevenue(o: Order): real
  {
    if Counted(o) then o.total else 0.0
  }

  /** The `$sum: '$total'` stage. */
  function SumTotals(orders: seq<Order>): real
  {
    if orders == [] then 0.0 else orders[0].total + SumTotals(orders[1..])
  }

  /** totalRevenue: the sum of the totals of the orders not cancelled; with
      no such order the pipeline yields no group and `|| 0` gives 0. */
  function Revenue(orders: seq<Order>): real
  {
    SumTotals(Seqs.Filter(orders, Counted))
  }

  lemma RevenueEmpty()
    ensures Revenue([]) == 0.0
  {
  }

  /** The revenue is additive, one order at a time from the front. */
  lemma {:induction false} RevenueCons(o: Order, rest: seq<Order>)
    ensures Revenue([o] + rest) == OrderRevenue(o) + Revenue(rest)
  {
    assert ([o] + rest)[1..] == rest;
    if Counted(o) {
      var r := Seqs.Filter(rest, Counted);
      assert ([o] + r)[1..] == r;
    }
  }

  /** A new order adds its own contribution and nothing else. */
  lemma {:induction false} RevenueAppend(orders: seq<Order>, o: Order)
    ensures Revenue(orders + [o]) == Revenue(orders) + OrderRevenue(o)
  {
    RevenueConcat(orders, [o]);
    assert [o] + [] == [o];
    RevenueCons(o, []);
  }

  /** The revenue of two lists one after the other is the sum of theirs. */
  lemma {:induction false} RevenueConcat(a: seq<Order>, b: seq<Order>)
    ensures Revenue(a + b) == Revenue(a) + Revenue(b)
  {
    if a == [] {
      assert [] + b == b;
    } else {
      assert a + b == [a[0]] + (a[1..] + b);
      assert a == [a[0]] + a[1..];
      RevenueCons(a[0], a[1..] + b);
      RevenueCons(a[0], a[1..]);
      RevenueConcat(a[1..], b);
    }
  }

  /** Replacing one order changes the revenue by the difference of the two
      contributions. */
  lemma {:induction false} RevenueReplace(orders: seq<Order>, i: nat, o: Order)
    requires i < |orders|
    ensures Revenue(orders[i := o]) == Revenue(orders) - OrderRevenue(orders[i]) + OrderRevenue(o)
  {
    var before, after := orders[..i], orders[i + 1..];
    assert orders == before + ([orders[i]] + after);
    assert orders[i := o] == before + ([o] + after);
    RevenueConcat(before, [orders[i]] + after);
    RevenueConcat(before, [o] + after);
    RevenueCons(orders[i], after);
    RevenueCons(o, after);
  }

  /** Orders that are all cancelled bring in nothing. */
  lemma AllCancelledNoRevenue(orders: seq<Order>)
    requires forall i :: 0 <= i < |orders| ==> orders[i].status == Cancelled
    ensures Revenue(orders) == 0.0
  {
    Seqs.FilterNone(orders, Counted);
  }

  /** Cancelling a counted order lowers the revenue by exactly its total. */
  lemma CancelLowersRevenue(orders: seq<Order>, i: nat)
    requires i < |orders| && orders[i].status != Cancelled
    ensures Revenue(orders[i := orders[i].(status := Cancelled)]) == Revenue(orders) - orders[i].total
  {
    RevenueReplace(orders, i, orders[i].(status := Cancelled));
  }

  /** The four dashboard figures. */
  datatype Stats = Stats(totalUsers: nat, totalOrders: nat, totalProducts: nat, totalRevenue: real)

  /** GET /stats: every user (admins included), every order (cancelled
      included), every product, and the revenue. */
  function DashboardStats(users: seq<User>, products: seq<Product>, orders: seq<Order>): (r: Stats)
    ensures r.totalUsers == |users| && r.totalOrders == |orders| && r.totalProducts == |products|
    ensures r.totalRevenue == SumTotals(Seqs.Filter(orders, Counted))
  {
    Stats(|users|, |orders|, |products|, Revenue(orders))
  }

  /** A status change (a cancellation in particular) never changes the order
      count and moves the revenue by the difference of the contributions. */
  lemma StatusChangeStats(users: seq<User>, products: seq<Product>, orders: seq<Order>, i: nat, s: Status)
    requires i < |orders|
    ensures DashboardStats(users, products, orders[i := orders[i].(status := s)]).totalOrders
         == DashboardStats(users, products, orders).totalOrders
    ensures DashboardStats(users, products, orders[i := orders[i].(status := s)]).totalRevenue
         == DashboardStats(users, products, orders).totalRevenue
            - OrderRevenue(orders[i]) + OrderRevenue(orders[i].(status := s))
  {
    RevenueReplace(orders, i, orders[i].(status := s));
  }

  /** A user as the listing shows it: every field but the password. */
  datatype PublicUser = PublicUser(
    id: UserId,
    firstName: string,
    lastName: string,
    email: string,
    role: string,
    lastLogin: Option<int>,
    cart: seq<CartLine>)

  function Public(u: User): PublicUser
  {
    PublicUser(u.id, u.firstName, u.lastName, u.email, u.role, u.lastLogin, u.cart)
  }

  /** GET /users: `User.find().select('-password')`. */
  function ListUsers(users: seq<User>): (r: seq<PublicUser>)
    ensures |r| == |users|
    ensures forall i :: 0 <= i < |users| ==> r[i].id == users[i].id && r[i].email == users[i].email && r[i].role == users[i].role
    ensures forall i :: 0 <= i < |users| ==>
      r[i].firstName == users[i].firstName && r[i].lastName == users[i].lastName &&
      r[i].lastLogin == users[i].lastLogin && r[i].cart == users[i].cart
  {
    Seqs.Map(users, Public)
  }

  /** The listing reveals nothing about passwords: changing any user's
      password leaves it exactly as it was. */
  lemma PasswordInvisible(users: seq<User>, i: nat, s: Secret)
    requires i < |users|
    ensures ListUsers(users[i := users[i].(password := s)]) == ListUsers(users)
  {
    var changed := users[i := users[i].(password := s)];
    assert forall k :: 0 <= k < |users| ==> Public(changed[k]) == Public(users[k]);
  }

  /** PATCH /users/:id/role as written: `findByIdAndUpdate` without
      `runValidators`, so any string is stored as the role. None is the 404. */
  function UpdateUserRoleAsWritten(users: seq<User>, id: UserId, role: string): (r: Option<seq<User>>)
    ensures r.None? <==> FindUser(users, id).None?
    ensures r.Some? ==> r.value == users[FindUser(users, id).value := users[FindUser(users, id).value].(role := role)]
  {
    match FindUser(users, id)
    case None => None
    case Some(i) => Some(users[i := users[i].(role := role)])
  }

  /** The role enum is not enforced: a request with role "owner" stores a
      user no valid store can hold. */
  lemma AsWrittenStoresAnyRole(users: seq<User>, id: UserId, next: nat)
    requires FindUser(users, id).Some?
    ensures UpdateUserRoleAsWritten(users, id, "owner").Some?
    ensures !UsersValid(UpdateUserRoleAsWritten(users, id, "owner").value, next)
  {
    var i := FindUser(users, id).value;
    var after := UpdateUserRoleAsWritten(users, id, "owner").value;
    assert after[i].role == "owner";
    assert !IsRole(after[i].role);
  }

  /** PATCH /users/:id/role with the schema's enum enforced, as the profile
      update does with `runValidators`: validation runs before the query, so
      a role outside the enum is a 500 even for a missing user; a missing
      user is 404; otherwise only that user's role changes. */
  method UpdateUserRole(db: Db, id: UserId, role: string) returns (reply: Reply<User>)
    requires db.Valid()
    modifies db
    ensures db.Valid()
    ensures db.products == old(db.products) && db.orders == old(db.orders) && db.nextId == old(db.nextId)
    ensures !IsRole(role) ==> reply == Respond(SERVER_ERROR, "Server error") && db.users == old(db.users)
    ensures IsRole(role) && FindUser(old(db.users), id).None? ==>
      reply == Respond(NOT_FOUND, "User not found") && db.users == old(db.users)
    ensures IsRole(role) && FindUser(old(db.users), id).Some? ==>
      (var i := FindUser(old(db.users), id).value;
       db.users == old(db.users)[i := old(db.users)[i].(role := role)] && reply == Done(OK, db.users[i]))
  {
    if !IsRole(role) {
      return Respond(SERVER_ERROR, "Server error");
    }
    var ui := FindUser(db.users, id);
    if ui.None? {
      return Respond(NOT_FOUND, "User not found");
    }
    var updated := db.users[ui.value].(role := role);
    db.ReplaceUser(ui.value, updated);
    reply := Done(OK, updated);
  }

  /** DELETE /users/:id: 404 and nothing deleted for a missing user;
      otherwise the user's orders go first, then the user. */
  method DeleteUser(db: Db, id: UserId) returns (reply: Reply<string>)
    requires db.Valid()
    modifies db
    ensures db.Valid()
    ensures db.products == old(db.products) && db.nextId == old(db.nextId)
    ensures FindUser(old(db.users), id).None? ==>
      reply == Respond(NOT_FOUND, "User not found") && db.users == old(db.users) && db.orders == old(db.orders)
    ensures FindUser(old(db.users), id).Some? ==>
      && reply == Done(OK, "User and all their orders have been permanently deleted")
      && db.orders == OrdersNotOf(old(db.orders), id)
      && db.users == UsersOtherThan(old(db.users), id)
    ensures forall i :: 0 <= i < |db.orders| ==> db.orders[i].user != id
    ensures forall i :: 0 <= i < |db.users| ==> db.users[i].id != id
    ensures forall i :: 0 <= i < |old(db.orders)| && old(db.orders)[i].user != id ==> old(db.orders)[i] in db.orders
    ensures forall i :: 0 <= i < |old(db.users)| && old(db.users)[i].id != id ==> old(db.users)[i] in db.users
  {
    var ui := FindUser(db.users, id);
    if ui.None? {
      return Respond(NOT_FOUND, "User not found");
    }
    db.DeleteUserWithOrders(id);
    reply := Done(OK, "User and all their orders have been permanently deleted");
  }
}
