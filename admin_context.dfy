// The admin dashboard's client state: whether the signed-in user is an
// administrator, the fetched figures and lists, and the three list updates
// applied after a successful status change, role change or user deletion.

module AdminContext {
  import opened Wrappers
  import opened UserModel
  import opened OrderModel
  import opened AdminController
  import AuthController
  import AuthMiddleware
  import Seqs

  /** The owner of an order as the admin listing populates it; a deleted
      owner is null. */
  datatype OrderUser = OrderUser(id: UserId, firstName: string, lastName: string, email: string)

  /** An order as the admin listing returns it. */
  datatype AdminOrder = AdminOrder(key: OrderKey, orderId: string, user: Option<OrderUser>, status: Status, total: real)

  /** `isAuthenticated && user?.role === 'admin'`. */
  predicate IsAdmin(user: Option<AuthController.Profile>)
  {
    user.Some? && user.value.role == ROLE_ADMIN
  }

  /** `prev.map(o => o.orderId === orderId ? { ...o, status } : o)`. */
  function SetOrderStatus(orders: seq<AdminOrder>, orderId: string, status: Status): (r: seq<AdminOrder>)
    ensures |r| == |orders|
    ensures forall i :: 0 <= i < |orders| && orders[i].orderId != orderId ==> r[i] == orders[i]
    ensures forall i :: 0 <= i < |orders| && orders[i].orderId == orderId ==> r[i] == orders[i].(status := status)
  {
    Seqs.Map(orders, (o: AdminOrder) => if o.orderId == orderId then o.(status := status) else o)
  }

  /** `prev.map(u => u._id === userId ? { ...u, role } : u)`. */
  function SetUserRole(users: seq<PublicUser>, id: UserId, role: string): (r: seq<PublicUser>)
    ensures |r| == |users|
    ensures forall i :: 0 <= i < |users| && users[i].id != id ==> r[i] == users[i]
    ensures forall i :: 0 <= i < |users| && users[i].id == id ==> r[i] == users[i].(role := role)
  {
    Seqs.Map(users, (u: PublicUser) => if u.id == id then u.(role := role) else u)
  }

  /** `prev.filter(u => u._id !== userId)`. */
  function DropUser(users: seq<PublicUser>, id: UserId): (r: seq<PublicUser>)
    ensures forall i :: 0 <= i < |r| ==> r[i].id != id
    ensures forall i :: 0 <= i < |users| && users[i].id != id ==> users[i] in r
  {
    Seqs.Filter(users, (u: PublicUser) => u.id != id)
  }

  /** With order ids unique (as their index demands), the list update
      changes exactly the one order the server changed. */
  lemma {:induction false} SetOrderStatusIsOneChange(orders: seq<AdminOrder>, i: nat, status: Status)
    requires Seqs.DistinctBy(orders, (o: AdminOrder) => o.orderId)
    requires i < |orders|
    ensures SetOrderStatus(orders, orders[i].orderId, status) == orders[i := orders[i].(status := status)]
  {
    var r := SetOrderStatus(orders, orders[i].orderId, status);
    forall j | 0 <= j < |orders| ensures r[j] == orders[i := orders[i].(status := status)][j] {
      if j != i {
        assert ((o: AdminOrder) => o.orderId)(orders[j]) != ((o: AdminOrder) => o.orderId)(orders[i]);
      }
    }
  }

  class AdminState {
    var users: seq<PublicUser>
    var orders: seq<AdminOrder>
    var stats: Stats
    var loading: bool

    constructor()
      ensures users == [] && orders == [] && stats == Stats(0, 0, 0, 0.0) && loading
    {
      users, orders, stats, loading := [], [], Stats(0, 0, 0, 0.0), true;
    }

    /** `fetchData`: nothing is requested for a non-admin. Otherwise the
        four replies arrive together (None when any request fails, which
        changes nothing); the stats are taken whole, then their product
        count is overwritten with the length of the product listing.
        Loading ends on every path. */
    method FetchData(isAdmin: bool, reply: Option<(Stats, seq<PublicUser>, seq<AdminOrder>, seq<ProductModel.Product>)>)
      returns (requested: bool)
      modifies this
      ensures requested <==> isAdmin
      ensures !loading
      ensures !isAdmin || reply.None? ==>
        users == old(users) && orders == old(orders) && stats == old(stats)
      ensures isAdmin && reply.Some? ==>
        && stats == reply.value.0.(totalProducts := |reply.value.3|)
        && users == reply.value.1
        && orders == reply.value.2
    {
      if !isAdmin {
        loading := false;
        return false;
      }
      requested := true;
      loading := true;
      if reply.Some? {
        var (s, us, os, ps) := reply.value;
        stats := s;
        users := us;
        orders := os;
        stats := stats.(totalProducts := |ps|);
      }
      loading := false;
    }

    /** A failed status change keeps the list and rethrows. */
    method UpdateOrderStatus(orderId: string, status: Status, succeeded: bool) returns (thrown: bool)
      modifies this
      ensures thrown <==> !succeeded
      ensures orders == (if succeeded then SetOrderStatus(old(orders), orderId, status) else old(orders))
      ensures users == old(users) && stats == old(stats) && loading == old(loading)
    {
      if !succeeded {
        return true;
      }
      orders := SetOrderStatus(orders, orderId, status);
      thrown := false;
    }

    /** A failed role change keeps the list and is swallowed (logged only). */
    method UpdateUserRole(id: UserId, role: string, succeeded: bool)
      modifies this
      ensures users == (if succeeded then SetUserRole(old(users), id, role) else old(users))
      ensures orders == old(orders) && stats == old(stats) && loading == old(loading)
    {
      if succeeded {
        users := SetUserRole(users, id, role);
      }
    }

    /** A deletion drops the user from the list; the order list is left as
        it was, although the server deleted that user's orders too. */
    method DeleteUser(id: UserId, succeeded: bool)
      modifies this
      ensures users == (if succeeded then DropUser(old(users), id) else old(users))
      ensures orders == old(orders) && stats == old(stats) && loading == old(loading)
    {
      if succeeded {
        users := DropUser(users, id);
      }
    }
  }

  /** The admin flag needs a signed-in user, and an administrator one. */
  lemma IsAdminNeedsAdminUser(user: Option<AuthController.Profile>)
    ensures IsAdmin(user) ==> user.Some?
    ensures user.Some? && user.value.role == "user" ==> !IsAdmin(user)
    ensures IsAdmin(user) <==> AuthMiddleware.AdminGate(
      if user.Some? then Some(AuthMiddleware.RequestUser(user.value.id, user.value.role)) else None).Pass?
  {
  }
}
