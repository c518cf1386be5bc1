// The three collections the controllers read and write, held by one store
// object, with the invariants the schemas' unique indexes and the
// controllers together maintain, and the lookups the controllers make.

module Store {
  import opened Wrappers
  import opened UserModel
  import opened OrderModel
  import opened ProductModel
  import CartLines
  import Seqs

  function UserIdOf(u: User): UserId { u.id }
  function EmailOf(u: User): string { u.email }
  function ProductIdOf(p: Product): ProductId { p.id }
  function OrderKeyOf(o: Order): OrderKey { o.key }
  function OrderIdOf(o: Order): string { o.orderId }

  ghost function UserIds(users: seq<User>): set<UserId>
  {
    set i | 0 <= i < |users| :: users[i].id
  }

  /** Every user passes the schema, keeps one cart line per key, and ids and
      emails are unique (the email index is `unique`). */
  ghost predicate UsersValid(users: seq<User>, next: nat)
  {
    && (forall i :: 0 <= i < |users| ==>
          users[i].id < next && ValidUser(users[i]) && CartLines.OneLinePerKey(users[i].cart))
    && Seqs.DistinctBy(users, UserIdOf)
    && Seqs.DistinctBy(users, EmailOf)
  }

  ghost predicate ProductsValid(products: seq<Product>, next: nat)
  {
    && (forall i :: 0 <= i < |products| ==> products[i].id < next)
    && Seqs.DistinctBy(products, ProductIdOf)
  }

  /** Orders pass the schema, belong to a stored user, and have unique
      document ids and unique `orderId`s. */
  ghost predicate OrdersValid(orders: seq<Order>, users: seq<User>, next: nat)
  {
    && (forall i :: 0 <= i < |orders| ==>
          orders[i].key < next && ValidOrder(orders[i]) && orders[i].user in UserIds(users))
    && Seqs.DistinctBy(orders, OrderKeyOf)
    && Seqs.DistinctBy(orders, OrderIdOf)
  }

  /** The database: users, products and orders in creation order, and the
      counter that hands out fresh document ids. */
  class Db {
    var users: seq<User>
    var products: seq<Product>
    var orders: seq<Order>
    var nextId: nat

    ghost predicate Valid()
      reads this
    {
      && UsersValid(users, nextId)
      && ProductsValid(products, nextId)
      && OrdersValid(orders, users, nextId)
    }

    constructor()
      ensures Valid()
      ensures users == [] && products == [] && orders == [] && nextId == 0
    {
      users, products, orders, nextId := [], [], [], 0;
    }

    /** Saves a changed user document in place. */
    method ReplaceUser(i: nat, u: User)
      requires Valid() && i < |users|
      requires u.id == users[i].id && u.email == users[i].email
      requires ValidUser(u) && CartLines.OneLinePerKey(u.cart)
      modifies this
      ensures Valid()
      ensures users == old(users)[i := u]
      ensures products == old(products) && orders == old(orders) && nextId == old(nextId)
    {
      Seqs.ReplaceKeepsDistinct(users, i, u, UserIdOf);
      Seqs.ReplaceKeepsDistinct(users, i, u, EmailOf);
      ghost var was := users;
      users := users[i := u];
      assert UserIds(users) == UserIds(was) by {
        forall x | x in UserIds(was) ensures x in UserIds(users) {
          var k :| 0 <= k < |was| && was[k].id == x;
          assert users[k].id == x;
        }
      }
    }

    /** Inserts a new order under the next fresh document id. */
    method AddOrder(o: Order)
      requires Valid()
      requires o.key == nextId && ValidOrder(o) && o.user in UserIds(users)
      requires forall i :: 0 <= i < |orders| ==> orders[i].orderId != o.orderId
      modifies this
      ensures Valid()
      ensures orders == old(orders) + [o] && nextId == old(nextId) + 1
      ensures users == old(users) && products == old(products)
    {
      Seqs.AppendKeepsDistinct(orders, o, OrderKeyOf);
      Seqs.AppendKeepsDistinct(orders, o, OrderIdOf);
      orders := orders + [o];
      nextId := nextId + 1;
    }

    /** Saves a changed order document in place; its ids and owner stay. */
    method ReplaceOrder(i: nat, o: Order)
      requires Valid() && i < |orders|
      requires o.key == orders[i].key && o.orderId == orders[i].orderId && o.user == orders[i].user
      requires ValidOrder(o)
      modifies this
      ensures Valid()
      ensures orders == old(orders)[i := o]
      ensures users == old(users) && products == old(products) && nextId == old(nextId)
    {
      Seqs.ReplaceKeepsDistinct(orders, i, o, OrderKeyOf);
      Seqs.ReplaceKeepsDistinct(orders, i, o, OrderIdOf);
      orders := orders[i := o];
    }

    /** Inserts a new user under the next fresh document id. */
    method AddUser(u: User)
      requires Valid()
      requires u.id == nextId && ValidUser(u) && CartLines.OneLinePerKey(u.cart)
      requires forall i :: 0 <= i < |users| ==> users[i].email != u.email
      modifies this
      ensures Valid()
      ensures users == old(users) + [u] && nextId == old(nextId) + 1
      ensures orders == old(orders) && products == old(products)
    {
      Seqs.AppendKeepsDistinct(users, u, UserIdOf);
      Seqs.AppendKeepsDistinct(users, u, EmailOf);
      ghost var was := users;
      users := users + [u];
      nextId := nextId + 1;
      assert UserIds(was) <= UserIds(users) by {
        forall x | x in UserIds(was) ensures x in UserIds(users) {
          var k :| 0 <= k < |was| && was[k].id == x;
          assert users[k].id == x;
        }
      }
    }

    /** Inserts a new product under the next fresh document id. */
    method AddProduct(p: Product)
      requires Valid() && p.id == nextId
      modifies this
      ensures Valid()
      ensures products == old(products) + [p] && nextId == old(nextId) + 1
      ensures users == old(users) && orders == old(orders)
    {
      Seqs.AppendKeepsDistinct(products, p, ProductIdOf);
      products := products + [p];
      nextId := nextId + 1;
    }

    /** Saves a changed product document in place; its id stays. */
    method ReplaceProduct(i: nat, p: Product)
      requires Valid() && i < |products| && p.id == products[i].id
      modifies this
      ensures Valid()
      ensures products == old(products)[i := p]
      ensures users == old(users) && orders == old(orders) && nextId == old(nextId)
    {
      Seqs.ReplaceKeepsDistinct(products, i, p, ProductIdOf);
      products := products[i := p];
    }

    /** `Product.findByIdAndDelete(id)`. */
    method DeleteProduct(id: ProductId)
      requires Valid()
      modifies this
      ensures Valid()
      ensures products == Seqs.Filter(old(products), (p: Product) => p.id != id)
      ensures users == old(users) && orders == old(orders) && nextId == old(nextId)
    {
      Seqs.FilterKeepsDistinct(products, (p: Product) => p.id != id, ProductIdOf);
      products := Seqs.Filter(products, (p: Product) => p.id != id);
    }

    /** `Order.deleteMany({ user: id })` followed by `User.findByIdAndDelete(id)`. */
    method DeleteUserWithOrders(id: UserId)
      requires Valid()
      modifies this
      ensures Valid()
      ensures orders == OrdersNotOf(old(orders), id)
      ensures users == UsersOtherThan(old(users), id)
      ensures products == old(products) && nextId == old(nextId)
    {
      DropUserKeepsValid(users, orders, nextId, id);
      orders, users := OrdersNotOf(orders, id), UsersOtherThan(users, id);
    }
  }

  /** The users but the one with the id, in order. */
  function UsersOtherThan(users: seq<User>, id: UserId): (r: seq<User>)
    ensures forall i :: 0 <= i < |r| ==> r[i].id != id && r[i] in users
    ensures forall i :: 0 <= i < |users| && users[i].id != id ==> users[i] in r
  {
    Seqs.Filter(users, (u: User) => u.id != id)
  }

  /** The orders not placed by the user with the id, in order. */
  function OrdersNotOf(orders: seq<Order>, id: UserId): (r: seq<Order>)
    ensures forall i :: 0 <= i < |r| ==> r[i].user != id && r[i] in orders
    ensures forall i :: 0 <= i < |orders| && orders[i].user != id ==> orders[i] in r
  {
    Seqs.Filter(orders, (o: Order) => o.user != id)
  }

  /** Deleting a user together with their orders leaves no order pointing
      at a missing user, and keeps every schema and uniqueness invariant. */
  lemma DropUserKeepsValid(users: seq<User>, orders: seq<Order>, next: nat, id: UserId)
    requires UsersValid(users, next) && OrdersValid(orders, users, next)
    ensures UsersValid(UsersOtherThan(users, id), next)
    ensures OrdersValid(OrdersNotOf(orders, id), UsersOtherThan(users, id), next)
  {
    var keepUser := (u: User) => u.id != id;
    Seqs.FilterKeepsDistinct(users, keepUser, UserIdOf);
    Seqs.FilterKeepsDistinct(users, keepUser, EmailOf);
    DropOrdersKeepsValid(users, orders, next, id);
  }

  /** The orders left after dropping a user's orders all belong to users
      left after dropping that user. */
  lemma DropOrdersKeepsValid(users: seq<User>, orders: seq<Order>, next: nat, id: UserId)
    requires OrdersValid(orders, users, next)
    ensures OrdersValid(OrdersNotOf(orders, id), UsersOtherThan(users, id), next)
  {
    var keepOrder := (o: Order) => o.user != id;
    Seqs.FilterKeepsDistinct(orders, keepOrder, OrderKeyOf);
    Seqs.FilterKeepsDistinct(orders, keepOrder, OrderIdOf);
    var os := OrdersNotOf(orders, id);
    var us := UsersOtherThan(users, id);
    forall i | 0 <= i < |os| ensures os[i].user in UserIds(us) {
      var k :| 0 <= k < |users| && users[k].id == os[i].user;
      assert users[k] in us;
    }
  }

  /** `User.findById(id)`, as the position of the user. */
  function FindUser(users: seq<User>, id: UserId): (r: Option<nat>)
    ensures r.Some? ==> r.value < |users| && users[r.value].id == id
    ensures r.None? <==> forall i :: 0 <= i < |users| ==> users[i].id != id
  {
    Seqs.FirstIndex(users, (u: User) => u.id == id)
  }

  /** `User.findOne({ email })`. */
  function FindUserByEmail(users: seq<User>, email: string): (r: Option<nat>)
    ensures r.Some? ==> r.value < |users| && users[r.value].email == email
    ensures r.None? <==> forall i :: 0 <= i < |users| ==> users[i].email != email
  {
    Seqs.FirstIndex(users, (u: User) => u.email == email)
  }

  /** `Product.findById(id)`. */
  function FindProduct(products: seq<Product>, id: ProductId): (r: Option<nat>)
    ensures r.Some? ==> r.value < |products| && products[r.value].id == id
    ensures r.None? <==> forall i :: 0 <= i < |products| ==> products[i].id != id
  {
    Seqs.FirstIndex(products, (p: Product) => p.id == id)
  }

  /** `Order.findById(key)`. */
  function FindOrder(orders: seq<Order>, key: OrderKey): (r: Option<nat>)
    ensures r.Some? ==> r.value < |orders| && orders[r.value].key == key
    ensures r.None? <==> forall i :: 0 <= i < |orders| ==> orders[i].key != key
  {
    Seqs.FirstIndex(orders, (o: Order) => o.key == key)
  }

  /** `Order.findOne({ orderId })`. */
  function FindOrderById(orders: seq<Order>, orderId: string): (r: Option<nat>)
    ensures r.Some? ==> r.value < |orders| && orders[r.value].orderId == orderId
    ensures r.None? <==> forall i :: 0 <= i < |orders| ==> orders[i].orderId != orderId
  {
    Seqs.FirstIndex(orders, (o: Order) => o.orderId == orderId)
  }
}
