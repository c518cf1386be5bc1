// The admin user page: the search over the user list, each user's orders,
// the role toggle and the delete action offered per row.

module AdminUsers {
  import opened Wrappers
  import opened Text
  import opened UserModel
  import opened AdminController
  import AdminContext
  import Seqs

  /** The search test: email, first name or last name contains the query. */
  predicate Matches(u: PublicUser, query: string)
  {
    IncludesIgnoringCase(u.email, query) || IncludesIgnoringCase(u.firstName, query)
    || IncludesIgnoringCase(u.lastName, query)
  }

  /** `filteredUsers`: the matching users, in list order. */
  function SearchUsers(users: seq<PublicUser>, query: string): (r: seq<PublicUser>)
    ensures forall i :: 0 <= i < |r| ==> Matches(r[i], query)
    ensures forall i :: 0 <= i < |users| && Matches(users[i], query) ==> users[i] in r
  {
    Seqs.Filter(users, (u: PublicUser) => Matches(u, query))
  }

  /** An empty search box lists every user. */
  lemma EmptySearchKeepsAll(users: seq<PublicUser>)
    ensures SearchUsers(users, "") == users
  {
    forall i | 0 <= i < |users| ensures Matches(users[i], "") {
      EmptyQueryMatches(users[i].email);
    }
    Seqs.FilterAll(users, (u: PublicUser) => Matches(u, ""));
  }

  /** `o.user?._id || ''`: the owner's id, None standing for the empty
      string an ownerless order gets (no user id is empty). */
  function OwnerId(o: AdminContext.AdminOrder): Option<UserId>
  {
    if o.user.Some? then Some(o.user.value.id) else None
  }

  predicate OwnedBy(o: AdminContext.AdminOrder, id: UserId)
  {
    OwnerId(o) == Some(id)
  }

  /** `getUserOrders`: the orders whose owner is the user, in list order. */
  function UserOrders(orders: seq<AdminContext.AdminOrder>, id: UserId): (r: seq<AdminContext.AdminOrder>)
    ensures forall i :: 0 <= i < |r| ==> r[i].user.Some? && r[i].user.value.id == id
    ensures forall i :: 0 <= i < |orders| && orders[i].user.Some? && orders[i].user.value.id == id ==> orders[i] in r
  {
    Seqs.Filter(orders, (o: AdminContext.AdminOrder) => OwnedBy(o, id))
  }

  /** An order whose owner was deleted is listed under no user. */
  lemma OwnerlessInNoList(orders: seq<AdminContext.AdminOrder>, i: nat, id: UserId)
    requires i < |orders| && orders[i].user.None?
    ensures orders[i] !in UserOrders(orders, id)
  {
  }

  /** The detail view's "Recent Orders": at most five, the first five of the
      user's orders in list order. */
  function RecentOrders(orders: seq<AdminContext.AdminOrder>, id: UserId): (r: seq<AdminContext.AdminOrder>)
    ensures |r| <= 5
    ensures r <= UserOrders(orders, id)
    ensures |UserOrders(orders, id)| <= 5 ==> r == UserOrders(orders, id)
  {
    Seqs.Take(UserOrders(orders, id), 5)
  }

  /** `handleRoleToggle`: an admin becomes a user, anyone else an admin. */
  function ToggledRole(role: string): (r: string)
    ensures IsRole(r)
    ensures IsRole(role) ==> r != role
  {
    if role == ROLE_ADMIN then ROLE_USER else ROLE_ADMIN
  }

  /** Toggling twice gives a valid role back. */
  lemma ToggleTwice(role: string)
    requires IsRole(role)
    ensures ToggledRole(ToggledRole(role)) == role
  {
  }

  /** The delete button is rendered only for non-admins. */
  predicate DeleteOffered(u: PublicUser)
  {
    u.role != ROLE_ADMIN
  }

  /** Deleting through the offered button never removes an administrator
      from the list: only users with the deleted id go, and that user is
      not an admin. */
  lemma {:induction false} OfferedDeleteKeepsAdmins(users: seq<PublicUser>, u: PublicUser)
    requires DeleteOffered(u)
    requires Seqs.DistinctBy(users, (v: PublicUser) => v.id)
    requires u in users
    ensures forall i :: 0 <= i < |users| && users[i].role == ROLE_ADMIN ==> users[i] in AdminContext.DropUser(users, u.id)
  {
    forall i | 0 <= i < |users| && users[i].role == ROLE_ADMIN
      ensures users[i] in AdminContext.DropUser(users, u.id)
    {
      var k :| 0 <= k < |users| && users[k] == u;
      assert users[i] != u;
      assert i != k;
      assert ((v: PublicUser) => v.id)(users[i]) != ((v: PublicUser) => v.id)(users[k]);
    }
  }
}
