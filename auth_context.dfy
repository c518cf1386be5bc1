// The client's session: the signed-in user's profile, their orders, the
// loading flag of the start-up check and the stored token. Each server call
// is a parameter giving the server's answer, or None when it fails.

module AuthContext {
  import opened Wrappers
  import opened OrderModel
  import opened AuthController

  /** A partial profile: the fields given overwrite, the others are kept. */
  datatype ProfilePatch = ProfilePatch(
    id: Option<UserModel.UserId>, firstName: Option<string>, lastName: Option<string>,
    email: Option<string>, role: Option<string>)

  const NO_CHANGE := ProfilePatch(None, None, None, None, None)

  /** `{ ...user, ...data }`. */
  function Overlay(u: Profile, patch: ProfilePatch): Profile
  {
    Profile(GetOr(patch.id, u.id), GetOr(patch.firstName, u.firstName), GetOr(patch.lastName, u.lastName),
            GetOr(patch.email, u.email), GetOr(patch.role, u.role))
  }

  /** Two patches spread one after the other, as one patch. */
  function Then(first: ProfilePatch, second: ProfilePatch): ProfilePatch
  {
    ProfilePatch(
      if second.id.Some? then second.id else first.id,
      if second.firstName.Some? then second.firstName else first.firstName,
      if second.lastName.Some? then second.lastName else first.lastName,
      if second.email.Some? then second.email else first.email,
      if second.role.Some? then second.role else first.role)
  }

  /** A patch giving exactly the names changes the names and keeps the id,
      email and role; the empty patch changes nothing. */
  lemma OverlayKeepsUnpatched(u: Profile, firstName: string, lastName: string)
    ensures var r := Overlay(u, ProfilePatch(None, Some(firstName), Some(lastName), None, None));
      r.firstName == firstName && r.lastName == lastName && r.id == u.id && r.email == u.email && r.role == u.role
    ensures Overlay(u, NO_CHANGE) == u
  {
  }

  /** Applying the same patch twice is applying it once; applying two in
      turn is applying their spread. */
  lemma OverlayLaws(u: Profile, p: ProfilePatch, q: ProfilePatch)
    ensures Overlay(Overlay(u, p), p) == Overlay(u, p)
    ensures Overlay(Overlay(u, p), q) == Overlay(u, Then(p, q))
  {
  }

  class AuthState {
    var user: Option<Profile>
    var orders: seq<Order>
    var loading: bool
    /** The token kept in local storage. */
    var token: Option<string>

    /** Orders are only held for a signed-in user. */
    predicate Valid()
      reads this
    {
      user.None? ==> orders == []
    }

    predicate IsAuthenticated()
      reads this
    {
      user.Some?
    }

    constructor(stored: Option<string>)
      ensures user.None? && orders == [] && loading && token == stored
      ensures Valid()
    {
      user, orders, loading, token := None, [], true, stored;
    }

    /** `!token`: no stored token, or the empty string, which is falsy. */
    predicate HasToken()
      reads this
    {
      token.Some? && token.value != ""
    }

    /** The start-up check: with no stored token (or an empty one) nothing is requested;
        otherwise the profile the server returns is taken, and a failed
        check forgets the token. Loading ends on every path. */
    method Startup(me: Option<Profile>) returns (requested: bool)
      modifies this
      requires Valid()
      ensures Valid()
      ensures requested <==> old(HasToken())
      ensures !loading && orders == old(orders)
      ensures !requested ==> user == old(user) && token == old(token)
      ensures requested && me.Some? ==> user == me && token == old(token)
      ensures requested && me.None? ==> user == old(user) && token.None?
    {
      if !HasToken() {
        loading := false;
        return false;
      }
      requested := true;
      if me.Some? {
        user := me;
      } else {
        token := None;
      }
      loading := false;
    }

    /** The effect run whenever the user changes: the user's orders are
        fetched (an answer without orders, or a failure, gives none), and
        without a user the orders are emptied. */
    method SyncOrders(fetched: Option<seq<Order>>) returns (requested: bool)
      modifies this
      ensures Valid()
      ensures requested <==> user.Some?
      ensures orders == (if user.Some? then GetOr(fetched, []) else [])
      ensures user == old(user) && loading == old(loading) && token == old(token)
    {
      requested := user.Some?;
      if user.Some? {
        orders := GetOr(fetched, []);
      } else {
        orders := [];
      }
    }

    /** Login and signup: on success the token is stored and the user set;
        on failure the error goes back to the caller and nothing changes. */
    method SignIn(reply: Option<Session>) returns (thrown: bool)
      modifies this
      requires Valid()
      ensures Valid()
      ensures thrown <==> reply.None?
      ensures reply.Some? ==> user == Some(reply.value.user) && token == Some(reply.value.token)
      ensures reply.None? ==> user == old(user) && token == old(token)
      ensures orders == old(orders) && loading == old(loading)
    {
      if reply.None? {
        return true;
      }
      token := Some(reply.value.token);
      user := Some(reply.value.user);
      thrown := false;
    }

    method Logout()
      modifies this
      ensures Valid() && !IsAuthenticated()
      ensures token.None? && user.None? && orders == []
      ensures loading == old(loading)
    {
      token := None;
      user := None;
      orders := [];
    }

    /** Without a user nothing happens; otherwise the patch is overlaid. */
    method UpdateProfile(patch: ProfilePatch)
      modifies this
      requires Valid()
      ensures Valid()
      ensures user == (if old(user).Some? then Some(Overlay(old(user).value, patch)) else None)
      ensures IsAuthenticated() == old(IsAuthenticated())
      ensures orders == old(orders) && loading == old(loading) && token == old(token)
    {
      if user.Some? {
        user := Some(Overlay(user.value, patch));
      }
    }

    /** Posting an order, then refetching the list: a failed post throws and
        changes nothing; after a successful one the list is the refetched
        one (or none, if that fetch fails) and the new order's id is
        returned whether or not the refetch worked. The server answers 401 to
        a post without a login, so no order is created while signed out. */
    method AddOrder(created: Option<Order>, fetched: Option<seq<Order>>)
      returns (thrown: bool, orderId: string)
      requires Valid()
      requires user.None? ==> created.None?
      modifies this
      ensures Valid()
      ensures thrown <==> created.None?
      ensures created.Some? ==> orderId == created.value.orderId && orders == GetOr(fetched, [])
      ensures created.None? ==> orders == old(orders)
      ensures user == old(user) && loading == old(loading) && token == old(token)
    {
      if created.None? {
        return true, "";
      }
      orders := GetOr(fetched, []);
      thrown, orderId := false, created.value.orderId;
    }
  }
}
