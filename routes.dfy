// The route tables of the five API routers and how a request is dispatched
// through them: the router-level guards run first (`router.use`), then the
// first route of the request's verb whose pattern fits the path, then that
// route's own guards in order, and finally its handler.

module Routes {
  import opened Wrappers
  import opened UserModel
  import opened AuthMiddleware

  datatype Verb = GET | POST | PUT | PATCH | DELETE

  /** A pattern segment: a literal, or a `:name` parameter. */
  datatype Segment = Lit(text: string) | Param(name: string)

  /** The two middlewares a route can be guarded by. */
  datatype Guard = Protected | AdminOnly

  datatype Handler =
    | Register | Login | GetMe | UpdateProfile | ChangePassword | DeleteAccount
    | GetCart | AddToCart | UpdateCartItem | RemoveFromCart | ClearCart
    | ListProducts | GetProduct | CreateProduct | UpdateProduct | DeleteProduct
    | CreateOrder | CreateRazorpayOrder | GetOrders | GetOrder | ConfirmPayment | UpdateOrderStatus
    | DashboardStats | AllUsers | AllOrders | AllProducts | UpdateUserRole | DeleteUser

  datatype Route = Route(verb: Verb, pattern: seq<Segment>, guards: seq<Guard>, handler: Handler)

  /** A router: the guards of `router.use`, then its routes in registration order. */
  datatype Router = Router(use: seq<Guard>, routes: seq<Route>)

  /** What becomes of a request: no route of this router, a guard's reply,
      or the handler with the path parameters and the request user. */
  datatype Outcome =
    | NoRoute
    | Refused(status: nat, message: string)
    | Handled(handler: Handler, params: map<string, string>, user: Option<RequestUser>)

  /** Does the handler change the store? (Reads of carts and orders, and
      the listings, do not.) */
  predicate Mutates(h: Handler)
  {
    !(h.GetMe? || h.GetCart? || h.ListProducts? || h.GetProduct? || h.GetOrders? || h.GetOrder?
      || h.DashboardStats? || h.AllUsers? || h.AllOrders? || h.AllProducts? || h.CreateRazorpayOrder?)
  }

  predicate SegmentFits(s: Segment, part: string)
  {
    match s
    case Lit(text) => part == text
    case Param(_) => part != ""
  }

  /** A path (its non-root parts) fits a pattern segment by segment. */
  predicate Fits(pattern: seq<Segment>, path: seq<string>)
  {
    |pattern| == |path| && forall i :: 0 <= i < |path| ==> SegmentFits(pattern[i], path[i])
  }

  /** The parameters a fitting path binds. */
  function Params(pattern: seq<Segment>, path: seq<string>): (r: map<string, string>)
    requires |pattern| == |path|
    ensures forall i :: 0 <= i < |pattern| && pattern[i].Param? ==> pattern[i].name in r
    ensures forall k :: k in r ==> exists i :: 0 <= i < |pattern| && pattern[i] == Param(k)
  {
    if pattern == [] then map[]
    else
      var rest := Params(pattern[1..], path[1..]);
      assert forall i :: 1 <= i < |pattern| ==> pattern[1..][i - 1] == pattern[i];
      if pattern[0].Param? then map[pattern[0].name := path[0]] + rest else rest
  }

  predicate Matches(route: Route, verb: Verb, path: seq<string>)
  {
    route.verb == verb && Fits(route.pattern, path)
  }

  /** The first route, in registration order, that the request matches. */
  function FirstMatch(routes: seq<Route>, verb: Verb, path: seq<string>): (r: Option<nat>)
    ensures r.Some? ==> r.value < |routes| && Matches(routes[r.value], verb, path)
    ensures r.Some? ==> forall j :: 0 <= j < r.value ==> !Matches(routes[j], verb, path)
    ensures r.None? <==> forall j :: 0 <= j < |routes| ==> !Matches(routes[j], verb, path)
  {
    if routes == [] then None
    else if Matches(routes[0], verb, path) then Some(0)
    else
      var rest := FirstMatch(routes[1..], verb, path);
      assert forall j :: 1 <= j < |routes| ==> routes[1..][j - 1] == routes[j];
      if rest.Some? then Some(rest.value + 1) else None
  }

  /** The first match is route i when route i matches and no earlier one does. */
  lemma {:induction false} FirstMatchIs(routes: seq<Route>, verb: Verb, path: seq<string>, i: nat)
    requires i < |routes| && Matches(routes[i], verb, path)
    requires forall j :: 0 <= j < i ==> !Matches(routes[j], verb, path)
    ensures FirstMatch(routes, verb, path) == Some(i)
  {
    if i > 0 {
      assert forall j :: 0 <= j < i - 1 ==> routes[1..][j] == routes[j + 1];
      FirstMatchIs(routes[1..], verb, path, i - 1);
    }
  }

  /** The result of a chain of guards: through with the request user so
      far, or stopped with a reply. */
  datatype Passage = Through(user: Option<RequestUser>) | Stopped(status: nat, message: string)

  /** One guard on the request: `protect` or `admin`. */
  function GuardStep(g: Guard, user: Option<RequestUser>, header: Option<string>,
                     verify: string -> Option<UserId>, users: seq<User>): (r: Gate)
    ensures r.Refuse? ==> r.status == (if g.Protected? then UNAUTHORIZED else FORBIDDEN)
    ensures g.AdminOnly? && r.Pass? ==> r.user.role == ROLE_ADMIN && user == Some(r.user)
  {
    match g
    case Protected => Protect(header, verify, users)
    case AdminOnly => AdminGate(user)
  }

  /** Run guards in order; each `protect` replaces the request user, each
      `admin` checks the one attached. */
  function RunGuards(guards: seq<Guard>, user: Option<RequestUser>, header: Option<string>,
                     verify: string -> Option<UserId>, users: seq<User>): (r: Passage)
    ensures guards == [] ==> r == Through(user)
    ensures r.Stopped? ==> r.status == UNAUTHORIZED || r.status == FORBIDDEN
    ensures r.Through? && guards != [] && guards[|guards| - 1] == AdminOnly ==>
      r.user.Some? && r.user.value.role == ROLE_ADMIN
  {
    if guards == [] then Through(user)
    else
      match GuardStep(guards[0], user, header, verify, users)
      case Refuse(status, message) => Stopped(status, message)
      case Pass(u) =>
        assert guards[1..] != [] ==> guards[1..][|guards[1..]| - 1] == guards[|guards| - 1];
        RunGuards(guards[1..], Some(u), header, verify, users)
  }

  /** `protect` alone. */
  lemma RunProtected(user: Option<RequestUser>, header: Option<string>,
                     verify: string -> Option<UserId>, users: seq<User>)
    ensures Protect(header, verify, users).Pass? ==>
      RunGuards([Protected], user, header, verify, users) == Through(Some(Protect(header, verify, users).user))
    ensures Protect(header, verify, users).Refuse? ==>
      RunGuards([Protected], user, header, verify, users)
        == Stopped(Protect(header, verify, users).status, Protect(header, verify, users).message)
  {
    assert [Protected][1..] == [];
  }

  /** `protect` then `admin`: through exactly for an authenticated
      administrator, stopped by the first guard that refuses. */
  lemma RunProtectedAdmin(user: Option<RequestUser>, header: Option<string>,
                          verify: string -> Option<UserId>, users: seq<User>)
    ensures Protect(header, verify, users).Refuse? ==>
      RunGuards([Protected, AdminOnly], user, header, verify, users)
        == Stopped(Protect(header, verify, users).status, Protect(header, verify, users).message)
    ensures Protect(header, verify, users).Pass? && Protect(header, verify, users).user.role != ROLE_ADMIN ==>
      RunGuards([Protected, AdminOnly], user, header, verify, users) == Stopped(FORBIDDEN, "Admin access required")
    ensures Protect(header, verify, users).Pass? && Protect(header, verify, users).user.role == ROLE_ADMIN ==>
      RunGuards([Protected, AdminOnly], user, header, verify, users) == Through(Some(Protect(header, verify, users).user))
  {
    var g := [Protected, AdminOnly];
    assert g[1..] == [AdminOnly] && g[1..][1..] == [];
  }

  /** A request through a router. */
  function Handle(router: Router, verb: Verb, path: seq<string>, header: Option<string>,
                  verify: string -> Option<UserId>, users: seq<User>): (r: Outcome)
    ensures r.Handled? ==> exists i :: 0 <= i < |router.routes| && Matches(router.routes[i], verb, path)
                                      && router.routes[i].handler == r.handler
    ensures r.NoRoute? ==> forall i :: 0 <= i < |router.routes| ==> !Matches(router.routes[i], verb, path)
  {
    match RunGuards(router.use, None, header, verify, users)
    case Stopped(status, message) => Refused(status, message)
    case Through(user) =>
      match FirstMatch(router.routes, verb, path)
      case None => NoRoute
      case Some(i) =>
        var route := router.routes[i];
        match RunGuards(route.guards, user, header, verify, users)
        case Stopped(status, message) => Refused(status, message)
        case Through(u) => Handled(route.handler, Params(route.pattern, path), u)
  }

  // ---- the tables ----

  function AuthRoutes(): Router
  {
    Router([], [
      Route(POST, [Lit("register")], [], Register),
      Route(POST, [Lit("login")], [], Login),
      Route(GET, [Lit("me")], [Protected], GetMe),
      Route(PATCH, [Lit("update-profile")], [Protected], UpdateProfile),
      Route(PATCH, [Lit("change-password")], [Protected], ChangePassword),
      Route(DELETE, [Lit("delete-account")], [Protected], DeleteAccount)])
  }

  function CartRoutes(): Router
  {
    Router([Protected], [
      Route(GET, [], [], GetCart),
      Route(POST, [], [], AddToCart),
      Route(PUT, [Param("productId")], [], UpdateCartItem),
      Route(DELETE, [Param("productId")], [], RemoveFromCart),
      Route(DELETE, [], [], ClearCart)])
  }

  function ProductRoutes(): Router
  {
    Router([], [
      Route(GET, [], [], ListProducts),
      Route(GET, [Param("id")], [], GetProduct),
      Route(POST, [], [Protected, AdminOnly], CreateProduct),
      Route(PUT, [Param("id")], [Protected, AdminOnly], UpdateProduct),
      Route(DELETE, [Param("id")], [Protected, AdminOnly], DeleteProduct)])
  }

  function OrderRoutes(): Router
  {
    Router([], [
      Route(POST, [], [Protected], CreateOrder),
      Route(POST, [Lit("create-razorpay")], [Protected], CreateRazorpayOrder),
      Route(GET, [], [Protected], GetOrders),
      Route(GET, [Param("id")], [Protected], GetOrder),
      Route(PATCH, [Param("id"), Lit("payment")], [Protected], ConfirmPayment),
      Route(PATCH, [Param("orderId"), Lit("status")], [Protected, AdminOnly], UpdateOrderStatus)])
  }

  function AdminRoutes(): Router
  {
    Router([Protected, AdminOnly], [
      Route(GET, [Lit("stats")], [], DashboardStats),
      Route(GET, [Lit("users")], [], AllUsers),
      Route(GET, [Lit("orders")], [], AllOrders),
      Route(GET, [Lit("products")], [], AllProducts),
      Route(PATCH, [Lit("users"), Param("id"), Lit("role")], [], UpdateUserRole),
      Route(DELETE, [Lit("users"), Param("id")], [], DeleteUser)])
  }

  // ---- access properties ----

  /** Every request to the admin router, whatever its path, is
      authenticated first and then needs the admin role: a failed
      `protect` answers with its own 401, a non-admin gets 403, and a
      handler only ever runs for an administrator. */
  lemma AdminRouterNeedsAdmin(verb: Verb, path: seq<string>, header: Option<string>,
                              verify: string -> Option<UserId>, users: seq<User>)
    ensures Protect(header, verify, users).Refuse? ==>
      Handle(AdminRoutes(), verb, path, header, verify, users)
        == Refused(Protect(header, verify, users).status, Protect(header, verify, users).message)
    ensures Protect(header, verify, users).Pass? && Protect(header, verify, users).user.role != ROLE_ADMIN ==>
      Handle(AdminRoutes(), verb, path, header, verify, users) == Refused(FORBIDDEN, "Admin access required")
    ensures Handle(AdminRoutes(), verb, path, header, verify, users).Handled? ==>
      && Protect(header, verify, users).Pass?
      && Protect(header, verify, users).user.role == ROLE_ADMIN
      && Handle(AdminRoutes(), verb, path, header, verify, users).user == Some(Protect(header, verify, users).user)
  {
    RunProtectedAdmin(None, header, verify, users);
    HandleUnguardedRoutes(AdminRoutes(), verb, path, header, verify, users);
  }

  /** A router whose routes carry no guards of their own answers with its
      own guards' refusal, and otherwise hands their user to the handler. */
  lemma HandleUnguardedRoutes(router: Router, verb: Verb, path: seq<string>, header: Option<string>,
                              verify: string -> Option<UserId>, users: seq<User>)
    requires forall i :: 0 <= i < |router.routes| ==> router.routes[i].guards == []
    ensures RunGuards(router.use, None, header, verify, users).Stopped? ==>
      Handle(router, verb, path, header, verify, users)
        == Refused(RunGuards(router.use, None, header, verify, users).status,
                   RunGuards(router.use, None, header, verify, users).message)
    ensures RunGuards(router.use, None, header, verify, users).Through? ==>
      !Handle(router, verb, path, header, verify, users).Refused?
    ensures Handle(router, verb, path, header, verify, users).Handled? ==>
      Handle(router, verb, path, header, verify, users).user == RunGuards(router.use, None, header, verify, users).user
  {
  }

  /** The four listings are the admin router's only GETs and change
      nothing; the role change and the user deletion are its only other
      routes, and both change the store. */
  lemma AdminRouteKinds()
    ensures forall i :: 0 <= i < |AdminRoutes().routes| ==>
      (AdminRoutes().routes[i].verb == GET <==> !Mutates(AdminRoutes().routes[i].handler))
    ensures forall i :: 0 <= i < |AdminRoutes().routes| && Mutates(AdminRoutes().routes[i].handler) ==>
      AdminRoutes().routes[i].handler == UpdateUserRole || AdminRoutes().routes[i].handler == DeleteUser
  {
  }

  /** The product listing and the product detail are answered whatever the
      Authorization header, with no request user. */
  lemma ProductReadsArePublic(id: string, header: Option<string>,
                              verify: string -> Option<UserId>, users: seq<User>)
    requires id != ""
    ensures Handle(ProductRoutes(), GET, [], header, verify, users) == Handled(ListProducts, map[], None)
    ensures Handle(ProductRoutes(), GET, [id], header, verify, users) == Handled(GetProduct, map["id" := id], None)
  {
    var routes := ProductRoutes().routes;
    FirstMatchIs(routes, GET, [], 0);
    assert !Matches(routes[0], GET, [id]);
    FirstMatchIs(routes, GET, [id], 1);
    assert Params([Param("id")], [id]) == map["id" := id];
  }

  /** Creating, updating and deleting a product run only for an
      authenticated administrator; for one, a create reaches its handler. */
  lemma ProductWritesNeedAdmin(verb: Verb, path: seq<string>, header: Option<string>,
                               verify: string -> Option<UserId>, users: seq<User>)
    requires verb != GET
    ensures Handle(ProductRoutes(), verb, path, header, verify, users).Handled? ==>
      Protect(header, verify, users).Pass? && Protect(header, verify, users).user.role == ROLE_ADMIN
    ensures Protect(header, verify, users).Pass? && Protect(header, verify, users).user.role == ROLE_ADMIN ==>
      Handle(ProductRoutes(), POST, [], header, verify, users) == Handled(CreateProduct, map[], Some(Protect(header, verify, users).user))
  {
    var routes := ProductRoutes().routes;
    RunProtectedAdmin(None, header, verify, users);
    var m := FirstMatch(routes, verb, path);
    if m.Some? {
      assert routes[m.value].guards == [Protected, AdminOnly];
    }
    FirstMatchIs(routes, POST, [], 2);
  }

  /** Registration and login are answered without a token. */
  lemma AccountEntryIsPublic(header: Option<string>, verify: string -> Option<UserId>, users: seq<User>)
    ensures Handle(AuthRoutes(), POST, ["register"], header, verify, users) == Handled(Register, map[], None)
    ensures Handle(AuthRoutes(), POST, ["login"], header, verify, users) == Handled(Login, map[], None)
  {
    var routes := AuthRoutes().routes;
    FirstMatchIs(routes, POST, ["register"], 0);
    HandleOpenRoute(AuthRoutes(), POST, ["register"], header, verify, users, 0);
    assert "login"[0] != "register"[0];
    assert !SegmentFits(routes[0].pattern[0], ["login"][0]);
    FirstMatchIs(routes, POST, ["login"], 1);
    HandleOpenRoute(AuthRoutes(), POST, ["login"], header, verify, users, 1);
  }

  /** A request to an unguarded route of an unguarded router reaches its
      handler, with no request user. */
  lemma HandleOpenRoute(router: Router, verb: Verb, path: seq<string>, header: Option<string>,
                        verify: string -> Option<UserId>, users: seq<User>, i: nat)
    requires router.use == [] && i < |router.routes| && router.routes[i].guards == []
    requires FirstMatch(router.routes, verb, path) == Some(i)
    ensures Handle(router, verb, path, header, verify, users)
         == Handled(router.routes[i].handler, Params(router.routes[i].pattern, path), None)
  {
  }

  /** No account route needs the admin role: any authenticated user,
      whatever their role, reaches the handler of the route they ask for;
      beyond registration and login a failed `protect` answers its own 401. */
  lemma AccountRoutesNeedOnlyToken(verb: Verb, path: seq<string>, header: Option<string>,
                                   verify: string -> Option<UserId>, users: seq<User>)
    requires FirstMatch(AuthRoutes().routes, verb, path).Some?
    ensures forall i :: 0 <= i < |AuthRoutes().routes| ==> AdminOnly !in AuthRoutes().routes[i].guards
    ensures Protect(header, verify, users).Pass? ==>
      Handle(AuthRoutes(), verb, path, header, verify, users).Handled?
    ensures FirstMatch(AuthRoutes().routes, verb, path).value >= 2 && Protect(header, verify, users).Refuse? ==>
      Handle(AuthRoutes(), verb, path, header, verify, users)
        == Refused(Protect(header, verify, users).status, Protect(header, verify, users).message)
  {
    RunProtected(None, header, verify, users);
    var i := FirstMatch(AuthRoutes().routes, verb, path).value;
    assert AuthRoutes().routes[i].guards == (if i < 2 then [] else [Protected]);
  }

  /** Every cart request, matched or not, is refused when `protect` fails,
      and a handler runs with exactly the authenticated user. */
  lemma CartNeedsToken(verb: Verb, path: seq<string>, header: Option<string>,
                       verify: string -> Option<UserId>, users: seq<User>)
    ensures Protect(header, verify, users).Refuse? ==>
      Handle(CartRoutes(), verb, path, header, verify, users)
        == Refused(Protect(header, verify, users).status, Protect(header, verify, users).message)
    ensures Handle(CartRoutes(), verb, path, header, verify, users).Handled? ==>
      Protect(header, verify, users).Pass?
      && Handle(CartRoutes(), verb, path, header, verify, users).user == Some(Protect(header, verify, users).user)
  {
    RunProtected(None, header, verify, users);
  }

  /** The cart requests on the root, for an authenticated user: GET reads,
      POST adds, DELETE clears. */
  lemma CartRootDispatch(header: Option<string>, verify: string -> Option<UserId>, users: seq<User>)
    requires Protect(header, verify, users).Pass?
    ensures var u := Some(Protect(header, verify, users).user);
      && Handle(CartRoutes(), GET, [], header, verify, users) == Handled(GetCart, map[], u)
      && Handle(CartRoutes(), POST, [], header, verify, users) == Handled(AddToCart, map[], u)
      && Handle(CartRoutes(), DELETE, [], header, verify, users) == Handled(ClearCart, map[], u)
  {
    var routes := CartRoutes().routes;
    RunProtected(None, header, verify, users);
    FirstMatchIs(routes, GET, [], 0);
    FirstMatchIs(routes, POST, [], 1);
    assert !Matches(routes[3], DELETE, []);
    FirstMatchIs(routes, DELETE, [], 4);
  }

  /** The cart requests on a product id, for an authenticated user: PUT
      updates that line, DELETE removes it (and does not clear the cart). */
  lemma CartLineDispatch(productId: string, header: Option<string>,
                         verify: string -> Option<UserId>, users: seq<User>)
    requires productId != ""
    requires Protect(header, verify, users).Pass?
    ensures var u := Some(Protect(header, verify, users).user);
      && Handle(CartRoutes(), PUT, [productId], header, verify, users)
           == Handled(UpdateCartItem, map["productId" := productId], u)
      && Handle(CartRoutes(), DELETE, [productId], header, verify, users)
           == Handled(RemoveFromCart, map["productId" := productId], u)
  {
    var routes := CartRoutes().routes;
    RunProtected(None, header, verify, users);
    FirstMatchIs(routes, PUT, [productId], 2);
    FirstMatchIs(routes, DELETE, [productId], 3);
    assert Params([Param("productId")], [productId]) == map["productId" := productId];
  }

  /** Every order route carries `protect` first; the status route alone
      also needs the admin role. */
  lemma OrderRoutesGuards()
    ensures forall i :: 0 <= i < |OrderRoutes().routes| ==>
      |OrderRoutes().routes[i].guards| >= 1 && OrderRoutes().routes[i].guards[0] == Protected
    ensures forall i :: 0 <= i < |OrderRoutes().routes| ==>
      (AdminOnly in OrderRoutes().routes[i].guards <==> OrderRoutes().routes[i].handler == UpdateOrderStatus)
  {
  }

  /** A status change reaches its handler only for an administrator; a
      payment confirmation for any authenticated user. */
  lemma OrderStatusNeedsAdmin(id: string, header: Option<string>,
                              verify: string -> Option<UserId>, users: seq<User>)
    requires id != ""
    ensures Handle(OrderRoutes(), PATCH, [id, "status"], header, verify, users).Handled? <==>
      Protect(header, verify, users).Pass? && Protect(header, verify, users).user.role == ROLE_ADMIN
    ensures Handle(OrderRoutes(), PATCH, [id, "payment"], header, verify, users).Handled? <==>
      Protect(header, verify, users).Pass?
  {
    var routes := OrderRoutes().routes;
    RunProtected(None, header, verify, users);
    RunProtectedAdmin(None, header, verify, users);
    FirstMatchIs(routes, PATCH, [id, "payment"], 4);
    assert !SegmentFits(routes[4].pattern[1], "status");
    FirstMatchIs(routes, PATCH, [id, "status"], 5);
  }
}
