# Aureon storefront — a verified model of its core

Aureon is a shoe storefront. It has an Express/Mongoose backend (accounts, a catalogue, carts, orders, an
admin area) and a React client (state contexts and pages). This project models, in Dafny, the parts of
both that make decisions:

- **Backend controllers:**
  - the cart line list, updated in place;
  - order creation with a server-side total, the payment-order amount check, per-user order reads,
    the admin status change and payment confirmation;
  - registration, login, password change, profile update and account deletion;
  - the catalogue filter and its create/read/update/delete outcomes;
  - the admin dashboard figures, the role change and the user deletion that cascades to orders.
- **Middleware and routing:** bearer-token extraction and `protect`, the `admin` gate, the zod issue-to-field
  map of `validate`, the request schemas, and the five routers as tables whose guards run in order.
- **Records:** users (setters, validators, the password hook), orders (status enum) and products
  (required fields and defaults). The database is a class `Store.Db` whose invariant holds what the
  schemas and unique indexes demand.
- **Client:**
  - the cart, product, admin and auth contexts as classes whose methods replace their state after a
    server reply;
  - the Shop filter/sort pipeline and its URL-parameter toggle;
  - the admin list filters and the product form's split/trim parsing (with the round trip through the
    edit dialog);
  - the product page's stepper and add-to-cart guards;
  - the cart summary;
  - the checkout's payment sequence.

The server's replies are a `Reply` datatype: `Done(status, body)` or `Respond(status, message)`. Every
database operation is a method on `Store.Db` that keeps `Db.Valid()`. A client call to the server is
a parameter giving the reply, or `None` when the request fails. Money is `real`. Identifiers are
naturals handed out by the store's counter.

Where the code and its documentation disagree, the model follows the code:

- The admin role change does not enforce the role enum (see Findings).
- The order listings sort on a `createdAt` that orders do not have (see Findings).
- The checkout pays the client's total with shipping and tax. The stored order total is the bare
  catalogue subtotal.
- The request schemas exist, but no shown route applies `validate` with them. They are modelled on
  their own.

## Model

| member | source | states |
|---|---|---|
| CartLines.Find | backend/src/controllers/cart.controller.ts:30-32 | the index found is the first line with that product and size; None exactly when no line has both |
| CartLines.FindUnique | backend/src/controllers/cart.controller.ts:30-32 | with one line per (product, size), the line that matches is the one found |
| CartLines.AddMerges | backend/src/controllers/cart.controller.ts:30-35 | adding an existing (product, size) raises that line's quantity by the amount added, keeps the length and every other line |
| CartLines.AddAppends | backend/src/controllers/cart.controller.ts:36-38 | adding a (product, size) with no line appends exactly one line at the end |
| CartLines.AddKeepsOneLinePerKey | backend/src/controllers/cart.controller.ts:30-38 | add keeps at most one line per (product, size) |
| CartLines.AddTotal | backend/src/controllers/cart.controller.ts:30-38 | add raises the total quantity by exactly the amount added, merged or appended |
| CartLines.TotalAppend | backend/src/controllers/cart.controller.ts:36-38 | an appended line adds its quantity to the total |
| CartLines.TotalReplace | backend/src/controllers/cart.controller.ts:34-35 | replacing a line changes the total by the difference of the two quantities |
| CartLines.SetQuantityOnlyThatLine | backend/src/controllers/cart.controller.ts:61-67 | setting a quantity replaces it (not adds), keeps the line's key and every other line, and keeps one line per key |
| CartLines.RemoveDropsExactlyMatches | backend/src/controllers/cart.controller.ts:86-88 | after a remove no line matches, every non-matching line is still there, and nothing new appears |
| CartLines.RemoveAbsent | backend/src/controllers/cart.controller.ts:86-88 | removing a (product, size) that has no line leaves the cart as it was |
| CartLines.RemoveKeepsOneLinePerKey | backend/src/controllers/cart.controller.ts:86-88 | removal keeps at most one line per key |
| CartLines.RemoveKeepsCartValid | backend/src/models/User.model.ts:61-67 | removal keeps every quantity at least 1 |
| CartController.FindLineIndex | backend/src/controllers/cart.controller.ts:30-32 | the `findIndex` loop returns -1 exactly when no line matches, else the first match |
| CartController.GetCart | backend/src/controllers/cart.controller.ts:7-17 | 404 "User not found" for an unknown user, else the stored cart |
| CartController.MergeLine | backend/src/controllers/cart.controller.ts:30-38 | the in-place merge or push leaves the cart that `CartLines.Add` describes |
| CartController.AddToCart | backend/src/controllers/cart.controller.ts:19-47 | missing product 404, out of stock 400, unknown user 404, each with no change; otherwise only that user's cart changes, to the cart with the line merged or appended (quantity defaulting to 1), and the store stays valid |
| CartController.RemoveFromCart | backend/src/controllers/cart.controller.ts:78-98 | unknown user 404; otherwise every line of that (product, size) is dropped, the rest kept in order, and an absent line is a successful no-op |
| CartController.UpdateCartItem | backend/src/controllers/cart.controller.ts:49-76 | a quantity of 0 or less acts exactly as removal; an unknown user 404; a (product, size) not in the cart 404 "Item not in cart" with no change; otherwise only that line's quantity is set |
| CartController.ClearCart | backend/src/controllers/cart.controller.ts:100-113 | unknown user 404; otherwise the cart is empty and the reply is the empty cart |
| UserModel.PreSave | backend/src/models/User.model.ts:73-77 | the hook hashes the password exactly when it was modified and leaves it alone otherwise |
| UserModel.SavedPasswordMatches | backend/src/models/User.model.ts:73-84 | after assigning and saving a password, `comparePassword` accepts that text and no other |
| UserModel.UnmodifiedSaveKeepsPassword | backend/src/models/User.model.ts:73-77 | a save that does not touch the password changes no comparison |
| UserModel.RehashLocksOut | backend/src/models/User.model.ts:73-77 | hashing twice would refuse every candidate: what the `isModified` test prevents |
| UserModel.SetName | backend/src/models/User.model.ts:28-39 | the name setter yields a trimmed string no longer than its input |
| UserModel.SetEmail | backend/src/models/User.model.ts:40-47 | the email setter yields a trimmed string |
| UserModel.CreateUser | backend/src/models/User.model.ts:26-70 | creation succeeds exactly when the trimmed names are nonempty and at most 50 long, the lower-cased trimmed email matches the pattern and the password has 6 or more characters; the user created is valid, has role "user", an empty cart, no last login, the set email and a password that compares equal |
| UserModel.LowerTrimmedValid | backend/src/models/User.model.ts:40-47 | the email as set is already lower case, so the schema's `lowercase` holds |
| OrderModel.ParseStatus | backend/src/models/Order.model.ts:20-24 | a name is read to a status only when that status prints as the name |
| OrderModel.ParseStatusName | backend/src/models/Order.model.ts:20-24 | each of the five statuses is read back from its name |
| ProductModel.CreateProduct | backend/src/models/Product.model.ts:6-21 | creation succeeds exactly when name, description, price, image, category and brand are given (texts nonempty); given fields are stored, absent ones take the defaults inStock true, isNew and isFeatured false, stockQuantity and rating 0, empty lists |
| ProductModel.ApplyUpdate | backend/src/controllers/product.controller.ts:43 | every field given in the body replaces the stored one, every absent field keeps its stored value, and the id never changes; an original price can be set but not removed |
| ProductModel.UpdateWithNothing | backend/src/controllers/product.controller.ts:43 | an empty body changes nothing |
| ProductModel.UpdateIdempotent | backend/src/controllers/product.controller.ts:43 | sending the same body twice is sending it once |
| ProductModel.UpdateWithOwnBody | backend/src/models/Product.model.ts:6-21 | updating a created product with its own creation body gives it back unchanged |
| Store.Db.constructor | backend/src/models/User.model.ts:26-70 | the empty database satisfies the invariant |
| Store.Db.ReplaceUser | backend/src/models/User.model.ts:26-70 | saving a valid user with unchanged id and email replaces exactly that user and keeps the invariant |
| Store.Db.AddOrder | backend/src/models/Order.model.ts:1-25 | inserting a valid order of a stored user with a new `orderId` appends it under a fresh key and keeps ids unique |
| Store.Db.ReplaceOrder | backend/src/models/Order.model.ts:1-25 | saving a changed order with the same key, orderId and owner replaces exactly that order |
| Store.Db.AddUser | backend/src/models/User.model.ts:40-47 | inserting a valid user with an email not yet held appends it under a fresh id, keeping emails unique |
| Store.Db.AddProduct | backend/src/models/Product.model.ts:1-26 | inserting a product appends it under a fresh id |
| Store.Db.ReplaceProduct | backend/src/controllers/product.controller.ts:43 | saving a changed product with the same id replaces exactly it |
| Store.Db.DeleteProduct | backend/src/controllers/product.controller.ts:53 | the products with that id are dropped, the rest kept in order |
| Store.Db.DeleteUserWithOrders | backend/src/controllers/admin.controller.ts:83-86 | the user's orders and then the user are removed; every other user and order stays in order, and the invariant holds |
| Store.UsersOtherThan | backend/src/controllers/admin.controller.ts:86 | the users left are exactly those with another id |
| Store.OrdersNotOf | backend/src/controllers/admin.controller.ts:83 | the orders left are exactly those of other owners |
| Store.DropUserKeepsValid | backend/src/controllers/admin.controller.ts:83-86 | deleting a user together with their orders leaves no order without an owner |
| Store.DropOrdersKeepsValid | backend/src/controllers/admin.controller.ts:83 | the orders left still belong to stored users and keep unique keys and ids |
| Store.FindUser | backend/src/controllers/cart.controller.ts:27 | the position found holds the user with that id; None exactly when none has it |
| Store.FindUserByEmail | backend/src/controllers/auth.controller.ts:39 | the position found holds the user with that email; None exactly when none has it |
| Store.FindProduct | backend/src/controllers/cart.controller.ts:23 | the position found holds the product with that id; None exactly when none has it |
| Store.FindOrder | backend/src/routes/order.routes.ts:38 | the position found holds the order with that key; None exactly when none has it |
| Store.FindOrderById | backend/src/controllers/order.controller.ts:98-102 | the position found holds the order with that human-readable id; None exactly when none has it |
| OrderController.LinePrice | backend/src/controllers/order.controller.ts:20-22 | a line is priced only when its product exists |
| OrderController.LinePriceOfIdAndQuantity | backend/src/controllers/order.controller.ts:22 | a line's price depends on its product id and quantity alone |
| OrderController.ServerTotal | backend/src/controllers/order.controller.ts:18-23 | the total is undefined exactly when some line names a missing product |
| OrderController.ClientPricesIgnored | backend/src/controllers/order.controller.ts:18-23 | lines differing only in client price, name, size or image give the same total |
| OrderController.ServerTotalAppend | backend/src/controllers/order.controller.ts:18-23 | the total is the sum of the line prices, one line at a time |
| OrderController.ComputeTotal | backend/src/controllers/order.controller.ts:18-23 | the accumulating loop, with its early return on a missing product, computes `ServerTotal` |
| OrderController.PurchaserName | backend/src/controllers/order.controller.ts:31 | the stored name is never empty |
| OrderController.ValidUserPurchaserName | backend/src/controllers/order.controller.ts:31 | for a schema-valid user the name is exactly "first last" |
| OrderController.BlankNamesGiveCustomer | backend/src/controllers/order.controller.ts:31 | with both names empty the name is "Customer" |
| OrderController.CreateOrder | backend/src/controllers/order.controller.ts:13-45 | unknown user 404, a missing product 404, each creating nothing; otherwise one order is appended with status pending, the server total, the client's own lines, the user's email and purchaser name, dated with the clock reading |
| OrderController.Round | backend/src/controllers/order.controller.ts:56 | the rounded value is within one half of its argument |
| OrderController.GatewayAmount | backend/src/controllers/order.controller.ts:51-56 | an amount is accepted exactly when present and at least 1, and then becomes amount × 100 rounded, at least 100 |
| OrderController.CreateRazorpayOrder | backend/src/controllers/order.controller.ts:47-66 | a missing or too small amount 400 "Invalid amount"; otherwise the gateway's order id, or 500 when the gateway fails |
| OrderController.OrdersAsWritten | backend/src/controllers/order.controller.ts:70 | as written: exactly the caller's orders, in the collection's stored order, since every order ties on the missing `createdAt` |
| OrderController.AsWrittenListsOldestFirst | backend/src/controllers/order.controller.ts:70 | as written, orders placed `a` then later `b` are listed `[a, b]`, oldest first, where newest first gives `[b, a]` |
| OrderController.OrdersNewestFirst | backend/src/models/Order.model.ts:25 | corrected: a permutation of the caller's orders with dates never increasing down the list, orders of equal date in stored order |
| OrderController.GetOrders | backend/src/controllers/order.controller.ts:68-75 | the caller's orders and only theirs, newest first by creation date (the corrected sort) |
| OrderController.GetOrder | backend/src/controllers/order.controller.ts:77-85 | an order is returned only when it has that key and belongs to the caller; otherwise 404 "Order not found" |
| OrderController.AdminStatus | backend/src/controllers/order.controller.ts:92-95 | exactly processing, shipped, delivered and cancelled are accepted; pending never is |
| OrderController.AdminStatusNames | backend/src/controllers/order.controller.ts:92-95 | every status but pending can be set by its name |
| OrderController.UpdateOrderStatus | backend/src/controllers/order.controller.ts:87-114 | an invalid status 400 and an unknown orderId 404, neither changing anything; otherwise only that order's status changes |
| OrderController.ConfirmPayment | backend/src/routes/order.routes.ts:29-52 | no caller 401; a missing order or another owner's 404, order unchanged; otherwise the payment id is recorded and the status forced to processing, whatever it was |
| AdminController.RevenueEmpty | backend/src/controllers/admin.controller.ts:24 | with no orders the revenue is 0 |
| AdminController.RevenueCons | backend/src/controllers/admin.controller.ts:12-15 | the revenue is additive over orders |
| AdminController.RevenueAppend | backend/src/controllers/admin.controller.ts:12-15 | a new order adds its own contribution and nothing else |
| AdminController.RevenueConcat | backend/src/controllers/admin.controller.ts:12-15 | the revenue of two lists is the sum of theirs |
| AdminController.RevenueReplace | backend/src/controllers/admin.controller.ts:12-15 | replacing one order changes the revenue by the difference of the two contributions |
| AdminController.AllCancelledNoRevenue | backend/src/controllers/admin.controller.ts:13-24 | all-cancelled orders bring in 0 |
| AdminController.CancelLowersRevenue | backend/src/controllers/admin.controller.ts:13-14 | cancelling a counted order lowers the revenue by exactly its total |
| AdminController.DashboardStats | backend/src/controllers/admin.controller.ts:6-31 | users, orders and products are counted in full (admins and cancelled orders included); revenue sums the totals of orders not cancelled |
| AdminController.StatusChangeStats | backend/src/controllers/admin.controller.ts:10-22 | a status change never changes the order count, and changes the revenue only by that order's contribution |
| AdminController.ListUsers | backend/src/controllers/admin.controller.ts:33-40 | one entry per user, in order, carrying every stored field but the password: id, first and last name, email, role, last login and cart |
| AdminController.PasswordInvisible | backend/src/controllers/admin.controller.ts:35 | changing any password leaves the listing unchanged |
| AdminController.UpdateUserRoleAsWritten | backend/src/controllers/admin.controller.ts:62-71 | as written: 404 for an unknown id, otherwise exactly that user's role is set to the value sent |
| AdminController.AsWrittenStoresAnyRole | backend/src/controllers/admin.controller.ts:64-65 | as written, role "owner" is stored and the user record no longer satisfies the schema |
| AdminController.UpdateUserRole | backend/src/controllers/admin.controller.ts:62-71 | with the enum enforced: a role outside user/admin fails (500) with no change; unknown id 404; otherwise only that user's role changes |
| AdminController.DeleteUser | backend/src/controllers/admin.controller.ts:73-96 | unknown user 404, nothing deleted; otherwise every order of the user and then the user are removed, every other user and order kept |
| AuthController.ProfileOf | backend/src/controllers/auth.controller.ts:56-62 | the reply's user carries the stored id, names, email and role |
| AuthController.RegisterCheck | backend/src/controllers/auth.controller.ts:23-37 | the guards pass exactly when all four fields are present, the email matches and the password has 6 or more characters; the first failing guard's message, in that order |
| AuthController.LookupKeyIsStoredEmail | backend/src/controllers/auth.controller.ts:39-47 | for an email that passed the pattern the lookup key is the stored form, and it still matches |
| AuthController.Register | backend/src/controllers/auth.controller.ts:19-67 | guard failures 400; an email already held (lower-cased) 400 "Email already registered"; schema failure 500; otherwise one user is added with trimmed names, the lower-cased trimmed email, role user, and a 201 with a token for the new id |
| AuthController.LoginCheck | backend/src/controllers/auth.controller.ts:73-81 | the guards pass exactly when both fields are present and the email matches |
| AuthController.Login | backend/src/controllers/auth.controller.ts:69-113 | an unknown email and a wrong password get the same 401 "Invalid credentials" with no change; success sets only that user's lastLogin and answers with a token |
| AuthController.GetMe | backend/src/controllers/auth.controller.ts:115-134 | unknown caller 404; otherwise the caller's profile |
| AuthController.ChangePasswordCheck | backend/src/controllers/auth.controller.ts:140-148 | the guards pass exactly when the current password is present and the new one has 6 or more characters |
| AuthController.ChangePassword | backend/src/controllers/auth.controller.ts:136-167 | guard failures 400; unknown caller 404; a wrong current password 401 with the password unchanged; otherwise only that user's password becomes the hash of the new one |
| AuthController.ChangedPasswordMatches | backend/src/controllers/auth.controller.ts:160-161 | after a change the new password, and only it, passes the comparison |
| AuthController.DeleteAccount | backend/src/controllers/auth.controller.ts:169-192 | unknown caller 404; otherwise the caller's orders and then the caller are removed, the rest kept |
| AuthController.ApplyProfile | backend/src/controllers/auth.controller.ts:207-210 | only the names given change; id, email, password, role, cart and lastLogin stay |
| AuthController.ApplyProfileKeepsValid | backend/src/controllers/auth.controller.ts:210-213 | a valid user stays valid under an update the validators accept |
| AuthController.UpdateProfile | backend/src/controllers/auth.controller.ts:194-233 | neither name 400 "Nothing to update"; otherwise the nonempty names are set trimmed, the email never changes; a name failing validation 500; unknown caller 404 |
| AuthMiddleware.ExtractToken | backend/src/middleware/auth.middleware.ts:13-15 | a token is found only under a header starting with "Bearer", and it is the second space-separated word, nonempty and without spaces |
| AuthMiddleware.SplitWordsHaveNoSeparator | backend/src/middleware/auth.middleware.ts:14 | no word of a split holds the separator |
| AuthMiddleware.BearerHeaderYieldsToken | backend/src/middleware/auth.middleware.ts:13-15 | "Bearer <token>" yields exactly the token |
| AuthMiddleware.OtherSchemeYieldsNothing | backend/src/middleware/auth.middleware.ts:13 | a header not starting with "Bearer" yields no token |
| AuthMiddleware.Protect | backend/src/middleware/auth.middleware.ts:10-35 | no token 401 "no token", a failed verification 401 "Token invalid or expired", a vanished user 401 "User not found"; passes exactly otherwise, with the user's id and role |
| AuthMiddleware.AdminGate | backend/src/middleware/auth.middleware.ts:37-43 | passes exactly when a user is attached with role "admin", keeping that user; otherwise 403 "Admin access required" |
| Validate.Decimal | backend/src/middleware/validate.ts:23 | a numeric path element is printed as its decimal digits |
| Validate.ErrorsOf | backend/src/middleware/validate.ts:18-28 | every issue's field (second path element, or "error") is a key of the map |
| Validate.LastIssueWins | backend/src/middleware/validate.ts:18-23 | a field's message is that of the last issue naming it |
| Validate.ErrorsOfKeys | backend/src/middleware/validate.ts:18-28 | the keys are exactly the fields of the issues |
| Validate.FormatErrors | backend/src/middleware/validate.ts:16-28 | the `forEach` loop builds `ErrorsOf` |
| Validate.Validate | backend/src/middleware/validate.ts:4-38 | next exactly when the schema accepts; a schema failure 400 "Validation Error" with the field map; any other failure 400 "Invalid Data" |
| Validate.SecondMessageOverwrites | backend/src/middleware/validate.ts:23 | of two issues on one field, the second message is kept |
| Validate.RootIssueUnderError | backend/src/middleware/validate.ts:24-27 | an issue with no second path element goes under "error" |
| Validate.IndexZeroUnderError | backend/src/middleware/validate.ts:22-26 | a falsy second element (index 0) also goes under "error" |
| Schemas.BodyIssue | backend/src/schemas/auth.schema.ts:4 | an issue's path is ["body", field] |
| Schemas.MinLength | backend/src/schemas/auth.schema.ts:5-10 | no issue exactly when the value is present and long enough; a missing value gives "Required" |
| Schemas.EmailField | backend/src/schemas/auth.schema.ts:7-16 | no issue exactly when the value is present and passes the email check |
| Schemas.OptionalMinLength | backend/src/schemas/auth.schema.ts:23-24 | an absent value is fine; a present one must be long enough |
| Schemas.VerdictOf | backend/src/schemas/auth.schema.ts:3-12 | accepted exactly when there is no issue |
| Schemas.RegisterAcceptsIff | backend/src/schemas/auth.schema.ts:3-12 | registration is accepted exactly when both names have 2 or more characters, the email passes and the password has 6 or more |
| Schemas.LoginIssues | backend/src/schemas/auth.schema.ts:14-19 | no issue exactly when the email passes and the password is nonempty |
| Schemas.UpdateProfileIssues | backend/src/schemas/auth.schema.ts:21-34 | no issue exactly when each name given has 2 or more characters |
| Schemas.EmptyProfileAccepted | backend/src/schemas/auth.schema.ts:21-34 | an empty profile body is accepted |
| Schemas.ChangePasswordIssues | backend/src/schemas/auth.schema.ts:36-41 | no issue exactly when the current password is nonempty and the new one has 6 or more characters |
| Schemas.RegistrationTestCases | backend/src/test-validation.ts:13-73 | the Alice record is accepted; the missing email, "not-an-email", password "123" and missing names are refused |
| Schemas.MissingNamesErrorMap | backend/src/test-validation.ts:62-72 | the missing-names case reports "Required" under firstName and lastName |
| Email.ShapeIsValid | backend/src/controllers/auth.controller.ts:14-17 | a string without whitespace, with one '@' after a nonempty part and a '.' in the domain with a character each side, matches the pattern |
| Email.ValidIsShape | backend/src/controllers/auth.controller.ts:14-17 | every match has that shape |
| Email.ValidEmailIff | backend/src/controllers/auth.controller.ts:14-17 | `isValidEmail` holds exactly for strings of that shape |
| Email.LowerValidEmail | backend/src/models/User.model.ts:40-47 | lower-casing keeps a valid email valid, and `trim` leaves it alone |
| Email.AcceptsExample | backend/src/test-validation.ts:20 | "alice@example.com" matches |
| Email.RefusesExample | backend/src/test-validation.ts:44 | "not-an-email" does not |
| ProductController.BuildQuery | backend/src/controllers/product.controller.ts:7-13 | the filter built one `if` at a time selects exactly what the parameters ask; a category or name condition exists exactly when its parameter is nonempty |
| ProductController.GetProducts | backend/src/controllers/product.controller.ts:5-20 | the selected products (exact category, case-insensitive name, isNew/isFeatured only for "true"), each one once, newest first |
| ProductController.NoFilterListsAll | backend/src/controllers/product.controller.ts:8-13 | with no parameter that filters, every product is listed |
| ProductController.GetProduct | backend/src/controllers/product.controller.ts:22-30 | an unknown id 404, else the product with that id |
| ProductController.CreateProductEndpoint | backend/src/controllers/product.controller.ts:32-39 | a body missing a required field fails (500) with no change; otherwise 201 with the stored product, appended under a fresh id |
| ProductController.UpdateProduct | backend/src/controllers/product.controller.ts:41-49 | an unknown id 404 with no change; otherwise only that product changes, to the body overlaid on it |
| ProductController.DeleteProductEndpoint | backend/src/controllers/product.controller.ts:51-59 | an unknown id 404 with no change; otherwise that product is gone and the rest stay |
| Routes.Handle | backend/src/routes/admin.routes.ts:14-21 | a request is handled only by a route matching its verb and path; no route answers only when none matches |
| Routes.HandleUnguardedRoutes | backend/src/routes/cart.routes.ts:14-20 | on a router whose routes carry no guards of their own, the router-wide guards decide: a refusal is the reply, and once they pass no request is refused |
| Routes.HandleOpenRoute | backend/src/routes/auth.routes.ts:7-8 | a matched route with no guards on a router with none is handled with the path's parameters and no user |
| Routes.GuardStep | backend/src/middleware/auth.middleware.ts:10-43 | `protect` refuses with 401, `admin` with 403; `admin` passes only an administrator |
| Routes.RunGuards | backend/src/routes/product.routes.ts:19-21 | guards run in order; a chain ending with `admin` lets through only an administrator |
| Routes.RunProtected | backend/src/routes/cart.routes.ts:14 | `protect` alone passes exactly the authenticated user and stops with its own refusal |
| Routes.RunProtectedAdmin | backend/src/routes/product.routes.ts:19-21 | `protect, admin` passes exactly an authenticated administrator; a refused token keeps its 401, a non-admin gets 403 |
| Routes.AdminRouterNeedsAdmin | backend/src/routes/admin.routes.ts:14-21 | every admin request, on any path, passes authentication then the admin gate before anything else; no non-admin reaches a handler |
| Routes.AdminRouteKinds | backend/src/routes/admin.routes.ts:16-21 | the four listings are the only GETs and do not mutate; role change and user deletion are the only mutating routes |
| Routes.ProductReadsArePublic | backend/src/routes/product.routes.ts:15-16 | the listing and the detail are answered whatever the token |
| Routes.ProductWritesNeedAdmin | backend/src/routes/product.routes.ts:19-21 | create, update and delete run only for an authenticated administrator |
| Routes.AccountEntryIsPublic | backend/src/routes/auth.routes.ts:7-8 | register and login are answered without a token |
| Routes.AccountRoutesNeedOnlyToken | backend/src/routes/auth.routes.ts:7-12 | no account route needs the admin role; the four after login need a token |
| Routes.CartNeedsToken | backend/src/routes/cart.routes.ts:14 | every cart request is refused when `protect` refuses |
| Routes.CartRootDispatch | backend/src/routes/cart.routes.ts:16-20 | on the root, GET reads the cart, POST adds, DELETE clears |
| Routes.CartLineDispatch | backend/src/routes/cart.routes.ts:18-19 | on a product id, PUT updates that line and DELETE removes it |
| Routes.OrderRoutesGuards | backend/src/routes/order.routes.ts:22-55 | every order route has `protect` first; only the status route adds `admin` |
| Routes.OrderStatusNeedsAdmin | backend/src/routes/order.routes.ts:29-55 | the status change is handled exactly for an administrator, payment confirmation for any authenticated user |
| Pricing.TotalsNonNegative | src/context/CartContext.tsx:92-93 | item count at least the number of lines, price total not negative |
| Pricing.Shipping | src/pages/Cart.tsx:107 | shipping is 0 exactly from a subtotal of 100, else 10 |
| Pricing.TotalExceedsSubtotal | src/pages/Cart.tsx:117 | the total (subtotal + shipping + 8% tax) exceeds the subtotal |
| Pricing.ThresholdMakesSmallerCartDearer | src/pages/Cart.tsx:107-117 | a 99 cart costs more in total than a 100 cart |
| Pricing.OrderLines | src/pages/Checkout.tsx:49-56 | one order line per cart line, with the product's id, name, price, image and the line's size and quantity |
| Pricing.SubtotalIsServerTotal | src/pages/Checkout.tsx:49-58 | when the catalogue prices are the cart's, the server total of the submitted lines is the client subtotal |
| Pricing.PaymentExceedsStoredTotal | src/pages/Checkout.tsx:32-66 | the amount paid exceeds the total the server stores on the order |
| Pricing.CartPage | src/pages/Cart.tsx:10-120 | an empty cart shows the empty state; otherwise the summary whose total is subtotal + shipping + tax |
| Pricing.UpdateEdit | backend/src/controllers/cart.controller.ts:54-67 | the cart edit for a requested quantity: removal at 0 or less, else fails exactly when the line is absent |
| Pricing.DecrementOfLastUnitRemoves | src/pages/Cart.tsx:74 | minus on a line of one removes the line on the server |
| Pricing.DecrementLowersByOne | src/pages/Cart.tsx:74 | minus on a line of more than one lowers exactly that line by one |
| CartContext.AddRequestOf | src/context/CartContext.tsx:49-55 | the request carries the product id and size; the quantity defaults to 1 |
| CartContext.CartState.constructor | src/context/CartContext.tsx:28-29 | starts empty and loading |
| CartContext.CartState.FetchCart | src/context/CartContext.tsx:31-43 | the server's cart (or [] when it has none), [] on failure; loading ends |
| CartContext.CartState.AddToCart | src/context/CartContext.tsx:49-61 | success replaces the lines with the server's cart, failure keeps them |
| CartContext.CartState.RemoveFromCart | src/context/CartContext.tsx:63-71 | success replaces the lines with the server's cart, failure keeps them |
| CartContext.CartState.UpdateQuantity | src/context/CartContext.tsx:73-80 | success replaces the lines with the server's cart, failure keeps them |
| CartContext.CartState.ClearCart | src/context/CartContext.tsx:82-90 | empties the lines only when the server call succeeds |
| ProductContext.Prepend | src/context/ProductContext.tsx:69 | the new product first, the rest in order |
| ProductContext.ReplaceById | src/context/ProductContext.tsx:79 | products with the id become the server's copy, the others stay in place |
| ProductContext.RemoveById | src/context/ProductContext.tsx:89 | no product with the id is left, every other one is |
| ProductContext.RemoveUndoesPrepend | src/context/ProductContext.tsx:69-89 | deleting a just-added product with a new id restores the list |
| ProductContext.PrependKeepsNewestFirst | src/context/ProductContext.tsx:69 | prepending the new product matches the server's newest-first listing |
| ProductContext.ReplaceByIdMirrorsServer | src/context/ProductContext.tsx:79 | with unique ids, the list update is the one-position change the server made |
| ProductContext.GetProduct | src/context/ProductContext.tsx:56-64 | the product on success, null on failure |
| ProductContext.ProductState.constructor | src/context/ProductContext.tsx:41-42 | starts empty and loading |
| ProductContext.ProductState.FetchProducts | src/context/ProductContext.tsx:44-54 | success replaces the list, failure keeps it; loading ends |
| ProductContext.ProductState.AddProduct | src/context/ProductContext.tsx:66-74 | success prepends the server's product; failure keeps the list and throws |
| ProductContext.ProductState.UpdateProduct | src/context/ProductContext.tsx:76-84 | success replaces by id; failure keeps the list and throws |
| ProductContext.ProductState.DeleteProduct | src/context/ProductContext.tsx:86-94 | success removes by id; failure keeps the list and throws |
| AdminContext.SetOrderStatus | src/context/AdminContext.tsx:120 | orders with that orderId get the status, all others stay |
| AdminContext.SetUserRole | src/context/AdminContext.tsx:130 | users with that id get the role, all others stay |
| AdminContext.DropUser | src/context/AdminContext.tsx:139 | no user with the id is left, every other one is |
| AdminContext.SetOrderStatusIsOneChange | src/context/AdminContext.tsx:120 | with unique order ids, the update changes one position |
| AdminContext.AdminState.constructor | src/context/AdminContext.tsx:66-74 | starts with empty lists, zero figures and loading |
| AdminContext.AdminState.FetchData | src/context/AdminContext.tsx:87-111 | a non-admin requests nothing; otherwise the fetched figures, users and orders with totalProducts overwritten by the product count; loading ends either way |
| AdminContext.AdminState.UpdateOrderStatus | src/context/AdminContext.tsx:117-125 | success applies `SetOrderStatus`; failure keeps the orders and throws |
| AdminContext.AdminState.UpdateUserRole | src/context/AdminContext.tsx:127-134 | success applies `SetUserRole`; failure keeps the users and is swallowed |
| AdminContext.AdminState.DeleteUser | src/context/AdminContext.tsx:136-143 | success drops the user, the order list untouched |
| AdminContext.IsAdminNeedsAdminUser | src/context/AdminContext.tsx:76 | the admin flag holds exactly when a user is signed in with role "admin", as the server gate decides |
| AuthContext.OverlayKeepsUnpatched | src/context/AuthContext.tsx:128-132 | a patch of the names changes the names and keeps the rest; an empty patch changes nothing |
| AuthContext.OverlayLaws | src/context/AuthContext.tsx:130 | the same patch twice is once; two patches in turn are one combined patch |
| AuthContext.AuthState.constructor | src/context/AuthContext.tsx:46-48 | no user, no orders, loading, with the stored token |
| AuthContext.AuthState.Startup | src/context/AuthContext.tsx:61-80 | no stored token, or an empty one: no request; a successful get-self sets the user; a failed one removes the token; loading ends |
| AuthContext.AuthState.SyncOrders | src/context/AuthContext.tsx:50-89 | orders are fetched for a user (empty on failure) and reset to empty without one |
| AuthContext.AuthState.SignIn | src/context/AuthContext.tsx:91-120 | success stores the token and sets the user; failure changes nothing and throws |
| AuthContext.AuthState.Logout | src/context/AuthContext.tsx:122-126 | token, user and orders are cleared |
| AuthContext.AuthState.UpdateProfile | src/context/AuthContext.tsx:128-132 | nothing without a user; otherwise the patch is overlaid |
| AuthContext.AuthState.AddOrder | src/context/AuthContext.tsx:134-147 | keeps the state valid (no orders while signed out, where the server refuses the post); a failed post throws and keeps the orders; otherwise the orders are refetched and the new orderId returned |
| Shop.Get | src/pages/Shop.tsx:31-36 | a key's first value, absent exactly when it has none |
| Shop.GetAllSnoc | src/pages/Shop.tsx:48-50 | appending a pair adds its value to that key's values only |
| Shop.ToggleFlipsOnlyValue | src/pages/Shop.tsx:42-54 | a toggle flips whether the value is selected and no other value's membership |
| Shop.ToggleTwiceRestores | src/pages/Shop.tsx:42-54 | selecting then deselecting a value restores the key's values |
| Shop.DeleteKey | src/pages/Shop.tsx:47 | the key has no values left, every other key keeps its own |
| Shop.AppendEach | src/pages/Shop.tsx:48 | the values are appended to that key in order, other keys untouched |
| Shop.ToggleFilter | src/pages/Shop.tsx:42-54 | the key's values are toggled (every occurrence removed, or the value appended), every other key untouched |
| Shop.FindRange | src/pages/Shop.tsx:81 | the range found has that label; none exactly when no range has it |
| Shop.SomeSizeInMeans | src/pages/Shop.tsx:87-89 | kept exactly when some selected size is among the product's sizes |
| Shop.KeepMeans | src/pages/Shop.tsx:60-98 | a product is shown exactly when each active filter (search, brands, categories, known price range, sizes, new, sale) accepts it |
| Shop.UptoStep | src/pages/Shop.tsx:60-98 | surviving one stage more is surviving the earlier ones and that stage |
| Shop.AdvanceActive | src/pages/Shop.tsx:63-97 | an active stage filters the survivors of the earlier stages |
| Shop.AdvanceInactive | src/pages/Shop.tsx:63-97 | an inactive stage lets every survivor through |
| Shop.Advance | src/pages/Shop.tsx:63-97 | one `if ... result.filter` block brings the survivors one stage further |
| Shop.NoParamsKeepAll | src/pages/Shop.tsx:56-98 | with no parameter (as after clearing) every product is shown |
| Shop.HundredInTwoRanges | src/pages/Shop.tsx:11-16 | a price of 100 lies in the first two ranges only: both bounds are inclusive |
| Shop.UnknownRangeFiltersNothing | src/pages/Shop.tsx:80-85 | an unknown price label filters nothing |
| Shop.PriceSorts | src/pages/Shop.tsx:100-105 | price-low orders prices up, price-high down |
| Shop.FlagSorts | src/pages/Shop.tsx:106-110 | "newest" puts new products first; any other sort puts featured ones first |
| Shop.AllSizes | src/pages/Shop.tsx:40 | every size of every product, and nothing else |
| Shop.Brands | src/pages/Shop.tsx:38 | each brand once, in string order |
| Shop.Categories | src/pages/Shop.tsx:39 | each category once, in string order |
| Shop.Sizes | src/pages/Shop.tsx:40 | each size once, in numeric order |
| Shop.FacetsDistinct | src/pages/Shop.tsx:38-39 | no facet list repeats an entry |
| ShopFilter.ActiveMeans | src/pages/Shop.tsx:63-97 | each stage filters exactly when its parameter is set |
| ShopFilter.FilterProducts | src/pages/Shop.tsx:60-114 | the result is a permutation of the products the filters keep (so a sub-multiset of the products), sorted by the chosen key, with products of equal key in their filtered order (the sort is stable) |
| ShopFilter.ApplyFilters | src/pages/Shop.tsx:61-97 | the seven `if` blocks in turn keep exactly the products all active filters accept, in order |
| ShopFilter.Narrow | src/pages/Shop.tsx:63-97 | one filter block, applied only when active |
| Sorting.SortBy | src/pages/Shop.tsx:99-111 | the sort is sorted by the key, a permutation, and stable: elements of equal key keep their input order |
| Sorting.InsertByTies | src/pages/Shop.tsx:99-111 | an inserted element comes first among the elements of its key |
| Sorting.SortedSet | src/pages/Shop.tsx:38-40 | `[...new Set(xs)].sort()`: strictly sorted, holding exactly the values of xs |
| Sorting.SortedSetMembers | src/pages/Shop.tsx:38-40 | the set list holds exactly the values of xs |
| Sorting.StrLessOrder | src/pages/Shop.tsx:38-39 | the default string comparison is a strict total order |
| Sorting.RealLessOrder | src/pages/Shop.tsx:40 | numeric comparison is a strict total order |
| AdminProducts.SearchProducts | src/pages/admin/AdminProducts.tsx:58-62 | the products whose name or brand contains the query ignoring case, each kept |
| AdminProducts.EmptySearchKeepsAll | src/pages/admin/AdminProducts.tsx:58-62 | an empty search lists every product |
| AdminProducts.EditForm | src/pages/admin/AdminProducts.tsx:83-101 | the dialog shows the product's texts and flags, its printed price, and an empty original price when it has none |
| AdminProducts.ParseImages | src/pages/admin/AdminProducts.tsx:106-109 | each kept line is a trimmed URL starting with "http" |
| AdminProducts.ParseList | src/pages/admin/AdminProducts.tsx:132-140 | each kept entry is trimmed and nonempty |
| AdminProducts.Numbers | src/pages/admin/AdminProducts.tsx:128-131 | each size is the reading of some entry, every entry that reads as a number gives a size, never more sizes than entries |
| AdminProducts.ProductData | src/pages/admin/AdminProducts.tsx:120-144 | the main image is the first URL and `images` all of them; an empty original price is left out; stock count and rating are not sent |
| AdminProducts.Submit | src/pages/admin/AdminProducts.tsx:103-159 | no image line: an error and nothing sent; otherwise an update of the edited product, or an add |
| AdminProducts.EmptyFormRefused | src/pages/admin/AdminProducts.tsx:64-81 | the reset form is in stock, not new, not featured, and submitting it only asks for an image |
| AdminProducts.ImagesRoundTrip | src/pages/admin/AdminProducts.tsx:90-109 | images joined by newlines parse back to themselves |
| AdminProducts.ListRoundTrip | src/pages/admin/AdminProducts.tsx:93-140 | colors or features joined by ", " parse back to themselves |
| AdminProducts.SizesRoundTrip | src/pages/admin/AdminProducts.tsx:92-131 | sizes printed and joined by ", " read back to themselves |
| AdminProducts.NumbersOfShown | src/pages/admin/AdminProducts.tsx:128-131 | numbers printed read back |
| AdminProducts.UnchangedEditKeepsProduct | src/pages/admin/AdminProducts.tsx:83-159 | saving an unchanged edit updates that product to itself, apart from the main image becoming the first gallery image |
| AdminProducts.EditData | src/pages/admin/AdminProducts.tsx:83-144 | an unchanged dialog sends every field of the product but stock count and rating |
| AdminProducts.EditWithoutImagesRefused | src/pages/admin/AdminProducts.tsx:90-118 | a product without gallery images cannot be saved from its edit dialog |
| AdminProducts.ClearedOriginalPriceKept | src/pages/admin/AdminProducts.tsx:124 | emptying the original price field keeps the stored original price |
| AdminOrders.FilterOrders | src/pages/admin/AdminOrders.tsx:57-67 | an order is kept exactly when the query matches its id, owner's name or email ignoring case and its status passes the filter |
| AdminOrders.OwnerlessMatchesById | src/pages/admin/AdminOrders.tsx:59-60 | an order without an owner matches only through its id |
| AdminOrders.EmptyQueryFiltersByStatus | src/pages/admin/AdminOrders.tsx:58-65 | an empty query keeps exactly what the status filter keeps; with "all" every order |
| AdminOrders.StatusFilterKeepsThatStatus | src/pages/admin/AdminOrders.tsx:65 | a status filter keeps only orders of that status |
| AdminOrders.MenuMatchesServer | src/pages/admin/AdminOrders.tsx:168-179 | the menu offers exactly the statuses the server accepts; never pending |
| AdminUsers.SearchUsers | src/pages/admin/AdminUsers.tsx:58-62 | the users whose email, first or last name contains the query ignoring case, each kept |
| AdminUsers.EmptySearchKeepsAll | src/pages/admin/AdminUsers.tsx:58-62 | an empty search lists every user |
| AdminUsers.UserOrders | src/pages/admin/AdminUsers.tsx:49-66 | exactly the orders whose owner has the user's id |
| AdminUsers.OwnerlessInNoList | src/pages/admin/AdminUsers.tsx:51 | an order without an owner is listed under no user |
| AdminUsers.RecentOrders | src/pages/admin/AdminUsers.tsx:228 | at most five: the first five of the user's orders |
| AdminUsers.ToggledRole | src/pages/admin/AdminUsers.tsx:68-70 | admin becomes user and anything else admin; a role always changes |
| AdminUsers.ToggleTwice | src/pages/admin/AdminUsers.tsx:68-70 | toggling twice restores a valid role |
| AdminUsers.OfferedDeleteKeepsAdmins | src/pages/admin/AdminUsers.tsx:168-177 | deleting through the offered button never removes an administrator |
| ProductDetail.Decremented | src/pages/ProductDetail.tsx:172 | one less, never below 1 |
| ProductDetail.Incremented | src/pages/ProductDetail.tsx:179 | more than before |
| ProductDetail.StepperRoundTrip | src/pages/ProductDetail.tsx:172-179 | up then down returns to the quantity; down from 1 stays 1 |
| ProductDetail.DetailPage.constructor | src/pages/ProductDetail.tsx:19-21 | quantity 1 and no size |
| ProductDetail.DetailPage.Decrement | src/pages/ProductDetail.tsx:172 | the quantity becomes `Decremented` of the old one, staying at least 1 |
| ProductDetail.DetailPage.Increment | src/pages/ProductDetail.tsx:179 | the quantity becomes `Incremented` of the old one |
| ProductDetail.DetailPage.SelectSize | src/pages/ProductDetail.tsx:154 | the size is selected, the quantity kept |
| ProductDetail.Related | src/pages/ProductDetail.tsx:57-59 | at most four, each another product of the same brand or category, a prefix of them in list order |
| ProductDetail.FewRelatedAllShown | src/pages/ProductDetail.tsx:57-59 | with four or fewer related products all are shown, never the product itself |
| ProductDetail.ClickAdd | src/pages/ProductDetail.tsx:62-82 | disabled exactly when out of stock; login redirect exactly when signed out; an add exactly with a truthy size, carrying it and the quantity |
| ProductDetail.AddSendsStepperQuantity | src/pages/ProductDetail.tsx:81 | the add request carries the product, size and the stepper quantity, at least 1 |
| ProductDetail.Saving | src/pages/ProductDetail.tsx:131-139 | shown exactly for a truthy original price, and equal to it minus the price |
| Checkout.InitialForm | src/pages/Checkout.tsx:21-30 | the user's email and names, everything else empty |
| Checkout.InitialFormIncomplete | src/pages/Checkout.tsx:21-44 | the fresh form never passes the address check |
| Checkout.ShippingAddress | src/pages/Checkout.tsx:57 | a complete address formats to a nonempty string |
| Checkout.ShippingAddressParts | src/pages/Checkout.tsx:57 | split at its commas it gives back "address", " city" and " state zip" |
| Checkout.PrefillName | src/pages/Checkout.tsx:77 | never empty |
| Checkout.PrefillIsPurchaserName | src/pages/Checkout.tsx:77 | the prefilled name is the name the server stores on the order |
| Checkout.OrderRequestOf | src/pages/Checkout.tsx:48-60 | the cart's lines, the formatted address and the displayed total with shipping and tax |
| Checkout.CheckoutAmountAccepted | src/pages/Checkout.tsx:64-66 | the gateway's amount check accepts every checkout total |
| Checkout.CheckoutPage.constructor | src/pages/Checkout.tsx:19 | not processing |
| Checkout.CheckoutPage.HandlePayment | src/pages/Checkout.tsx:36-108 | an empty cart or an incomplete address makes no request and leaves the flag; otherwise the requests are `Requests` for the cart's order request and total, and processing is false on every exit |
| Checkout.Requests | src/pages/Checkout.tsx:47-96 | one to five requests, the first always the order post |
| Checkout.AfterOrder | src/pages/Checkout.tsx:64-82 | the gateway order for the total comes next; the dialog follows exactly when it was created |
| Checkout.AfterGatewayOrder | src/pages/Checkout.tsx:70-84 | the dialog opens for the total with "Order <id>" and the prefill; confirmation follows exactly when paid |
| Checkout.AfterPayment | src/pages/Checkout.tsx:84-89 | the payment patch on the order, then the cart cleared exactly when the patch succeeds |
| Checkout.AllProperConcat | src/pages/Checkout.tsx:64-82 | requests charging the total stay so when concatenated |
| Checkout.AfterPaymentProper | src/pages/Checkout.tsx:84-89 | the confirmation steps charge nothing else |
| Checkout.AfterGatewayOrderProper | src/pages/Checkout.tsx:70-82 | the dialog charges the displayed total |
| Checkout.AfterOrderProper | src/pages/Checkout.tsx:64-82 | both gateway steps use the displayed total |
| Checkout.RequestsChargeTotal | src/pages/Checkout.tsx:58-71 | every amount the gateway is asked for is the displayed total with shipping and tax |
| Checkout.RequestsConfirmOnlyPaid | src/pages/Checkout.tsx:84-96 | the payment is confirmed exactly when the order and the gateway order were created and the gateway reported success, and on that order |
| Checkout.RequestsClearOnlyConfirmed | src/pages/Checkout.tsx:85-105 | the cart is cleared exactly when the confirmation succeeded |
| Checkout.PaymentRequests | src/pages/Checkout.tsx:47-60 | the step sequence produces `Requests` |
| Checkout.RequestGatewayOrder | src/pages/Checkout.tsx:64-68 | the gateway-order step produces `AfterOrder` |
| Checkout.OpenPaymentDialog | src/pages/Checkout.tsx:70-82 | the dialog step produces `AfterGatewayOrder` |
| Checkout.ConfirmPayment | src/pages/Checkout.tsx:84-89 | the confirmation step produces `AfterPayment` |

## Left out

- Persistence: Mongoose and MongoDB are a sequence per collection in `Store.Db`. `populate`, `$regex`
  (search is a case-insensitive substring test on the literal query), `countDocuments` and `aggregate`
  are written as functions over those sequences. For users and products, whose schemas keep timestamps,
  "newest first" by `createdAt` is reverse insertion order; the timestamps themselves are not stored.
  Orders have no `createdAt` (see Findings) and carry their `date`.
- JWT signing and verification are parameters (`sign`, `verify`). bcrypt is a constructor `Hash`:
  a digest matches only the text it was made from, and salts and cost are not modelled.
- The payment gateway (order creation and the checkout dialog) is a parameter giving its answer.
- The human-readable order id (`Date.now()` plus `Math.random()`) and the last-login time are
  parameters. Uniqueness of the order id is a precondition of inserting the order.
- The response cache and Redis are not part of this model: no modelled code calls them.
- Floating point: money is `real`, so IEEE rounding and `toFixed` are not modelled. `Math.round` is
  rounded half up on reals. `parseFloat`, `Number` and `toString` are parameters; the edit round trip
  assumes that printing and reading agree.
- Concurrency: `Promise.all` and the read-modify-write races on a cart are not modelled. Every
  operation runs alone, and the admin fetch succeeds or fails as a whole.
- Toasts, navigation, `window.confirm`, console logging and rendering are not modelled.
  `localStorage` is the `token` field of `AuthContext.AuthState`.
- AdminProducts.ProductData: for a price `parseFloat` cannot read, the program sends NaN, which
  `JSON.stringify` writes as `null`; an update then stores a null price (no validators run) and a
  creation fails the `required` check. The model has no null price: it leaves the field out, so
  creation fails the same way but an update keeps the stored price.
- The zod email check is a parameter `isEmail`. Zod's own pattern is not the controller's and is not
  modelled.
- The request schemas are modelled on their own: no shown route applies `validate` to them.
- The admin listings of all orders and all products are not modelled as endpoints. The product listing
  is the stored sequence newest first; the order listing sorts on the missing `createdAt` as
  `getOrders` does and so comes back oldest first, and `slice(0, 5)` under a user then shows that
  user's five oldest orders. The user fields that `populate` copies are the
  `AdminContext.AdminOrder` shape.
- The checkout's error toast text is not modelled. The failure paths are modelled as requests that
  stop.
- Express's routing is reduced to literal and parameter segments. Mounting prefixes, query strings and
  bodies are not modelled.
- The `avatar` field is not modelled: no modelled code writes it.
- Text.ToLower lowers ASCII letters only, where `toLowerCase` follows Unicode ("É" becomes "é").
  This affects the stored email key in registration, login and the user setter, and every
  case-insensitive search: the admin pages, the shop search and the product `$regex` with `i`.
- String lengths are counts of characters, where JavaScript's `.length` counts UTF-16 code units. The
  password minimum of 6, the name maximum of 50 and the schema minimums can differ from the program's
  for characters outside the Basic Multilingual Plane.
- Sorting.StrLess compares characters, where the default `sort()` compares UTF-16 code units. The
  brand and category facet order differs for characters outside the Basic Multilingual Plane.
- Identifiers are naturals, so a malformed `:id` cannot be written down. In the program, an id that is
  not an ObjectId makes Mongoose throw a CastError, answered 500 "Server error" rather than 404. This
  affects the product read, update and delete, the order read, the payment confirmation, and the admin
  role change and user deletion. It also affects adding to the cart (the body's `productId`) and
  creating an order (each item's `productId`): the program answers 500 for a malformed id there, where
  the model answers 404 "Product not found". Id parsing and that path are not modelled.

## Findings

| source | as written | input that shows it | evidently intended | confidence | as-written member | corrected member |
|---|---|---|---|---|---|---|
| backend/src/controllers/admin.controller.ts:64-65 | the role change calls `findByIdAndUpdate` without `runValidators`, so the schema's enum `['user','admin']` is not checked | `PATCH /api/admin/users/<id>/role` with body `{ "role": "owner" }` for an existing user | only "user" or "admin" can be stored, as the schema declares | not executed | AdminController.AsWrittenStoresAnyRole | AdminController.UpdateUserRole |
| backend/src/controllers/order.controller.ts:70 | `getOrders` sorts by `createdAt`, but the order schema has no `timestamps` option, so every order ties on the missing field and comes back in stored order, oldest first | a user places order A, then order B; `GET /api/orders` lists A before B | the caller's orders newest first, by the `date` each order gets at creation | not executed | OrderController.AsWrittenListsOldestFirst | OrderController.OrdersNewestFirst |
