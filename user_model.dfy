// The user record of the accounts collection: its fields, the setters and
// validators the schema attaches to them, the password hook that hashes on
// save, and the password comparison used by login and password change.

module UserModel {
  import opened Wrappers
  import Text
  import Email
  import ProductModel

  type UserId = nat

  const ROLE_USER: string := "user"
  const ROLE_ADMIN: string := "admin"
  const NAME_MAX_LENGTH: nat := 50
  const PASSWORD_MIN_LENGTH: nat := 6
  const MIN_CART_QUANTITY: int := 1

  /** The role enum; "user" is the default. */
  predicate IsRole(role: string)
  {
    role == ROLE_USER || role == ROLE_ADMIN
  }

  /** A password as the record holds it: the plain text just assigned, or a
      bcrypt digest of a held value. The salt and cost factor are not
      modelled; a digest only ever matches the plain text it was made from. */
  datatype Secret = Plain(text: string) | Hash(digest: Secret)

  /** One cart line: a product reference, a numeric size and a quantity. */
  datatype CartLine = CartLine(product: ProductModel.ProductId, size: real, quantity: int)

  /** A stored user. `avatar` is never written by the modelled code and is
      left out. */
  datatype User = User(
    id: UserId,
    firstName: string,
    lastName: string,
    email: string,
    password: Secret,
    role: string,
    lastLogin: Option<int>,
    cart: seq<CartLine>)

  /** The pre-save hook: hash only when the password path was modified. */
  function PreSave(password: Secret, modified: bool): (r: Secret)
    ensures modified ==> r.Hash? && r.digest == password
    ensures !modified ==> r == password
  {
    if modified then Hash(password) else password
  }

  /** `comparePassword`: does the candidate hash to the stored digest? */
  predicate ComparePassword(candidate: string, stored: Secret)
  {
    stored == Hash(Plain(candidate))
  }

  /** A password assigned and saved matches exactly itself afterwards. */
  lemma SavedPasswordMatches(p: string, candidate: string)
    ensures ComparePassword(candidate, PreSave(Plain(p), true)) <==> candidate == p
  {
  }

  /** A save that did not touch the password leaves every comparison as it was. */
  lemma UnmodifiedSaveKeepsPassword(stored: Secret, candidate: string)
    ensures ComparePassword(candidate, PreSave(stored, false)) == ComparePassword(candidate, stored)
  {
  }

  /** Hashing an already hashed password would lock its owner out: this is
      what the hook's `isModified` test prevents. */
  lemma RehashLocksOut(p: string, candidate: string)
    ensures !ComparePassword(candidate, PreSave(PreSave(Plain(p), true), true))
  {
  }

  /** The schema's setters: `trim` on the names, `lowercase` and `trim` on
      the email. */
  function SetName(s: string): (r: string)
    ensures Text.IsTrimmed(r) && |r| <= |s|
  {
    Text.Trim(s)
  }

  function SetEmail(s: string): (r: string)
    ensures Text.IsTrimmed(r)
  {
    Text.Trim(Text.ToLower(s))
  }

  /** `required`, `trim` and `maxlength: 50` on a name as stored. */
  predicate ValidName(n: string)
  {
    n != "" && Text.IsTrimmed(n) && |n| <= NAME_MAX_LENGTH
  }

  /** `required`, `lowercase`, `trim` and the `match` pattern on the email. */
  predicate ValidEmail(e: string)
  {
    Email.IsValidEmail(e) && Text.ToLower(e) == e
  }

  /** A stored password is the digest of a plain text of at least 6
      characters: `minlength` is checked before the hook hashes it. */
  predicate ValidStoredPassword(s: Secret)
  {
    s.Hash? && s.digest.Plain? && |s.digest.text| >= PASSWORD_MIN_LENGTH
  }

  predicate ValidCartLine(line: CartLine)
  {
    line.quantity >= MIN_CART_QUANTITY
  }

  /** Every line has quantity at least 1, as the schema's `min: 1` demands. */
  predicate CartValid(cart: seq<CartLine>)
  {
    forall i :: 0 <= i < |cart| ==> ValidCartLine(cart[i])
  }

  /** Everything the schema enforces of a saved user. */
  predicate ValidUser(u: User)
  {
    && ValidName(u.firstName)
    && ValidName(u.lastName)
    && ValidEmail(u.email)
    && ValidStoredPassword(u.password)
    && IsRole(u.role)
    && CartValid(u.cart)
  }

  /** `User.create({ firstName, lastName, email, password })`: the setters
      run, the defaults fill `role` and `cart`, validation runs on the set
      values (None is the validation error), and the hook hashes the
      password. */
  function CreateUser(id: UserId, firstName: string, lastName: string, email: string, password: string): (r: Option<User>)
    ensures r.Some? <==>
      && ValidName(Text.Trim(firstName))
      && ValidName(Text.Trim(lastName))
      && Email.IsValidEmail(SetEmail(email))
      && |password| >= PASSWORD_MIN_LENGTH
    ensures r.Some? ==> ValidUser(r.value)
    ensures r.Some? ==>
      (&& r.value.id == id && r.value.role == ROLE_USER && r.value.cart == []
       && r.value.lastLogin == None && r.value.email == SetEmail(email)
       && ComparePassword(password, r.value.password))
  {
    var u := User(id, SetName(firstName), SetName(lastName), SetEmail(email), Plain(password), ROLE_USER, None, []);
    if ValidName(u.firstName) && ValidName(u.lastName) && Email.IsValidEmail(u.email)
       && |password| >= PASSWORD_MIN_LENGTH
    then
      assert Text.ToLower(u.email) == u.email by {
        LowerTrimmedValid(email);
      }
      Some(u.(password := PreSave(u.password, true)))
    else None
  }

  /** Lower-casing is idempotent, so the set email is already lower case. */
  lemma LowerTrimmedValid(email: string)
    ensures Text.ToLower(SetEmail(email)) == SetEmail(email)
  {
    var l := Text.ToLower(email);
    var t := Text.Trim(l);
    TrimIsSlice(l);
    var r := Text.ToLower(t);
    forall i | 0 <= i < |t| ensures r[i] == t[i] {
      LowerCharIdempotent(email, l, t, i);
    }
  }

  lemma TrimIsSlice(s: string)
    ensures exists a, b :: 0 <= a <= b <= |s| && Text.Trim(s) == s[a..b]
  {
    var t := Text.TrimStart(s);
    var a := |s| - |t|;
    var r := Text.TrimEnd(t);
    assert t == s[a..];
    assert r == t[..|r|] == s[a..a + |r|];
  }

  lemma LowerCharIdempotent(email: string, l: string, t: string, i: nat)
    requires l == Text.ToLower(email)
    requires exists a, b :: 0 <= a <= b <= |l| && t == l[a..b]
    requires i < |t|
    ensures Text.LowerChar(t[i]) == t[i]
  {
    var a, b :| 0 <= a <= b <= |l| && t == l[a..b];
    assert t[i] == l[a + i] == Text.LowerChar(email[a + i]);
  }

  /** `role === 'admin'`, the test both the admin gate and the admin screens make. */
  predicate IsAdmin(u: User)
  {
    u.role == ROLE_ADMIN
  }
}
