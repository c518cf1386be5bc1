// The account endpoints: registration, login, the caller's own profile,
// password change, account deletion and profile update. Token signing is a
// parameter `sign` (the token only ever carries the user id).

module AuthController {
  import opened Wrappers
  import opened UserModel
  import opened Store
  import Text
  import Email
  import Seqs
  import OrderModel

  /** The user object every account reply carries: no password, no cart. */
  datatype Profile = Profile(id: UserId, firstName: string, lastName: string, email: string, role: string)

  /** A token and the profile it was issued for. */
  datatype Session = Session(token: string, user: Profile)

  function ProfileOf(u: User): (r: Profile)
    ensures r.id == u.id && r.email == u.email && r.role == u.role
    ensures r.firstName == u.firstName && r.lastName == u.lastName
  {
    Profile(u.id, u.firstName, u.lastName, u.email, u.role)
  }

  /** The controller's `isValidEmail`: the same pattern as the schema's. */
  predicate IsValidEmail(email: string)
  {
    Email.IsValidEmail(email)
  }

  /** The registration guards, in the order they are checked; None lets the
      request through. A missing field and "" are alike (both falsy). */
  function RegisterCheck(firstName: string, lastName: string, email: string, password: string): (r: Option<string>)
    ensures r.None? <==>
      firstName != "" && lastName != "" && email != "" && password != ""
      && IsValidEmail(email) && |password| >= PASSWORD_MIN_LENGTH
    ensures firstName == "" || lastName == "" || email == "" || password == "" ==>
      r == Some("All fields are required")
    ensures firstName != "" && lastName != "" && email != "" && password != "" && !IsValidEmail(email) ==>
      r == Some("Please provide a valid email address")
    ensures (firstName != "" && lastName != "" && email != "" && password != "" && IsValidEmail(email)
             && |password| < PASSWORD_MIN_LENGTH) ==>
      r == Some("Password must be at least 6 characters")
  {
    if firstName == "" || lastName == "" || email == "" || password == "" then Some("All fields are required")
    else if !IsValidEmail(email) then Some("Please provide a valid email address")
    else if |password| < PASSWORD_MIN_LENGTH then Some("Password must be at least 6 characters")
    else None
  }

  /** For an email that passed the pattern, the lower-cased lookup key and
      the stored (lower-cased, trimmed) email are the same string, so the
      duplicate check looks up exactly what would be stored. */
  lemma LookupKeyIsStoredEmail(email: string)
    requires IsValidEmail(email)
    ensures SetEmail(email) == Text.ToLower(email)
    ensures Email.IsValidEmail(SetEmail(email))
  {
    Email.LowerValidEmail(email);
    Text.TrimOfNoSpace(Text.ToLower(email));
  }

  /** POST /register. After the guards, an email already held (after
      lower-casing) is refused; a name that is blank once trimmed or longer
      than 50 fails validation on create (500); otherwise the user is stored
      with trimmed names, the lower-cased email and the hashed password. */
  method Register(db: Db, firstName: string, lastName: string, email: string, password: string,
                  sign: UserId -> string)
    returns (reply: Reply<Session>)
    requires db.Valid()
    modifies db
    ensures db.Valid()
    ensures db.products == old(db.products) && db.orders == old(db.orders)
    ensures reply.Respond? ==> db.users == old(db.users) && db.nextId == old(db.nextId)
    ensures RegisterCheck(firstName, lastName, email, password).Some? ==>
      reply == Respond(BAD_REQUEST, RegisterCheck(firstName, lastName, email, password).value)
    ensures (RegisterCheck(firstName, lastName, email, password).None?
             && FindUserByEmail(old(db.users), Text.ToLower(email)).Some?) ==>
      reply == Respond(BAD_REQUEST, "Email already registered")
    ensures (RegisterCheck(firstName, lastName, email, password).None?
             && FindUserByEmail(old(db.users), Text.ToLower(email)).None?) ==>
      (reply.Done? <==> ValidName(Text.Trim(firstName)) && ValidName(Text.Trim(lastName)))
    ensures reply.Respond? && reply.status == SERVER_ERROR ==> reply.message == "Server error during registration"
    ensures reply.Done? ==>
      && RegisterCheck(firstName, lastName, email, password).None?
      && FindUserByEmail(old(db.users), Text.ToLower(email)).None?
      && |db.users| == |old(db.users)| + 1
      && db.users[..|old(db.users)|] == old(db.users)
      && (var u := db.users[|old(db.users)|];
          && u.id == old(db.nextId)
          && u.firstName == Text.Trim(firstName) && u.lastName == Text.Trim(lastName)
          && u.email == Text.ToLower(email)
          && u.role == ROLE_USER && u.cart == []
          && ComparePassword(password, u.password)
          && reply == Done(CREATED, Session(sign(u.id), ProfileOf(u))))
  {
    var check := RegisterCheck(firstName, lastName, email, password);
    if check.Some? {
      return Respond(BAD_REQUEST, check.value);
    }
    var existing := FindUserByEmail(db.users, Text.ToLower(email));
    if existing.Some? {
      return Respond(BAD_REQUEST, "Email already registered");
    }
    LookupKeyIsStoredEmail(email);
    var created := CreateUser(db.nextId, firstName, lastName, email, password);
    if created.None? {
      return Respond(SERVER_ERROR, "Server error during registration");
    }
    var user := created.value;
    db.AddUser(user);
    reply := Done(CREATED, Session(sign(user.id), ProfileOf(user)));
  }

  /** The login guards: both fields present, then the email pattern. */
  function LoginCheck(email: string, password: string): (r: Option<string>)
    ensures r.None? <==> email != "" && password != "" && IsValidEmail(email)
    ensures email == "" || password == "" ==> r == Some("Email and password required")
    ensures email != "" && password != "" && !IsValidEmail(email) ==>
      r == Some("Please provide a valid email address")
  {
    if email == "" || password == "" then Some("Email and password required")
    else if !IsValidEmail(email) then Some("Please provide a valid email address")
    else None
  }

  /** POST /login. An unknown email and a wrong password get the same 401;
      a successful login stamps `lastLogin` with the clock reading `now`. */
  method Login(db: Db, email: string, password: string, now: int, sign: UserId -> string)
    returns (reply: Reply<Session>)
    requires db.Valid()
    modifies db
    ensures db.Valid()
    ensures db.products == old(db.products) && db.orders == old(db.orders) && db.nextId == old(db.nextId)
    ensures reply.Respond? ==> db.users == old(db.users)
    ensures LoginCheck(email, password).Some? ==>
      reply == Respond(BAD_REQUEST, LoginCheck(email, password).value)
    ensures LoginCheck(email, password).None? ==>
      match FindUserByEmail(old(db.users), Text.ToLower(email))
      case None => reply == Respond(UNAUTHORIZED, "Invalid credentials")
      case Some(i) =>
        if !ComparePassword(password, old(db.users)[i].password) then
          reply == Respond(UNAUTHORIZED, "Invalid credentials")
        else
          && db.users == old(db.users)[i := old(db.users)[i].(lastLogin := Some(now))]
          && reply == Done(OK, Session(sign(old(db.users)[i].id), ProfileOf(old(db.users)[i])))
  {
    var check := LoginCheck(email, password);
    if check.Some? {
      return Respond(BAD_REQUEST, check.value);
    }
    var ui := FindUserByEmail(db.users, Text.ToLower(email));
    if ui.None? {
      return Respond(UNAUTHORIZED, "Invalid credentials");
    }
    var user := db.users[ui.value];
    if !ComparePassword(password, user.password) {
      return Respond(UNAUTHORIZED, "Invalid credentials");
    }
    db.ReplaceUser(ui.value, user.(lastLogin := Some(now)));
    reply := Done(OK, Session(sign(user.id), ProfileOf(user)));
  }

  /** GET /me: the caller's profile. */
  method GetMe(db: Db, uid: UserId) returns (reply: Reply<Profile>)
    ensures FindUser(db.users, uid).None? ==> reply == Respond(NOT_FOUND, "User not found")
    ensures FindUser(db.users, uid).Some? ==>
      reply == Done(OK, ProfileOf(db.users[FindUser(db.users, uid).value]))
  {
    var ui := FindUser(db.users, uid);
    if ui.None? {
      return Respond(NOT_FOUND, "User not found");
    }
    reply := Done(OK, ProfileOf(db.users[ui.value]));
  }

  /** The password-change guards: both fields present, then the new
      password's length. */
  function ChangePasswordCheck(currentPassword: string, newPassword: string): (r: Option<string>)
    ensures r.None? <==> currentPassword != "" && |newPassword| >= PASSWORD_MIN_LENGTH
    ensures currentPassword == "" || newPassword == "" ==> r == Some("Both passwords are required")
    ensures currentPassword != "" && newPassword != "" && |newPassword| < PASSWORD_MIN_LENGTH ==>
      r == Some("New password must be at least 6 characters")
  {
    if currentPassword == "" || newPassword == "" then Some("Both passwords are required")
    else if |newPassword| < PASSWORD_MIN_LENGTH then Some("New password must be at least 6 characters")
    else None
  }

  /** PATCH /change-password: a wrong current password is 401 and changes
      nothing; on success the new password is assigned and hashed on save. */
  method ChangePassword(db: Db, uid: UserId, currentPassword: string, newPassword: string)
    returns (reply: Reply<string>)
    requires db.Valid()
    modifies db
    ensures db.Valid()
    ensures db.products == old(db.products) && db.orders == old(db.orders) && db.nextId == old(db.nextId)
    ensures reply.Respond? ==> db.users == old(db.users)
    ensures ChangePasswordCheck(currentPassword, newPassword).Some? ==>
      reply == Respond(BAD_REQUEST, ChangePasswordCheck(currentPassword, newPassword).value)
    ensures ChangePasswordCheck(currentPassword, newPassword).None? ==>
      match FindUser(old(db.users), uid)
      case None => reply == Respond(NOT_FOUND, "User not found")
      case Some(i) =>
        if !ComparePassword(currentPassword, old(db.users)[i].password) then
          reply == Respond(UNAUTHORIZED, "Current password is incorrect")
        else
          && db.users == old(db.users)[i := old(db.users)[i].(password := PreSave(Plain(newPassword), true))]
          && reply == Done(OK, "Password changed successfully")
  {
    var check := ChangePasswordCheck(currentPassword, newPassword);
    if check.Some? {
      return Respond(BAD_REQUEST, check.value);
    }
    var ui := FindUser(db.users, uid);
    if ui.None? {
      return Respond(NOT_FOUND, "User not found");
    }
    var user := db.users[ui.value];
    if !ComparePassword(currentPassword, user.password) {
      return Respond(UNAUTHORIZED, "Current password is incorrect");
    }
    db.ReplaceUser(ui.value, user.(password := PreSave(Plain(newPassword), true)));
    reply := Done(OK, "Password changed successfully");
  }

  /** After a change, the new password and only the new password logs in. */
  lemma ChangedPasswordMatches(u: User, newPassword: string, candidate: string)
    ensures ComparePassword(candidate, u.(password := PreSave(Plain(newPassword), true)).password)
       <==> candidate == newPassword
  {
    SavedPasswordMatches(newPassword, candidate);
  }

  /** DELETE /delete-account: the caller's orders are deleted, then the caller. */
  method DeleteAccount(db: Db, uid: UserId) returns (reply: Reply<string>)
    requires db.Valid()
    modifies db
    ensures db.Valid()
    ensures db.products == old(db.products) && db.nextId == old(db.nextId)
    ensures FindUser(old(db.users), uid).None? ==>
      reply == Respond(NOT_FOUND, "User not found") && db.users == old(db.users) && db.orders == old(db.orders)
    ensures FindUser(old(db.users), uid).Some? ==>
      && reply == Done(OK, "Account and all your orders have been permanently deleted")
      && db.orders == Seqs.Filter(old(db.orders), (o: OrderModel.Order) => o.user != uid)
      && db.users == Seqs.Filter(old(db.users), (u: User) => u.id != uid)
    ensures forall i :: 0 <= i < |db.orders| ==> db.orders[i].user != uid
    ensures forall i :: 0 <= i < |db.users| ==> db.users[i].id != uid
  {
    var ui := FindUser(db.users, uid);
    if ui.None? {
      return Respond(NOT_FOUND, "User not found");
    }
    db.DeleteUserWithOrders(uid);
    reply := Done(OK, "Account and all your orders have been permanently deleted");
  }

  /** The `updates` object of the profile endpoint: each name is present
      only when it was given. */
  datatype ProfileUpdate = ProfileUpdate(firstName: Option<string>, lastName: Option<string>)

  /** The update validators: a name that is set must still be a valid name. */
  predicate UpdateValid(upd: ProfileUpdate)
  {
    && (upd.firstName.Some? ==> ValidName(upd.firstName.value))
    && (upd.lastName.Some? ==> ValidName(upd.lastName.value))
  }

  /** The update applied to a user: only the given names change. */
  function ApplyProfile(u: User, upd: ProfileUpdate): (r: User)
    ensures r.id == u.id && r.email == u.email && r.password == u.password
    ensures r.role == u.role && r.cart == u.cart && r.lastLogin == u.lastLogin
    ensures r.firstName == GetOr(upd.firstName, u.firstName)
    ensures r.lastName == GetOr(upd.lastName, u.lastName)
  {
    u.(firstName := GetOr(upd.firstName, u.firstName), lastName := GetOr(upd.lastName, u.lastName))
  }

  /** A valid user stays valid under an update the validators accept. */
  lemma ApplyProfileKeepsValid(u: User, upd: ProfileUpdate)
    requires ValidUser(u) && UpdateValid(upd)
    ensures ValidUser(ApplyProfile(u, upd))
  {
  }

  /** PATCH /update-profile: with neither name 400; the `updates` object is built
      field by field from the trimmed names given; the update validators run
      before the lookup, so an invalid name is 500 even for a missing user;
      then a missing user is 404. The email never changes. */
  method UpdateProfile(db: Db, uid: UserId, firstName: string, lastName: string)
    returns (reply: Reply<Profile>)
    requires db.Valid()
    modifies db
    ensures db.Valid()
    ensures db.products == old(db.products) && db.orders == old(db.orders) && db.nextId == old(db.nextId)
    ensures reply.Respond? ==> db.users == old(db.users)
    ensures firstName == "" && lastName == "" ==> reply == Respond(BAD_REQUEST, "Nothing to update")
    ensures reply.Done? ==>
      && FindUser(old(db.users), uid).Some?
      && (var i := FindUser(old(db.users), uid).value;
          var upd := ProfileUpdate(if firstName != "" then Some(Text.Trim(firstName)) else None,
                                   if lastName != "" then Some(Text.Trim(lastName)) else None);
          && UpdateValid(upd)
          && db.users == old(db.users)[i := ApplyProfile(old(db.users)[i], upd)]
          && db.users[i].email == old(db.users)[i].email
          && reply == Done(OK, ProfileOf(db.users[i])))
    ensures (firstName != "" || lastName != "") ==>
      (var upd := ProfileUpdate(if firstName != "" then Some(Text.Trim(firstName)) else None,
                                if lastName != "" then Some(Text.Trim(lastName)) else None);
       && (!UpdateValid(upd) ==> reply == Respond(SERVER_ERROR, "Server error"))
       && (UpdateValid(upd) && FindUser(old(db.users), uid).None? ==> reply == Respond(NOT_FOUND, "User not found"))
       && (UpdateValid(upd) && FindUser(old(db.users), uid).Some? ==> reply.Done?))
  {
    if firstName == "" && lastName == "" {
      return Respond(BAD_REQUEST, "Nothing to update");
    }
    var upd := ProfileUpdate(None, None);
    if firstName != "" {
      upd := upd.(firstName := Some(Text.Trim(firstName)));
    }
    if lastName != "" {
      upd := upd.(lastName := Some(Text.Trim(lastName)));
    }
    if !UpdateValid(upd) {
      return Respond(SERVER_ERROR, "Server error");
    }
    var ui := FindUser(db.users, uid);
    if ui.None? {
      return Respond(NOT_FOUND, "User not found");
    }
    var updated := ApplyProfile(db.users[ui.value], upd);
    ApplyProfileKeepsValid(db.users[ui.value], upd);
    db.ReplaceUser(ui.value, updated);
    reply := Done(OK, ProfileOf(updated));
  }
}
