// The two route guards: `protect`, which reads a bearer token from the
// Authorization header, verifies it and loads its user, and `admin`, which
// lets only administrators through. Token verification is a parameter.

module AuthMiddleware {
  import opened Wrappers
  import opened UserModel
  import opened Store
  import Text

  /** What `protect` attaches to the request: the user's id and role only. */
  datatype RequestUser = RequestUser(id: UserId, role: string)

  /** A guard either calls `next` with the request user or answers itself. */
  datatype Gate = Pass(user: RequestUser) | Refuse(status: nat, message: string)

  /** `authorization?.startsWith('Bearer')` then `split(' ')[1]`; an absent
      second word and an empty one are both no token (`!token`). */
  function ExtractToken(header: Option<string>): (r: Option<string>)
    ensures r.Some? ==> header.Some? && Text.StartsWith(header.value, "Bearer") && r.value != ""
    ensures r.Some? ==> |Text.Split(header.value, ' ')| >= 2 && r.value == Text.Split(header.value, ' ')[1]
    ensures r.Some? ==> ' ' !in r.value
  {
    if header.None? || !Text.StartsWith(header.value, "Bearer") then None
    else
      var words := Text.Split(header.value, ' ');
      if |words| < 2 || words[1] == "" then None
      else
        SplitWordsHaveNoSeparator(header.value, ' ');
        Some(words[1])
  }

  /** No word of a split contains the separator. */
  lemma {:induction false} SplitWordsHaveNoSeparator(s: string, c: char)
    ensures forall i :: 0 <= i < |Text.Split(s, c)| ==> c !in Text.Split(s, c)[i]
    decreases |s|
  {
    if s != [] {
      SplitWordsHaveNoSeparator(s[1..], c);
    }
  }

  /** A well-formed `Bearer <token>` header yields exactly the token. */
  lemma BearerHeaderYieldsToken(token: string)
    requires token != "" && ' ' !in token
    ensures ExtractToken(Some("Bearer " + token)) == Some(token)
  {
    var h := "Bearer " + token;
    assert h == "Bearer" + [' '] + token;
    assert ' ' !in "Bearer";
    Text.SplitAtSeparator("Bearer", ' ', token);
    Text.SplitWithout(token, ' ');
    assert Text.StartsWith(h, "Bearer");
  }

  /** A header of another scheme never yields a token. */
  lemma OtherSchemeYieldsNothing(header: string)
    requires |header| >= 6 && header[..6] != "Bearer"
    ensures ExtractToken(Some(header)) == None
  {
  }

  /** `protect`: no token, a token that fails verification, and a token
      whose user no longer exists are each 401; otherwise the request
      carries exactly the user's id and role. */
  function Protect(header: Option<string>, verify: string -> Option<UserId>, users: seq<User>): (r: Gate)
    ensures ExtractToken(header).None? ==> r == Refuse(UNAUTHORIZED, "Not authorized, no token")
    ensures ExtractToken(header).Some? && verify(ExtractToken(header).value).None? ==>
      r == Refuse(UNAUTHORIZED, "Token invalid or expired")
    ensures (ExtractToken(header).Some? && verify(ExtractToken(header).value).Some?
             && FindUser(users, verify(ExtractToken(header).value).value).None?) ==>
      r == Refuse(UNAUTHORIZED, "User not found")
    ensures r.Refuse? ==> r.status == UNAUTHORIZED
    ensures r.Pass? <==>
      && ExtractToken(header).Some?
      && verify(ExtractToken(header).value).Some?
      && FindUser(users, verify(ExtractToken(header).value).value).Some?
    ensures r.Pass? ==>
      && ExtractToken(header).Some?
      && verify(ExtractToken(header).value).Some?
      && r.user.id == verify(ExtractToken(header).value).value
      && FindUser(users, r.user.id).Some?
      && r.user.role == users[FindUser(users, r.user.id).value].role
  {
    match ExtractToken(header)
    case None => Refuse(UNAUTHORIZED, "Not authorized, no token")
    case Some(token) =>
      match verify(token)
      case None => Refuse(UNAUTHORIZED, "Token invalid or expired")
      case Some(id) =>
        match FindUser(users, id)
        case None => Refuse(UNAUTHORIZED, "User not found")
        case Some(i) => Pass(RequestUser(users[i].id, users[i].role))
  }

  /** `admin`: `next` iff a request user is attached and their role is
      "admin"; otherwise 403. */
  function AdminGate(user: Option<RequestUser>): (r: Gate)
    ensures r.Pass? <==> user.Some? && user.value.role == ROLE_ADMIN
    ensures r.Pass? ==> r.user == user.value
    ensures r.Refuse? ==> r == Refuse(FORBIDDEN, "Admin access required")
  {
    if user.Some? && user.value.role == ROLE_ADMIN then Pass(user.value)
    else Refuse(FORBIDDEN, "Admin access required")
  }
}
