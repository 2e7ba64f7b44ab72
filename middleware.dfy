/**
 * The two request gates: `authenticate` and `isAdmin` of
 * src/middlewares/auth.middleware.js, and the `isAdmin` of
 * src/middlewares/role.middleware.js.  Firebase's `verifyIdToken` is the
 * function `verify` (None when it throws); `User.findOne({firebaseUid})` is
 * the `found` argument over the user store.
 */
module Middleware {
  import opened Wrappers
  import opened Text
  import opened Accounts

  const Unauthorized := 401
  const Forbidden := 403

  /** The part of `authenticate` that reads the header: the second space-separated field after 'Bearer '. */
  function BearerToken(header: Option<string>): (token: Option<string>)
    ensures token.Some? <==> header.Some? && StartsWith(header.value, "Bearer ")
    ensures token.Some? ==> ' ' !in token.value
  {
    if header.Some? && StartsWith(header.value, "Bearer ") then
      var parts := Split(header.value, ' ');
      Some(if |parts| > 1 then parts[1] else "")
    else None
  }

  /** A single-word token comes back as it is. */
  lemma BearerTokenOfWord(t: string)
    requires ' ' !in t
    ensures BearerToken(Some("Bearer " + t)) == Some(t)
  {
    assert "Bearer " + t == "Bearer" + [' '] + t;
    SplitAfterPiece("Bearer", ' ', t);
    SplitNoSeparator(t, ' ');
  }

  /** Two spaces after 'Bearer' give the empty token, and any scheme other than 'Bearer ' gives none. */
  lemma BearerTokenEdgeCases()
    ensures BearerToken(Some("Bearer  x")) == Some("")
    ensures BearerToken(Some("bearer x")).None? && BearerToken(Some("Bearer")).None? && BearerToken(None).None?
  {
    assert "Bearer  x" == "Bearer" + [' '] + " x";
    SplitAfterPiece("Bearer", ' ', " x");
    assert " x" == "" + [' '] + "x";
    SplitAfterPiece("", ' ', "x");
  }

  /** `User.findOne({firebaseUid: uid})`: None exactly when no user has that uid. */
  predicate FindsByFirebaseUid(users: map<Id, User>, uid: string, found: Option<Id>) {
    (found.None? <==> forall id :: id in users ==> users[id].firebaseUid != uid)
    && (found.Some? ==> found.value in users && users[found.value].firebaseUid == uid)
  }

  datatype AuthResult = Rejected(code: int, message: string) | Authenticated(user: RequestUser)

  /** The uid verification yields for the request's header, if any. */
  function VerifiedUid(header: Option<string>, verify: string -> Option<string>): Option<string> {
    var token := BearerToken(header);
    if token.None? then None else verify(token.value)
  }

  /**
   * `authenticate`: 401 without a well-formed header, when verification
   * fails, or when no stored user has the verified uid; otherwise `req.user`
   * holds the uid with the stored user's role, id and email.
   */
  function Authenticate(header: Option<string>, verify: string -> Option<string>,
                        users: map<Id, User>, found: Option<Id>): (r: AuthResult)
    requires VerifiedUid(header, verify).Some? ==> FindsByFirebaseUid(users, VerifiedUid(header, verify).value, found)
    ensures r.Rejected? ==> r.code == Unauthorized
    ensures r.Authenticated? <==>
              VerifiedUid(header, verify).Some?
              && exists id :: id in users && users[id].firebaseUid == VerifiedUid(header, verify).value
    ensures r.Authenticated? ==>
              found.Some? && found.value in users
              && r.user == RequestUser(VerifiedUid(header, verify).value, users[found.value].role,
                                        found.value, users[found.value].email)
  {
    var token := BearerToken(header);
    if token.None? then Rejected(Unauthorized, "Unauthorized")
    else match verify(token.value)
      case None => Rejected(Unauthorized, "Unauthorized")
      case Some(uid) =>
        if found.None? then Rejected(Unauthorized, "User not registered")
        else
          var u := users[found.value];
          Authenticated(RequestUser(uid, u.role, found.value, u.email))
  }

  /** The gate's verdict: pass on to the next handler, or answer with a code. */
  datatype Gate = Pass | Deny(code: int)

  /** `isAdmin` of the auth middleware: anything but an admin user is 403, a missing user included. */
  function AuthIsAdmin(user: Option<RequestUser>): (g: Gate)
    ensures g.Pass? <==> user.Some? && IsAdmin(user.value)
    ensures g.Deny? ==> g.code == Forbidden
  {
    if user.Some? && user.value.role == "admin" then Pass else Deny(Forbidden)
  }

  /** `isAdmin` of the role middleware: 401 without a user, checked before 403 for a non-admin. */
  function RoleIsAdmin(user: Option<RequestUser>): (g: Gate)
    ensures user.None? ==> g == Deny(Unauthorized)
    ensures user.Some? && !IsAdmin(user.value) ==> g == Deny(Forbidden)
    ensures g.Pass? <==> user.Some? && IsAdmin(user.value)
  {
    if user.None? then Deny(Unauthorized)
    else if user.value.role != "admin" then Deny(Forbidden)
    else Pass
  }

  /** The two admin gates let the same requests through and differ only in the code for a missing user. */
  lemma AdminGatesAgree(user: Option<RequestUser>)
    ensures AuthIsAdmin(user).Pass? <==> RoleIsAdmin(user).Pass?
    ensures user.Some? ==> AuthIsAdmin(user) == RoleIsAdmin(user)
    ensures user.None? ==> AuthIsAdmin(user) == Deny(Forbidden) && RoleIsAdmin(user) == Deny(Unauthorized)
  {
  }

  /** Whoever passes `authenticate` carries the role of the stored user, so only a stored admin passes the admin gates. */
  lemma AdminGateNeedsStoredAdmin(header: Option<string>, verify: string -> Option<string>,
                                 users: map<Id, User>, found: Option<Id>)
    requires VerifiedUid(header, verify).Some? ==> FindsByFirebaseUid(users, VerifiedUid(header, verify).value, found)
    requires Authenticate(header, verify, users, found).Authenticated?
    requires RoleIsAdmin(Some(Authenticate(header, verify, users, found).user)).Pass?
    ensures found.Some? && found.value in users && users[found.value].role == "admin"
  {
  }
}
