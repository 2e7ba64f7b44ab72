/**
 * The user records the handlers look up (src/models/User.js) and the
 * `req.user` object the authentication middleware attaches to a request.
 */
module Accounts {
  import opened Wrappers

  type Id = string

  /**
   * A stored user.  `fcmToken` is the push-notification token the notification
   * service reads; the User schema declares no such path, so a document read
   * through the schema as it stands never carries one (`AsStored`).
   */
  datatype User = User(id: Id, firebaseUid: string, email: string, role: string,
                       fcmToken: Option<string>)

  /** What a user found through the schema as declared holds: `user.fcmToken` reads undefined. */
  predicate AsStored(u: User) {
    u.fcmToken.None?
  }

  /** `req.user`: the verified uid plus role, id and email copied from the stored user. */
  datatype RequestUser = RequestUser(uid: string, role: string, id: Id, email: string)

  predicate IsAdmin(u: RequestUser) {
    u.role == "admin"
  }

  predicate IsStaffOrAdmin(u: RequestUser) {
    u.role == "admin" || u.role == "staff"
  }
}
