/** The parts of an Express request/response the authentication core touches:
    the cookies it sets or clears on `res`, and the JSON body it answers with. */
module Http {
  import opened Wrappers
  import opened Jwt

  datatype SameSite = Strict

  /** `res.cookie(name, value, { httpOnly, secure, sameSite, maxAge })`; `maxAge` in milliseconds. */
  datatype Cookie = Cookie(
    name: string,
    value: string,
    httpOnly: bool,
    sameSite: SameSite,
    secure: bool,
    maxAge: int)

  datatype CookieOp = SetCookie(cookie: Cookie) | ClearCookie(name: string)

  /** The response object; its cookie operations in the order they were made. */
  class Response {
    var cookieOps: seq<CookieOp>

    constructor()
      ensures cookieOps == []
    {
      cookieOps := [];
    }

    /** `res.cookie(...)` */
    method SetCookie(c: Cookie)
      modifies this
      ensures cookieOps == old(cookieOps) + [CookieOp.SetCookie(c)]
    {
      cookieOps := cookieOps + [CookieOp.SetCookie(c)];
    }

    /** `res.clearCookie(name)` */
    method ClearCookie(name: string)
      modifies this
      ensures cookieOps == old(cookieOps) + [CookieOp.ClearCookie(name)]
    {
      cookieOps := cookieOps + [CookieOp.ClearCookie(name)];
    }
  }

  /** An account as serialised to a client. It has no password field at all;
      each handler decides which of the remaining fields it leaves out. */
  datatype UserView = UserView(
    id: AccountId,
    email: string,
    name: string,
    isVerified: bool,
    verificationToken: Option<string>,
    verificationExpiresAt: Option<int>,
    resetPasswordToken: Option<string>,
    resetPasswordExpiresAt: Option<int>,
    lastLogin: Option<int>)

  /** `res.status(status).json({ success, message, user })`. */
  datatype Reply = Reply(status: int, success: bool, message: Option<string>, user: Option<UserView>)

  /** `res.status(status).json({ success: false, message })`. */
  function Failure(status: int, message: string): Reply {
    Reply(status, false, Some(message), None)
  }
}
