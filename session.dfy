/**
 * The session gate: the check authMiddleware runs in front of "/" and
 * "/ws", and the login handler that issues the session cookie. The
 * password hash (SHA-256, hex-encoded) is a parameter `H` of the model.
 */
module Session {
  import opened Wrappers

  /** COOKIE_NAME. */
  const CookieName := "gotail_session"

  /** A hex-encoded SHA-256 digest: 64 characters, so never empty. */
  type Digest = s: string | |s| == 64
    witness "0000000000000000000000000000000000000000000000000000000000000000"

  /** The parts of an HTTP request the gate and the login handler look at. */
  datatype Request = Request(
    path: string,
    httpMethod: string,
    cookies: map<string, string>,
    password: string)   // FormValue("password"): "" when the form has none

  /** A cookie set by the server; its expiry (24 hours from now) is not modelled. */
  datatype Cookie = Cookie(name: string, value: string, path: string, httpOnly: bool)

  /** What a handler does with a request. */
  datatype Response =
    | Forward                          // the protected handler runs
    | Redirect(location: string)       // 302 Found
    | Unauthorized                     // 401, for the stream endpoint
    | LoginPage(error: bool)           // the login form, flagged with an error or not
    | LoginOk(cookie: Cookie)          // Set-Cookie, then 302 to "/"
    | Empty                            // nothing written (a method other than GET and POST)

  /** serverPassHash: the hash of the configured password, or "" when none is configured (open mode). */
  function ServerPassHash(password: string, H: string -> Digest): (hash: string)
    ensures hash == "" <==> password == ""
    ensures password != "" ==> hash == H(password)
  {
    if password != "" then H(password) else ""
  }

  /** The value of the session cookie the request carries, if any. */
  function SessionCookie(req: Request): Option<string>
  {
    if CookieName in req.cookies then Some(req.cookies[CookieName]) else None
  }

  /**
   * authMiddleware: in open mode every request goes through; otherwise a
   * request goes through exactly when its session cookie equals the stored
   * hash. A refused request to the stream endpoint gets 401; any other
   * refused request is sent to the login page.
   */
  function AuthMiddleware(passHash: string, req: Request): (r: Response)
    ensures r.Forward? <==> passHash == "" || SessionCookie(req) == Some(passHash)
    ensures !r.Forward? && req.path == "/ws" ==> r == Unauthorized
    ensures !r.Forward? && req.path != "/ws" ==> r == Redirect("/login")
  {
    if passHash == "" then Forward
    else
      match SessionCookie(req)
      case Some(value) =>
        if value != passHash then (if req.path == "/ws" then Unauthorized else Redirect("/login"))
        else Forward
      case None =>
        if req.path == "/ws" then Unauthorized else Redirect("/login")
  }

  /** The session cookie issued for a hash. */
  function SessionCookieFor(hash: string): Cookie
  {
    Cookie(CookieName, hash, "/", true)
  }

  /**
   * handleLogin: in open mode, back to "/"; GET shows the form; POST hashes
   * the submitted password and, on a match, issues the session cookie
   * (site-wide, HTTP only) and redirects to "/", or else shows the form
   * flagged with an error and issues nothing.
   */
  function HandleLogin(passHash: string, req: Request, H: string -> Digest): (r: Response)
    ensures passHash == "" ==> r == Redirect("/")
    ensures r.LoginOk? <==> passHash != "" && req.httpMethod == "POST" && H(req.password) == passHash
    ensures r.LoginOk? ==>
      r.cookie.name == CookieName && r.cookie.value == passHash && r.cookie.path == "/" && r.cookie.httpOnly
    ensures passHash != "" && req.httpMethod == "POST" && H(req.password) != passHash ==> r == LoginPage(true)
    ensures passHash != "" && req.httpMethod == "GET" ==> r == LoginPage(false)
  {
    if passHash == "" then Redirect("/")
    else if req.httpMethod == "GET" then LoginPage(false)
    else if req.httpMethod == "POST" then
      var hash: string := H(req.password);
      if hash == passHash then LoginOk(SessionCookieFor(hash)) else LoginPage(true)
    else Empty
  }

  /** The browser's cookies after it has received `r`. */
  function StoreCookies(jar: map<string, string>, r: Response): map<string, string>
  {
    if r.LoginOk? then jar[r.cookie.name := r.cookie.value] else jar
  }

  /** Open mode: every request to a gated path goes through, and the login page leads back home. */
  lemma OpenMode(req: Request, H: string -> Digest)
    ensures AuthMiddleware(ServerPassHash("", H), req) == Forward
    ensures HandleLogin(ServerPassHash("", H), req, H) == Redirect("/")
  {
  }

  /**
   * The login round trip: with a password configured, posting that
   * password issues a cookie that then lets the same browser through the
   * gate, for the dashboard and for the stream endpoint alike.
   */
  lemma LoginGrantsAccess(password: string, H: string -> Digest, login: Request, next: Request)
    requires password != ""
    requires login.httpMethod == "POST" && login.password == password
    ensures var hash := ServerPassHash(password, H);
      var response := HandleLogin(hash, login, H);
      response.LoginOk? &&
      AuthMiddleware(hash, next.(cookies := StoreCookies(next.cookies, response))) == Forward
  {
  }

  /**
   * A failed login changes nothing for the browser: no cookie is stored,
   * so every later request is decided exactly as before, and the form
   * comes back flagged with an error.
   */
  lemma WrongPasswordGrantsNothing(password: string, H: string -> Digest, login: Request, next: Request)
    requires password != ""
    requires login.httpMethod == "POST" && H(login.password) != H(password)
    ensures var hash := ServerPassHash(password, H);
      var response := HandleLogin(hash, login, H);
      response == LoginPage(true) &&
      AuthMiddleware(hash, next.(cookies := StoreCookies(next.cookies, response))) == AuthMiddleware(hash, next)
  {
  }

  /**
   * With a password configured, a browser without the right cookie is
   * turned away: the stream endpoint answers 401 rather than redirecting.
   */
  lemma UnauthenticatedRejected(password: string, H: string -> Digest, req: Request)
    requires password != ""
    requires SessionCookie(req) != Some(H(password))
    ensures req.path == "/ws" ==> AuthMiddleware(ServerPassHash(password, H), req) == Unauthorized
    ensures req.path != "/ws" ==> AuthMiddleware(ServerPassHash(password, H), req) == Redirect("/login")
  {
  }
}
