/** The request-classification helpers of middleware/auth.go: bearer-token
    extraction, public routes, client address, the CORS origin allow-list,
    the admin gate and the rate-limit key. Headers and context values are
    parameters; an absent header is the empty string, as `GetHeader`
    returns it. */
module AuthMiddleware {
  import opened Common

  const BearerPrefix := "Bearer "

  /** `extractTokenFromHeader`: one leading "Bearer " is stripped; any
      other header is taken as the token itself. */
  function ExtractTokenFromHeader(header: string): (token: string)
    ensures header == "" ==> token == ""
    ensures HasPrefix(header, BearerPrefix) ==> header == BearerPrefix + token
    ensures !HasPrefix(header, BearerPrefix) ==> token == header
  {
    if header == "" then ""
    else if HasPrefix(header, BearerPrefix) then header[|BearerPrefix|..]
    else header
  }

  /** A token sent as "Bearer <token>" comes back as it was sent. */
  lemma ExtractBearerToken(token: string)
    ensures ExtractTokenFromHeader(BearerPrefix + token) == token
  {
    assert (BearerPrefix + token)[..|BearerPrefix|] == BearerPrefix;
  }

  const PublicRoutes: seq<string> := [
    "/api/auth/login",
    "/api/auth/register",
    "/api/auth/logout",
    "/api/auth/verify",
    "/api/auth/forgot-password",
    "/api/auth/reset-password",
    "/api/public/",
    "/api/embed/",
    "/health",
    "/ping",
    "/widget.js",
    "/api/projects/"
  ]

  /** `isPublicRoute`: a prefix test over the list. */
  predicate IsPublicRoute(path: string)
  {
    AnyPrefix(path, PublicRoutes)
  }

  lemma IsPublicRouteIff(path: string)
    ensures IsPublicRoute(path) <==> exists i :: 0 <= i < |PublicRoutes| && HasPrefix(path, PublicRoutes[i])
  {
    AnyPrefixIff(path, PublicRoutes);
  }

  /** Every path under "/api/projects/" is public, the subscription and
      chat endpoints of every project included. */
  lemma EveryProjectPathIsPublic(rest: string)
    ensures IsPublicRoute("/api/projects/" + rest)
  {
    var path := "/api/projects/" + rest;
    assert path[..|"/api/projects/"|] == "/api/projects/";
    assert HasPrefix(path, PublicRoutes[11]);
    IsPublicRouteIff(path);
  }

  /** `getClientIP`: the first entry of X-Forwarded-For, else X-Real-IP,
      else the peer address. */
  function GetClientIP(forwardedFor: string, realIP: string, peer: string): (ip: string)
    ensures forwardedFor != "" ==> ',' !in ip && HasPrefix(forwardedFor, ip)
    ensures forwardedFor != "" && ',' in forwardedFor ==> ip == forwardedFor[..IndexOf(forwardedFor, ',')]
    ensures forwardedFor != "" && ',' !in forwardedFor ==> ip == forwardedFor
    ensures forwardedFor == "" && realIP != "" ==> ip == realIP
    ensures forwardedFor == "" && realIP == "" ==> ip == peer
  {
    if forwardedFor != "" then Split(forwardedFor, ',')[0]
    else if realIP != "" then realIP
    else peer
  }

  /** A forwarded chain "client, proxy, ..." yields the client. */
  lemma ClientIPIsFirstHop(client: string, proxies: string)
    requires client != "" && ',' !in client
    ensures GetClientIP(client + "," + proxies, "", "") == client
  {
    var ff := client + "," + proxies;
    assert ff[|client|] == ',';
    var k := IndexOf(ff, ',');
    assert k >= |client| by {
      assert forall j :: 0 <= j < |client| ==> ff[j] == client[j];
    }
    assert k <= |client| by {
      assert ff[..k] == ff[..|client|] + ff[|client|..k];
    }
    assert ff[..|client|] == client;
  }

  // -------------------------------------------------------------------
  // CORS
  // -------------------------------------------------------------------

  /** The allow-list as written: two entries carry a path ("/" and
      "/api"), which a browser's `Origin` header never does. */
  const AllowedOriginsAsWritten: seq<string> := [
    "http://localhost:3000",
    "http://localhost:3001",
    "http://127.0.0.1:3000",
    "http://192.168.1.159:3000",
    "https://troikacompletefrontend.onrender.com",
    "https://troika-admin-dashborad.onrender.com/",
    "https://troika-admin-dashborad.onrender.com/api",
    "https://admin.troikatech.com"
  ]

  const AdminDashboardOrigin := "https://troika-admin-dashborad.onrender.com"

  /** The allow-list as evidently intended: the admin dashboard's origin
      without a path. */
  const AllowedOrigins: seq<string> := [
    "http://localhost:3000",
    "http://localhost:3001",
    "http://127.0.0.1:3000",
    "http://192.168.1.159:3000",
    "https://troikacompletefrontend.onrender.com",
    AdminDashboardOrigin,
    "https://admin.troikatech.com"
  ]

  /** A serialised origin, `scheme://host[:port]`: no '/' after the "//". */
  predicate IsOrigin(s: string)
  {
    (HasPrefix(s, "http://") && '/' !in s[|"http://"|..]) ||
    (HasPrefix(s, "https://") && '/' !in s[|"https://"|..])
  }

  /** What the CORS middleware decides: the origin to reflect, if any, and
      whether the request ends here (a preflight, answered 204). */
  datatype CorsDecision = CorsDecision(allowOrigin: Option<string>, endRequest: bool)

  function Cors(allowed: seq<string>, origin: string, httpMethod: string, development: bool): (d: CorsDecision)
    ensures d.allowOrigin.Some? <==> origin in allowed || development
    ensures d.allowOrigin.Some? ==> d.allowOrigin.value == origin
    ensures d.endRequest <==> httpMethod == "OPTIONS"
  {
    CorsDecision(if origin in allowed || development then Some(origin) else None, httpMethod == "OPTIONS")
  }

  /** The allow-list of the inline CORS handler that main.go installs
      before every other middleware. */
  const ServerAllowedOrigins: seq<string> := [
    AdminDashboardOrigin,
    "https://troikacompletefrontend.onrender.com",
    "https://admin.troikatech.com",
    "http://localhost:3000",
    "http://localhost:3001"
  ]

  /** The CORS outcome of the wired chain: the inline handler runs first and
      answers a preflight itself; any other request then passes through
      `CORSMiddleware` with `authList`, which overwrites the reflected origin
      only when it allows the origin itself. */
  function ServedCors(authList: seq<string>, origin: string, httpMethod: string, development: bool): (d: CorsDecision)
    ensures httpMethod == "OPTIONS" ==>
      d.endRequest && (d.allowOrigin.Some? <==> origin in ServerAllowedOrigins || development)
    ensures httpMethod != "OPTIONS" ==>
      !d.endRequest && (d.allowOrigin.Some? <==> origin in ServerAllowedOrigins || origin in authList || development)
    ensures d.allowOrigin.Some? ==> d.allowOrigin.value == origin
  {
    var first := Cors(ServerAllowedOrigins, origin, httpMethod, development);
    if first.endRequest then first
    else
      var second := Cors(authList, origin, httpMethod, development);
      CorsDecision(if second.allowOrigin.Some? then second.allowOrigin else first.allowOrigin, second.endRequest)
  }

  /** `CORSMiddleware` on its own, with its list as written, refuses the
      admin dashboard outside development: no origin matches the entries
      that carry a path. */
  lemma CorsAsWrittenRefusesDashboard(httpMethod: string)
    ensures Cors(AllowedOriginsAsWritten, AdminDashboardOrigin, httpMethod, false).allowOrigin.None?
    ensures !IsOrigin(AllowedOriginsAsWritten[5]) && !IsOrigin(AllowedOriginsAsWritten[6])
  {
    assert AdminDashboardOrigin != AllowedOriginsAsWritten[5];
    assert AdminDashboardOrigin != AllowedOriginsAsWritten[6];
    assert AllowedOriginsAsWritten[5][|"https://"|..][|"troika-admin-dashborad.onrender.com"|] == '/';
    assert AllowedOriginsAsWritten[6][|"https://"|..][|"troika-admin-dashborad.onrender.com"|] == '/';
  }

  /** With the intended list the middleware reflects the dashboard's
      origin, and every origin the written list could ever reflect. */
  lemma CorsAcceptsDashboard(origin: string, httpMethod: string, development: bool)
    ensures Cors(AllowedOrigins, AdminDashboardOrigin, httpMethod, false).allowOrigin == Some(AdminDashboardOrigin)
    ensures IsOrigin(origin) && Cors(AllowedOriginsAsWritten, origin, httpMethod, development).allowOrigin.Some? ==>
      Cors(AllowedOrigins, origin, httpMethod, development).allowOrigin.Some?
  {
    assert AllowedOrigins[5] == AdminDashboardOrigin;
    if IsOrigin(origin) && origin in AllowedOriginsAsWritten {
      CorsAsWrittenRefusesDashboard(httpMethod);
      var i :| 0 <= i < |AllowedOriginsAsWritten| && AllowedOriginsAsWritten[i] == origin;
      assert i != 5 && i != 6;
      if i == 7 {
        assert AllowedOrigins[6] == origin;
      } else {
        assert AllowedOrigins[i] == origin;
      }
    }
  }
  /** In the served program the defect is hidden: the inline handler
      reflects the dashboard's origin for every method, preflight included. */
  lemma ServedCorsAcceptsDashboard(httpMethod: string)
    ensures ServedCors(AllowedOriginsAsWritten, AdminDashboardOrigin, httpMethod, false).allowOrigin == Some(AdminDashboardOrigin)
  {
    assert ServerAllowedOrigins[0] == AdminDashboardOrigin;
  }

  /** For every real origin the wired chain decides the same with the
      written list and with the corrected one, so the written list's entries
      change nothing while the inline handler is installed. */
  lemma ServedCorsSameForEitherList(origin: string, httpMethod: string, development: bool)
    requires IsOrigin(origin)
    ensures ServedCors(AllowedOriginsAsWritten, origin, httpMethod, development) ==
            ServedCors(AllowedOrigins, origin, httpMethod, development)
  {
    CorsAsWrittenRefusesDashboard(httpMethod);
    assert ServerAllowedOrigins[0] == AdminDashboardOrigin;
    assert AllowedOrigins[5] == AdminDashboardOrigin;
    if origin in AllowedOriginsAsWritten {
      var i :| 0 <= i < |AllowedOriginsAsWritten| && AllowedOriginsAsWritten[i] == origin;
      assert i != 5 && i != 6;
      if i == 7 {
        assert AllowedOrigins[6] == origin;
      } else {
        assert AllowedOrigins[i] == origin;
      }
    }
    if origin in AllowedOrigins {
      var i :| 0 <= i < |AllowedOrigins| && AllowedOrigins[i] == origin;
      if i == 6 {
        assert AllowedOriginsAsWritten[7] == origin;
      } else if i < 5 {
        assert AllowedOriginsAsWritten[i] == origin;
      }
    }
  }


  // -------------------------------------------------------------------
  // AdminMiddleware and rate limiting
  // -------------------------------------------------------------------

  /** `AdminMiddleware`: `userRole` is the context value, `None` when it
      was never set. */
  function AdminMiddleware(userRole: Option<string>): (d: Decision)
    ensures d.Allowed? <==> userRole == Some("admin")
    ensures userRole.None? ==> d == Blocked("Authentication required")
  {
    match userRole
    case None => Blocked("Authentication required")
    case Some(role) => if role != "admin" then Blocked("Admin access required") else Allowed
  }

  /** The key, quota and window `RateLimitMiddleware` asks for. */
  datatype RateLimitKey = RateLimitKey(identifier: string, limit: int, window: int)

  function RateLimitKeyFor(userID: string, clientIP: string): (k: RateLimitKey)
    ensures k.window == Hour
    ensures userID != "" ==> k == RateLimitKey("user:" + userID, 1000, Hour)
    ensures userID == "" ==> k == RateLimitKey("ip:" + clientIP, 100, Hour)
  {
    if userID != "" then RateLimitKey("user:" + userID, 1000, Hour)
    else RateLimitKey("ip:" + clientIP, 100, Hour)
  }

  /** A user's key never collides with an address's key. */
  lemma RateLimitKeysDisjoint(userID: string, a: string, b: string)
    requires userID != ""
    ensures RateLimitKeyFor(userID, a).identifier != RateLimitKeyFor("", b).identifier
  {
    assert RateLimitKeyFor(userID, a).identifier[0] == 'u';
    assert RateLimitKeyFor("", b).identifier[0] == 'i';
  }

  /** `checkRateLimit`: the stub that lets every request through. */
  function CheckRateLimit(identifier: string, limit: int, window: int): (ok: bool)
    ensures ok
  {
    true
  }

  /** `RateLimitMiddleware` never refuses a request. */
  function RateLimitMiddleware(userID: string, clientIP: string): (d: Decision)
    ensures d.Allowed?
  {
    var k := RateLimitKeyFor(userID, clientIP);
    if !CheckRateLimit(k.identifier, k.limit, k.window) then Blocked("Rate limit exceeded") else Allowed
  }
}
