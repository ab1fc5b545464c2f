/**
 * The per-request chain of the backend: the CORS wrapper with its preflight
 * exit, the connection gate around every mounted route group, the 404
 * fallback and the 500 error handler. Each stage either answers the request
 * or passes it on; `Handle` runs them in the order the application mounts
 * them.
 */
module RequestGate {
  import opened Optional
  import opened Bootstrap

  type Header = (string, string)

  /**
   * A response body: nothing (`res.end()`), the gate's own JSON shape
   * `{success, message, error?}` with an absent `error` left out, or whatever
   * a route handler of a mounted group sent, which is not modelled.
   */
  datatype Body = Empty | Json(success: bool, message: string, error: Option<string>) | Routed(content: string)

  datatype Response = Response(status: nat, headers: seq<Header>, body: Body)

  /**
   * What the router of a matched group does with the request: it answers it,
   * throws while it is being called, passes an error to `next(err)`, or calls
   * `next()` without one.
   */
  datatype RouterOutcome =
    | Responds(status: nat, content: string)
    | ThrowsSync(error: Failure)
    | NextWithError(error: Failure)
    | Next

  /** What a mounted route group does: answer, fall through, or raise to the error handler. */
  datatype GroupResult = Reply(status: nat, body: Body) | Pass | Raise(error: Failure)

  const Preflight: string := "OPTIONS"
  const ProductionOrigin: string := "https://recipedium.vercel.app"
  const DevelopmentOrigin: string := "http://localhost:3000"
  const AllowedMethods: string := "GET, POST, PUT, DELETE, PATCH, OPTIONS"
  const AllowedHeaders: string := "X-CSRF-Token, X-Requested-With, Accept, Accept-Version, Content-Length, Content-MD5, Content-Type, Date, X-Api-Version, Authorization"

  const UnavailableBody: Body := Json(false, "Database service temporarily unavailable", None)
  const NotFoundBody: Body := Json(false, "Route not found", None)
  const ServerErrorMessage: string := "Server Error"

  /** The value of the first header called `name`, if any. */
  function HeaderValue(headers: seq<Header>, name: string): Option<string>
  {
    if headers == [] then None
    else if headers[0].0 == name then Some(headers[0].1)
    else HeaderValue(headers[1..], name)
  }

  /** The allowed origin: the deployed front end in production, the local one in every other mode. */
  function AllowOrigin(nodeEnv: string): (origin: string)
    ensures origin == ProductionOrigin <==> nodeEnv == "production"
    ensures origin == DevelopmentOrigin <==> nodeEnv != "production"
  {
    assert ProductionOrigin[4] != DevelopmentOrigin[4];
    if nodeEnv == "production" then ProductionOrigin else DevelopmentOrigin
  }

  /** The four access-control headers the CORS wrapper sets on every request, before the method check. */
  function CorsHeaders(nodeEnv: string): (headers: seq<Header>)
    ensures |headers| == 4
    ensures HeaderValue(headers, "Access-Control-Allow-Origin") == Some(AllowOrigin(nodeEnv))
    ensures HeaderValue(headers, "Access-Control-Allow-Methods") == Some(AllowedMethods)
    ensures HeaderValue(headers, "Access-Control-Allow-Headers") == Some(AllowedHeaders)
    ensures HeaderValue(headers, "Access-Control-Allow-Credentials") == Some("true")
  {
    var h := [ ("Access-Control-Allow-Origin", AllowOrigin(nodeEnv)),
               ("Access-Control-Allow-Methods", AllowedMethods),
               ("Access-Control-Allow-Headers", AllowedHeaders),
               ("Access-Control-Allow-Credentials", "true") ];
    // The four names share the prefix "Access-Control-Allow-" and differ just after it.
    assert h[0].0[21] == 'O' && h[1].0[21] == 'M' && h[2].0[21] == 'H' && h[3].0[21] == 'C';
    assert HeaderValue(h[2..], "Access-Control-Allow-Headers") == Some(AllowedHeaders);
    assert HeaderValue(h[3..], "Access-Control-Allow-Credentials") == Some("true");
    assert HeaderValue(h[2..], "Access-Control-Allow-Credentials") == Some("true") by {
      assert h[2..][1..] == h[3..];
    }
    assert h[1..][1..] == h[2..];
    h
  }

  /**
   * The wrapper around one mounted router: the connection call and the
   * router call share one `try`, so a failed connection and a router that
   * throws while being called both end in the 503 answer.
   */
  function MountedGroup(conn: Result, router: RouterOutcome): (g: GroupResult)
    ensures g == Reply(503, UnavailableBody) <==> conn.Thrown? || router.ThrowsSync?
    ensures conn.Success? && router.Responds? ==> g == Reply(router.status, Routed(router.content))
    ensures g.Raise? <==> conn.Success? && router.NextWithError?
    ensures g.Raise? ==> g.error == router.error
    ensures g.Pass? <==> conn.Success? && router.Next?
  {
    if conn.Thrown? then Reply(503, UnavailableBody)
    else match router
      case ThrowsSync(_) => Reply(503, UnavailableBody)
      case Responds(status, content) => Reply(status, Routed(content))
      case NextWithError(e) => Raise(e)
      case Next => Pass
  }

  /**
   * The body of the final error handler: the error's message only in
   * development mode, and then only when the error has one.
   */
  function ServerErrorBody(nodeEnv: string, err: Failure): (b: Body)
    ensures b.Json? && !b.success && b.message == ServerErrorMessage
    ensures b.error.Some? <==> nodeEnv == "development" && err.message.Some?
    ensures b.error.Some? ==> b.error == err.message
  {
    Json(false, ServerErrorMessage, if nodeEnv == "development" then err.message else None)
  }

  /**
   * One request through the chain. `matched` says whether the path falls
   * in a mounted group; `conn` is what the connection call of that group
   * yields and `router` what its router does. Every response carries the
   * CORS headers; a preflight answers 200 with no body whatever else holds;
   * the 503, 404 and 500 bodies each come from exactly the inputs listed.
   */
  function Handle(nodeEnv: string, verb: string, matched: bool, conn: Result, router: RouterOutcome): (r: Response)
    ensures r.headers == CorsHeaders(nodeEnv)
    ensures r.body == Empty <==> verb == Preflight
    ensures verb == Preflight ==> r.status == 200
    ensures r.body == UnavailableBody <==> verb != Preflight && matched && (conn.Thrown? || router.ThrowsSync?)
    ensures r.body == UnavailableBody ==> r.status == 503
    ensures r.body == NotFoundBody <==> verb != Preflight && (!matched || (conn.Success? && router.Next?))
    ensures r.body == NotFoundBody ==> r.status == 404
    ensures r.body.Json? && r.body.message == ServerErrorMessage <==>
      verb != Preflight && matched && conn.Success? && router.NextWithError?
    ensures verb != Preflight && matched && conn.Success? && router.NextWithError? ==>
      r.status == 500 && r.body == ServerErrorBody(nodeEnv, router.error)
    ensures r.body.Routed? <==> verb != Preflight && matched && conn.Success? && router.Responds?
    ensures r.body.Routed? ==> r.status == router.status && r.body.content == router.content
  {
    var headers := CorsHeaders(nodeEnv);
    if verb == Preflight then Response(200, headers, Empty)
    else if !matched then Response(404, headers, NotFoundBody)
    else match MountedGroup(conn, router)
      case Reply(status, body) => Response(status, headers, body)
      case Pass => Response(404, headers, NotFoundBody)
      case Raise(e) => Response(500, headers, ServerErrorBody(nodeEnv, e))
  }

  /**
   * Whether a request reaches the connection call: only a request that is
   * not a preflight and falls in a mounted group.
   */
  predicate Gated(verb: string, matched: bool)
  {
    verb != Preflight && matched
  }

  /**
   * A preflight, or a request outside every mounted group, is answered the
   * same whatever the connection would have yielded and whatever the
   * router would have done.
   */
  lemma UngatedIgnoresConnection(nodeEnv: string, verb: string, matched: bool,
                                 conn1: Result, conn2: Result, router: RouterOutcome)
    requires !Gated(verb, matched)
    ensures Handle(nodeEnv, verb, matched, conn1, router) == Handle(nodeEnv, verb, matched, conn2, router)
    ensures verb == Preflight ==> Handle(nodeEnv, verb, matched, conn1, router) == Response(200, CorsHeaders(nodeEnv), Empty)
  {
  }

  /**
   * A request served against the process-wide bootstrapper: the connection
   * call runs exactly when the request is gated, and the response is the
   * chain's answer for what that call yields.
   */
  method ServeRequest(boot: Bootstrapper, nodeEnv: string, verb: string, matched: bool,
                      alive: bool, outcomes: seq<Outcome>, router: RouterOutcome) returns (r: Response)
    requires boot.Valid()
    requires MaxRetries <= |outcomes|
    modifies boot
    ensures boot.Valid()
    ensures r == Handle(nodeEnv, verb, matched, Connect(old(boot.cachedDb), alive, outcomes).result, router)
    ensures !Gated(verb, matched) ==> unchanged(boot)
    ensures Gated(verb, matched) ==>
      var c := Connect(old(boot.cachedDb), alive, outcomes);
      boot.cachedDb == CacheAfter(old(boot.cachedDb), c) &&
      boot.listeners == old(boot.listeners) + Registered(c) &&
      boot.trace == old(boot.trace) + c.steps
  {
    if !Gated(verb, matched) {
      // The chain ends before any connection call; what it would have yielded is immaterial.
      var unused := Thrown(Failure(None));
      UngatedIgnoresConnection(nodeEnv, verb, matched, unused, Connect(boot.cachedDb, alive, outcomes).result, router);
      return Handle(nodeEnv, verb, matched, unused, router);
    }
    var conn := boot.ConnectToDatabase(alive, outcomes);
    r := Handle(nodeEnv, verb, matched, conn, router);
  }
}
