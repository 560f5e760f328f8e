/** SetupRoutes of routes/routes.go: the ordered stack of routes and
    middleware, and how a request walks it. Paths are matched exactly, as
    written at registration; `Use` applies to every request. */
module Routes {
  import opened Http
  import opened Tokens
  import Admin

  datatype Method = GET | POST | PUT | DELETE

  /** The handlers the stack refers to. Only the two middlewares decide
      anything during the walk; every other handler answers the request. */
  datatype Handler =
    | Ping | GetCsrfToken | Login | Register | Hello
    | ListDestinations | GetDestination | ListTrips | GetTrip
    | JwtMiddleware
    | AboutUser | UpdateUser
    | CheckIfAdmin(checkOwner: bool)
    | PromoteAdmin
    | CreateDestination | UpdateDestination | DeleteDestination
    | CreateTrip | UpdateTrip | DeleteTrip

  predicate IsMiddleware(h: Handler)
  {
    h.JwtMiddleware? || h.CheckIfAdmin?
  }

  /** One registration: app.Use(handler), or a route with its handler chain. */
  datatype Entry = Middleware(handler: Handler) | Route(verb: Method, path: string, handlers: seq<Handler>)

  class App {
    var stack: seq<Entry>

    constructor ()
      ensures stack == []
    {
      stack := [];
    }

    method Use(h: Handler)
      modifies this
      ensures stack == old(stack) + [Middleware(h)]
    {
      stack := stack + [Middleware(h)];
    }

    method Add(m: Method, path: string, handlers: seq<Handler>)
      modifies this
      ensures stack == old(stack) + [Route(m, path, handlers)]
    {
      stack := stack + [Route(m, path, handlers)];
    }
  }

  /** app.Group(prefix): registers nothing itself; its routes are the app's
      routes under the prefix. */
  datatype Group = Group(prefix: string) {
    method Add(app: App, m: Method, path: string, handlers: seq<Handler>)
      modifies app
      ensures app.stack == old(app.stack) + [Route(m, prefix + path, handlers)]
    {
      app.Add(m, prefix + path, handlers);
    }
  }

  /** The stack SetupRoutes registers, in order: the public routes; the JWT
      middleware, the token-only and owner-gated routes, the admin middleware
      and its test route; then the routes that change destinations and trips. */
  function RouteTable(): seq<Entry>
  {
    PublicRoutes() + GatedRoutes() + MutationRoutes()
  }

  function PublicRoutes(): seq<Entry>
  {
    [ Route(GET, "/ping", [Ping]),
      Route(GET, "/login", [GetCsrfToken]),
      Route(POST, "/login", [Login]),
      Route(POST, "/register", [Register]),
      Route(POST, "", [Hello]),
      Route(GET, "/destination", [ListDestinations]),
      Route(GET, "/destination/:id", [GetDestination]),
      Route(GET, "/trip", [ListTrips]),
      Route(GET, "/trip/:id", [GetTrip]) ]
  }

  function GatedRoutes(): seq<Entry>
  {
    [ Middleware(JwtMiddleware),
      Route(POST, "/user", [AboutUser]),
      Route(PUT, "/user", [UpdateUser]),
      Route(POST, "/admin", [CheckIfAdmin(true), PromoteAdmin]),
      Middleware(CheckIfAdmin(false)),
      Route(GET, "", [Hello]) ]
  }

  function MutationRoutes(): seq<Entry>
  {
    [ Route(POST, "/destination", [CreateDestination]),
      Route(PUT, "/destination", [UpdateDestination]),
      Route(DELETE, "/destination/:id", [DeleteDestination]),
      Route(POST, "/trip", [CreateTrip]),
      Route(PUT, "/trip", [UpdateTrip]),
      Route(DELETE, "/trip/:id", [DeleteTrip]) ]
  }

  /** SetupRoutes, registration by registration. */
  method SetupRoutes(app: App)
    modifies app
    ensures app.stack == old(app.stack) + RouteTable()
  {
    ghost var before := app.stack;

    var destination, trip := SetupPublicRoutes(app);

    // JWT middleware; the routes below it need a valid token
    app.Use(JwtMiddleware);

    var usr := Group("/user");
    assert usr.prefix + "" == "/user";
    usr.Add(app, POST, "", [AboutUser]);
    usr.Add(app, PUT, "", [UpdateUser]);

    // only the owner may promote or demote
    var checkOwner := true;
    app.Add(POST, "/admin", [CheckIfAdmin(checkOwner), PromoteAdmin]);

    // from here on the gate checks the admin claim
    checkOwner := false;
    app.Use(CheckIfAdmin(checkOwner));
    app.Add(GET, "", [Hello]);
    assert app.stack == before + PublicRoutes() + GatedRoutes();

    SetupMutationRoutes(app, destination, trip);
  }

  /** The part of SetupRoutes before the JWT middleware: ping, login,
      register, the CSRF test route and the public reads. */
  method SetupPublicRoutes(app: App) returns (destination: Group, trip: Group)
    modifies app
    ensures app.stack == old(app.stack) + PublicRoutes()
    ensures destination == Group("/destination") && trip == Group("/trip")
  {
    app.Add(GET, "/ping", [Ping]);

    var login := Group("/login");
    assert login.prefix + "" == "/login";
    login.Add(app, GET, "", [GetCsrfToken]);
    login.Add(app, POST, "", [Login]);
    app.Add(POST, "/register", [Register]);

    app.Add(POST, "", [Hello]);

    destination := Group("/destination");
    assert destination.prefix + "" == "/destination";
    assert destination.prefix + "/:id" == "/destination/:id";
    destination.Add(app, GET, "", [ListDestinations]);
    destination.Add(app, GET, "/:id", [GetDestination]);

    trip := Group("/trip");
    assert trip.prefix + "" == "/trip";
    assert trip.prefix + "/:id" == "/trip/:id";
    trip.Add(app, GET, "", [ListTrips]);
    trip.Add(app, GET, "/:id", [GetTrip]);
  }

  /** The last part of SetupRoutes: the routes that change destinations and
      trips, all registered behind the admin middleware. */
  method SetupMutationRoutes(app: App, destination: Group, trip: Group)
    requires destination == Group("/destination") && trip == Group("/trip")
    modifies app
    ensures app.stack == old(app.stack) + MutationRoutes()
  {
    assert destination.prefix + "" == "/destination";
    assert destination.prefix + "/:id" == "/destination/:id";
    destination.Add(app, POST, "", [CreateDestination]);
    destination.Add(app, PUT, "", [UpdateDestination]);
    destination.Add(app, DELETE, "/:id", [DeleteDestination]);

    assert trip.prefix + "" == "/trip";
    assert trip.prefix + "/:id" == "/trip/:id";
    trip.Add(app, POST, "", [CreateTrip]);
    trip.Add(app, PUT, "", [UpdateTrip]);
    trip.Add(app, DELETE, "/:id", [DeleteTrip]);
  }

  /** The handlers an entry contributes to a request for (m, p). */
  function Matching(e: Entry, m: Method, p: string): seq<Handler>
  {
    match e
    case Middleware(h) => [h]
    case Route(rm, rp, hs) => if rm == m && rp == p then hs else []
  }

  /** Every handler that applies to (m, p), in registration order: c.Next()
      moves along this sequence. */
  function Applicable(stack: seq<Entry>, m: Method, p: string): seq<Handler>
  {
    if stack == [] then [] else Matching(stack[0], m, p) + Applicable(stack[1..], m, p)
  }

  /** What Applicable collects: the handler of every `Use`, every handler of
      every route registered for exactly (m, p), and nothing else. */
  lemma {:induction false} ApplicableCollects(stack: seq<Entry>, m: Method, p: string)
    ensures var hs := Applicable(stack, m, p);
      && (forall e | e in stack && e.Middleware? :: e.handler in hs)
      && (forall e, h | e in stack && e.Route? && e.verb == m && e.path == p && h in e.handlers :: h in hs)
      && (forall h | h in hs :: exists e | e in stack :: h in Matching(e, m, p))
  {
    if stack != [] {
      var tail := stack[1..];
      ApplicableCollects(tail, m, p);
      var first, rest := Matching(stack[0], m, p), Applicable(tail, m, p);
      var hs := Applicable(stack, m, p);
      assert hs == first + rest;
      forall e, h | e in stack && e.Route? && e.verb == m && e.path == p && h in e.handlers
        ensures h in hs
      {
        if e == stack[0] {
          assert h in first;
        } else {
          assert e in tail;
          assert h in rest;
        }
      }
      forall h | h in hs
        ensures exists e | e in stack :: h in Matching(e, m, p)
      {
        if h in first {
          assert stack[0] in stack;
        } else {
          assert h in rest;
          var e :| e in tail && h in Matching(e, m, p);
          assert e in stack;
        }
      }
      forall e | e in stack && e.Middleware?
        ensures e.handler in hs
      {
        if e == stack[0] {
          assert e.handler in first;
        } else {
          assert e in tail;
          assert e.handler in rest;
        }
      }
    }
  }

  datatype Request = Request(verb: Method, path: string, bearer: Option<string>)

  /** How a walk ends: an endpoint handler runs with the claims left in
      c.Locals("user"), a middleware answers, or nothing matched (404). */
  datatype Dispatched = Reached(endpoint: Handler, user: Option<Claims>) | Stopped(responder: Handler, response: Response) | NotFound

  /** Walk the handlers in order; a middleware answers or calls Next, any
      other handler answers. */
  function Run(cfg: Config, hs: seq<Handler>, bearer: Option<string>, now: int, user: Option<Claims>): (d: Dispatched)
    ensures d.Reached? ==> d.endpoint in hs && !IsMiddleware(d.endpoint)
    ensures d.Stopped? ==> d.responder in hs && IsMiddleware(d.responder)
    decreases |hs|
  {
    if hs == [] then NotFound
    else match hs[0]
      case JwtMiddleware =>
        (match cfg.verify(cfg.secret, bearer, now)
         case Accepted(c) => Run(cfg, hs[1..], bearer, now, Some(c))
         case Refused(resp) => Stopped(JwtMiddleware, resp))
      case CheckIfAdmin(checkOwner) =>
        (match Admin.CheckIfAdmin(checkOwner, user)
         case Next => Run(cfg, hs[1..], bearer, now, user)
         case Stop(resp) => Stopped(hs[0], resp))
      case _ => Reached(hs[0], user)
  }

  /** A request walks, from an empty c.Locals("user"), the handlers of the
      stack that apply to it. */
  function Dispatch(cfg: Config, stack: seq<Entry>, req: Request, now: int): (d: Dispatched)
    ensures d.Reached? ==> d.endpoint in Applicable(stack, req.verb, req.path) && !IsMiddleware(d.endpoint)
    ensures d.Stopped? ==> d.responder in Applicable(stack, req.verb, req.path) && IsMiddleware(d.responder)
    ensures Applicable(stack, req.verb, req.path) == [] ==> d == NotFound
  {
    Run(cfg, Applicable(stack, req.verb, req.path), req.bearer, now, None)
  }
}
