/** The access policy the route table implements, and the proof that the
    table meets it: which handler each registered (method, path) reaches and
    behind which middleware. */
module Access {
  import opened Http
  import opened Tokens
  import opened Routes
  import opened Uuid
  import opened Store
  import Auth

  /** The access tiers. */
  datatype Tier = Public | TokenHolder | OwnerTier | AdminTier

  /** The intended access policy, route by route: the handler each
      registered (method, path) serves and the tier it requires. */
  function Policy(m: Method, p: string): Option<(Handler, Tier)>
  {
    match (m, p)
    case (GET, "/ping") => Some((Ping, Public))
    case (GET, "/login") => Some((GetCsrfToken, Public))
    case (POST, "/login") => Some((Login, Public))
    case (POST, "/register") => Some((Register, Public))
    case (POST, "") => Some((Hello, Public))
    case (GET, "/destination") => Some((ListDestinations, Public))
    case (GET, "/destination/:id") => Some((GetDestination, Public))
    case (GET, "/trip") => Some((ListTrips, Public))
    case (GET, "/trip/:id") => Some((GetTrip, Public))
    case (POST, "/user") => Some((AboutUser, TokenHolder))
    case (PUT, "/user") => Some((UpdateUser, TokenHolder))
    case (POST, "/admin") => Some((PromoteAdmin, OwnerTier))
    case (GET, "") => Some((Hello, AdminTier))
    case (POST, "/destination") => Some((CreateDestination, AdminTier))
    case (PUT, "/destination") => Some((UpdateDestination, AdminTier))
    case (DELETE, "/destination/:id") => Some((DeleteDestination, AdminTier))
    case (POST, "/trip") => Some((CreateTrip, AdminTier))
    case (PUT, "/trip") => Some((UpdateTrip, AdminTier))
    case (DELETE, "/trip/:id") => Some((DeleteTrip, AdminTier))
    case _ => None
  }

  /** Whether a tier admits a request whose bearer token jwtware judged `check`. */
  predicate Admitted(tier: Tier, check: TokenCheck)
  {
    match tier
    case Public => true
    case TokenHolder => check.Accepted?
    case OwnerTier => check.Accepted? && Claim(check.claims, "owner") == Bool(true)
    case AdminTier => check.Accepted? && Claim(check.claims, "admin") == Bool(true)
  }

  /** The tier a registered route requires, None for an unregistered one. */
  function TierOf(m: Method, p: string): Option<Tier>
  {
    match Policy(m, p)
    case Some((_, t)) => Some(t)
    case None => None
  }

  /** The handler sequence a request for (m, p) walks, by the tier its route
      requires: a public handler answers before the JWT middleware is reached;
      every other handler sits behind it, the owner-gated one behind the
      owner gate, and the admin-gated ones behind the admin middleware. */
  function Chain(m: Method, p: string): seq<Handler>
  {
    match Policy(m, p)
    case Some((h, Public)) => [h, JwtMiddleware, CheckIfAdmin(false)]
    case Some((h, TokenHolder)) => [JwtMiddleware, h, CheckIfAdmin(false)]
    case Some((h, OwnerTier)) => [JwtMiddleware, CheckIfAdmin(true), h, CheckIfAdmin(false)]
    case Some((h, AdminTier)) => [JwtMiddleware, CheckIfAdmin(false), h]
    case None => [JwtMiddleware, CheckIfAdmin(false)]
  }

  lemma {:induction false} ApplicableAppend(a: seq<Entry>, b: seq<Entry>, m: Method, p: string)
    ensures Applicable(a + b, m, p) == Applicable(a, m, p) + Applicable(b, m, p)
  {
    if a != [] {
      assert (a + b)[0] == a[0];
      assert (a + b)[1..] == a[1..] + b;
      ApplicableAppend(a[1..], b, m, p);
    } else {
      assert a + b == b;
    }
  }

  /** Every route of a stack is one the policy knows. */
  predicate InPolicy(stack: seq<Entry>)
  {
    stack == [] || ((stack[0].Route? ==> Policy(stack[0].verb, stack[0].path).Some?) && InPolicy(stack[1..]))
  }

  /** The middleware a stack applies to every request, in order. */
  function Middlewares(stack: seq<Entry>): seq<Handler>
  {
    if stack == [] then [] else
      (if stack[0].Middleware? then [stack[0].handler] else []) + Middlewares(stack[1..])
  }

  /** A request no route of the stack registers meets only its middleware. */
  lemma {:induction false} UnregisteredMeetsMiddleware(stack: seq<Entry>, m: Method, p: string)
    requires InPolicy(stack) && Policy(m, p).None?
    ensures Applicable(stack, m, p) == Middlewares(stack)
  {
    if stack != [] {
      UnregisteredMeetsMiddleware(stack[1..], m, p);
    }
  }

  /** The table splits into its three registration phases. */
  lemma RouteTableSections(m: Method, p: string)
    ensures Applicable(RouteTable(), m, p)
         == Applicable(PublicRoutes(), m, p) + Applicable(GatedRoutes(), m, p) + Applicable(MutationRoutes(), m, p)
  {
    ApplicableAppend(PublicRoutes() + GatedRoutes(), MutationRoutes(), m, p);
    ApplicableAppend(PublicRoutes(), GatedRoutes(), m, p);
  }

  /** Each registration phase registers only routes the policy knows, and
      the middleware between them is the JWT check and the admin gate. */
  lemma PublicInPolicy()
    ensures InPolicy(PublicRoutes()) && Middlewares(PublicRoutes()) == []
  {
  }

  lemma GatedInPolicy()
    ensures InPolicy(GatedRoutes()) && Middlewares(GatedRoutes()) == [JwtMiddleware, CheckIfAdmin(false)]
  {
  }

  lemma MutationInPolicy()
    ensures InPolicy(MutationRoutes()) && Middlewares(MutationRoutes()) == []
  {
  }

  lemma UnregisteredChain(m: Method, p: string)
    requires Policy(m, p).None?
    ensures Applicable(RouteTable(), m, p) == [JwtMiddleware, CheckIfAdmin(false)]
  {
    RouteTableSections(m, p);
    PublicInPolicy();
    GatedInPolicy();
    MutationInPolicy();
    UnregisteredMeetsMiddleware(PublicRoutes(), m, p);
    UnregisteredMeetsMiddleware(GatedRoutes(), m, p);
    UnregisteredMeetsMiddleware(MutationRoutes(), m, p);
  }

  /** Applicable, walked by index: the form in which a literal stack is
      evaluated route by route. */
  function ApplicableFrom(stack: seq<Entry>, i: nat, m: Method, p: string): seq<Handler>
    decreases |stack| - i
  {
    if i >= |stack| then [] else Matching(stack[i], m, p) + ApplicableFrom(stack, i + 1, m, p)
  }

  lemma {:induction false} ApplicableFromDrop(stack: seq<Entry>, i: nat, m: Method, p: string)
    requires i <= |stack|
    ensures Applicable(stack[i..], m, p) == ApplicableFrom(stack, i, m, p)
    decreases |stack| - i
  {
    if i < |stack| {
      assert stack[i..][1..] == stack[i + 1..];
      ApplicableFromDrop(stack, i + 1, m, p);
    }
  }

  /** The handlers the three registration phases apply to (m, p). */
  function PhaseChains(m: Method, p: string): seq<Handler>
  {
    ApplicableFrom(PublicRoutes(), 0, m, p) + ApplicableFrom(GatedRoutes(), 0, m, p)
      + ApplicableFrom(MutationRoutes(), 0, m, p)
  }

  lemma RouteTablePhases(m: Method, p: string)
    ensures Applicable(RouteTable(), m, p) == PhaseChains(m, p)
  {
    RouteTableSections(m, p);
    ApplicableFromDrop(PublicRoutes(), 0, m, p);
    ApplicableFromDrop(GatedRoutes(), 0, m, p);
    ApplicableFromDrop(MutationRoutes(), 0, m, p);
    assert PublicRoutes()[0..] == PublicRoutes();
    assert GatedRoutes()[0..] == GatedRoutes();
    assert MutationRoutes()[0..] == MutationRoutes();
  }

  /** Route by route, the three phases apply the chain of its tier. */
  lemma GetPingChain()
    ensures PhaseChains(GET, "/ping") == Chain(GET, "/ping")
  {
  }

  lemma GetLoginChain()
    ensures PhaseChains(GET, "/login") == Chain(GET, "/login")
  {
  }

  lemma PostLoginChain()
    ensures PhaseChains(POST, "/login") == Chain(POST, "/login")
  {
  }

  lemma PostRegisterChain()
    ensures PhaseChains(POST, "/register") == Chain(POST, "/register")
  {
  }

  lemma PostRootChain()
    ensures PhaseChains(POST, "") == Chain(POST, "")
  {
  }

  lemma GetDestinationChain()
    ensures PhaseChains(GET, "/destination") == Chain(GET, "/destination")
  {
  }

  lemma GetDestinationIdChain()
    ensures PhaseChains(GET, "/destination/:id") == Chain(GET, "/destination/:id")
  {
  }

  lemma GetTripChain()
    ensures PhaseChains(GET, "/trip") == Chain(GET, "/trip")
  {
  }

  lemma GetTripIdChain()
    ensures PhaseChains(GET, "/trip/:id") == Chain(GET, "/trip/:id")
  {
  }

  lemma PostUserChain()
    ensures PhaseChains(POST, "/user") == Chain(POST, "/user")
  {
  }

  lemma PutUserChain()
    ensures PhaseChains(PUT, "/user") == Chain(PUT, "/user")
  {
  }

  lemma PostAdminChain()
    ensures PhaseChains(POST, "/admin") == Chain(POST, "/admin")
  {
  }

  lemma GetRootChain()
    ensures PhaseChains(GET, "") == Chain(GET, "")
  {
  }

  lemma PostDestinationChain()
    ensures PhaseChains(POST, "/destination") == Chain(POST, "/destination")
  {
  }

  lemma PutDestinationChain()
    ensures PhaseChains(PUT, "/destination") == Chain(PUT, "/destination")
  {
  }

  lemma DeleteDestinationIdChain()
    ensures PhaseChains(DELETE, "/destination/:id") == Chain(DELETE, "/destination/:id")
  {
  }

  lemma PostTripChain()
    ensures PhaseChains(POST, "/trip") == Chain(POST, "/trip")
  {
  }

  lemma PutTripChain()
    ensures PhaseChains(PUT, "/trip") == Chain(PUT, "/trip")
  {
  }

  lemma DeleteTripIdChain()
    ensures PhaseChains(DELETE, "/trip/:id") == Chain(DELETE, "/trip/:id")
  {
  }

  /** The handlers the registered table applies to a request are exactly the
      chain its policy tier prescribes; an unregistered (method, path) only
      meets the two middlewares. */
  lemma RouteTableChain(m: Method, p: string)
    ensures Applicable(RouteTable(), m, p) == Chain(m, p)
  {
    RouteTablePhases(m, p);
    match (m, p)
    case (GET, "/ping") => GetPingChain();
    case (GET, "/login") => GetLoginChain();
    case (POST, "/login") => PostLoginChain();
    case (POST, "/register") => PostRegisterChain();
    case (POST, "") => PostRootChain();
    case (GET, "/destination") => GetDestinationChain();
    case (GET, "/destination/:id") => GetDestinationIdChain();
    case (GET, "/trip") => GetTripChain();
    case (GET, "/trip/:id") => GetTripIdChain();
    case (POST, "/user") => PostUserChain();
    case (PUT, "/user") => PutUserChain();
    case (POST, "/admin") => PostAdminChain();
    case (GET, "") => GetRootChain();
    case (POST, "/destination") => PostDestinationChain();
    case (PUT, "/destination") => PutDestinationChain();
    case (DELETE, "/destination/:id") => DeleteDestinationIdChain();
    case (POST, "/trip") => PostTripChain();
    case (PUT, "/trip") => PutTripChain();
    case (DELETE, "/trip/:id") => DeleteTripIdChain();
    case _ => UnregisteredChain(m, p);
  }

  /** Every tier gate a request meets comes after the JWT middleware, so a
      gate always reads claims jwtware has verified. */
  lemma GatesFollowJwt(m: Method, p: string)
    ensures var hs := Applicable(RouteTable(), m, p);
      forall i | 0 <= i < |hs| && hs[i].CheckIfAdmin? :: exists j :: 0 <= j < i && hs[j] == JwtMiddleware
  {
    RouteTableChain(m, p);
    var hs := Chain(m, p);
    if Policy(m, p).Some? && Policy(m, p).value.1 == Public {
      PolicyNamesEndpoints(m, p);
      assert hs[1] == JwtMiddleware;
    } else {
      assert hs[0] == JwtMiddleware;
      if Policy(m, p).Some? {
        PolicyNamesEndpoints(m, p);
      }
    }
  }

  /** The walk, one handler at a time: an endpoint answers, jwtware either
      refuses or stores the verified claims, a gate either answers or passes on. */
  lemma RunEndpoint(cfg: Config, h: Handler, rest: seq<Handler>, bearer: Option<string>, now: int, user: Option<Claims>)
    requires !IsMiddleware(h)
    ensures Run(cfg, [h] + rest, bearer, now, user) == Reached(h, user)
  {
    assert ([h] + rest)[0] == h;
  }

  lemma RunJwt(cfg: Config, rest: seq<Handler>, bearer: Option<string>, now: int, user: Option<Claims>)
    ensures var check := cfg.verify(cfg.secret, bearer, now);
      Run(cfg, [JwtMiddleware] + rest, bearer, now, user)
        == if check.Accepted? then Run(cfg, rest, bearer, now, Some(check.claims))
           else Stopped(JwtMiddleware, check.response)
  {
    assert ([JwtMiddleware] + rest)[0] == JwtMiddleware;
    assert ([JwtMiddleware] + rest)[1..] == rest;
  }

  lemma RunGate(cfg: Config, checkOwner: bool, rest: seq<Handler>, bearer: Option<string>, now: int, user: Option<Claims>)
    ensures var step := Admin.CheckIfAdmin(checkOwner, user);
      Run(cfg, [CheckIfAdmin(checkOwner)] + rest, bearer, now, user)
        == if step.Next? then Run(cfg, rest, bearer, now, user)
           else Stopped(CheckIfAdmin(checkOwner), step.response)
  {
    assert ([CheckIfAdmin(checkOwner)] + rest)[0] == CheckIfAdmin(checkOwner);
    assert ([CheckIfAdmin(checkOwner)] + rest)[1..] == rest;
  }

  /** Every handler the policy names is an endpoint, not a middleware. */
  lemma PolicyNamesEndpoints(m: Method, p: string)
    requires Policy(m, p).Some?
    ensures !IsMiddleware(Policy(m, p).value.0)
  {
  }

  /** What jwtware leaves in c.Locals("user") for the handlers after it. */
  function Verified(check: TokenCheck): Option<Claims>
  {
    if check.Accepted? then Some(check.claims) else None
  }

  /** A public route answers before jwtware is reached. */
  lemma PublicDispatch(cfg: Config, req: Request, now: int)
    requires TierOf(req.verb, req.path) == Some(Public)
    ensures Dispatch(cfg, RouteTable(), req, now) == Reached(Policy(req.verb, req.path).value.0, None)
  {
    RouteTableChain(req.verb, req.path);
    PolicyNamesEndpoints(req.verb, req.path);
    RunEndpoint(cfg, Policy(req.verb, req.path).value.0, [JwtMiddleware, CheckIfAdmin(false)], req.bearer, now, None);
  }

  /** A token-only route runs with the verified claims or not at all. */
  lemma TokenHolderDispatch(cfg: Config, req: Request, now: int)
    requires TierOf(req.verb, req.path) == Some(TokenHolder)
    ensures var check := cfg.verify(cfg.secret, req.bearer, now);
      Dispatch(cfg, RouteTable(), req, now)
        == if check.Refused? then Stopped(JwtMiddleware, check.response)
           else Reached(Policy(req.verb, req.path).value.0, Some(check.claims))
  {
    var h, check := Policy(req.verb, req.path).value.0, cfg.verify(cfg.secret, req.bearer, now);
    RouteTableChain(req.verb, req.path);
    PolicyNamesEndpoints(req.verb, req.path);
    RunJwt(cfg, [h, CheckIfAdmin(false)], req.bearer, now, None);
    RunEndpoint(cfg, h, [CheckIfAdmin(false)], req.bearer, now, Verified(check));
  }

  /** The owner-gated route: jwtware, then the owner gate, then the handler. */
  lemma OwnerDispatch(cfg: Config, req: Request, now: int)
    requires TierOf(req.verb, req.path) == Some(OwnerTier)
    ensures var check := cfg.verify(cfg.secret, req.bearer, now);
      var step := Admin.CheckIfAdmin(true, Verified(check));
      Dispatch(cfg, RouteTable(), req, now)
        == if check.Refused? then Stopped(JwtMiddleware, check.response)
           else if step.Stop? then Stopped(CheckIfAdmin(true), step.response)
           else Reached(Policy(req.verb, req.path).value.0, Some(check.claims))
  {
    var h, check := Policy(req.verb, req.path).value.0, cfg.verify(cfg.secret, req.bearer, now);
    RouteTableChain(req.verb, req.path);
    PolicyNamesEndpoints(req.verb, req.path);
    RunJwt(cfg, [CheckIfAdmin(true), h, CheckIfAdmin(false)], req.bearer, now, None);
    RunGate(cfg, true, [h, CheckIfAdmin(false)], req.bearer, now, Verified(check));
    RunEndpoint(cfg, h, [CheckIfAdmin(false)], req.bearer, now, Verified(check));
  }

  /** An admin-gated route: jwtware, then the admin middleware, then the handler. */
  lemma AdminDispatch(cfg: Config, req: Request, now: int)
    requires TierOf(req.verb, req.path) == Some(AdminTier)
    ensures var check := cfg.verify(cfg.secret, req.bearer, now);
      var step := Admin.CheckIfAdmin(false, Verified(check));
      Dispatch(cfg, RouteTable(), req, now)
        == if check.Refused? then Stopped(JwtMiddleware, check.response)
           else if step.Stop? then Stopped(CheckIfAdmin(false), step.response)
           else Reached(Policy(req.verb, req.path).value.0, Some(check.claims))
  {
    var h, check := Policy(req.verb, req.path).value.0, cfg.verify(cfg.secret, req.bearer, now);
    RouteTableChain(req.verb, req.path);
    PolicyNamesEndpoints(req.verb, req.path);
    RunJwt(cfg, [CheckIfAdmin(false), h], req.bearer, now, None);
    RunGate(cfg, false, [h], req.bearer, now, Verified(check));
    RunEndpoint(cfg, h, [], req.bearer, now, Verified(check));
  }

  /** An unregistered route passes both middlewares into the 404, if it can. */
  lemma UnregisteredDispatch(cfg: Config, req: Request, now: int)
    requires TierOf(req.verb, req.path).None?
    ensures var check := cfg.verify(cfg.secret, req.bearer, now);
      var step := Admin.CheckIfAdmin(false, Verified(check));
      Dispatch(cfg, RouteTable(), req, now)
        == if check.Refused? then Stopped(JwtMiddleware, check.response)
           else if step.Stop? then Stopped(CheckIfAdmin(false), step.response)
           else NotFound
  {
    var check := cfg.verify(cfg.secret, req.bearer, now);
    RouteTableChain(req.verb, req.path);
    assert [CheckIfAdmin(false)] == [CheckIfAdmin(false)] + [];
    RunJwt(cfg, [CheckIfAdmin(false)], req.bearer, now, None);
    RunGate(cfg, false, [], req.bearer, now, Verified(check));
  }

  /** The access a request to the app SetupRoutes builds is granted. A
      request reaches an endpoint exactly when its (method, path) is
      registered and the route's tier admits what jwtware made of its bearer
      token; the endpoint is the registered handler, run without claims on
      a public route and with the verified claims otherwise. Any other
      request is answered by jwtware's own refusal, by a gate (401, or a
      failed type assertion) or, for an unregistered route whose caller holds
      an admin token, by the 404 at the end of the stack. */
  lemma AccessPolicy(cfg: Config, req: Request, now: int)
    ensures var d, pol := Dispatch(cfg, RouteTable(), req, now), Policy(req.verb, req.path);
      var check := cfg.verify(cfg.secret, req.bearer, now);
      && (d.Reached? <==> pol.Some? && Admitted(pol.value.1, check))
      && (d.Reached? ==> d.endpoint == pol.value.0
                         && d.user == if pol.value.1 == Public then None else Some(check.claims))
      && (d.Stopped? && d.responder == JwtMiddleware <==> check.Refused? && !(pol.Some? && pol.value.1 == Public))
      && (d.Stopped? && d.responder == JwtMiddleware ==> d.response == check.response)
      && (d.Stopped? && d.responder != JwtMiddleware ==>
            && check.Accepted?
            && d.responder.CheckIfAdmin?
            && Admin.CheckIfAdmin(d.responder.checkOwner, Some(check.claims)) == Stop(d.response)
            && (d.response == Panic || d.response == Respond(STATUS_UNAUTHORIZED, UNAUTHORIZED_ERROR)))
      && (d.NotFound? <==> pol.None? && check.Accepted? && Claim(check.claims, "admin") == Bool(true))
  {
    match TierOf(req.verb, req.path) {
      case None => UnregisteredDispatch(cfg, req, now);
      case Some(Public) => PublicDispatch(cfg, req, now);
      case Some(TokenHolder) => TokenHolderDispatch(cfg, req, now);
      case Some(OwnerTier) => OwnerDispatch(cfg, req, now);
      case Some(AdminTier) => AdminDispatch(cfg, req, now);
    }
  }

  /** Behind a verifier that enforces expiry, no endpoint past jwtware runs
      with the claims of an expired token. */
  lemma ReachedClaimsUnexpired(cfg: Config, req: Request, now: int)
    requires EnforcesExpiry(cfg)
    ensures var d := Dispatch(cfg, RouteTable(), req, now);
      d.Reached? && d.user.Some? ==> Claim(d.user.value, "exp").Num? && now < Claim(d.user.value, "exp").n
  {
    AccessPolicy(cfg, req, now);
  }

  /** A token from login, presented within its 72 hours to an authentic
      verifier, opens every token-only route, the owner-gated route exactly
      when the account's id is the configured owner UUID, and the admin-gated
      routes exactly when the account's admin flag was set at login. */
  lemma LoginTokenAccess(cfg: Config, users: Users, form: Form, issuedAt: int, dbFault: bool, req: Request, now: int)
    requires Authentic(cfg)
    requires Auth.Login(cfg, users, form, issuedAt, dbFault).claims.Some?
    requires req.bearer == Some(Auth.Login(cfg, users, form, issuedAt, dbFault).response.body.jwt)
    requires issuedAt <= now < issuedAt + TOKEN_LIFETIME
    requires Policy(req.verb, req.path).Some?
    ensures var email := FormValue(form, "email");
      var d, tier := Dispatch(cfg, RouteTable(), req, now), Policy(req.verb, req.path).value.1;
      && email in users
      && (d.Reached? <==>
            match tier
            case Public => true
            case TokenHolder => true
            case OwnerTier => CanonicalString(users[email].id) == cfg.ownerUuid
            case AdminTier => users[email].admin)
      && (d.Reached? && tier != Public ==> d.user == Some(Auth.LoginClaims(cfg, users, email, issuedAt)))
  {
    var email := FormValue(form, "email");
    var c := Auth.LoginClaims(cfg, users, email, issuedAt);
    assert Claim(c, "exp") == Num(issuedAt + TOKEN_LIFETIME);
    assert cfg.verify(cfg.secret, req.bearer, now) == Accepted(c);
    AccessPolicy(cfg, req, now);
  }
}
