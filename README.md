# goTrip authentication and authorization, modelled in Dafny

This project models the authentication and authorization core of goTrip, a
Fiber (Go) service for destinations and trips. The model covers:

- `login`, `register` and the id-string formatter of `routes/auth.go`;
- `aboutUser` and `updateUser` of `routes/user.go`;
- the tier gate `checkIfAdmin` and `promoteAdmin` of `routes/admin.go`;
- `SetupRoutes` of `routes/routes.go`, as an ordered stack of routes and middleware that a request walks, with the error bodies of lines 25-30.

Modules, one per concern:

- `Http`: form values, response bodies, status codes, the error bodies.
- `Uuid`: the 16-byte identifier, the string `login` builds from it with `%x`, and the RFC 4122 section 3 canonical form that `uuid.String()` returns.
- `Tokens`: claim maps, and the configuration: signing key, owner UUID, bcrypt, and JWT signing and verification as function values.
- `Store`: the users table and the five queries the handlers call: the read-only lookup `GetPass` as a function, and `CreateUser`, `UpdateUser`, `PromoteAdmin` and `DemoteAdmin` as methods of a `Queries` class over a map from email to row.
- `Auth`, `Users`, `Admin`: the handlers.
- `Routes`: the `App` stack, `SetupRoutes`, and the walk of a request through the handlers that apply to it.
- `Access`: the intended access policy, route by route, with the proof that the table `SetupRoutes` registers meets it.

Collaborators and inputs the code cannot see are parameters:

- the clock (`now`) and the fresh identifier of `register` (`freshId`);
- a store failure (`dbFault`);
- bcrypt, signing and jwtware verification, which are fields of the configuration.

Three properties are assumed of those fields, each as a predicate a lemma requires and never as an axiom:

- `Sound`: a generated hash verifies against its input.
- `EnforcesExpiry`: the verifier accepts only tokens that carry a numeric `exp` claim, and refuses them once expired. The claim is optional to the JWT library, but every token this service signs has one: login sets it, and updateUser copies it from a token that was already accepted.
- `Authentic`: the verifier accepts a token the key signed, with its own claims, before it expires.

A failed Go type assertion (a missing `c.Locals("user")`, or a claim of the wrong type) is the response `Panic`.

Behaviours of the code that are easy to miss:

- `register` answers a duplicate email with the same 500 as any other insert failure; there is no separate conflict response.
- `updateUser` reads the email claim before it validates the form, so a token without a string email claim fails before the 400 check.
- `updateUser` answers a store failure with the undefined-params body, not the unknown-error body.
- `updateUser` checks old_email against the token's email claim only. An update that matches no row still succeeds and signs a token for the new email. So a token whose email no longer names a row (for example, one issued before its account renamed itself) can obtain a token for another account's email, and with that token rename that account's row (`Users.StaleTokenRenamesAnotherRow`).

## Model

| member | source | states |
|---|---|---|
| Uuid.FormatId | routes/auth.go:53 | the id string login builds always has 36 characters |
| Uuid.HexAt | routes/auth.go:53 | character k of `%x` on a byte slice is the lowercase digit of nibble k, high nibble first |
| Uuid.FormatIdIsCanonical | routes/auth.go:53-54 | the string login builds equals the RFC 4122 canonical string register salts with; it has hyphens at 8, 13, 18 and 23 and lowercase hex elsewhere |
| Uuid.CanonicalStringInjective | routes/auth.go:108-109 | distinct identifiers have distinct canonical strings |
| Uuid.DistinctSalts | routes/auth.go:108-110 | one password registered under two identifiers is hashed as two different salted inputs |
| Store.GetPass | routes/auth.go:40-50 | the lookup yields the stored row, "no rows" exactly when the email is absent and there is no fault, and a fault exactly when the store fails |
| Store.Queries.CreateUser | routes/auth.go:130-136 | the insert fails on a fault, a duplicate email or a duplicate id; otherwise it adds exactly one row with admin = false, and keeps ids unique |
| Store.Queries.UpdateUser | routes/user.go:51-57 | the update fails on a fault or when the new email belongs to another row; otherwise it moves the old row to the new email with the new name |
| Store.Queries.PromoteAdmin | routes/admin.go:54 | sets the target's admin flag, and changes nothing else |
| Store.Queries.DemoteAdmin | routes/admin.go:51 | clears the target's admin flag, and changes nothing else |
| Auth.Login | routes/auth.go:29-93 | an empty field gives 400 whatever the store holds; an unknown email and a wrong password give the same 401; a store fault, a bcrypt error or a signing failure gives 500 with the unknown-error body; claims are issued exactly when the password matches and signing succeeds, and they are {request email, stored name, stored admin flag, owner = id string equals the owner UUID, exp = now + 72 h} |
| Auth.Register | routes/auth.go:96-140 | an empty field gives 400 and no insert; a hashing or insert failure gives 500 and no insert; otherwise it answers 201 "user has been added" and adds exactly one row: the fresh id, name, the hash of password plus canonical id string, and admin = false |
| Auth.RegisterThenLogin | routes/auth.go:108-110 | a registered password verifies at the next login with the same email, which issues the registered name, admin = false and exp = now + 72 h |
| Auth.OwnerClaimNeedsCanonicalConfig | routes/auth.go:69 | owner = true is only issued to the account whose canonical id string is the configured owner UUID, so a non-canonical owner UUID makes nobody the owner |
| Auth.AtMostOneOwner | routes/auth.go:69 | with unique ids, two owner logins are logins of the same email |
| Users.AboutUser | routes/user.go:13-19 | the answer is "Welcome " + name + "\n" + email from the claims, and it panics exactly when the claims are missing or either claim is not a string |
| Users.UpdateUser | routes/user.go:22-81 | a missing email claim panics; an empty field gives 400; an old_email other than the token's email claim gives 401 whatever its admin or owner claims; a refused update gives 500 with the undefined-params body; in those cases the store is unchanged. Otherwise the row is renamed before signing, so a signing failure (500) keeps the update, and the new claims carry admin, owner and exp forward |
| Users.StaleTokenRenamesAnotherRow | routes/user.go:39-57 | when the token's email names no row, the update for it is not refused and changes nothing, yet the re-signed claims name any chosen email, another account's included; with those claims the next update renames that account's row |
| Users.ReissueKeepsTierAndExpiry | routes/user.go:60-66 | a token re-issued from a login token keeps the login's expiry, admin flag and owner flag |
| Users.LoginAfterUpdate | routes/user.go:44-51 | after an update the account logs in under the new email with the old password, with the new name and the same admin and owner flags |
| Users.AboutAfterLogin | routes/user.go:16-18 | aboutUser on login's claims shows the stored name and the login email |
| Admin.CheckIfAdmin | routes/admin.go:12-29 | the gate reads `owner` when built with true and `admin` otherwise; it passes exactly on true, answers 401 exactly on false, and fails without passing on an absent or non-boolean claim or a missing token |
| Admin.PromoteAdmin | routes/admin.go:32-67 | an empty email gives 400 and a store fault gives 500, both leaving the store unchanged; "demote" clears the flag, any other value sets it, with the message of that action |
| Admin.PromotionReachesNextLogin | routes/admin.go:50-56 | a changed admin flag is what the target's next login signs; the password and the other accounts are unaffected |
| Routes.App.Use | routes/routes.go:62-64 | appends one middleware entry to the stack |
| Routes.App.Add | routes/routes.go:38-40 | appends one route entry to the stack |
| Routes.Group.Add | routes/routes.go:43-45 | registers a route under the group's prefix |
| Routes.SetupPublicRoutes | routes/routes.go:37-59 | appends the public routes in registration order and returns the /destination and /trip groups |
| Routes.SetupMutationRoutes | routes/routes.go:87-95 | appends the destination and trip mutation routes in registration order |
| Routes.SetupRoutes | routes/routes.go:33-96 | appends the whole route table in registration order; the /admin route keeps the owner gate, which was built before `checkOwner` was reassigned to false |
| Routes.ApplicableCollects | routes/routes.go:62-83 | the handlers a request meets include the handler of every `Use`, whatever the request, and every handler of each route registered for exactly its method and path, and nothing else; Access.RouteTableChain gives their order for the table SetupRoutes builds |
| Routes.Dispatch | routes/routes.go:33-96 | a request walks the handlers that apply to it from an empty c.Locals("user"): it ends at one of those handlers that is an endpoint, is stopped by one of them that is a middleware, or with nothing applicable is a 404; Access.AccessPolicy gives the outcome for every request |
| Routes.Run | routes/routes.go:62-83 | a walk ends at a non-middleware handler of the sequence, or is stopped by one of its middlewares |
| Access.RouteTableChain | routes/routes.go:37-95 | for every (method, path), the handlers the table applies are exactly the chain the route's tier prescribes: a public handler before jwtware; jwtware before every other handler; the owner gate before promoteAdmin; the admin middleware before the admin routes; only the two middlewares for an unregistered route |
| Access.UnregisteredChain | routes/routes.go:62-83 | a request for an unregistered route meets only jwtware and the admin middleware |
| Access.UnregisteredMeetsMiddleware | routes/routes.go:62-83 | on any stack, a request no route registers meets exactly the stack's middleware |
| Access.GatesFollowJwt | routes/routes.go:62-83 | every gate a request meets comes after jwtware |
| Access.PublicDispatch | routes/routes.go:37-59 | a public route reaches its handler without any token check |
| Access.TokenHolderDispatch | routes/routes.go:69-72 | POST and PUT /user reach their handler exactly when jwtware accepts the token, and they need no admin or owner claim |
| Access.OwnerDispatch | routes/routes.go:77-78 | POST /admin reaches promoteAdmin exactly when jwtware accepts and the owner gate passes, whatever the admin claim |
| Access.AdminDispatch | routes/routes.go:81-95 | GET "" and the mutation routes reach their handler exactly when jwtware accepts and the admin claim is true |
| Access.UnregisteredDispatch | routes/routes.go:62-83 | an unregistered route is refused by jwtware or the admin gate, or falls through to the 404 |
| Access.AccessPolicy | routes/routes.go:33-96 | a request reaches an endpoint exactly when its route is registered and the tier admits the token, and the endpoint is that route's handler with the verified claims; otherwise it is stopped by jwtware's refusal or by a gate (401 or failed assertion), or gets a 404 when the route is unregistered and the token is an admin's |
| Access.ReachedClaimsUnexpired | routes/routes.go:62-64 | behind a verifier enforcing expiry, no handler past jwtware runs with an expired token's claims |
| Access.LoginTokenAccess | routes/routes.go:62-95 | a login token presented within 72 hours opens every token-only route, the owner route exactly when the account is the owner, and the admin routes exactly when its admin flag was set at login |

## Left out

- `routes/trip.go` and `routes/destination.go`: these handlers are CRUD glue over queries whose behaviour is not visible. The model has them as endpoint names only.
- `main.go`: environment loading, the database pool, CSRF, the rate limiter, swagger, `Listen`, and the recover middleware that turns a `Panic` into an error response. This is I/O and framework configuration.
- `getCsrfToken` and `loadEnvVars`: the signing key and owner UUID are configuration values.
- The SQL behind the generated queries is not part of this model. The queries are given the meaning their statements describe: a duplicate email or id is refused, an update or flag change of a missing email changes nothing, and a new row has admin = false.
- bcrypt (the random salt, the cost, the 72-byte input limit), HS256 signing and the JWT encoding are left out. So are jwtware's signature and expiry checks. They are the opaque function values `generate`, `compare`, `sign` and `verify`, constrained only where a lemma requires `Sound`, `EnforcesExpiry` or `Authentic`.
- `time.Now` and `uuid.New` are parameters, so the randomness of the identifier is not modelled.
- Fiber's path matching is exact comparison of (method, path) as registered. `:id` is a literal segment, and the following are not modelled: case-insensitive and trailing-slash matching, automatic HEAD routes, and the 404 and 405 handlers.
- Log output.
- The path `""` that SetupRoutes registers is the root, which Fiber serves at `"/"`. A model request for `"/"` counts as unregistered.
- Each request is modelled as running alone; concurrent requests against the store are not modelled.
- Timing is not modelled. An unknown email answers at routes/auth.go:44 without running bcrypt, so the two 401s have the same body but not the same latency.
