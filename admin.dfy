/** The tier gate and the owner-only promotion of routes/admin.go. */
module Admin {
  import opened Http
  import opened Tokens
  import opened Store
  import opened Auth

  /** The claim a gate inspects: `owner` for CheckIfOwner(true), `admin` otherwise. */
  function GateClaim(checkOwner: bool): string
  {
    if checkOwner then "owner" else "admin"
  }

  /** checkIfAdmin: passes the request on exactly when the inspected claim is
      the boolean true; a false claim is answered 401; an absent or non-boolean
      claim, or a request that never went through the JWT middleware, fails
      its type assertion and never reaches the next handler. */
  function CheckIfAdmin(checkOwner: bool, user: Option<Claims>): (r: Step)
    ensures r == Next <==> user.Some? && Claim(user.value, GateClaim(checkOwner)) == Bool(true)
    ensures r == Stop(Respond(STATUS_UNAUTHORIZED, UNAUTHORIZED_ERROR)) <==>
              user.Some? && Claim(user.value, GateClaim(checkOwner)) == Bool(false)
    ensures r == Stop(Panic) <==> user.None? || !Claim(user.value, GateClaim(checkOwner)).Bool?
  {
    if user.None? then Stop(Panic)
    else
      var claims := user.value;
      var check := if checkOwner then "owner" else "admin";
      match Claim(claims, check)
      case Bool(b) => if !b then Stop(Respond(STATUS_UNAUTHORIZED, UNAUTHORIZED_ERROR)) else Next
      case _ => Stop(Panic)
  }

  /** promoteAdmin: `admin=demote` clears the target's admin flag, any other
      value (none included) sets it. It never issues or touches a token, so
      tokens already issued to the target keep their admin claim until they
      expire. */
  method PromoteAdmin(q: Queries, form: Form, dbFault: bool) returns (r: Response)
    requires q.Valid()
    modifies q
    ensures q.Valid()
    ensures var email, demote := FormValue(form, "email"), FormValue(form, "admin") == "demote";
      if email == "" then
        r == Respond(STATUS_BAD_REQUEST, Error("email param isn't provided")) && q.users == old(q.users)
      else if dbFault then
        r == Respond(STATUS_INTERNAL_SERVER_ERROR, UNKNOWN_ERROR) && q.users == old(q.users)
      else
        && q.users == WithAdmin(old(q.users), email, !demote)
        && r == Respond(STATUS_OK, Message(if demote then "admin has been demoted to user"
                                           else "user has been promoted to admin"))
  {
    var email := FormValue(form, "email");
    var admin := FormValue(form, "admin");

    if email == "" {
      return Respond(STATUS_BAD_REQUEST, Error("email param isn't provided"));
    }

    var err: Option<DbError>;
    var msg: string;

    if admin == "demote" {
      err := q.DemoteAdmin(email, dbFault);
      msg := "admin has been demoted to user";
    } else {
      err := q.PromoteAdmin(email, dbFault);
      msg := "user has been promoted to admin";
    }

    if err.Some? {
      return Respond(STATUS_INTERNAL_SERVER_ERROR, UNKNOWN_ERROR);
    }

    r := Respond(STATUS_OK, Message(msg));
  }

  /** The flag promoteAdmin writes is what the target's next login signs;
      the password still verifies, the other claims are as before, and every
      other account is left as it was. */
  lemma PromotionReachesNextLogin(cfg: Config, users: Users, email: string, admin: bool, pass: string, now: int)
    requires email in users
    ensures var after := WithAdmin(users, email, admin);
      && after.Keys == users.Keys
      && (forall other :: other in users && other != email ==> after[other] == users[other])
      && (PasswordMatches(cfg, after, email, pass) <==> PasswordMatches(cfg, users, email, pass))
      && LoginClaims(cfg, after, email, now) == LoginClaims(cfg, users, email, now)["admin" := Bool(admin)]
  {
  }
}
