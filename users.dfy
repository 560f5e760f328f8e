/** The handlers of routes/user.go, which run behind the JWT middleware:
    `aboutUser` reads the verified claims, `updateUser` renames the row
    stored under the presented token's email claim, which need not be the
    caller's own, and re-signs the claims. `user` is what the middleware left
    in c.Locals("user"): None when it never ran. */
module Users {
  import opened Http
  import opened Uuid
  import opened Tokens
  import opened Store
  import opened Auth

  /** aboutUser answers from the claims alone; it has no access to the store. */
  function AboutUser(user: Option<Claims>): (r: Response)
    ensures r != Panic <==> user.Some? && Claim(user.value, "name").Str? && Claim(user.value, "email").Str?
    ensures r != Panic ==>
      r == Respond(STATUS_OK, Text("Welcome " + Claim(user.value, "name").s + "\n" + Claim(user.value, "email").s))
  {
    if user.None? then Panic
    else
      var claims := user.value;
      match (Claim(claims, "name"), Claim(claims, "email"))
      case (Str(name), Str(email)) => Respond(STATUS_OK, Text("Welcome " + name + "\n" + email))
      case _ => Panic
  }

  /** The claim set updateUser re-signs: the new email and name with the
      presented admin, owner and exp claims carried over as they are. */
  ghost function ReissuedClaims(presented: Claims, newEmail: string, name: string): Claims
  {
    map["email" := Str(newEmail), "name" := Str(name),
        "admin" := Claim(presented, "admin"), "owner" := Claim(presented, "owner"), "exp" := Claim(presented, "exp")]
  }

  /** updateUser. The email claim is read before anything else; then the
      three fields are checked, then old_email must be the presented token's
      email claim, whatever its admin or owner claims. That claim need not
      name a row any more: an UPDATE that matches no row changes nothing and
      the new token is signed all the same (see StaleTokenRenamesAnotherRow).
      The store is updated before signing, so a signing failure leaves the
      update in place. The new token keeps the presented expiry. */
  method UpdateUser(q: Queries, cfg: Config, user: Option<Claims>, form: Form, dbFault: bool) returns (o: Issued)
    requires q.Valid()
    modifies q
    ensures q.Valid()
    ensures var oldEmail, newEmail, name := FormValue(form, "old_email"), FormValue(form, "new_email"), FormValue(form, "name");
      var arg := UpdateUserParams(oldEmail, newEmail, name);
      if user.None? || !Claim(user.value, "email").Str? then
        o == Issued(Panic, None) && q.users == old(q.users)
      else if oldEmail == "" || newEmail == "" || name == "" then
        o == Issued(Respond(STATUS_BAD_REQUEST, UNDEFINED_PARAM_ERROR), None) && q.users == old(q.users)
      else if Claim(user.value, "email").s != oldEmail then
        o == Issued(Respond(STATUS_UNAUTHORIZED, UNAUTHORIZED_ERROR), None) && q.users == old(q.users)
      else if UpdateRefused(old(q.users), arg, dbFault) then
        o == Issued(Respond(STATUS_INTERNAL_SERVER_ERROR, UNDEFINED_PARAM_ERROR), None) && q.users == old(q.users)
      else
        && q.users == Renamed(old(q.users), arg)
        && match cfg.sign(cfg.secret, ReissuedClaims(user.value, newEmail, name))
           case None => o == Issued(Respond(STATUS_INTERNAL_SERVER_ERROR, UNKNOWN_ERROR), None)
           case Some(t) => o == Issued(Respond(STATUS_OK, Jwt(t)), Some(ReissuedClaims(user.value, newEmail, name)))
  {
    if user.None? {
      return Issued(Panic, None);
    }
    var claims := user.value;
    if !Claim(claims, "email").Str? {
      return Issued(Panic, None);
    }
    var email := Claim(claims, "email").s;

    var oldEmail := FormValue(form, "old_email");
    var newEmail := FormValue(form, "new_email");
    var name := FormValue(form, "name");

    if oldEmail == "" || newEmail == "" || name == "" {
      return Issued(Respond(STATUS_BAD_REQUEST, UNDEFINED_PARAM_ERROR), None);
    }

    if email != oldEmail {
      return Issued(Respond(STATUS_UNAUTHORIZED, UNAUTHORIZED_ERROR), None);
    }

    var usr := UpdateUserParams(oldEmail, newEmail, name);
    var err := q.UpdateUser(usr, dbFault);
    if err.Some? {
      return Issued(Respond(STATUS_INTERNAL_SERVER_ERROR, UNDEFINED_PARAM_ERROR), None);
    }

    claims := NewClaims(Str(newEmail), Str(name), Claim(claims, "admin"), Claim(claims, "owner"), Claim(claims, "exp"));

    var jwtToken := cfg.sign(cfg.secret, claims);
    if jwtToken.None? {
      return Issued(Respond(STATUS_INTERNAL_SERVER_ERROR, UNKNOWN_ERROR), None);
    }
    o := Issued(Respond(STATUS_OK, Jwt(jwtToken.value)), Some(claims));
  }

  /** A token re-issued by updateUser from a login token is still bound to
      the login's expiry, 72 hours after the login, and keeps its admin and
      owner flags: updating one's identity neither extends the token nor
      changes its tier. */
  lemma ReissueKeepsTierAndExpiry(cfg: Config, users: Users, email: string, now: int, newEmail: string, name: string)
    requires email in users
    ensures var c := ReissuedClaims(LoginClaims(cfg, users, email, now), newEmail, name);
      && c["exp"] == Num(now + TOKEN_LIFETIME)
      && c["admin"] == Bool(users[email].admin)
      && c["owner"] == Bool(CanonicalString(users[email].id) == cfg.ownerUuid)
  {
  }

  /** After an identity update the account logs in under its new email with
      its old password, since the hash is salted with the unchanged id; the
      token names the new email and name and keeps the admin and owner flags. */
  lemma LoginAfterUpdate(cfg: Config, users: Users, oldEmail: string, newEmail: string, name: string,
                         pass: string, now: int)
    requires PasswordMatches(cfg, users, oldEmail, pass)
    requires newEmail != "" && pass != ""
    ensures var after := Renamed(users, UpdateUserParams(oldEmail, newEmail, name));
      && PasswordMatches(cfg, after, newEmail, pass)
      && LoginClaims(cfg, after, newEmail, now)["name"] == Str(name)
      && LoginClaims(cfg, after, newEmail, now)["admin"] == Bool(users[oldEmail].admin)
      && LoginClaims(cfg, after, newEmail, now)["owner"] == LoginClaims(cfg, users, oldEmail, now)["owner"]
  {
    var after := Renamed(users, UpdateUserParams(oldEmail, newEmail, name));
    assert after[newEmail] == users[oldEmail].(name := name);
  }

  /** What aboutUser shows for a token from login: the stored name and the
      email the caller logged in with. */
  lemma AboutAfterLogin(cfg: Config, users: Users, form: Form, now: int, dbFault: bool)
    requires Login(cfg, users, form, now, dbFault).claims.Some?
    ensures var email := FormValue(form, "email");
      email in users
      && AboutUser(Login(cfg, users, form, now, dbFault).claims)
         == Respond(STATUS_OK, Text("Welcome " + users[email].name + "\n" + email))
  {
  }

  /** A token whose email claim no longer names a row, such as the token an
      account held before renaming itself, still passes updateUser's check
      for that email. The update matches no row and succeeds, so the caller
      is handed a token claiming any email, another account's included. With
      that token the check passes for the other account's row, and the next
      update renames that row. */
  lemma StaleTokenRenamesAnotherRow(users: Users, presented: Claims, stale: string, victim: string,
                                    name: string, newEmail: string, newName: string)
    requires stale !in users && victim in users
    requires newEmail !in users || newEmail == victim
    ensures var first := UpdateUserParams(stale, victim, name);
      && !UpdateRefused(users, first, false)
      && Renamed(users, first) == users
      && Claim(ReissuedClaims(presented, victim, name), "email") == Str(victim)
    ensures var second := UpdateUserParams(victim, newEmail, newName);
      && !UpdateRefused(users, second, false)
      && newEmail in Renamed(users, second)
      && Renamed(users, second)[newEmail] == users[victim].(name := newName)
  {
  }
}
