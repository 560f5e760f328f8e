/** The credential flow of routes/auth.go: `login` checks a password and
    issues a signed claim set, `register` salts, hashes and inserts. */
module Auth {
  import opened Http
  import opened Uuid
  import opened Tokens
  import opened Store

  /** The bcrypt work factor `register` hashes with. */
  const BCRYPT_COST := 12

  /** A handler's answer together with the claims it signed into it, if any. */
  datatype Issued = Issued(response: Response, claims: Option<Claims>)

  /** The password stored for `email` verifies against `pass` salted with
      the account's canonical id string. */
  ghost predicate PasswordMatches(cfg: Config, users: Users, email: string, pass: string)
  {
    email in users && cfg.hasher.compare(users[email].password, pass + CanonicalString(users[email].id)) == Match
  }

  /** The claim set a successful login signs for account `email`: the
      request email, the stored name and admin flag, the owner flag computed
      from the canonical id string, and expiry 72 hours after `now`. */
  ghost function LoginClaims(cfg: Config, users: Users, email: string, now: int): Claims
    requires email in users
  {
    map["email" := Str(email),
        "name" := Str(users[email].name),
        "admin" := Bool(users[email].admin),
        "owner" := Bool(CanonicalString(users[email].id) == cfg.ownerUuid),
        "exp" := Num(now + 72 * 3600)]
  }

  /** login: the store is consulted only once both fields are present; an
      unknown email and a wrong password give the same 401; every internal
      failure gives the same 500; a token is issued exactly when the password
      matches and signing succeeds. */
  function Login(cfg: Config, users: Users, form: Form, now: int, dbFault: bool): (o: Issued)
    ensures var email, pass := FormValue(form, "email"), FormValue(form, "password");
      && (email == "" || pass == "" ==>
            o == Issued(Respond(STATUS_BAD_REQUEST, UNDEFINED_PARAM_ERROR), None))
      && (email != "" && pass != "" && !dbFault && !PasswordMatches(cfg, users, email, pass)
          && (email in users ==> cfg.hasher.compare(users[email].password, pass + CanonicalString(users[email].id)) == Mismatch)
          ==> o == Issued(Respond(STATUS_UNAUTHORIZED, INVALID_EMAIL_PASS), None))
      && (email != "" && pass != "" && (dbFault ||
            (email in users && cfg.hasher.compare(users[email].password, pass + CanonicalString(users[email].id)) == Malformed))
          ==> o == Issued(Respond(STATUS_INTERNAL_SERVER_ERROR, UNKNOWN_ERROR), None))
      && (email != "" && pass != "" && !dbFault && PasswordMatches(cfg, users, email, pass)
          && cfg.sign(cfg.secret, LoginClaims(cfg, users, email, now)).None?
          ==> o == Issued(Respond(STATUS_INTERNAL_SERVER_ERROR, UNKNOWN_ERROR), None))
      && (email != "" && pass != "" && !dbFault && PasswordMatches(cfg, users, email, pass) ==>
            o.response != Panic && o.response.status != STATUS_UNAUTHORIZED)
      && (o.claims.Some? <==> email != "" && pass != "" && !dbFault && PasswordMatches(cfg, users, email, pass)
                               && cfg.sign(cfg.secret, LoginClaims(cfg, users, email, now)).Some?)
      && (o.claims.Some? ==>
            && o.claims.value == LoginClaims(cfg, users, email, now)
            && o.response == Respond(STATUS_OK, Jwt(cfg.sign(cfg.secret, o.claims.value).value)))
      && (o.claims.None? ==> o.response.Respond? && o.response.status != STATUS_OK)
  {
    var email := FormValue(form, "email");
    var pass := FormValue(form, "password");
    if pass == "" || email == "" then
      Issued(Respond(STATUS_BAD_REQUEST, UNDEFINED_PARAM_ERROR), None)
    else
      match GetPass(users, email, dbFault)
      case Err(NoRows) => Issued(Respond(STATUS_UNAUTHORIZED, INVALID_EMAIL_PASS), None)
      case Err(Fault) => Issued(Respond(STATUS_INTERNAL_SERVER_ERROR, UNKNOWN_ERROR), None)
      case Ok(row) =>
        var usrUuid := FormatId(row.id);
        FormatIdIsCanonical(row.id);
        match cfg.hasher.compare(row.password, pass + usrUuid)
        case Mismatch => Issued(Respond(STATUS_UNAUTHORIZED, INVALID_EMAIL_PASS), None)
        case Malformed => Issued(Respond(STATUS_INTERNAL_SERVER_ERROR, UNKNOWN_ERROR), None)
        case Match =>
          var isOwner := usrUuid == cfg.ownerUuid;
          var claims := NewClaims(Str(email), Str(row.name), Bool(row.admin), Bool(isOwner), Num(now + TOKEN_LIFETIME));
          match cfg.sign(cfg.secret, claims)
          case None => Issued(Respond(STATUS_INTERNAL_SERVER_ERROR, UNKNOWN_ERROR), None)
          case Some(jwtToken) => Issued(Respond(STATUS_OK, Jwt(jwtToken)), Some(claims))
  }

  /** register: with all three fields present, hashes the password salted
      with uuid.String() of the fresh id and inserts the row; replies 201 and
      issues no token. Any hashing or insert failure, a duplicate email
      included, is the same 500. */
  method Register(q: Queries, cfg: Config, form: Form, freshId: Uuid, dbFault: bool) returns (r: Response)
    requires q.Valid()
    modifies q
    ensures q.Valid()
    ensures var name, pass, email := FormValue(form, "name"), FormValue(form, "password"), FormValue(form, "email");
      if name == "" || pass == "" || email == "" then
        r == Respond(STATUS_BAD_REQUEST, UNDEFINED_PARAM_ERROR) && q.users == old(q.users)
      else match cfg.hasher.generate(pass + CanonicalString(freshId), BCRYPT_COST)
        case None =>
          r == Respond(STATUS_INTERNAL_SERVER_ERROR, UNKNOWN_ERROR) && q.users == old(q.users)
        case Some(hash) =>
          if CreateRefused(old(q.users), CreateUserParams(freshId, email, name, hash), dbFault) then
            r == Respond(STATUS_INTERNAL_SERVER_ERROR, UNKNOWN_ERROR) && q.users == old(q.users)
          else
            r == Respond(STATUS_CREATED, Message("user has been added"))
            && q.users == old(q.users)[email := User(freshId, name, hash, false)]
  {
    var name := FormValue(form, "name");
    var pass := FormValue(form, "password");
    var email := FormValue(form, "email");

    if name == "" || pass == "" || email == "" {
      return Respond(STATUS_BAD_REQUEST, UNDEFINED_PARAM_ERROR);
    }

    pass := pass + CanonicalString(freshId);
    var password := cfg.hasher.generate(pass, BCRYPT_COST);
    if password.None? {
      return Respond(STATUS_INTERNAL_SERVER_ERROR, UNKNOWN_ERROR);
    }

    var usr := CreateUserParams(freshId, email, name, password.value);
    var err := q.CreateUser(usr, dbFault);
    if err.Some? {
      return Respond(STATUS_INTERNAL_SERVER_ERROR, UNKNOWN_ERROR);
    }

    r := Respond(STATUS_CREATED, Message("user has been added"));
  }

  /** A password registered for a fresh id verifies at login with the same
      email and password: the token carries the registered name, admin = false,
      and expires 72 hours after the login. */
  lemma RegisterThenLogin(cfg: Config, before: Users, email: string, name: string, pass: string,
                          freshId: Uuid, hash: string, now: int)
    requires Sound(cfg.hasher)
    requires email != "" && pass != ""
    requires cfg.hasher.generate(pass + CanonicalString(freshId), BCRYPT_COST) == Some(hash)
    ensures var after := before[email := User(freshId, name, hash, false)];
      var o := Login(cfg, after, map["email" := email, "password" := pass], now, false);
      && PasswordMatches(cfg, after, email, pass)
      && (cfg.sign(cfg.secret, NewClaims(Str(email), Str(name), Bool(false),
                                        Bool(CanonicalString(freshId) == cfg.ownerUuid),
                                        Num(now + TOKEN_LIFETIME))).Some? ==>
            && o.claims.Some?
            && o.claims.value["email"] == Str(email)
            && o.claims.value["name"] == Str(name)
            && o.claims.value["admin"] == Bool(false)
            && o.claims.value["exp"] == Num(now + TOKEN_LIFETIME))
  {
    var after := before[email := User(freshId, name, hash, false)];
    var form := map["email" := email, "password" := pass];
    assert FormValue(form, "email") == email && FormValue(form, "password") == pass;
    assert cfg.hasher.compare(hash, pass + CanonicalString(freshId)) == Match;
    FormatIdIsCanonical(freshId);
  }

  /** Only an account whose canonical id string equals the configured owner
      UUID is ever issued owner = true; so an owner UUID that is not in
      lowercase 8-4-4-4-12 form makes nobody the owner. */
  lemma OwnerClaimNeedsCanonicalConfig(cfg: Config, users: Users, form: Form, now: int, dbFault: bool)
    requires Login(cfg, users, form, now, dbFault).claims.Some?
    requires Login(cfg, users, form, now, dbFault).claims.value["owner"] == Bool(true)
    ensures IsCanonicalForm(cfg.ownerUuid)
    ensures var email := FormValue(form, "email");
      email in users && CanonicalString(users[email].id) == cfg.ownerUuid
  {
  }

  /** In a store whose identifiers are unique, at most one account logs in
      as owner. */
  lemma AtMostOneOwner(cfg: Config, users: Users, form1: Form, form2: Form, now1: int, now2: int)
    requires UniqueIds(users)
    requires Login(cfg, users, form1, now1, false).claims.Some?
    requires Login(cfg, users, form2, now2, false).claims.Some?
    requires Login(cfg, users, form1, now1, false).claims.value["owner"] == Bool(true)
    requires Login(cfg, users, form2, now2, false).claims.value["owner"] == Bool(true)
    ensures FormValue(form1, "email") == FormValue(form2, "email")
  {
    var e1, e2 := FormValue(form1, "email"), FormValue(form2, "email");
    CanonicalStringInjective(users[e1].id, users[e2].id);
  }
}
