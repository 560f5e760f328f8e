/** The users table as the handlers see it through the generated queries of
    the db package. The queries themselves are not part of this model; each
    is given the meaning of the SQL statement its name and parameters
    describe, and `dbFault` stands for any failure of the database that the
    handlers cannot see the cause of. */
module Store {
  import opened Http
  import opened Uuid

  /** A row of the users table; rows are keyed by their unique email. */
  datatype User = User(id: Uuid, name: string, password: string, admin: bool)

  type Users = map<string, User>

  /** The errors a query reports: pgx's "no rows in result set", or anything else. */
  datatype DbError = NoRows | Fault

  datatype Result<T> = Ok(value: T) | Err(error: DbError)

  /** The primary key: no two rows share an identifier. */
  ghost predicate UniqueIds(users: Users)
  {
    forall e1, e2 :: e1 in users && e2 in users && e1 != e2 ==> users[e1].id != users[e2].id
  }

  predicate IdInUse(users: Users, id: Uuid)
  {
    exists e :: e in users && users[e].id == id
  }

  /** GetPass: the row stored under an email. */
  function GetPass(users: Users, email: string, dbFault: bool): (r: Result<User>)
    ensures r.Ok? ==> email in users && r.value == users[email]
    ensures r == Err(NoRows) <==> !dbFault && email !in users
    ensures r == Err(Fault) <==> dbFault
  {
    if dbFault then Err(Fault) else if email in users then Ok(users[email]) else Err(NoRows)
  }

  datatype CreateUserParams = CreateUserParams(id: Uuid, email: string, name: string, password: string)

  datatype UpdateUserParams = UpdateUserParams(email: string, email2: string, name: string)

  /** CreateUser is refused on a duplicate email or identifier. */
  predicate CreateRefused(users: Users, arg: CreateUserParams, dbFault: bool)
  {
    dbFault || arg.email in users || IdInUse(users, arg.id)
  }

  /** UpdateUser is refused when the new email already belongs to another row. */
  predicate UpdateRefused(users: Users, arg: UpdateUserParams, dbFault: bool)
  {
    dbFault || (arg.email in users && arg.email2 != arg.email && arg.email2 in users)
  }

  /** The rows after `UPDATE users SET email = $2, name = $3 WHERE email = $1`:
      the one row under the old email moves to the new one with the new name;
      when no row matches, nothing changes. */
  function Renamed(users: Users, arg: UpdateUserParams): Users
  {
    if arg.email in users then (users - {arg.email})[arg.email2 := users[arg.email].(name := arg.name)]
    else users
  }

  /** The rows after setting one row's admin column; no effect on a missing email. */
  function WithAdmin(users: Users, email: string, admin: bool): Users
  {
    if email in users then users[email := users[email].(admin := admin)] else users
  }

  class Queries {
    var users: Users

    ghost predicate Valid()
      reads this
    {
      UniqueIds(users)
    }

    constructor ()
      ensures Valid() && users == map[]
    {
      users := map[];
    }

    /** INSERT a row; the admin column takes its default, false. */
    method CreateUser(arg: CreateUserParams, dbFault: bool) returns (err: Option<DbError>)
      requires Valid()
      modifies this
      ensures Valid()
      ensures err.Some? <==> CreateRefused(old(users), arg, dbFault)
      ensures users == if err.Some? then old(users)
                       else old(users)[arg.email := User(arg.id, arg.name, arg.password, false)]
    {
      if CreateRefused(users, arg, dbFault) {
        return Some(Fault);
      }
      users := users[arg.email := User(arg.id, arg.name, arg.password, false)];
      err := None;
    }

    method UpdateUser(arg: UpdateUserParams, dbFault: bool) returns (err: Option<DbError>)
      requires Valid()
      modifies this
      ensures Valid()
      ensures err.Some? <==> UpdateRefused(old(users), arg, dbFault)
      ensures users == if err.Some? then old(users) else Renamed(old(users), arg)
    {
      if UpdateRefused(users, arg, dbFault) {
        return Some(Fault);
      }
      users := Renamed(users, arg);
      err := None;
    }

    method PromoteAdmin(email: string, dbFault: bool) returns (err: Option<DbError>)
      requires Valid()
      modifies this
      ensures Valid()
      ensures err.Some? <==> dbFault
      ensures users == if dbFault then old(users) else WithAdmin(old(users), email, true)
    {
      if dbFault {
        return Some(Fault);
      }
      users := WithAdmin(users, email, true);
      err := None;
    }

    method DemoteAdmin(email: string, dbFault: bool) returns (err: Option<DbError>)
      requires Valid()
      modifies this
      ensures Valid()
      ensures err.Some? <==> dbFault
      ensures users == if dbFault then old(users) else WithAdmin(old(users), email, false)
    {
      if dbFault {
        return Some(Fault);
      }
      users := WithAdmin(users, email, false);
      err := None;
    }
  }
}
