/** `/api/users`: GET lists the accounts without their passwords; POST validates the
    required fields, refuses a duplicate email and inserts an account with a hashed password. */
module UsersRoute {
  import opened Common
  import opened AccountStore

  /** The fields GET selects: no password and no status. */
  datatype UserSummary = UserSummary(
    id: string, name: string, email: string, accessLevel: AccessLevel, createdAt: nat, updatedAt: nat)

  function Summary(a: Account): UserSummary {
    UserSummary(a.id, a.name, a.email, a.accessLevel, a.createdAt, a.updatedAt)
  }

  /** GET. `fault` says that `findMany` throws. */
  function Get(rows: seq<Account>, fault: bool): (r: Response<seq<UserSummary>>)
    ensures fault <==> r == Error(500, "Failed to fetch users")
    ensures !fault ==> r.status == 200 && r.body.Json? && |r.body.value| == |rows|
    ensures !fault ==> forall i :: 0 <= i < |rows| ==>
      var u := r.body.value[i];
      u.id == rows[i].id && u.name == rows[i].name && u.email == rows[i].email &&
      u.accessLevel == rows[i].accessLevel && u.createdAt == rows[i].createdAt && u.updatedAt == rows[i].updatedAt
  {
    if fault then Error(500, "Failed to fetch users")
    else JsonOk(seq(|rows|, i requires 0 <= i < |rows| => Summary(rows[i])))
  }

  /** The JSON body of a POST; a field that is absent or null is None. */
  datatype CreateRequest = CreateRequest(
    name: Option<string>, email: Option<string>, password: Option<string>, accessLevel: Option<string>)

  /** `!value` for a string field of the body: absent, null or empty. */
  predicate Blank(v: Option<string>) { v.None? || v.value == "" }

  predicate MissingField(req: CreateRequest) {
    Blank(req.name) || Blank(req.email) || Blank(req.password) || Blank(req.accessLevel)
  }

  /** The row the handler asks the database to create. `status` is left to the schema's
      default, `statusDefault`. */
  function NewAccount(req: CreateRequest, level: AccessLevel, hash: string -> PasswordHash,
                      id: string, now: nat, statusDefault: bool): Account
    requires !MissingField(req)
  {
    Account(id, req.name.value, req.email.value, hash(req.password.value), level, statusDefault, now, now)
  }

  /** POST. An access level outside the schema's enumeration makes the insert throw. */
  method Post(table: UserTable, req: CreateRequest, hash: string -> PasswordHash, id: string, now: nat,
              statusDefault: bool, fault: Fault)
    returns (r: Response<PublicAccount>)
    requires table.Valid()
    modifies table
    ensures table.Valid()
    ensures fault == ReadThrows ==> r == Error(500, "Failed to create user")
    ensures fault != ReadThrows && MissingField(req) ==> r == Error(400, "Missing required fields")
    ensures fault != ReadThrows && !MissingField(req) && HasEmail(old(table.rows), req.email.value) ==>
      r == Error(400, "Email already in use")
    ensures r.status == 201 <==>
      fault == NoFault && !MissingField(req) && !HasEmail(old(table.rows), req.email.value) &&
      AccessLevelOf(req.accessLevel.value).Some? && !HasId(old(table.rows), id)
    ensures r.status == 201 ==>
      var a := NewAccount(req, AccessLevelOf(req.accessLevel.value).value, hash, id, now, statusDefault);
      table.rows == old(table.rows) + [a] && r.body == Json(WithoutPassword(a))
    ensures r.status != 201 ==> table.rows == old(table.rows)
    ensures r.status != 201 ==>
      r == (if fault != ReadThrows && MissingField(req) then Error(400, "Missing required fields")
            else if fault != ReadThrows && HasEmail(old(table.rows), req.email.value) then Error(400, "Email already in use")
            else Error(500, "Failed to create user"))
  {
    if fault == ReadThrows {
      return Error(500, "Failed to create user");
    }
    if MissingField(req) {
      return Error(400, "Missing required fields");
    }
    var existing := FindByEmail(table.rows, req.email.value);
    if existing.Some? {
      return Error(400, "Email already in use");
    }
    if fault == HashThrows {
      return Error(500, "Failed to create user");
    }
    var level := AccessLevelOf(req.accessLevel.value);
    var ok := false;
    if level.Some? && fault != CreateThrows {
      var account := NewAccount(req, level.value, hash, id, now, statusDefault);
      ok := table.Create(account);
      if ok {
        return Response(201, Json(WithoutPassword(account)));
      }
    }
    r := Error(500, "Failed to create user");
  }
}
