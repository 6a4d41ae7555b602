/** `POST /api/auth/register`: refuse an email already in use, otherwise insert a new
    account with the hashed password, access level USER and status true. */
module RegisterRoute {
  import opened Common
  import opened AccountStore

  datatype RegisterRequest = RegisterRequest(name: string, email: string, password: string)

  /** The row the handler asks the database to create. `hash` stands for `bcrypt.hash`;
      `id` and `now` are what the database fills in. */
  function NewAccount(req: RegisterRequest, hash: string -> PasswordHash, id: string, now: nat): Account {
    Account(id, req.name, req.email, hash(req.password), User, true, now, now)
  }

  /** The handler, one request at a time. */
  method Post(table: UserTable, req: RegisterRequest, hash: string -> PasswordHash, id: string, now: nat, fault: Fault)
    returns (r: Response<PublicAccount>)
    requires table.Valid()
    modifies table
    ensures table.Valid()
    ensures fault == ReadThrows ==> r == Error(500, "Internal server error")
    ensures fault != ReadThrows && HasEmail(old(table.rows), req.email) ==> r == Error(400, "Email already in use")
    ensures r.status == 201 <==>
      fault in {NoFault} && !HasEmail(old(table.rows), req.email) && !HasId(old(table.rows), id)
    ensures r.status == 201 ==>
      table.rows == old(table.rows) + [NewAccount(req, hash, id, now)] &&
      r.body == Json(WithoutPassword(NewAccount(req, hash, id, now)))
    ensures r.status != 201 ==> table.rows == old(table.rows)
    ensures r.status != 201 ==>
      r == (if fault != ReadThrows && HasEmail(old(table.rows), req.email) then Error(400, "Email already in use")
            else Error(500, "Internal server error"))
  {
    if fault == ReadThrows {
      return Error(500, "Internal server error");
    }
    var existing := FindByEmail(table.rows, req.email);
    if existing.Some? {
      return Error(400, "Email already in use");
    }
    if fault == HashThrows {
      return Error(500, "Internal server error");
    }
    var account := NewAccount(req, hash, id, now);
    var ok := false;
    if fault != CreateThrows {
      ok := table.Create(account);
    }
    if !ok {
      return Error(500, "Internal server error");
    }
    r := Response(201, Json(WithoutPassword(account)));
  }

  /** A new account is created as a USER with status true, holding the hash of the supplied
      password and never the plaintext. */
  lemma NewAccountDefaults(req: RegisterRequest, hash: string -> PasswordHash, id: string, now: nat)
    ensures var a := NewAccount(req, hash, id, now);
      a.name == req.name && a.email == req.email && a.accessLevel == User && a.status &&
      a.password == hash(req.password) && AccessLevelOf("USER") == Some(a.accessLevel)
  {
  }
}
