/** `POST /api/auth/login`: look the account up by email, compare the password with its
    stored hash, and answer with the account minus its password. Nothing is written. */
module LoginRoute {
  import opened Common
  import opened AccountStore

  datatype LoginRequest = LoginRequest(email: string, password: string)

  /** `matches(plain, hash)` stands for `bcrypt.compare`. `fault` says that one of the awaited
      calls (reading the body, the lookup, the comparison) throws. */
  function Post(rows: seq<Account>, req: LoginRequest, matches: (string, PasswordHash) -> bool, fault: bool)
    : (r: Response<PublicAccount>)
    requires KeysUnique(rows)
    ensures fault ==> r == Error(500, "Internal server error")
    ensures !fault && !HasEmail(rows, req.email) ==> r == Error(404, "User not found")
    ensures r.status == 401 <==>
      !fault && exists i :: 0 <= i < |rows| && rows[i].email == req.email && !matches(req.password, rows[i].password)
    ensures r.status == 401 ==> r == Error(401, "Invalid password")
    ensures r.Ok() ==> r.status == 200
    ensures r.Ok() ==>
      exists i :: (0 <= i < |rows| && rows[i].email == req.email &&
                   matches(req.password, rows[i].password) && r.body == Json(WithoutPassword(rows[i])))
  {
    if fault then Error(500, "Internal server error")
    else
      match FindByEmail(rows, req.email)
      case None => Error(404, "User not found")
      case Some(user) =>
        var k :| 0 <= k < |rows| && rows[k] == user;
        FindByEmailUnique(rows, req.email, k);
        if !matches(req.password, user.password) then Error(401, "Invalid password")
        else JsonOk(WithoutPassword(user))
  }

  /** Every outcome of the login, one of exactly four. */
  lemma PostOutcomes(rows: seq<Account>, req: LoginRequest, matches: (string, PasswordHash) -> bool, fault: bool)
    requires KeysUnique(rows)
    ensures var r := Post(rows, req, matches, fault);
      r.status in {200, 401, 404, 500} &&
      (r.status == 200 <==> (!fault && HasEmail(rows, req.email) &&
                             matches(req.password, FindByEmail(rows, req.email).value.password)))
  {
  }

  /** When the email is unknown the password is never compared: the answer is the same
      whatever the comparison would have said. */
  lemma UnknownEmailSkipsCompare(rows: seq<Account>, req: LoginRequest,
                                 m1: (string, PasswordHash) -> bool, m2: (string, PasswordHash) -> bool)
    requires KeysUnique(rows) && !HasEmail(rows, req.email)
    ensures Post(rows, req, m1, false) == Post(rows, req, m2, false) == Error(404, "User not found")
  {
  }

  /** A stored account whose password matches logs in as exactly that account, minus the
      password. */
  lemma LoginAsStoredAccount(rows: seq<Account>, req: LoginRequest, matches: (string, PasswordHash) -> bool, k: nat)
    requires KeysUnique(rows) && k < |rows| && rows[k].email == req.email && matches(req.password, rows[k].password)
    ensures Post(rows, req, matches, false) == JsonOk(WithoutPassword(rows[k]))
  {
    FindByEmailUnique(rows, req.email, k);
  }
}
