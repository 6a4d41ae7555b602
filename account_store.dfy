/** The `user` table behind the account endpoints: rows in insertion order, with the
    database's unique constraints on `id` and `email` (lookups by email use `findUnique`,
    which needs that constraint). */
module AccountStore {
  import opened Common

  datatype AccessLevel = Admin | User | ReadOnly

  /** The schema's spellings of the access levels: 'ADMIN', 'USER' and 'READONLY'. */
  function AccessLevelOf(s: string): (r: Option<AccessLevel>)
    ensures r.Some? <==> s == "ADMIN" || s == "USER" || s == "READONLY"
    ensures r == Some(User) <==> s == "USER"
  {
    if s == "ADMIN" then Some(Admin)
    else if s == "USER" then Some(User)
    else if s == "READONLY" then Some(ReadOnly)
    else None
  }

  /** A one-way password hash. A distinct type, so no plaintext can be stored in its place. */
  datatype PasswordHash = PasswordHash(digest: string)

  datatype Account = Account(
    id: string, name: string, email: string, password: PasswordHash,
    accessLevel: AccessLevel, status: bool, createdAt: nat, updatedAt: nat)

  /** An account without its password: what the login and create endpoints return. */
  datatype PublicAccount = PublicAccount(
    id: string, name: string, email: string,
    accessLevel: AccessLevel, status: bool, createdAt: nat, updatedAt: nat)

  /** `const { password, ...rest } = user` */
  function WithoutPassword(a: Account): PublicAccount {
    PublicAccount(a.id, a.name, a.email, a.accessLevel, a.status, a.createdAt, a.updatedAt)
  }

  predicate HasEmail(rows: seq<Account>, email: string) {
    exists i :: 0 <= i < |rows| && rows[i].email == email
  }

  predicate HasId(rows: seq<Account>, id: string) {
    exists i :: 0 <= i < |rows| && rows[i].id == id
  }

  /** The unique constraints: no two rows share an id or an email. */
  predicate KeysUnique(rows: seq<Account>) {
    forall i, j :: 0 <= i < j < |rows| ==> rows[i].id != rows[j].id && rows[i].email != rows[j].email
  }

  /** `findUnique({ where: { email } })`: the row whose email equals `email` exactly. */
  function FindByEmail(rows: seq<Account>, email: string): (r: Option<Account>)
    ensures r.Some? <==> HasEmail(rows, email)
    ensures r.Some? ==> r.value in rows && r.value.email == email
    decreases |rows|
  {
    if rows == [] then None
    else if rows[0].email == email then Some(rows[0])
    else
      var r := FindByEmail(rows[1..], email);
      assert HasEmail(rows, email) ==> HasEmail(rows[1..], email) by {
        if HasEmail(rows, email) {
          var i :| 0 <= i < |rows| && rows[i].email == email;
          assert rows[1..][i - 1].email == email;
        }
      }
      assert HasEmail(rows[1..], email) ==> HasEmail(rows, email) by {
        if HasEmail(rows[1..], email) {
          var i :| 0 <= i < |rows| - 1 && rows[1..][i].email == email;
          assert rows[i + 1].email == email;
        }
      }
      r
  }

  /** Under the unique constraint, the row found for an email is the only one with it. */
  lemma FindByEmailUnique(rows: seq<Account>, email: string, k: nat)
    requires KeysUnique(rows) && k < |rows| && rows[k].email == email
    ensures FindByEmail(rows, email) == Some(rows[k])
  {
    var a := FindByEmail(rows, email).value;
    var i :| 0 <= i < |rows| && rows[i] == a;
    assert i == k;
  }

  /** Appending a row whose id and email are both new keeps the keys unique. */
  lemma AppendKeepsKeysUnique(rows: seq<Account>, a: Account)
    requires KeysUnique(rows) && !HasId(rows, a.id) && !HasEmail(rows, a.email)
    ensures KeysUnique(rows + [a])
  {
    var r := rows + [a];
    forall i, j | 0 <= i < j < |r|
      ensures r[i].id != r[j].id && r[i].email != r[j].email
    {
      if j == |rows| {
        assert r[i] == rows[i];
      }
    }
  }

  /** Where an exception can come from in an endpoint that creates an account, in the order
      the handler meets them: reading the body, hashing the password, the insert. */
  datatype Fault = NoFault | ReadThrows | HashThrows | CreateThrows

  /** The table. Its methods are the database operations the endpoints use. */
  class UserTable {
    var rows: seq<Account>

    ghost predicate Valid()
      reads this
    {
      KeysUnique(rows)
    }

    constructor (initial: seq<Account>)
      requires KeysUnique(initial)
      ensures Valid() && rows == initial
    {
      rows := initial;
    }

    /** `prisma.user.create`: the insert succeeds unless it would break a unique constraint. */
    method Create(a: Account) returns (ok: bool)
      requires Valid()
      modifies this
      ensures Valid()
      ensures ok <==> !HasId(old(rows), a.id) && !HasEmail(old(rows), a.email)
      ensures rows == if ok then old(rows) + [a] else old(rows)
    {
      ok := !HasId(rows, a.id) && !HasEmail(rows, a.email);
      if ok {
        AppendKeepsKeysUnique(rows, a);
        rows := rows + [a];
      }
    }
  }
}
