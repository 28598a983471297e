/** The two tables of the users application: the custom user, whose identity is its email, with
    the manager that creates ordinary users and superusers; and the ledger of issued refresh tokens,
    whose rows point at a user and go with it when that user is deleted. */
module Models {
  import opened Wrappers
  import opened Jwt

  /** A value passed to the manager as an extra keyword argument. */
  datatype Value = Bool(b: bool) | Int(i: int) | Text(s: string)

  /** The extra keyword arguments, by name. */
  type Fields = map<string, Value>

  /** A stored user: its server-generated id, its normalised email, its password hash, the extra
      fields it was created with, and its last login time. */
  datatype User = User(id: UserId, email: string, password: string, fields: Fields, lastLogin: Option<int>)
  {
    /** `CustomUser.__str__`. */
    function ToString(): string
    {
      email
    }
  }

  /** A row of the `RefreshToken` table: an issued refresh token's string, the user it was issued
      to (the column is nullable) and the time it expires. */
  datatype LedgerRow = LedgerRow(token: string, user: Option<UserId>, expireTime: int)
  {
    /** `RefreshToken.__str__`. */
    function ToString(): string
    {
      token
    }
  }

  /** The `ValueError`s the manager raises, and the unique-constraint violation of `save()`. */
  datatype StoreError = MissingEmail | NotStaff | NotSuperuser | DuplicateEmail

  /** Python truthiness of a field value. */
  predicate Truthy(v: Value)
  {
    match v
    case Bool(b) => b
    case Int(i) => i != 0
    case Text(s) => s != ""
  }

  /** `is_active` defaults to True when the user was created without it. */
  predicate IsActive(u: User)
  {
    "is_active" !in u.fields || Truthy(u.fields["is_active"])
  }

  /** `fields.get(key) is True`: present and exactly the boolean True. */
  predicate IsTrue(fields: Fields, key: string)
  {
    key in fields && fields[key] == Bool(true)
  }

  /** The caller supplied `key` with a value other than True. */
  predicate ExplicitlyNotTrue(fields: Fields, key: string)
  {
    key in fields && fields[key] != Bool(true)
  }

  predicate EmailTaken(users: map<UserId, User>, email: string)
  {
    exists id :: id in users && users[id].email == email
  }

  /** The user table's invariant: every user is stored under its own id, ids come from a counter
      that is always ahead of them, and the email column is unique. */
  ghost predicate ValidUsers(users: map<UserId, User>, nextId: UserId)
  {
    && (forall id :: id in users ==> users[id].id == id && id < nextId)
    && (forall a, b :: a in users && b in users && users[a].email == users[b].email ==> a == b)
  }

  /** The foreign key of the ledger: a row's user, when set, exists. */
  ghost predicate RowsReferToUsers(ledger: seq<LedgerRow>, users: map<UserId, User>)
  {
    forall row :: row in ledger && row.user.Some? ==> row.user.value in users
  }

  /** A user's password check and `authenticate`'s acceptance of the account: the email matches
      exactly, the password hashes to the stored hash, and the account is active. */
  predicate LogsIn(u: User, makePassword: string -> string, email: string, password: string)
  {
    u.email == email && u.password == makePassword(password) && IsActive(u)
  }

  // ---------------------------------------------------------------- ledger queries

  /** A query on the ledger: `filter(token=…)` or `filter(user=…)`. */
  datatype Lookup = TokenIs(token: string) | UserIs(user: UserId)

  predicate Matches(row: LedgerRow, q: Lookup)
  {
    match q
    case TokenIs(t) => row.token == t
    case UserIs(u) => row.user == Some(u)
  }

  /** `filter(q).delete()`: the ledger without the rows the query matches. Every other row keeps
      its multiplicity, and a ledger with no matching row is left as it is. */
  function DeleteWhere(rows: seq<LedgerRow>, q: Lookup): (kept: seq<LedgerRow>)
    ensures |kept| <= |rows|
    ensures forall k :: 0 <= k < |kept| ==> !Matches(kept[k], q)
    ensures forall row :: row in kept <==> row in rows && !Matches(row, q)
    ensures forall row :: !Matches(row, q) ==> multiset(kept)[row] == multiset(rows)[row]
    ensures (forall k :: 0 <= k < |rows| ==> !Matches(rows[k], q)) ==> kept == rows
  {
    if rows == [] then []
    else
      assert rows == [rows[0]] + rows[1..];
      if Matches(rows[0], q) then DeleteWhere(rows[1..], q)
      else [rows[0]] + DeleteWhere(rows[1..], q)
  }

  /** Deleting from a ledger with one more row at its end deletes from the old ledger, and keeps
      the new row exactly when the query does not match it. */
  lemma {:induction false} DeleteWhereAppend(rows: seq<LedgerRow>, row: LedgerRow, q: Lookup)
    ensures DeleteWhere(rows + [row], q) == DeleteWhere(rows, q) + (if Matches(row, q) then [] else [row])
  {
    if rows == [] {
      assert rows + [row] == [row];
    } else {
      assert (rows + [row])[1..] == rows[1..] + [row];
      DeleteWhereAppend(rows[1..], row, q);
    }
  }

  /** Deleting by token string keeps exactly the rows whose string form differs from it. */
  lemma DeleteByTokenKeepsOtherStrings(rows: seq<LedgerRow>, token: string)
    ensures forall row :: row in DeleteWhere(rows, TokenIs(token)) <==> row in rows && row.ToString() != token
  {
  }

  /** Deleting twice deletes nothing more. */
  lemma DeleteWhereIdempotent(rows: seq<LedgerRow>, q: Lookup)
    ensures DeleteWhere(DeleteWhere(rows, q), q) == DeleteWhere(rows, q)
  {
  }

  // ---------------------------------------------------------------- creating users

  /** `dict.setdefault(key, value)`: the dictionary afterwards. */
  function SetDefault(fields: Fields, key: string, value: Value): (r: Fields)
    ensures r.Keys == fields.Keys + {key}
    ensures forall k :: k in fields ==> r[k] == fields[k]
    ensures key !in fields ==> r[key] == value
  {
    if key in fields then fields else fields[key := value]
  }

  /** The extra fields of `create_superuser` after its three `setdefault`s: the three flags are
      present, those the caller left out are True, and nothing the caller supplied is replaced. */
  function SuperuserFields(extra: Fields): (r: Fields)
    ensures r.Keys == extra.Keys + {"is_staff", "is_superuser", "is_active"}
    ensures forall k :: k in extra ==> r[k] == extra[k]
    ensures "is_staff" !in extra ==> r["is_staff"] == Bool(true)
    ensures "is_superuser" !in extra ==> r["is_superuser"] == Bool(true)
    ensures "is_active" !in extra ==> r["is_active"] == Bool(true)
  {
    SetDefault(SetDefault(SetDefault(extra, "is_staff", Bool(true)), "is_superuser", Bool(true)), "is_active", Bool(true))
  }

  /** What `create_user` does to a user table: a missing or empty email raises; otherwise the user
      is built with the normalised email, the extra fields as given and the password's hash, and its
      `save()` violates the unique email constraint exactly when another user has that email. A
      user that is saved keeps the table's invariant. */
  function CreateUserOutcome(users: map<UserId, User>, nextId: UserId,
                             normalize: string -> string, makePassword: string -> string,
                             email: Option<string>, password: string, extra: Fields): (r: Result<User, StoreError>)
    ensures r.Ok? || r == Err(MissingEmail) || r == Err(DuplicateEmail)
    ensures r == Err(MissingEmail) <==> email.None? || email.value == ""
    ensures r == Err(DuplicateEmail) <==> email.Some? && email.value != "" && EmailTaken(users, normalize(email.value))
    ensures r.Ok? ==> r.value == User(nextId, normalize(email.value), makePassword(password), extra, None)
    ensures r.Ok? && ValidUsers(users, nextId) ==>
              nextId !in users && ValidUsers(users[nextId := r.value], nextId + 1)
  {
    if email.None? || email.value == "" then Err(MissingEmail)
    else
      var normalized := normalize(email.value);
      if EmailTaken(users, normalized) then Err(DuplicateEmail)
      else Ok(User(nextId, normalized, makePassword(password), extra, None))
  }

  /** What `create_superuser` does: the flags are defaulted first, a staff or superuser flag that is
      not exactly True raises (staff checked first), and otherwise it is `create_user` with the
      defaulted fields. `is_active` is not checked. */
  function CreateSuperuserOutcome(users: map<UserId, User>, nextId: UserId,
                                  normalize: string -> string, makePassword: string -> string,
                                  email: Option<string>, password: string, extra: Fields): (r: Result<User, StoreError>)
    ensures r == Err(NotStaff) <==> ExplicitlyNotTrue(extra, "is_staff")
    ensures r == Err(NotSuperuser) <==>
              !ExplicitlyNotTrue(extra, "is_staff") && ExplicitlyNotTrue(extra, "is_superuser")
    ensures !ExplicitlyNotTrue(extra, "is_staff") && !ExplicitlyNotTrue(extra, "is_superuser") ==>
              r == CreateUserOutcome(users, nextId, normalize, makePassword, email, password, SuperuserFields(extra))
    ensures r.Ok? ==> IsTrue(r.value.fields, "is_staff") && IsTrue(r.value.fields, "is_superuser")
    ensures r.Ok? ==> "is_active" in r.value.fields && forall k :: k in extra ==> k in r.value.fields && r.value.fields[k] == extra[k]
  {
    var fields := SuperuserFields(extra);
    if !IsTrue(fields, "is_staff") then Err(NotStaff)
    else if !IsTrue(fields, "is_superuser") then Err(NotSuperuser)
    else CreateUserOutcome(users, nextId, normalize, makePassword, email, password, fields)
  }

  /** Registering the same email twice: the second attempt violates the unique constraint. */
  lemma SecondRegistrationFails(users: map<UserId, User>, nextId: UserId,
                                normalize: string -> string, makePassword: string -> string,
                                email: Option<string>, password: string, extra: Fields,
                                password': string, extra': Fields)
    requires CreateUserOutcome(users, nextId, normalize, makePassword, email, password, extra).Ok?
    ensures var u := CreateUserOutcome(users, nextId, normalize, makePassword, email, password, extra).value;
            CreateUserOutcome(users[nextId := u], nextId + 1, normalize, makePassword, email, password', extra')
              == Err(DuplicateEmail)
  {
    var u := CreateUserOutcome(users, nextId, normalize, makePassword, email, password, extra).value;
    assert users[nextId := u][nextId].email == normalize(email.value);
  }

  /** An explicit `is_active=False` passes `create_superuser`'s checks, and the superuser it creates
      can never log in. */
  lemma InactiveSuperuserAccepted(users: map<UserId, User>, nextId: UserId,
                                  normalize: string -> string, makePassword: string -> string,
                                  email: string, password: string, extra: Fields)
    requires email != "" && !EmailTaken(users, normalize(email))
    requires !ExplicitlyNotTrue(extra, "is_staff") && !ExplicitlyNotTrue(extra, "is_superuser")
    requires "is_active" in extra && extra["is_active"] == Bool(false)
    ensures var r := CreateSuperuserOutcome(users, nextId, normalize, makePassword, Some(email), password, extra);
            r.Ok? && !IsActive(r.value) && forall e, p :: !LogsIn(r.value, makePassword, e, p)
  {
  }

  /** Under the email uniqueness invariant, a user's string form identifies it. */
  lemma UserStringIdentifies(users: map<UserId, User>, nextId: UserId, a: UserId, b: UserId)
    requires ValidUsers(users, nextId) && a in users && b in users
    ensures users[a].ToString() == users[b].ToString() <==> a == b
  {
  }

  // ---------------------------------------------------------------- the store

  /** The database tables of the application: users by id, the refresh-token ledger, and the
      counter that generates user ids. Email normalisation and password hashing are the framework's
      and are given as functions. */
  class UserStore {
    const normalize: string -> string
    const makePassword: string -> string
    var users: map<UserId, User>
    var ledger: seq<LedgerRow>
    var nextId: UserId

    ghost predicate Valid()
      reads this
    {
      ValidUsers(users, nextId) && RowsReferToUsers(ledger, users)
    }

    constructor (normalize: string -> string, makePassword: string -> string)
      ensures Valid()
      ensures this.normalize == normalize && this.makePassword == makePassword
      ensures users == map[] && ledger == []
    {
      this.normalize := normalize;
      this.makePassword := makePassword;
      users := map[];
      ledger := [];
      nextId := 0;
    }

    /** `CustomUserManager.create_user`. */
    method CreateUser(email: Option<string>, password: string, extra: Fields) returns (r: Result<User, StoreError>)
      requires Valid()
      modifies this
      ensures Valid()
      ensures r == CreateUserOutcome(old(users), old(nextId), normalize, makePassword, email, password, extra)
      ensures users == (if r.Ok? then old(users)[r.value.id := r.value] else old(users))
      ensures ledger == old(ledger)
      ensures r.Err? ==> nextId == old(nextId)
    {
      if email.None? || email.value == "" {
        return Err(MissingEmail);
      }
      var normalized := normalize(email.value);
      var user := User(nextId, normalized, "", extra, None);
      user := user.(password := makePassword(password));
      // save(): the database enforces the unique email column
      if EmailTaken(users, normalized) {
        return Err(DuplicateEmail);
      }
      users := users[nextId := user];
      nextId := nextId + 1;
      r := Ok(user);
    }

    /** `CustomUserManager.create_superuser`. */
    method CreateSuperuser(email: Option<string>, password: string, extra: Fields) returns (r: Result<User, StoreError>)
      requires Valid()
      modifies this
      ensures Valid()
      ensures r == CreateSuperuserOutcome(old(users), old(nextId), normalize, makePassword, email, password, extra)
      ensures users == (if r.Ok? then old(users)[r.value.id := r.value] else old(users))
      ensures ledger == old(ledger)
    {
      var fields := extra;
      fields := SetDefault(fields, "is_staff", Bool(true));
      fields := SetDefault(fields, "is_superuser", Bool(true));
      fields := SetDefault(fields, "is_active", Bool(true));
      if !IsTrue(fields, "is_staff") {
        return Err(NotStaff);
      }
      if !IsTrue(fields, "is_superuser") {
        return Err(NotSuperuser);
      }
      r := CreateUser(email, password, fields);
    }

    /** Who `authenticate(email=…, password=…)` returns: the user with exactly that email, if its
        password checks and it is active. */
    method Authenticate(email: string, password: string) returns (r: Option<User>)
      requires Valid()
      ensures r.Some? ==> r.value.id in users && users[r.value.id] == r.value
      ensures r.Some? ==> LogsIn(r.value, makePassword, email, password)
      ensures r.None? <==> forall id :: id in users ==> !LogsIn(users[id], makePassword, email, password)
    {
      if !EmailTaken(users, email) {
        return None;
      }
      var id :| id in users && users[id].email == email;
      var user := users[id];
      if user.password == makePassword(password) && IsActive(user) {
        r := Some(user);
      } else {
        r := None;
      }
    }

    /** `update_last_login`: the user's last login becomes `now`. */
    method UpdateLastLogin(id: UserId, now: int)
      requires Valid() && id in users
      modifies this
      ensures Valid()
      ensures users == old(users)[id := old(users)[id].(lastLogin := Some(now))]
      ensures ledger == old(ledger) && nextId == old(nextId)
    {
      users := users[id := users[id].(lastLogin := Some(now))];
    }

    /** `RefreshToken.objects.create(…)`: the foreign key refuses a user that does not exist. */
    method CreateRow(row: LedgerRow) returns (ok: bool)
      requires Valid()
      modifies this
      ensures Valid()
      ensures ok <==> row.user.None? || row.user.value in users
      ensures ledger == (if ok then old(ledger) + [row] else old(ledger))
      ensures users == old(users) && nextId == old(nextId)
    {
      ok := row.user.None? || row.user.value in users;
      if ok {
        ledger := ledger + [row];
      }
    }

    /** `RefreshToken.objects.filter(q).delete()`, returning how many rows went. */
    method DeleteRows(q: Lookup) returns (count: nat)
      requires Valid()
      modifies this
      ensures Valid()
      ensures ledger == DeleteWhere(old(ledger), q)
      ensures count == |old(ledger)| - |ledger|
      ensures users == old(users) && nextId == old(nextId)
    {
      var kept := DeleteWhere(ledger, q);
      count := |ledger| - |kept|;
      ledger := kept;
    }

    /** Deleting a user: `on_delete=CASCADE` deletes the ledger rows that refer to it. */
    method DeleteUser(id: UserId)
      requires Valid()
      modifies this
      ensures Valid()
      ensures users == old(users) - {id}
      ensures ledger == DeleteWhere(old(ledger), UserIs(id))
      ensures nextId == old(nextId)
    {
      users := users - {id};
      ledger := DeleteWhere(ledger, UserIs(id));
    }
  }
}
