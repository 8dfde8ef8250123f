/**
 * The user model: the role enum, the pydantic User record, the dictionary
 * lookup `User.get_user` and the seeded in-memory user table.
 */
module Users {
  import opened Wrappers

  datatype UserRole = Admin | Manager | Regular {
    function Value(): (s: string) {
      match this
      case Admin => "admin"
      case Manager => "manager"
      case Regular => "user"
    }
  }

  /** The enum member whose value is `s`; pydantic accepts nothing else. */
  function ParseRole(s: string): (r: Option<UserRole>)
    ensures r.Some? ==> r.value.Value() == s
    ensures r.None? <==> s !in {"admin", "manager", "user"}
  {
    if s == "admin" then Some(Admin)
    else if s == "manager" then Some(Manager)
    else if s == "user" then Some(Regular)
    else None
  }

  /** A table entry as stored: plain strings. */
  datatype UserRecord = UserRecord(username: string, passwordHash: string, role: string)

  type UserDb = map<string, UserRecord>

  /** A validated user. */
  datatype User = User(username: string, passwordHash: string, role: UserRole)

  /** pydantic's ValidationError for an entry whose role is not a UserRole value. */
  datatype InvalidRecord = InvalidRole(role: string)

  /** `User.get_user(db, username)`: None for an unknown name, else the entry validated as a User. */
  function GetUser(db: UserDb, name: string): (r: Result<Option<User>, InvalidRecord>)
    ensures name !in db ==> r == Ok(None)
    ensures name in db && r.Ok? ==> r.value.Some?
    ensures r.Ok? && r.value.Some? ==>
              && name in db
              && r.value.value.username == db[name].username
              && r.value.value.passwordHash == db[name].passwordHash
              && r.value.value.role.Value() == db[name].role
    ensures r.Err? <==> name in db && db[name].role !in {"admin", "manager", "user"}
  {
    if name !in db then Ok(None)
    else
      var rec := db[name];
      match ParseRole(rec.role)
      case None => Err(InvalidRole(rec.role))
      case Some(role) => Ok(Some(User(rec.username, rec.passwordHash, role)))
  }

  /** `fake_users_db`: three users whose name, key and role coincide; `hash` is bcrypt. */
  function FakeUsersDb(hash: string -> string): (db: UserDb)
  {
    map[
      "admin" := UserRecord("admin", hash("admin"), "admin"),
      "user" := UserRecord("user", hash("user"), "user"),
      "manager" := UserRecord("manager", hash("manager"), "manager")
    ]
  }

  /** Every seeded key finds a valid user with that name and the role of that name. */
  lemma SeededUsersResolve(hash: string -> string, key: string)
    requires key in FakeUsersDb(hash)
    ensures GetUser(FakeUsersDb(hash), key).Ok?
    ensures GetUser(FakeUsersDb(hash), key).value.Some?
    ensures GetUser(FakeUsersDb(hash), key).value.value.username == key
    ensures GetUser(FakeUsersDb(hash), key).value.value.role.Value() == key
    ensures GetUser(FakeUsersDb(hash), key).value.value.passwordHash == hash(key)
  {
  }
}
