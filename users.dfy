/**
 * Users and the in-memory credential store of service/user.go and
 * service/user_store.go. bcrypt is an abstract pair: `Hasher` turns a
 * password into a hash (or fails), `Comparer` says whether a hash accepts a
 * password. Users are values, so `Clone` returns an equal value.
 */
module Users {
  import opened Wrappers
  import opened StoreErrors

  datatype User = User(username: string, hashedPassword: string, role: string)

  /** `bcrypt.GenerateFromPassword`: the hash, or the reason hashing failed. */
  type Hasher = string -> Result<string, string>

  /** `bcrypt.CompareHashAndPassword(hash, password) == nil`. */
  type Comparer = (string, string) -> bool

  /** `NewUser`: username and role copied, the password stored only as its hash. */
  function NewUser(username: string, password: string, role: string, hash: Hasher): (r: Result<User, Error>)
    ensures hash(password).Failure? ==> r == Failure(Failed("cannot hash password: " + hash(password).error))
    ensures hash(password).Success? ==>
              r.Success? && r.value.username == username && r.value.role == role
              && r.value.hashedPassword == hash(password).value
  {
    match hash(password)
    case Failure(e) => Failure(Failed("cannot hash password: " + e))
    case Success(h) => Success(User(username, h, role))
  }

  /** `IsCorrectPassword`: the abstract comparison of the stored hash with the password. */
  function IsCorrectPassword(user: User, password: string, compare: Comparer): bool
  {
    compare(user.hashedPassword, password)
  }

  /** A user made by `NewUser` accepts its own password whenever bcrypt accepts the pair. */
  lemma NewUserAcceptsItsPassword(username: string, password: string, role: string, hash: Hasher, compare: Comparer)
    requires hash(password).Success? && compare(hash(password).value, password)
    ensures NewUser(username, password, role, hash).Success?
    ensures IsCorrectPassword(NewUser(username, password, role, hash).value, password, compare)
  {
  }

  /** `Clone`: a copy with the same three field values. */
  function Clone(user: User): (copy: User)
    ensures copy.username == user.username
    ensures copy.hashedPassword == user.hashedPassword
    ensures copy.role == user.role
  {
    User(user.username, user.hashedPassword, user.role)
  }

  /** The in-memory credential store: username to user. */
  class InMemoryUserStore {
    var users: map<string, User>

    /** Every record is filed under its own username, so one record per username. */
    ghost predicate Valid()
      reads this
    {
      forall name :: name in users ==> users[name].username == name
    }

    constructor ()
      ensures Valid() && users == map[]
    {
      users := map[];
    }

    /** `Save`: refuses a taken username, otherwise files a clone of the user. */
    method Save(user: User) returns (err: Option<Error>)
      requires Valid()
      modifies this
      ensures Valid()
      ensures user.username in old(users) ==> err == Some(ErrAlreadyExists) && users == old(users)
      ensures user.username !in old(users) ==> err == None && users == old(users)[user.username := Clone(user)]
    {
      if user.username in users {
        return Some(ErrAlreadyExists);
      }
      users := users[user.username := Clone(user)];
      return None;
    }

    /** `Find`: a clone of the stored user, or no user and no error on a miss. */
    method Find(username: string) returns (user: Option<User>, err: Option<Error>)
      requires Valid()
      ensures err == None
      ensures username !in users ==> user == None
      ensures username in users ==> user == Some(users[username]) && user.value.username == username
    {
      if username !in users {
        return None, None;
      }
      return Some(Clone(users[username])), None;
    }
  }

  /** `CreateUser`: a hashing error leaves the store alone; otherwise `Save` decides. */
  method CreateUser(store: InMemoryUserStore, username: string, password: string, role: string, hash: Hasher)
    returns (err: Option<Error>)
    requires store.Valid()
    modifies store
    ensures store.Valid()
    ensures hash(password).Failure? ==>
              err == Some(Failed("cannot hash password: " + hash(password).error)) && store.users == old(store.users)
    ensures hash(password).Success? && username in old(store.users) ==>
              err == Some(ErrAlreadyExists) && store.users == old(store.users)
    ensures hash(password).Success? && username !in old(store.users) ==>
              err == None && store.users == old(store.users)[username := User(username, hash(password).value, role)]
  {
    var user := NewUser(username, password, role, hash);
    if user.Failure? {
      return Some(user.error);
    }
    err := store.Save(user.value);
  }

  /**
   * `SeedUsers`: admin1 (role admin), then user1 (role user), both with
   * password "secret"; stops at the first error. bcrypt salts every call, so
   * the two hashings are separate inputs: `hashAdmin` for admin1's and
   * `hashUser` for user1's.
   */
  method SeedUsers(store: InMemoryUserStore, hashAdmin: Hasher, hashUser: Hasher) returns (err: Option<Error>)
    requires store.Valid()
    modifies store
    ensures store.Valid()
    ensures var admin := hashAdmin("secret");
            admin.Failure? ==> err == Some(Failed("cannot hash password: " + admin.error)) && store.users == old(store.users)
    ensures hashAdmin("secret").Success? && "admin1" in old(store.users) ==>
              err == Some(ErrAlreadyExists) && store.users == old(store.users)
    ensures var admin, user := hashAdmin("secret"), hashUser("secret");
            admin.Success? && "admin1" !in old(store.users) ==>
              var withAdmin := old(store.users)["admin1" := User("admin1", admin.value, "admin")];
              && (user.Failure? ==> err == Some(Failed("cannot hash password: " + user.error)) && store.users == withAdmin)
              && (user.Success? && "user1" in old(store.users) ==> err == Some(ErrAlreadyExists) && store.users == withAdmin)
              && (user.Success? && "user1" !in old(store.users) ==>
                    err == None && store.users == withAdmin["user1" := User("user1", user.value, "user")])
  {
    err := CreateUser(store, "admin1", "secret", "admin", hashAdmin);
    if err.Some? {
      return;
    }
    err := CreateUser(store, "user1", "secret", "user", hashUser);
  }
}
