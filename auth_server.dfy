/**
 * The login endpoint of service/auth_server.go. The user lookup result is an
 * input (the store behind it is any `UserStore`), bcrypt's comparison and
 * `JWTManager.Generate` are abstract functions.
 */
module AuthService {
  import opened Wrappers
  import opened Grpc
  import opened StoreErrors
  import opened Users

  /** `JWTManager.Generate`: a signed token for the user, or the reason signing failed. */
  type Generator = User -> Result<string, string>

  const BadCredentials := Status(NotFound, "incorrect username/password")

  /** `Login`: the access token of the response, or the status error. */
  function Login(lookup: Result<Option<User>, Error>, password: string, compare: Comparer, generate: Generator)
    : (r: Result<string, Status>)
    ensures lookup.Failure? ==> r == Failure(Status(Internal, "cannot find user: " + Text(lookup.error)))
    ensures lookup == Success(None) ==> r == Failure(BadCredentials)
    ensures lookup.Success? && lookup.value.Some? && !compare(lookup.value.value.hashedPassword, password) ==>
              r == Failure(BadCredentials)
    ensures lookup.Success? && lookup.value.Some? && compare(lookup.value.value.hashedPassword, password) ==>
              var token := generate(lookup.value.value);
              && (token.Failure? ==> r == Failure(Status(Internal, "cannot generate access token")))
              && (token.Success? ==> r == Success(token.value))
    ensures r.Failure? ==> r.error.code == Internal || r.error == BadCredentials
  {
    match lookup
    case Failure(e) => Failure(Status(Internal, "cannot find user: " + Text(e)))
    case Success(found) =>
      if found.None? || !IsCorrectPassword(found.value, password, compare) then Failure(BadCredentials)
      else
        match generate(found.value)
        case Failure(_) => Failure(Status(Internal, "cannot generate access token"))
        case Success(token) => Success(token)
  }

  /**
   * An unknown username and a wrong password are indistinguishable to the
   * caller, whatever the signer would have done.
   */
  lemma UnknownUserLooksLikeWrongPassword(user: User, password: string, compare: Comparer,
                                          generate1: Generator, generate2: Generator)
    requires !compare(user.hashedPassword, password)
    ensures Login(Success(None), password, compare, generate1) == Login(Success(Some(user)), password, compare, generate2)
  {
  }

  /** The signer is consulted only for an existing user with the right password. */
  lemma GenerateOnlyForGoodCredentials(lookup: Result<Option<User>, Error>, password: string, compare: Comparer,
                                       generate1: Generator, generate2: Generator)
    requires !(lookup.Success? && lookup.value.Some? && compare(lookup.value.value.hashedPassword, password))
    ensures Login(lookup, password, compare, generate1) == Login(lookup, password, compare, generate2)
  {
  }

  /**
   * Login against the in-memory store, which never fails: with the seeded or
   * saved user and a password bcrypt accepts, the token is Generate's.
   */
  lemma LoginWithStoredUser(users: map<string, User>, username: string, password: string, compare: Comparer,
                            generate: Generator)
    requires username in users && compare(users[username].hashedPassword, password)
    requires generate(users[username]).Success?
    ensures Login(Success(Some(users[username])), password, compare, generate) == Success(generate(users[username]).value)
  {
  }
}
