/** AuthServer.Login: look the user up, check the password, issue a token.
    The JWT manager is outside the model: its Generate is a function supplied
    by the caller, as it behaves at the time of the call. */
module AuthService {
  import opened Base
  import opened Pb
  import opened Entity
  import opened UserRepository

  /** JWTManager.Generate: a signed token for the user, or an error. */
  type TokenGenerator = User -> Result<string>

  /** The login decision on the result of the user lookup: a lookup error is
      returned unchanged; an unknown user and a wrong password both give
      NotFound; a failure to generate the token gives Internal; otherwise the
      reply carries the generated token. */
  function LoginDecision(lookup: Result<Option<User>>, password: string, compare: Comparer,
                         generate: TokenGenerator): (r: Result<LoginResponse>)
    ensures lookup.Failure? ==> r == Failure(lookup.error)
    ensures lookup.Success? && (lookup.value.None? || !lookup.value.value.IsCorrectPassword(password, compare)) ==>
      r == Failure(Status(NotFound))
    ensures r.Success? <==>
      lookup.Success? && lookup.value.Some? && lookup.value.value.IsCorrectPassword(password, compare) &&
      generate(lookup.value.value).Success?
    ensures (lookup.Success? && lookup.value.Some? && lookup.value.value.IsCorrectPassword(password, compare) &&
             generate(lookup.value.value).Failure?) ==> r == Failure(Status(Internal))
    ensures r.Success? ==> r.value.accessToken == generate(lookup.value.value).value
  {
    match lookup
    case Failure(e) => Failure(e)
    case Success(found) =>
      if found.None? || !found.value.IsCorrectPassword(password, compare) then
        Failure(Status(NotFound))
      else
        match generate(found.value)
        case Failure(_) => Failure(Status(Internal))
        case Success(token) => Success(LoginResponse(token))
  }

  /** The token generator is consulted only once the user exists and the
      password is right: before that, any two generators give the same reply. */
  lemma GeneratorOnlyAfterChecks(lookup: Result<Option<User>>, password: string, compare: Comparer,
                                 g1: TokenGenerator, g2: TokenGenerator)
    requires !(lookup.Success? && lookup.value.Some? && lookup.value.value.IsCorrectPassword(password, compare))
    ensures LoginDecision(lookup, password, compare, g1) == LoginDecision(lookup, password, compare, g2)
  {
  }

  /** A wrong password is answered exactly as an unknown username is, so a
      caller cannot tell which of the two it was. */
  lemma WrongPasswordLooksLikeUnknownUser(u: User, password: string, compare: Comparer, generate: TokenGenerator)
    requires !u.IsCorrectPassword(password, compare)
    ensures LoginDecision(Success(Some(u)), password, compare, generate) ==
            LoginDecision(Success(None), password, compare, generate)
  {
  }

  class AuthServer {
    const userStore: InMemoryUserStore

    /** NewAuthServer */
    constructor (userStore: InMemoryUserStore)
      ensures this.userStore == userStore
    {
      this.userStore := userStore;
    }

    /** Login against the in-memory user store, whose lookup never fails: an
        unknown username is NotFound, and a token is issued only to a stored
        user whose password checks, generated for that user. */
    function Login(req: LoginRequest, compare: Comparer, generate: TokenGenerator): (r: Result<LoginResponse>)
      reads userStore
      ensures req.username !in userStore.users ==> r == Failure(Status(NotFound))
      ensures r.Success? <==>
        req.username in userStore.users &&
        userStore.users[req.username].IsCorrectPassword(req.password, compare) &&
        generate(userStore.users[req.username]).Success?
      ensures r.Success? ==> r.value.accessToken == generate(userStore.users[req.username]).value
    {
      LoginDecision(userStore.Find(req.username), req.password, compare, generate)
    }
  }
}
