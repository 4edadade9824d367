/** The User entity: a principal with a bcrypt password hash and a role.
    bcrypt is outside the model: hashing is a function supplied by the caller
    (with whatever salt the real call would draw), and the comparison is a
    function that reports an error when hash and password do not match. */
module Entity {
  import opened Base

  /** bcrypt.GenerateFromPassword as it behaves for the calls being modelled. */
  type Hasher = string -> Result<seq<byte>>

  /** bcrypt.CompareHashAndPassword: no error exactly when the password matches. */
  type Comparer = (seq<byte>, string) -> Option<Error>

  datatype User = User(Username: string, HashedPassword: seq<byte>, Role: string)
  {
    /** IsCorrectPassword: the comparison of the stored hash with `password`
        reports no error. */
    predicate IsCorrectPassword(password: string, compare: Comparer)
      ensures IsCorrectPassword(password, compare) <==> compare(HashedPassword, password) == None
    {
      compare(HashedPassword, password).None?
    }

    /** Clone: a user with the same username, hash and role. Users are values
        here, so the copy is indistinguishable from the original. */
    function Clone(): (c: User)
      ensures c.Username == Username && c.HashedPassword == HashedPassword && c.Role == Role
      ensures c == this
    {
      User(Username, HashedPassword, Role)
    }
  }

  /** NewUser: hash the password; a hashing failure is returned wrapped and no
      user is made; otherwise the user carries the arguments and the hash. */
  function NewUser(username: string, password: string, role: string, hash: Hasher): (r: Result<User>)
    ensures r.Success? <==> hash(password).Success?
    ensures r.Success? ==>
      r.value.Username == username && r.value.Role == role &&
      r.value.HashedPassword == hash(password).value
    ensures r.Failure? ==>
      r.error == Wrapped("cannot hash password", hash(password).error) &&
      Is(r.error, hash(password).error)
  {
    match hash(password)
    case Failure(e) => Failure(Wrapped("cannot hash password", e))
    case Success(h) => Success(User(username, h, role))
  }
}
