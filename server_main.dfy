/** The server's start-up data and actions: the table of which roles may call
    which method, and the seeding of the user store with two accounts. The
    server interceptor that consumes the table is not part of this model; the
    predicates below state only what the table itself says. */
module ServerMain {
  import opened Base
  import opened Pb
  import opened Entity
  import opened UserRepository

  /** accessibleRoles: the roles allowed to call each guarded method. */
  function AccessibleRoles(): (t: map<string, seq<string>>)
    ensures t.Keys == {CREATE_LAPTOP, UPLOAD_IMAGE, RATE_LAPTOP}
    ensures forall m :: m in t ==> |t[m]| > 0 && t[m][0] == "admin"
    ensures forall m, role :: m in t && role in t[m] ==> role == "admin" || role == "user"
  {
    map[CREATE_LAPTOP := ["admin"], UPLOAD_IMAGE := ["admin"], RATE_LAPTOP := ["admin", "user"]]
  }

  /** A method without an entry in the table: it is not role-guarded. */
  predicate IsPublic(fullMethod: string)
  {
    fullMethod !in AccessibleRoles()
  }

  /** The table lists `role` among the roles allowed to call `fullMethod`. */
  predicate Permits(fullMethod: string, role: string)
  {
    fullMethod in AccessibleRoles() && role in AccessibleRoles()[fullMethod]
  }

  /** The access policy: creating a laptop and uploading an image are for
      admins only, rating is for admins and users, and searching and logging
      in are public. */
  lemma AccessPolicy(role: string)
    ensures Permits(CREATE_LAPTOP, role) <==> role == "admin"
    ensures Permits(UPLOAD_IMAGE, role) <==> role == "admin"
    ensures Permits(RATE_LAPTOP, role) <==> role == "admin" || role == "user"
    ensures IsPublic(SEARCH_LAPTOP) && IsPublic(LOGIN)
    ensures AccessibleRoles().Keys == {CREATE_LAPTOP, UPLOAD_IMAGE, RATE_LAPTOP}
  {
    var k := |LAPTOP_SERVICE_PATH|;
    assert CREATE_LAPTOP[k] == 'C' && UPLOAD_IMAGE[k] == 'U' && RATE_LAPTOP[k] == 'R' && SEARCH_LAPTOP[k] == 'S';
    assert |LOGIN| < |RATE_LAPTOP| < |UPLOAD_IMAGE| < |CREATE_LAPTOP|;
  }

  /** What createUser ends in: the Save error it returns, or log.Fatal, which
      ends the process, when the user cannot be built. */
  datatype Outcome = Returned(err: Option<Error>) | Fatal(cause: Error)

  /** createUser: build the user (hashing the password) and Save it. */
  method CreateUser(userStore: InMemoryUserStore, username: string, password: string, role: string, hash: Hasher)
    returns (r: Outcome)
    modifies userStore
    ensures hash(password).Failure? ==>
      r == Fatal(Wrapped("cannot hash password", hash(password).error)) && userStore.users == old(userStore.users)
    ensures hash(password).Success? ==> r.Returned? && (r.err.Some? <==> username in old(userStore.users))
    ensures r == Returned(None) ==>
      userStore.users == old(userStore.users)[username := User(username, hash(password).value, role)]
    ensures r != Returned(None) ==> userStore.users == old(userStore.users)
    ensures r.Returned? && r.err.Some? ==> r.err == Some(ErrAlreadyExists)
  {
    var user := NewUser(username, password, role, hash);
    if user.Failure? {
      return Fatal(user.error);
    }
    var err := userStore.Save(user.value);
    r := Returned(err);
  }

  /** seedUsers: create `admin1` (role admin) and then `user1` (role user),
      both with password "secret", stopping at the first failure. */
  method SeedUsers(userStore: InMemoryUserStore, hash: Hasher) returns (r: Outcome)
    modifies userStore
    ensures hash("secret").Failure? ==> r.Fatal? && userStore.users == old(userStore.users)
    ensures hash("secret").Success? && "admin1" in old(userStore.users) ==>
      r == Returned(Some(ErrAlreadyExists)) && userStore.users == old(userStore.users)
    ensures hash("secret").Success? && "admin1" !in old(userStore.users) && "user1" in old(userStore.users) ==>
      r == Returned(Some(ErrAlreadyExists)) &&
      userStore.users == old(userStore.users)["admin1" := User("admin1", hash("secret").value, "admin")]
    ensures hash("secret").Success? && "admin1" !in old(userStore.users) && "user1" !in old(userStore.users) ==>
      r == Returned(None) &&
      userStore.users == old(userStore.users)["admin1" := User("admin1", hash("secret").value, "admin")]
                                             ["user1" := User("user1", hash("secret").value, "user")]
  {
    r := CreateUser(userStore, "admin1", "secret", "admin", hash);
    if r != Returned(None) {
      return;
    }
    r := CreateUser(userStore, "user1", "secret", "user", hash);
  }

  /** Seeding a new, empty store: with a working hash it holds exactly the two
      accounts afterwards. */
  method SeedNewStore(hash: Hasher) returns (userStore: InMemoryUserStore, r: Outcome)
    ensures fresh(userStore)
    ensures hash("secret").Success? ==>
      r == Returned(None) &&
      userStore.users == map["admin1" := User("admin1", hash("secret").value, "admin"),
                             "user1" := User("user1", hash("secret").value, "user")]
    ensures hash("secret").Failure? ==> r.Fatal? && userStore.users == map[]
  {
    userStore := new InMemoryUserStore();
    r := SeedUsers(userStore, hash);
  }
}
