/** InMemoryUserStore: users keyed by username, each inserted at most once and
    handed out as a copy. The store's read/write lock is not modelled: each
    operation is one atomic step. */
module UserRepository {
  import opened Base
  import opened Entity

  class InMemoryUserStore {
    var users: map<string, User>

    /** NewInMemoryUserStore */
    constructor ()
      ensures users == map[]
    {
      users := map[];
    }

    /** Save: a username already present is refused with ErrAlreadyExists and
        nothing changes; otherwise a clone of `user` is stored under its
        username and every other entry stays as it was. */
    method Save(user: User) returns (err: Option<Error>)
      modifies this
      ensures user.Username in old(users) <==> err.Some?
      ensures err.Some? ==> err.value == ErrAlreadyExists
      ensures err.Some? ==> users == old(users)
      ensures err.None? ==> users == old(users)[user.Username := user.Clone()]
    {
      if user.Username in users {
        return Some(ErrAlreadyExists);
      }
      users := users[user.Username := user.Clone()];
      err := None;
    }

    /** Find: never fails; an absent username is `(nil, nil)`, a present one
        yields a copy whose fields equal the stored user's. */
    function Find(username: string): (r: Result<Option<User>>)
      reads this
      ensures r.Success?
      ensures r.value.None? <==> username !in users
      ensures r.value.Some? ==>
        r.value.value.Username == users[username].Username &&
        r.value.value.HashedPassword == users[username].HashedPassword &&
        r.value.value.Role == users[username].Role
    {
      if username in users then Success(Some(users[username].Clone())) else Success(None)
    }
  }

  /** Round trip: after a successful Save of `user`, Find by its username yields
      a user with the same username, hash and role; a refused Save leaves what
      Find reports for every username as it was. */
  method SaveThenFind(store: InMemoryUserStore, user: User) returns (saved: Option<Error>, found: Result<Option<User>>)
    modifies store
    ensures saved.None? ==> found == Success(Some(user))
    ensures saved.Some? ==> found == old(store.Find(user.Username)) && store.users == old(store.users)
  {
    saved := store.Save(user);
    found := store.Find(user.Username);
  }
}
