/**
 * The session context: the signed-in user (persisted under `user`) and a
 * `loading` flag that is true until the provider has mounted. Pages redirect
 * to the login page only once `loading` is false.
 */
module Auth {
  import opened Wrappers

  datatype User = User(email: string)

  /**
   * What `useAuth()` returns: the provider's live state, or, outside any provider,
   * the default context whose `login` and `logout` do nothing.
   */
  class Context {
    const inProvider: bool
    var user: Option<User>
    var loading: bool

    /** The default context: no user, still loading, inert operations. */
    constructor Default()
      ensures !inProvider && user == None && loading
    {
      inProvider := false;
      user := None;
      loading := true;
    }

    /** `AuthProvider` on its first render: the stored user, still loading. */
    constructor Provider(stored: Option<User>)
      ensures inProvider && user == stored && loading
    {
      inProvider := true;
      user := stored;
      loading := true;
    }

    /** The provider's mount effect: storage is hydrated, loading ends for good. */
    method Mount()
      modifies this
      ensures inProvider ==> !loading
      ensures !inProvider ==> loading == old(loading)
      ensures user == old(user)
    {
      if inProvider {
        loading := false;
      }
    }

    /** `login(email)`: the user becomes exactly `{email}`. */
    method Login(email: string)
      modifies this
      ensures inProvider ==> user == Some(User(email))
      ensures !inProvider ==> user == old(user)
      ensures loading == old(loading)
    {
      if inProvider {
        user := Some(User(email));
      }
    }

    /** `logout()`: no user afterwards. */
    method Logout()
      modifies this
      ensures inProvider ==> user == None
      ensures !inProvider ==> user == old(user)
      ensures loading == old(loading)
    {
      if inProvider {
        user := None;
      }
    }
  }
}
