/** The login page: a credential check against the stored `mock_users` map. */
module Login {
  import opened Wrappers
  import opened Auth

  const DefaultEmail := "user@example.com"
  const DefaultPassword := "password123"

  /** `mock_users` as first stored: one demo account. */
  const DefaultUsers: map<string, string> := map[DefaultEmail := DefaultPassword]

  /** `existingUserPassword && existingUserPassword === values.password`. */
  predicate Authenticates(users: map<string, string>, email: string, password: string)
  {
    email in users && users[email] != "" && users[email] == password
  }

  /** The demo account signs in with its default credentials, and only with its password. */
  lemma DefaultCredentialsSucceed(password: string)
    ensures Authenticates(DefaultUsers, DefaultEmail, DefaultPassword)
    ensures Authenticates(DefaultUsers, DefaultEmail, password) <==> password == DefaultPassword
  {
  }

  /** The `LoginPage` component. */
  class Page {
    var isLoading: bool
    var users: map<string, string>
    var navigatedTo: Option<string>
    var failureShown: bool             // the "Login Failed" toast

    constructor (storedUsers: map<string, string>)
      ensures !isLoading && users == storedUsers && navigatedTo == None && !failureShown
    {
      isLoading := false;
      users := storedUsers;
      navigatedTo := None;
      failureShown := false;
    }

    /**
     * `onSubmit`: on valid credentials sign in and go to the dashboard; otherwise
     * show the failure toast and stay. Loading ends either way.
     */
    method OnSubmit(auth: Context, email: string, password: string)
      modifies this, auth
      ensures !isLoading && users == old(users)
      ensures Authenticates(users, email, password) ==>
                && navigatedTo == Some("/dashboard") && failureShown == old(failureShown)
                && (auth.inProvider ==> auth.user == Some(User(email)))
                && (!auth.inProvider ==> auth.user == old(auth.user))
      ensures email !in old(users) || old(users)[email] == "" || old(users)[email] != password ==>
                navigatedTo == old(navigatedTo) && failureShown && auth.user == old(auth.user)
      ensures navigatedTo != old(navigatedTo) ==>
                email in old(users) && password != "" && old(users)[email] == password
      ensures auth.loading == old(auth.loading)
    {
      isLoading := true;
      if Authenticates(users, email, password) {
        auth.Login(email);
        navigatedTo := Some("/dashboard");
      } else {
        failureShown := true;
      }
      isLoading := false;
    }
  }
}
