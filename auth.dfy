/** backend/auth.py: checking a username and password against the user table. */
module Auth {
  import opened Wrappers
  import opened Models

  /** An access token issued for an identity; its encoding is not modelled. */
  datatype Token = AccessToken(identity: string)

  /**
   * `authenticate_user`: a token for `username` exactly when the name is in
   * the table and its stored password equals `password` character for character.
   */
  function Authenticate(users: map<string, UserRecord>, username: string, password: string): (token: Option<Token>)
    ensures username !in users ==> token == None
    ensures username in users && users[username].password != password ==> token == None
    ensures username in users && users[username].password == password ==> token == Some(AccessToken(username))
  {
    if username in users && users[username].password == password then Some(AccessToken(username)) else None
  }

  /** Neither the name nor the password is case-folded. */
  lemma CredentialsAreCaseSensitive()
    ensures Authenticate(InitialUsers(), "ZIYAD", "Admin123") == Some(AccessToken("ZIYAD"))
    ensures Authenticate(InitialUsers(), "ZIYAD", "admin123") == None
    ensures Authenticate(InitialUsers(), "ziyad", "Admin123") == None
  {
  }
}
