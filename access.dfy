/** The account check and the access gate: plain-text credential comparison
    against the `users` table, and the two-role check each protected route repeats. */
module Access {
  import opened Records
  import Directory

  /** The check `'role' in session and session['role'] == required`. */
  predicate Authorized(session: Option<Identity>, required: string): (ok: bool)
    ensures ok ==> session.Some?
    ensures session.Some? ==> (ok <==> session.value.role == required)
  {
    session.Some? && session.value.role == required
  }

  /** The credential check of the login form: the user looked up by username,
      then its stored password compared for exact equality. */
  function Authenticate(users: map<string, User>, username: string, password: string): (r: Option<Identity>)
    ensures r.Some? <==> username in users && users[username].password == password
    ensures r.Some? ==> r.value == Identity(username, users[username].role)
  {
    match Directory.Get(users, username)
    case None => None
    case Some(user) => if user.password == password then Some(Identity(username, user.role)) else None
  }

  /** No session passes both the doctor gate and the patient gate, and an empty session passes neither. */
  lemma GatesExclusive(session: Option<Identity>)
    ensures !(Authorized(session, DoctorRole) && Authorized(session, PatientRole))
    ensures session.None? ==> !Authorized(session, DoctorRole) && !Authorized(session, PatientRole)
  {
  }

  /** The session a login writes opens exactly the dashboard of the stored role. */
  lemma LoginOpensOwnRole(users: map<string, User>, username: string, password: string, required: string)
    requires Authenticate(users, username, password).Some?
    ensures Authorized(Authenticate(users, username, password), required) <==> users[username].role == required
  {
  }

  /** Right after a user is registered, its own password is accepted with the
      registered role and any other password is refused. */
  lemma RegisteredCredentials(users: map<string, User>, role: string, username: string, password: string, other: string)
    ensures Authenticate(users[username := User(username, password, role)], username, password)
         == Some(Identity(username, role))
    ensures other != password ==> Authenticate(users[username := User(username, password, role)], username, other) == None
  {
  }

  /** Adding a user under another username does not change how a login for `username` is answered. */
  lemma AuthenticateIgnoresOtherUsers(users: map<string, User>, u: User, username: string, password: string)
    requires u.username != username
    ensures Authenticate(users[u.username := u], username, password) == Authenticate(users, username, password)
  {
  }
}
