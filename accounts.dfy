/**
 * Registration and login rules over the user table. Password hashing is
 * external: registration receives the hash already computed, and login
 * receives the hash check as an opaque predicate `verify(hash, password)`.
 */
module Accounts {
  import opened Wrappers
  import opened Records
  import opened Queries

  /** The table's `unique=True` constraints: no two accounts share a username or an email. */
  predicate UniqueAccounts(users: seq<User>) {
    forall i, j :: 0 <= i < j < |users| ==>
      users[i].username != users[j].username && users[i].email != users[j].email
  }

  /** Some account already has this username, or this email. */
  predicate Taken(users: seq<User>, username: string, email: string) {
    exists i :: 0 <= i < |users| && (users[i].username == username || users[i].email == email)
  }

  /** `request.form.get('role', 'user')`: an absent role means "user"; a present one is kept as sent. */
  function RoleOf(form: RegistrationForm): string {
    if form.role.Some? then form.role.value else "user"
  }

  /**
   * The account a registration creates, or why it is refused. The checks run
   * in the handler's order: blank required fields, then a taken username or
   * email, then a missing service type for a client.
   */
  function NewAccount(users: seq<User>, form: RegistrationForm, hash: string): (r: Result<User, Reason>)
    ensures r == Err(MissingFields) <==> Blank(form.username) || Blank(form.email) || Blank(form.password)
    ensures !Blank(form.username) && !Blank(form.email) && !Blank(form.password) ==>
              (r == Err(DuplicateUser) <==> Taken(users, form.username.value, form.email.value))
    ensures r == Err(MissingServiceType) <==>
              !Blank(form.username) && !Blank(form.email) && !Blank(form.password) &&
              !Taken(users, form.username.value, form.email.value) &&
              RoleOf(form) == "client" && Blank(form.serviceType)
    ensures r.Ok? <==>
              !Blank(form.username) && !Blank(form.email) && !Blank(form.password) &&
              !Taken(users, form.username.value, form.email.value) &&
              !(RoleOf(form) == "client" && Blank(form.serviceType))
    ensures r.Ok? ==>
              && form.username == Some(r.value.username) && form.email == Some(r.value.email)
              && r.value.username != "" && r.value.email != "" && !Blank(form.password)
              && !Taken(users, r.value.username, r.value.email)
              && r.value.id == |users| + 1 && r.value.passwordHash == hash && r.value.role == RoleOf(form)
              && (r.value.role == "client" ==> r.value.serviceType == form.serviceType && !Blank(form.serviceType))
              && (r.value.role != "client" ==> r.value.serviceType.None?)
    ensures r.Ok? && UniqueAccounts(users) ==> UniqueAccounts(users + [r.value])
  {
    if Blank(form.username) || Blank(form.email) || Blank(form.password) then Err(MissingFields)
    else if Taken(users, form.username.value, form.email.value) then Err(DuplicateUser)
    else
      var role := RoleOf(form);
      if role == "client" && Blank(form.serviceType) then Err(MissingServiceType)
      else
        var serviceType := if role == "client" then form.serviceType else None;
        Ok(User(|users| + 1, form.username.value, form.email.value, hash, role, serviceType))
  }

  predicate Identifies(u: User, identifier: Option<string>) {
    identifier.Some? && (u.username == identifier.value || u.email == identifier.value)
  }

  /**
   * `User.query.filter(username == id OR email == id).first()`; an absent
   * identifier matches nobody. The query has no ORDER BY; the model reads
   * `.first()` as the lowest row.
   */
  function FindAccount(users: seq<User>, identifier: Option<string>): (r: Option<User>)
    ensures r.Some? ==> r.value in users && Identifies(r.value, identifier)
    ensures r.Some? ==> exists i :: 0 <= i < |users| && users[i] == r.value &&
                                     forall j :: 0 <= j < i ==> !Identifies(users[j], identifier)
    ensures r.None? <==> forall i :: 0 <= i < |users| ==> !Identifies(users[i], identifier)
  {
    match FirstMatch(users, (u: User) => Identifies(u, identifier))
    case None => None
    case Some(i) => Some(users[i])
  }

  /**
   * The login decision: the first account matching the identifier, provided
   * the password checks against its hash. A missing password makes the hash
   * check raise, which the handler reports as a failed login.
   */
  function Authenticate(users: seq<User>, identifier: Option<string>, password: Option<string>,
                        verify: (string, string) -> bool): (r: Result<User, Reason>)
    ensures r.Ok? <==> FindAccount(users, identifier).Some? && password.Some? &&
                       verify(FindAccount(users, identifier).value.passwordHash, password.value)
    ensures r.Ok? ==> r.value == FindAccount(users, identifier).value
    ensures r.Ok? ==> r.value in users && Identifies(r.value, identifier) &&
                      verify(r.value.passwordHash, password.value)
    ensures FindAccount(users, identifier).None? ==> r == Err(InvalidCredentials)
    ensures FindAccount(users, identifier).Some? && password.None? ==> r == Err(LoginFailed)
    ensures (FindAccount(users, identifier).Some? && password.Some? &&
             !verify(FindAccount(users, identifier).value.passwordHash, password.value)) ==>
              r == Err(InvalidCredentials)
    ensures r.Err? ==> r.error == InvalidCredentials || r.error == LoginFailed
  {
    match FindAccount(users, identifier)
    case None => Err(InvalidCredentials)
    case Some(u) =>
      if password.None? then Err(LoginFailed)
      else if verify(u.passwordHash, password.value) then Ok(u)
      else Err(InvalidCredentials)
  }

  /**
   * A freshly registered account can log in by its username or its email,
   * provided no older account uses that identifier as username or email.
   */
  lemma RegisterThenLogin(users: seq<User>, form: RegistrationForm, hash: string, identifier: string,
                          verify: (string, string) -> bool)
    requires NewAccount(users, form, hash).Ok?
    requires identifier == form.username.value || identifier == form.email.value
    requires forall i :: 0 <= i < |users| ==> users[i].username != identifier && users[i].email != identifier
    requires verify(hash, form.password.value)
    ensures Authenticate(users + [NewAccount(users, form, hash).value], Some(identifier), form.password, verify)
            == Ok(NewAccount(users, form, hash).value)
  {
    var u := NewAccount(users, form, hash).value;
    var table := users + [u];
    assert table[|users|] == u;
    var found := FindAccount(table, Some(identifier));
    assert found.Some? by {
      assert Identifies(table[|users|], Some(identifier));
    }
    var i :| 0 <= i < |table| && table[i] == found.value;
    assert i == |users|;
  }

  /**
   * Registration compares the new username with usernames only: it may equal
   * an older account's email. Two accounts then match that identifier at
   * login, and under this model's lowest-row reading of `.first()` the older
   * one is chosen (the database itself leaves the order unspecified).
   */
  lemma UsernameShadowedByOlderEmail()
    ensures var older := User(1, "alice", "bob", "h1", "user", None);
            var form := RegistrationForm(Some("bob"), Some("bob@example.org"), Some("pw"), None, None, None);
            var r := NewAccount([older], form, "h2");
            && r.Ok? && Identifies(older, Some("bob")) && Identifies(r.value, Some("bob"))
            && FindAccount([older, r.value], Some("bob")) == Some(older)
  {
  }
}
