/**
 * The per-browser session: a dictionary from keys to values, of which the
 * portal writes four (`user_id`, `username`, `role`, `service_type`).
 */
module Sessions {
  import opened Wrappers
  import opened Records

  /** A session value: Python None, an int or a str. */
  datatype Value = Null | IntVal(i: int) | StrVal(s: string)

  type Session = map<string, Value>

  const UserIdKey: string := "user_id"
  const UsernameKey: string := "username"
  const RoleKey: string := "role"
  const ServiceTypeKey: string := "service_type"
  const AuthKeys: set<string> := {UserIdKey, UsernameKey, RoleKey, ServiceTypeKey}

  /** `session.get(key)`: None when the key is absent. */
  function Lookup(s: Session, key: string): Value {
    if key in s then s[key] else Null
  }

  /** Python truthiness of a session value. */
  predicate Truthy(v: Value) {
    match v
    case Null => false
    case IntVal(i) => i != 0
    case StrVal(t) => t != ""
  }

  /** The value a nullable string column is stored as. */
  function FromOption(v: Option<string>): (r: Value)
    ensures r == Null <==> v.None?
    ensures v.Some? ==> r == StrVal(v.value)
  {
    match v
    case None => Null
    case Some(t) => StrVal(t)
  }

  /** The four keys hold values of the types the login handler writes. */
  predicate WellTyped(s: Session) {
    && (Lookup(s, UserIdKey).Null? || Lookup(s, UserIdKey).IntVal?)
    && (Lookup(s, UsernameKey).Null? || Lookup(s, UsernameKey).StrVal?)
    && (Lookup(s, RoleKey).Null? || Lookup(s, RoleKey).StrVal?)
    && (Lookup(s, ServiceTypeKey).Null? || Lookup(s, ServiceTypeKey).StrVal?)
  }

  /** `session.get('user_id')` is truthy. */
  predicate SignedIn(s: Session) {
    Truthy(Lookup(s, UserIdKey))
  }

  /** The gate of the client pages: signed in and `role == 'client'`. */
  predicate IsClient(s: Session) {
    SignedIn(s) && Lookup(s, RoleKey) == StrVal("client")
  }

  /** The session after a successful login of `u`: the four keys are written, nothing else changes. */
  function SignIn(s: Session, u: User): (r: Session)
    ensures r.Keys == s.Keys + AuthKeys
    ensures Lookup(r, UserIdKey) == IntVal(u.id)
    ensures Lookup(r, UsernameKey) == StrVal(u.username)
    ensures Lookup(r, RoleKey) == StrVal(u.role)
    ensures Lookup(r, ServiceTypeKey) == FromOption(u.serviceType)
    ensures forall k :: k in s && k !in AuthKeys ==> k in r && r[k] == s[k]
    ensures WellTyped(r)
  {
    s[UserIdKey := IntVal(u.id)]
     [UsernameKey := StrVal(u.username)]
     [RoleKey := StrVal(u.role)]
     [ServiceTypeKey := FromOption(u.serviceType)]
  }

  /** The session after logout: exactly the four keys are removed. */
  function SignOut(s: Session): (r: Session)
    ensures r.Keys == s.Keys - AuthKeys
    ensures forall k :: k in r ==> r[k] == s[k]
    ensures forall k :: k in AuthKeys ==> Lookup(r, k) == Null
    ensures !SignedIn(r) && !IsClient(r) && WellTyped(r)
  {
    s - AuthKeys
  }

  /** Logging in and then out leaves the session as logging out alone would. */
  lemma SignOutForgetsSignIn(s: Session, u: User)
    ensures SignOut(SignIn(s, u)) == SignOut(s)
  {
  }

  /** A signed-in client account with a positive id passes the client gate. */
  lemma SignInClientPassesGate(s: Session, u: User)
    requires u.id > 0 && u.role == "client"
    ensures IsClient(SignIn(s, u))
  {
  }
}
