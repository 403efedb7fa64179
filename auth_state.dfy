/**
 * The values the authenticator works on, and each of its operations as a
 * pure transition on a snapshot of the object's fields. The class in
 * auth.dfy is proved to follow these transitions; the lemmas in
 * auth_properties.dfy are stated over them.
 */
module AuthState {

  datatype Option<+T> = None | Some(value: T)

  /**
   * A user model as the user class's `findOne` returns it. `primaryKey`
   * stands for the property named by the configured primary key, and
   * `passwordHash` for the property named by the configured password field.
   */
  datatype UserRecord = UserRecord(primaryKey: int, passwordHash: string)

  /** The user class's records, indexed by the value of the configured username field. */
  type UserStore = map<string, UserRecord>

  /** What the authenticator writes into the session store. */
  datatype SessionValue =
    | NullValue                     // a property read on a missing model
    | KeyValue(key: int)            // a user's primary key
    | ModelValue(model: UserRecord) // a whole user model

  /** How a call to `attempt` ends: the lockout exception, or a boolean return. */
  datatype Outcome = LockedOut | Returned(success: bool)

  /** The fields of one authenticator that its operations read and write. */
  datatype State = State(
    failedAttempts: int,
    maxFailedAttempts: int,
    userModel: Option<UserRecord>,
    session: map<string, SessionValue>)

  datatype Transition = Transition(outcome: Outcome, next: State)

  /** The threshold a fresh authenticator starts with. */
  const DefaultMaxFailedAttempts: int := 5

  /** The fixed session key under which `loginUser` stores the whole model. */
  const UserKey: string := "user"

  /** The state of a freshly constructed authenticator over a given session. */
  function Initial(session: map<string, SessionValue>): State
  {
    State(0, DefaultMaxFailedAttempts, None, session)
  }

  /** The exact-match query of the user class on the username field. */
  function FindOne(store: UserStore, username: string): Option<UserRecord>
  {
    if username in store then Some(store[username]) else None
  }

  /** The lockout gate: no attempt is processed once the counter has reached the threshold. */
  predicate Locked(s: State)
  {
    s.failedAttempts >= s.maxFailedAttempts
  }

  /** A model was found and the supplied password verifies against its stored hash. */
  predicate Verified(verify: (string, string) -> bool, password: string, model: Option<UserRecord>)
  {
    model.Some? && verify(password, model.value.passwordHash)
  }

  /** The primary-key property of a possibly missing model; reading it on a missing model yields null. */
  function PrimaryKeyValue(model: Option<UserRecord>): SessionValue
  {
    if model.Some? then KeyValue(model.value.primaryKey) else NullValue
  }

  /** A possibly missing model as a session value. */
  function StoredModel(model: Option<UserRecord>): SessionValue
  {
    if model.Some? then ModelValue(model.value) else NullValue
  }

  /** Key `k` is present in both maps with the same value, or absent from both. */
  predicate SameEntry(a: map<string, SessionValue>, b: map<string, SessionValue>, k: string)
  {
    (k in a <==> k in b) && (k in a ==> a[k] == b[k])
  }

  /** `attempt(username, password)`. */
  function AttemptStep(s: State, userId: string, verify: (string, string) -> bool,
                       store: UserStore, username: string, password: string): (r: Transition)
    // Locked: the exception is raised and nothing at all changes.
    ensures r.outcome == LockedOut <==> Locked(s)
    ensures Locked(s) ==> r.next == s
    // Every processed attempt caches the lookup result, whatever follows.
    ensures !Locked(s) ==> r.next.userModel == FindOne(store, username)
    ensures r.next.maxFailedAttempts == s.maxFailedAttempts
    // Unknown user or wrong password: false, one more failure, session untouched.
    ensures r.outcome == Returned(false) <==> !Locked(s) && !Verified(verify, password, FindOne(store, username))
    ensures r.outcome == Returned(false) ==>
              r.next.failedAttempts == s.failedAttempts + 1 && r.next.session == s.session
    // Success: counter reset, the user's primary key bound under the session key.
    ensures r.outcome == Returned(true) <==> !Locked(s) && Verified(verify, password, FindOne(store, username))
    ensures r.outcome == Returned(true) ==>
              && username in store
              && r.next.failedAttempts == 0
              && r.next.session == s.session[userId := KeyValue(store[username].primaryKey)]
  {
    if Locked(s) then
      Transition(LockedOut, s)
    else
      var model := FindOne(store, username);
      if !Verified(verify, password, model) then
        Transition(Returned(false), s.(failedAttempts := s.failedAttempts + 1, userModel := model))
      else
        Transition(Returned(true),
                   s.(failedAttempts := 0, userModel := model,
                      session := s.session[userId := KeyValue(model.value.primaryKey)]))
  }

  /** `check()`: whether the session holds the user-id key. */
  predicate Check(s: State, userId: string)
  {
    userId in s.session
  }

  /** `user()`: the cached model when the session is bound, null otherwise. */
  function UserOf(s: State, userId: string): Option<UserRecord>
  {
    if !Check(s, userId) then None else s.userModel
  }

  /** `logout()`: removes the user-id key from the session. */
  function Logout(s: State, userId: string): (r: State)
    ensures !Check(r, userId) && UserOf(r, userId) == None
    ensures forall k :: k != userId ==> SameEntry(r.session, s.session, k)
    ensures r.failedAttempts == s.failedAttempts && r.maxFailedAttempts == s.maxFailedAttempts
    ensures r.userModel == s.userModel
  {
    s.(session := s.session - {userId})
  }

  /** `setMaxFailedAttempts(n)`: a later `getMaxFailedAttempts()` yields n; nothing else moves. */
  function SetMaxFailedAttempts(s: State, n: int): (r: State)
    ensures r.maxFailedAttempts == n
    ensures r.failedAttempts == s.failedAttempts && r.userModel == s.userModel && r.session == s.session
  {
    s.(maxFailedAttempts := n)
  }

  /** `loginUser()`: binds the cached model's primary key and the model itself into the session. */
  function LoginUser(s: State, userId: string): (r: State)
    ensures Check(r, userId) && UserOf(r, userId) == s.userModel
    ensures UserKey in r.session && r.session[UserKey] == StoredModel(s.userModel)
    ensures userId != UserKey ==> r.session[userId] == PrimaryKeyValue(s.userModel)
    ensures forall k :: k != userId && k != UserKey ==> SameEntry(r.session, s.session, k)
    ensures r.failedAttempts == s.failedAttempts && r.maxFailedAttempts == s.maxFailedAttempts
    ensures r.userModel == s.userModel
  {
    s.(session := s.session[userId := PrimaryKeyValue(s.userModel)][UserKey := StoredModel(s.userModel)])
  }
}
