/**
 * The authenticator object of src/Auth.php. Its fields are updated in place
 * by `Attempt`, `Logout`, `SetMaxFailedAttempts` and `LoginUser`; each method
 * is proved to move the object's snapshot exactly as the matching transition
 * of module AuthState does.
 */
module Auth {
  import opened AuthState

  class Auth {
    /** The configured session key that holds the authenticated user's primary key. */
    const userId: string
    /** The one-way password check, `password_verify(plain, hash)`. */
    const passwordVerify: (string, string) -> bool

    var maxFailedAttempts: int
    var failedAttempts: int
    /** The model found by the most recent processed attempt, if any. */
    var userModel: Option<UserRecord>
    /** The session store's entries. */
    var session: map<string, SessionValue>

    /** The failure counter never goes below zero. */
    ghost predicate Valid()
      reads this
    {
      failedAttempts >= 0
    }

    /** The fields the operations read and write, as one value. */
    function Snapshot(): State
      reads this
    {
      State(failedAttempts, maxFailedAttempts, userModel, session)
    }

    constructor (session: map<string, SessionValue>, userId: string, passwordVerify: (string, string) -> bool)
      ensures Valid()
      ensures Snapshot() == Initial(session)
      ensures this.userId == userId && this.passwordVerify == passwordVerify
    {
      this.userId := userId;
      this.passwordVerify := passwordVerify;
      this.session := session;
      maxFailedAttempts := DefaultMaxFailedAttempts;
      failedAttempts := 0;
      userModel := None;
    }

    method Attempt(store: UserStore, username: string, password: string) returns (outcome: Outcome)
      requires Valid()
      modifies this
      ensures Valid()
      ensures Transition(outcome, Snapshot()) ==
              AttemptStep(old(Snapshot()), userId, passwordVerify, store, username, password)
    {
      if failedAttempts >= maxFailedAttempts {
        return LockedOut;
      }
      userModel := FindOne(store, username);
      if userModel.None? || !passwordVerify(password, userModel.value.passwordHash) {
        failedAttempts := failedAttempts + 1;
        return Returned(false);
      }
      failedAttempts := 0;
      session := session[userId := KeyValue(userModel.value.primaryKey)];
      return Returned(true);
    }

    /** Whether the session store holds the user-id key. */
    function Check(): (b: bool)
      reads this
      ensures b <==> userId in session
    {
      AuthState.Check(Snapshot(), userId)
    }

    /** Null unless the session is bound; otherwise the cached model, which need not be the bound user's. */
    function User(): (r: Option<UserRecord>)
      reads this
      ensures !Check() ==> r == None
      ensures Check() ==> r == userModel
    {
      UserOf(Snapshot(), userId)
    }

    method Logout()
      requires Valid()
      modifies this
      ensures Valid()
      ensures Snapshot() == AuthState.Logout(old(Snapshot()), userId)
      ensures !Check()
    {
      session := session - {userId};
    }

    function GetMaxFailedAttempts(): int
      reads this
    {
      maxFailedAttempts
    }

    method SetMaxFailedAttempts(n: int)
      requires Valid()
      modifies this
      ensures Valid()
      ensures Snapshot() == AuthState.SetMaxFailedAttempts(old(Snapshot()), n)
      ensures GetMaxFailedAttempts() == n
    {
      maxFailedAttempts := n;
    }

    function GetFailedAttempts(): (n: int)
      reads this
      ensures Valid() ==> n >= 0
    {
      failedAttempts
    }

    method LoginUser()
      requires Valid()
      modifies this
      ensures Valid()
      ensures Snapshot() == AuthState.LoginUser(old(Snapshot()), userId)
      ensures Check() && User() == userModel
    {
      session := session[userId := PrimaryKeyValue(userModel)];
      session := session[UserKey := StoredModel(userModel)];
    }
  }
}
