/**
 * Properties of the authenticator that span several calls: the lockout
 * threshold, what sequences of calls can and cannot change, and the stale
 * cached model that `user()` returns.
 */
module AuthProperties {
  import opened AuthState

  datatype Credentials = Credentials(username: string, password: string)

  /** The store has no user under this username, or the password does not verify. */
  predicate Rejected(verify: (string, string) -> bool, store: UserStore, c: Credentials)
  {
    !Verified(verify, c.password, FindOne(store, c.username))
  }

  /** The outcomes of a sequence of attempts, and the state they leave. */
  datatype AttemptRun = AttemptRun(outcomes: seq<Outcome>, final: State)

  /** Calls `attempt` once per credentials pair, in order, against one store. */
  function AttemptEach(s: State, userId: string, verify: (string, string) -> bool,
                       store: UserStore, cs: seq<Credentials>): (r: AttemptRun)
    ensures |r.outcomes| == |cs|
    decreases |cs|
  {
    if |cs| == 0 then
      AttemptRun([], s)
    else
      var t := AttemptStep(s, userId, verify, store, cs[0].username, cs[0].password);
      var rest := AttemptEach(t.next, userId, verify, store, cs[1..]);
      AttemptRun([t.outcome] + rest.outcomes, rest.final)
  }

  /**
   * While the counter stays below the threshold, each rejected attempt is
   * processed: it returns false, adds exactly one to the counter and leaves
   * the session alone.
   */
  lemma {:induction false} RejectedBelowThreshold(s: State, userId: string, verify: (string, string) -> bool,
                                                  store: UserStore, cs: seq<Credentials>)
    requires s.failedAttempts + |cs| <= s.maxFailedAttempts
    requires forall i :: 0 <= i < |cs| ==> Rejected(verify, store, cs[i])
    ensures var r := AttemptEach(s, userId, verify, store, cs);
            && (forall i :: 0 <= i < |cs| ==> r.outcomes[i] == Returned(false))
            && r.final.failedAttempts == s.failedAttempts + |cs|
            && r.final.maxFailedAttempts == s.maxFailedAttempts
            && r.final.session == s.session
            && (|cs| > 0 ==> r.final.userModel == FindOne(store, cs[|cs| - 1].username))
    decreases |cs|
  {
    if |cs| > 0 {
      var t := AttemptStep(s, userId, verify, store, cs[0].username, cs[0].password);
      assert Rejected(verify, store, cs[0]);
      var tail := cs[1..];
      forall i | 0 <= i < |tail| ensures Rejected(verify, store, tail[i]) {
        assert tail[i] == cs[i + 1];
      }
      RejectedBelowThreshold(t.next, userId, verify, store, tail);
      var rest := AttemptEach(t.next, userId, verify, store, tail);
      var r := AttemptEach(s, userId, verify, store, cs);
      assert r.outcomes == [t.outcome] + rest.outcomes;
      forall i | 0 <= i < |cs| ensures r.outcomes[i] == Returned(false) {
        if i > 0 { assert r.outcomes[i] == rest.outcomes[i - 1]; }
      }
      if |tail| == 0 {
        assert r.final == t.next;
      } else {
        assert tail[|tail| - 1] == cs[|cs| - 1];
      }
    }
  }

  /**
   * With a threshold of T and the counter at 0, exactly T rejected attempts
   * are processed and return false; the next call raises the lockout and
   * changes nothing, whatever store and credentials it is given.
   */
  lemma LockoutAfterThreshold(s: State, userId: string, verify: (string, string) -> bool,
                              store: UserStore, cs: seq<Credentials>,
                              laterStore: UserStore, username: string, password: string)
    requires s.failedAttempts == 0 && s.maxFailedAttempts == |cs|
    requires forall i :: 0 <= i < |cs| ==> Rejected(verify, store, cs[i])
    ensures var r := AttemptEach(s, userId, verify, store, cs);
            && (forall i :: 0 <= i < |cs| ==> r.outcomes[i] == Returned(false))
            && r.final.failedAttempts == |cs|
            && r.final.session == s.session
            && AttemptStep(r.final, userId, verify, laterStore, username, password) == Transition(LockedOut, r.final)
  {
    RejectedBelowThreshold(s, userId, verify, store, cs);
  }

  /** A fresh authenticator processes five rejected attempts; the sixth call is locked out. */
  lemma DefaultLockoutAtSixthAttempt(session: map<string, SessionValue>, userId: string,
                                     verify: (string, string) -> bool, store: UserStore,
                                     cs: seq<Credentials>, username: string, password: string)
    requires |cs| == 5
    requires forall i :: 0 <= i < |cs| ==> Rejected(verify, store, cs[i])
    ensures var r := AttemptEach(Initial(session), userId, verify, store, cs);
            && (forall i :: 0 <= i < 5 ==> r.outcomes[i] == Returned(false))
            && AttemptStep(r.final, userId, verify, store, username, password).outcome == LockedOut
  {
    LockoutAfterThreshold(Initial(session), userId, verify, store, cs, store, username, password);
  }

  /**
   * Fewer rejected attempts than the threshold allows, then good credentials:
   * the attempt succeeds, the counter returns to 0 and the session is bound
   * to the found user's primary key.
   */
  lemma SuccessAfterRejections(s: State, userId: string, verify: (string, string) -> bool,
                               store: UserStore, cs: seq<Credentials>, good: Credentials)
    requires s.failedAttempts + |cs| < s.maxFailedAttempts
    requires forall i :: 0 <= i < |cs| ==> Rejected(verify, store, cs[i])
    requires !Rejected(verify, store, good)
    ensures var r := AttemptEach(s, userId, verify, store, cs);
            var t := AttemptStep(r.final, userId, verify, store, good.username, good.password);
            && t.outcome == Returned(true)
            && t.next.failedAttempts == 0
            && Check(t.next, userId)
            && t.next.session[userId] == KeyValue(store[good.username].primaryKey)
            && UserOf(t.next, userId) == Some(store[good.username])
  {
    RejectedBelowThreshold(s, userId, verify, store, cs);
  }

  /**
   * A rejected attempt while a user is logged in keeps the session bound
   * but replaces the cached model: `user()` then returns the rejected
   * lookup's result (another user, the same user, or null) while `check()` stays true.
   */
  lemma StaleUserAfterRejectedAttempt(s: State, userId: string, verify: (string, string) -> bool,
                                      store: UserStore, c: Credentials)
    requires Check(s, userId) && !Locked(s)
    requires Rejected(verify, store, c)
    ensures var t := AttemptStep(s, userId, verify, store, c.username, c.password);
            && t.outcome == Returned(false)
            && Check(t.next, userId)
            && t.next.session[userId] == s.session[userId]
            && UserOf(t.next, userId) == FindOne(store, c.username)
  {
  }

  /** One concrete instance: user 1 is logged in, a wrong password for user 2 makes `user()` return user 2. */
  lemma StaleUserExample()
    ensures var alice := UserRecord(1, "alice-hash");
            var bob := UserRecord(2, "bob-hash");
            var s := State(0, DefaultMaxFailedAttempts, Some(alice), map["id" := KeyValue(1)]);
            var t := AttemptStep(s, "id", (plain, hash) => plain + "-hash" == hash,
                                 map["alice" := alice, "bob" := bob], "bob", "wrong");
            && t.outcome == Returned(false)
            && Check(t.next, "id")
            && t.next.session["id"] == KeyValue(1)
            && UserOf(t.next, "id") == Some(bob)
  {
  }

  /** Logging out a second time changes nothing. */
  lemma LogoutIdempotent(s: State, userId: string)
    ensures Logout(Logout(s, userId), userId) == Logout(s, userId)
  {
  }

  /** The state-changing calls of the authenticator. */
  datatype Call =
    | AttemptCall(store: UserStore, username: string, password: string)
    | LogoutCall
    | SetMaxCall(n: int)
    | LoginUserCall

  function Apply(s: State, userId: string, verify: (string, string) -> bool, c: Call): State
  {
    match c
    case AttemptCall(store, username, password) => AttemptStep(s, userId, verify, store, username, password).next
    case LogoutCall => Logout(s, userId)
    case SetMaxCall(n) => SetMaxFailedAttempts(s, n)
    case LoginUserCall => LoginUser(s, userId)
  }

  /** The state after the calls, in order. */
  function RunCalls(s: State, userId: string, verify: (string, string) -> bool, calls: seq<Call>): State
    decreases |calls|
  {
    if |calls| == 0 then s else RunCalls(Apply(s, userId, verify, calls[0]), userId, verify, calls[1..])
  }

  /** No sequence of calls drives the failure counter below zero. */
  lemma {:induction false} RunKeepsCounterNonNegative(s: State, userId: string, verify: (string, string) -> bool,
                                                      calls: seq<Call>)
    requires s.failedAttempts >= 0
    ensures RunCalls(s, userId, verify, calls).failedAttempts >= 0
    decreases |calls|
  {
    if |calls| > 0 {
      RunKeepsCounterNonNegative(Apply(s, userId, verify, calls[0]), userId, verify, calls[1..]);
    }
  }

  /** The authenticator writes only its user-id key and the "user" key; every other session entry survives any calls. */
  lemma {:induction false} RunTouchesOnlyAuthKeys(s: State, userId: string, verify: (string, string) -> bool,
                                                  calls: seq<Call>, k: string)
    requires k != userId && k != UserKey
    ensures SameEntry(RunCalls(s, userId, verify, calls).session, s.session, k)
    decreases |calls|
  {
    if |calls| > 0 {
      var next := Apply(s, userId, verify, calls[0]);
      assert SameEntry(next.session, s.session, k);
      RunTouchesOnlyAuthKeys(next, userId, verify, calls[1..], k);
    }
  }

  /**
   * There is no unlock by time or by attempts: once locked, the counter and
   * the threshold stay as they are until the threshold is changed.
   */
  lemma {:induction false} LockedStaysLocked(s: State, userId: string, verify: (string, string) -> bool,
                                             calls: seq<Call>)
    requires Locked(s)
    requires forall i :: 0 <= i < |calls| ==> !calls[i].SetMaxCall?
    ensures var r := RunCalls(s, userId, verify, calls);
            Locked(r) && r.failedAttempts == s.failedAttempts && r.maxFailedAttempts == s.maxFailedAttempts
    decreases |calls|
  {
    if |calls| > 0 {
      var tail := calls[1..];
      forall i | 0 <= i < |tail| ensures !tail[i].SetMaxCall? {
        assert tail[i] == calls[i + 1];
      }
      LockedStaysLocked(Apply(s, userId, verify, calls[0]), userId, verify, tail);
    }
  }

  /** Raising the threshold above the counter reopens a locked authenticator; `LockedStaysLocked` shows nothing else does. */
  lemma RaisingThresholdReopens(s: State, n: int)
    requires Locked(s) && n > s.failedAttempts
    ensures !Locked(SetMaxFailedAttempts(s, n))
  {
  }
}
