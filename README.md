# Auth: lockout, credential check and session binding

A model of the `Auth` class of the Axm framework's authentication package
(`src/Auth.php`). One authenticator object holds a failed-attempt counter,
a lockout threshold (5 by default), the user model found by the last
processed login attempt, and a session store. `attempt(username, password)`
first refuses with an exception once the counter has reached the threshold;
otherwise it looks the user up by the username field, caches the lookup
result, and either counts a failure and returns false, or resets the
counter, writes the user's primary key into the session under the
configured `userId` key and returns true. `check`, `user`, `logout`,
`loginUser` and the threshold getters and setter read or change that state.

The project has three files:

- `auth_state.dfy` (module `AuthState`) holds the values and each operation as a
  pure transition on a snapshot `State` of the object's fields. The lockout
  exception is the `LockedOut` outcome.
- `auth.dfy` (module `Auth`) holds the class `Auth`. Its fields are updated in
  place, and each method is proved to move the snapshot exactly as the
  matching `AuthState` transition does. The class invariant `Valid()` says the
  counter is never negative.
- `auth_properties.dfy` (module `AuthProperties`) holds the lemmas that span
  several calls.

The framework's collaborators become explicit inputs:

- The user class's `findOne` query is a `map<string, UserRecord>` indexed by
  the username value and passed to each `Attempt`.
- `password_verify` is a function `(plain, hash) -> bool` given to the
  constructor.
- The session store is a `map<string, SessionValue>` field, and `has` is
  key membership.
- The configured `userId` key is a constructor argument.

## Model

| member | source | states |
|---|---|---|
| `AuthState.AttemptStep` | src/Auth.php:47-65 | Lockout is signalled exactly when `failedAttempts >= maxFailedAttempts`, and then nothing changes. Any other attempt caches the lookup result in `userModel`. A missing user or a password that does not verify returns false, adds exactly 1 to the counter and leaves the session as it was. A verified user returns true, resets the counter to 0 and sets only the `userId` session key, to the user's primary key. The threshold never changes. |
| `AuthState.Logout` | src/Auth.php:89-92 | Afterwards `check()` is false and `user()` is null. Every other session key is untouched, and so are the counter, the threshold and the cached model. |
| `AuthState.SetMaxFailedAttempts` | src/Auth.php:97-108 | The threshold becomes n, so `getMaxFailedAttempts()` returns n. The counter, the cached model and the session are unchanged. |
| `AuthState.LoginUser` | src/Auth.php:121-125 | Afterwards `check()` is true and `user()` is the cached model. The `"user"` key holds the model, or null. The `userId` key holds its primary key, or null, unless it is itself `"user"`. Other keys, the counter and the threshold are unchanged. |
| `Auth.Auth.constructor` | src/Auth.php:20-41 | A new object has counter 0, threshold 5, no cached model, the given session, and the given `userId` key and verifier. |
| `Auth.Auth.Attempt` | src/Auth.php:47-65 | The returned outcome and the new fields are exactly `AttemptStep` of the old fields, and the counter stays non-negative. |
| `Auth.Auth.Check` | src/Auth.php:71-74 | True iff the session holds the `userId` key. |
| `Auth.Auth.User` | src/Auth.php:79-84 | Null when `check()` is false; otherwise the cached `userModel`, whichever user that is. |
| `Auth.Auth.Logout` | src/Auth.php:89-92 | The new fields are `AuthState.Logout` of the old ones, and `check()` is false. |
| `Auth.Auth.SetMaxFailedAttempts` | src/Auth.php:105-108 | The new fields are `AuthState.SetMaxFailedAttempts` of the old ones, and `getMaxFailedAttempts()` returns n. |
| `Auth.Auth.GetFailedAttempts` | src/Auth.php:113-116 | Returns the counter. The counter is never negative because the constructor and every mutating method ensure `Valid()`, and `AuthProperties.RunKeepsCounterNonNegative` shows the same for any sequence of calls. |
| `Auth.Auth.LoginUser` | src/Auth.php:121-125 | The new fields are `AuthState.LoginUser` of the old ones; `check()` is true and `user()` is the cached model. |
| `AuthProperties.RejectedBelowThreshold` | src/Auth.php:49-58 | While the counter plus the number of attempts stays within the threshold, each rejected attempt returns false. The counter grows by exactly the number of attempts, and the session and threshold are unchanged. The cached model is the last lookup's result. |
| `AuthProperties.LockoutAfterThreshold` | src/Auth.php:49-58 | With the counter at 0 and threshold T, exactly T rejected attempts return false. The next call is locked out and changes nothing, whatever store and credentials it gets. |
| `AuthProperties.DefaultLockoutAtSixthAttempt` | src/Auth.php:20-21 | On a fresh object, five rejected attempts return false and the sixth call is locked out. |
| `AuthProperties.SuccessAfterRejections` | src/Auth.php:49-64 | Fewer rejections than the threshold allows, then a verified attempt: true, counter 0, `check()` true. The session key holds the found user's primary key, and `user()` is that user. |
| `AuthProperties.StaleUserAfterRejectedAttempt` | src/Auth.php:53-84 | A rejected attempt while logged in keeps `check()` true and the bound key as it was. `user()` then returns the rejected lookup's result: another user, the same user, or null. |
| `AuthProperties.StaleUserExample` | src/Auth.php:53-84 | A concrete case: user 1 is bound in the session, and a wrong password for user 2 makes `user()` return user 2. |
| `AuthProperties.LogoutIdempotent` | src/Auth.php:89-92 | Logging out twice gives the same state as logging out once. |
| `AuthProperties.RunKeepsCounterNonNegative` | src/Auth.php:21-61 | No sequence of attempts, logouts, threshold changes and `loginUser` calls drives the counter below 0. |
| `AuthProperties.RunTouchesOnlyAuthKeys` | src/Auth.php:62-124 | Any sequence of calls leaves every session key other than `userId` and `"user"` exactly as it was. |
| `AuthProperties.LockedStaysLocked` | src/Auth.php:49-51 | Once locked, any calls that do not change the threshold leave the object locked, with the counter and the threshold unchanged. Nothing unlocks by time or by further attempts. |
| `AuthProperties.RaisingThresholdReopens` | src/Auth.php:105-108 | Setting the threshold above the counter unlocks a locked object. |

The read-only `AuthState.Check`, `AuthState.UserOf`, `Auth.Auth.GetMaxFailedAttempts`
and the helpers `FindOne`, `Verified`, `PrimaryKeyValue` and `StoredModel` need
no row of their own. The members above state their properties.

Two behaviours of the code are kept as written:

- The threshold check runs before any lookup, so exactly `maxFailedAttempts`
  failures are processed. The next call raises the lockout.
- `userModel` is overwritten by every attempt that is not locked out,
  including failed ones. So `user()` can return another user, or null, while
  `check()` is still true.

A locked object can only be reopened by raising the threshold: the code has
no way to reset the counter except a successful attempt, which a locked
object never processes. The code has no other way to reset the counter.

## Left out

- Construction-time framework lookups (the application's session, the configured `userId` key, the user class and its primary-key name) become constructor arguments and a fixed record shape.
- The configurable `usernameField` and `passwordField` names, and the dynamic property reads they drive: `UserRecord` has explicit `primaryKey` and `passwordHash` fields, and the store is indexed by the username value.
- The database query behind `findOne`: it is a map lookup. Several matching rows are not modelled.
- The hashing algorithm behind `password_verify`: it is an injected function with no properties assumed.
- The third argument `true` of the second `session->set` in `loginUser`: its meaning lives in the session class, which is not part of this model. The call is a plain set.
- `AuthState.LoginUser`: when no model is cached, PHP reads the primary key of null as null. The model stores `NullValue`. Whether the session's `has` treats a null-valued key as present depends on the session class; the model counts it as present.
- The unused event constants, the unused `$user` property, and the dead `?? null` in `getFailedAttempts`.
- PHP's untyped threshold argument: the threshold is an unbounded integer, so non-integer values and PHP's integer overflow into floats are not modelled.
- The session store is the application-wide session object, which outlives each authenticator; the model makes it a map owned by one object, so writes by other code or by a second authenticator over the same session are not seen. Exceptions thrown by `findOne` or by `session->set` cannot occur, because map lookup and map update are total.
- Concurrency and persistence of the counter across requests: the code has neither.
