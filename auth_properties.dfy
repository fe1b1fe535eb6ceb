/**
 * What the login guard and registration promise, stated over the one-request
 * steps of module Auth and over sequences of requests.
 */
module AuthProperties {
  import opened Wrappers
  import opened Records
  import opened StoreKeys
  import opened Auth

  /** With the store client absent or closed the answer is 500 and the state is untouched. */
  lemma UnavailableTouchesNothing(s: AuthState, username: string, password: string, check: PasswordCheck)
    requires !s.clientOpen
    ensures LoginStep(s, username, password, check) == (s, ClientUnavailable)
  {
  }

  /**
   * A present lockout flag answers 429 before the user is looked up or the
   * password checked: the result is the same for every password and checker,
   * and nothing changes.
   */
  lemma LockedRejectsBeforeLookup(s: AuthState, username: string, password: string, check: PasswordCheck)
    requires s.clientOpen && LockoutKey(username) in s.kv
    ensures LoginStep(s, username, password, check) == (s, AccountLocked)
  {
  }

  /**
   * A counter at the threshold sets the lockout flag and answers 429; the
   * counter is not incremented and the credentials are not consulted.
   */
  lemma ThresholdSetsLockout(s: AuthState, username: string, password: string, check: PasswordCheck)
    requires s.clientOpen && LockoutKey(username) !in s.kv
    requires AttemptsKey(username) in s.kv && s.kv[AttemptsKey(username)] >= Threshold
    ensures LoginStep(s, username, password, check) == (s.(kv := s.kv[LockoutKey(username) := LockMarker]), TooManyAttempts)
  {
  }

  /** An unknown username adds one to its counter (absent counts as 0) and answers 404, not 401. */
  lemma UnknownUserCounts(s: AuthState, username: string, password: string, check: PasswordCheck)
    requires GuardPasses(s, username)
    requires forall i :: 0 <= i < |s.users| ==> s.users[i].username != username
    ensures var (t, out) := LoginStep(s, username, password, check);
            out == UserNotFound && out.Status() == 404 &&
            t == s.(kv := s.kv[AttemptsKey(username) := Count(s.kv, AttemptsKey(username)) + 1])
  {
  }

  /** A wrong password adds one to the counter and answers 401. */
  lemma WrongPasswordCounts(s: AuthState, username: string, password: string, check: PasswordCheck, i: nat)
    requires GuardPasses(s, username)
    requires UniqueUsernames(s.users)
    requires i < |s.users| && s.users[i].username == username && !check(password, s.users[i].passwordHash)
    ensures var (t, out) := LoginStep(s, username, password, check);
            out == InvalidCredentials && out.Status() == 401 &&
            t == s.(kv := s.kv[AttemptsKey(username) := Count(s.kv, AttemptsKey(username)) + 1])
  {
    var u := FindUser(s.users, username).value;
    var j :| 0 <= j < |s.users| && s.users[j] == u;
    assert j == i;
  }

  /** The right password deletes the counter and issues a token for that user's id, name and role. */
  lemma SuccessClearsCounter(s: AuthState, username: string, password: string, check: PasswordCheck, i: nat)
    requires GuardPasses(s, username)
    requires UniqueUsernames(s.users)
    requires i < |s.users| && s.users[i].username == username && check(password, s.users[i].passwordHash)
    ensures var (t, out) := LoginStep(s, username, password, check);
            var u := s.users[i];
            out == TokenIssued(Claims(u.id, u.username, RoleName(u.role))) &&
            t == s.(kv := s.kv - {AttemptsKey(username)})
  {
    var u := FindUser(s.users, username).value;
    var j :| 0 <= j < |s.users| && s.users[j] == u;
    assert j == i;
  }

  /**
   * A login attempt for `username` changes no key other than that user's
   * counter and lockout flag, never changes the User table, and never
   * removes the lockout flag.
   */
  lemma AttemptFrame(s: AuthState, username: string, password: string, check: PasswordCheck)
    ensures var t := LoginStep(s, username, password, check).0;
            && t.users == s.users
            && t.clientOpen == s.clientOpen
            && (forall k :: k != AttemptsKey(username) && k != LockoutKey(username) ==>
                  (k in t.kv <==> k in s.kv) && (k in s.kv ==> t.kv[k] == s.kv[k]))
            && (LockoutKey(username) in s.kv ==> LockoutKey(username) in t.kv)
  {
    KeyFamiliesDisjoint(username, username, [], 0);
  }

  /** The state after `n` login attempts for the same user with the same password. */
  function Repeat(s: AuthState, username: string, password: string, check: PasswordCheck, n: nat): AuthState
    decreases n
  {
    if n == 0 then s else LoginStep(Repeat(s, username, password, check, n - 1), username, password, check).0
  }

  /**
   * From a clear state, failed attempts count up 1, 2, ... to the threshold,
   * each answered 404 or 401, and no lockout flag is set meanwhile.
   */
  lemma {:induction false} FailuresAccumulate(s: AuthState, username: string, password: string, check: PasswordCheck, n: nat)
    requires s.clientOpen && LockoutKey(username) !in s.kv && AttemptsKey(username) !in s.kv
    requires !Authenticates(s.users, username, password, check)
    requires n <= Threshold
    ensures var t := Repeat(s, username, password, check, n);
            && t.clientOpen && t.users == s.users
            && LockoutKey(username) !in t.kv
            && Count(t.kv, AttemptsKey(username)) == n
    ensures n < Threshold ==>
              LoginStep(Repeat(s, username, password, check, n), username, password, check).1 in {UserNotFound, InvalidCredentials}
    decreases n
  {
    KeyFamiliesDisjoint(username, username, [], 0);
    if n > 0 {
      FailuresAccumulate(s, username, password, check, n - 1);
    }
  }

  /**
   * After `Threshold` consecutive failures from a clear state the next
   * attempt is answered 429, whatever password it carries — the right one
   * included.
   */
  lemma SixthAttemptRejected(s: AuthState, username: string, badPassword: string, check: PasswordCheck, password: string)
    requires s.clientOpen && LockoutKey(username) !in s.kv && AttemptsKey(username) !in s.kv
    requires !Authenticates(s.users, username, badPassword, check)
    ensures LoginStep(Repeat(s, username, badPassword, check, 5), username, password, check).1 == TooManyAttempts
  {
    FailuresAccumulate(s, username, badPassword, check, 5);
  }

  /** After a successful login, a failed attempt starts counting again from 1. */
  lemma SuccessResetsCount(s: AuthState, username: string, password: string, badPassword: string, check: PasswordCheck)
    requires LoginStep(s, username, password, check).1.TokenIssued?
    requires !Authenticates(s.users, username, badPassword, check)
    ensures var t := LoginStep(s, username, password, check).0;
            LoginStep(t, username, badPassword, check).0.kv[AttemptsKey(username)] == 1
  {
    KeyFamiliesDisjoint(username, username, [], 0);
  }

  /**
   * The counter is left at the threshold when the lockout flag is set, and
   * nothing on this path deletes it: once the flag expires, the next attempt
   * sets the flag again and is answered 429, whatever its credentials.
   */
  lemma LockoutOutlivesFlag(s: AuthState, username: string, password: string, check: PasswordCheck,
                            nextPassword: string, nextCheck: PasswordCheck)
    requires LoginStep(s, username, password, check).1 == TooManyAttempts
    ensures var t := LoginStep(s, username, password, check).0;
            var expired := t.(kv := t.kv - {LockoutKey(username)});
            LoginStep(expired, username, nextPassword, nextCheck).1 == TooManyAttempts
  {
    KeyFamiliesDisjoint(username, username, [], 0);
  }

  /**
   * With the intended guard a lockout ends with its flag: once the flag
   * expires, the next attempt is judged on its credentials alone, and a
   * failure starts the counter again at 1.
   */
  lemma IntendedLockoutEnds(s: AuthState, username: string, password: string, check: PasswordCheck,
                            nextPassword: string, nextCheck: PasswordCheck)
    requires IntendedLoginStep(s, username, password, check).1 == TooManyAttempts
    ensures var t := IntendedLoginStep(s, username, password, check).0;
            var expired := t.(kv := t.kv - {LockoutKey(username)});
            var (w, out) := IntendedLoginStep(expired, username, nextPassword, nextCheck);
            && (out.TokenIssued? <==> Authenticates(s.users, username, nextPassword, nextCheck))
            && (!out.TokenIssued? ==> out in {UserNotFound, InvalidCredentials} && w.kv[AttemptsKey(username)] == 1)
  {
    KeyFamiliesDisjoint(username, username, [], 0);
  }

  /** The intended guard keeps the invariant too: no counter passes the threshold. */
  lemma IntendedAttemptKeepsInvariant(s: AuthState, username: string, password: string, check: PasswordCheck)
    requires Inv(s)
    ensures Inv(IntendedLoginStep(s, username, password, check).0)
  {
    AttemptKeepsInvariant(s, username, password, check);
    var r := IntendedLoginStep(s, username, password, check);
    if r.1 == TooManyAttempts {
      GuardKeepsInvariant(s, username);
    }
  }

  /** The requests that reach the auth state, and the store's expiry of a key. */
  datatype AuthRequest =
    | LoginAttempt(username: string, password: string)
    | Registration(username: string, digest: string, role: Role)
    | KeyExpiry(key: string)

  /** The state after one request. */
  function Apply(s: AuthState, req: AuthRequest, check: PasswordCheck): AuthState {
    match req
    case LoginAttempt(u, pw) => LoginStep(s, u, pw, check).0
    case Registration(u, d, r) => s.(users := RegisterStep(s.users, u, d, r).0)
    case KeyExpiry(k) => s.(kv := s.kv - {k})
  }

  /** The state after a sequence of requests, one at a time. */
  function Run(s: AuthState, reqs: seq<AuthRequest>, check: PasswordCheck): AuthState
    decreases |reqs|
  {
    if reqs == [] then s else Run(Apply(s, reqs[0], check), reqs[1..], check)
  }

  lemma {:induction false} RunKeepsInvariant(s: AuthState, reqs: seq<AuthRequest>, check: PasswordCheck)
    requires Inv(s)
    ensures Inv(Run(s, reqs, check))
    decreases |reqs|
  {
    if reqs != [] {
      var t := Apply(s, reqs[0], check);
      match reqs[0] {
        case LoginAttempt(u, pw) => AttemptKeepsInvariant(s, u, pw, check);
        case Registration(u, d, r) =>
        case KeyExpiry(k) =>
      }
      RunKeepsInvariant(t, reqs[1..], check);
    }
  }

  /**
   * From the empty store and table, whatever requests arrive and whatever
   * keys expire, every attempt counter stays between 1 and 5 and usernames
   * stay unique.
   */
  lemma CountersNeverExceedThreshold(clientOpen: bool, reqs: seq<AuthRequest>, check: PasswordCheck, username: string)
    ensures var t := Run(AuthState(clientOpen, map[], []), reqs, check);
            && UniqueUsernames(t.users)
            && (AttemptsKey(username) in t.kv ==> 1 <= t.kv[AttemptsKey(username)] <= 5)
  {
    RunKeepsInvariant(AuthState(clientOpen, map[], []), reqs, check);
  }
}
