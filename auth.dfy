/**
 * The login attempt guard and registration of routes/auth.js.
 *
 * The Redis keyspace seen by these routes is `kv`: every value they write is
 * an integer (the attempt counter, and the number passed in the value
 * position when the lockout key is set), and the lockout key is only ever
 * tested for presence. The User table is `users`, in insertion order.
 * `LoginStep` and `RegisterStep` state what one request does to this state;
 * the class `AuthRouter` performs the same steps one store call at a time and
 * is proved to agree with them.
 */
module Auth {
  import opened Wrappers
  import opened Records
  import opened StoreKeys

  /** Failed attempts at which the next attempt is locked out (routes/auth.js:31). */
  const Threshold: int := 5

  /** The value written under the lockout key (routes/auth.js:32); only its presence is ever tested. */
  const LockMarker: int := 300

  /** `bcrypt.compare(password, digest)`. */
  type PasswordCheck = (string, string) -> bool

  /** How a POST /auth/login request ends. */
  datatype LoginOutcome =
    | ClientUnavailable            // 500 'Redis client is not available'
    | AccountLocked                // 429 'Account temporarily locked'
    | TooManyAttempts              // 429 'Too many login attempts'
    | UserNotFound                 // 404
    | InvalidCredentials           // 401
    | TokenIssued(claims: Claims)  // 200, a token signed over `claims`
  {
    function Status(): int {
      match this
      case ClientUnavailable => 500
      case AccountLocked => 429
      case TooManyAttempts => 429
      case UserNotFound => 404
      case InvalidCredentials => 401
      case TokenIssued(_) => 200
    }
  }

  /** What `rateLimitMiddleware` decides: call `next`, or end the request. */
  datatype Guard = Proceed | Rejected(outcome: LoginOutcome)

  /** How a POST /auth/register request ends. */
  datatype RegisterOutcome = UsernameTaken | Registered {
    function Status(): int {
      if UsernameTaken? then 400 else 201
    }
  }

  /** The state the auth routes read and write: whether the store client is usable, the keyspace and the User table. */
  datatype AuthState = AuthState(clientOpen: bool, kv: map<string, int>, users: seq<User>)

  /** The value of a counter key, counting an absent key as 0 as INCR does. */
  function Count(kv: map<string, int>, key: string): int {
    if key in kv then kv[key] else 0
  }

  /** `User.findOne({ where: { username } })`: the first user with that name. */
  function FindUser(users: seq<User>, name: string): (r: Option<User>)
    ensures r.Some? ==> r.value in users && r.value.username == name
    ensures r.None? <==> forall i :: 0 <= i < |users| ==> users[i].username != name
  {
    if users == [] then None
    else if users[0].username == name then Some(users[0])
    else FindUser(users[1..], name)
  }

  /** Whether `password` is right for the user named `username`. */
  function Authenticates(users: seq<User>, username: string, password: string, check: PasswordCheck): bool {
    var user := FindUser(users, username);
    user.Some? && check(password, user.value.passwordHash)
  }

  /** The guard lets a request through: the client is open, no lockout flag is set and the counter is below the threshold. */
  predicate GuardPasses(s: AuthState, username: string) {
    s.clientOpen && LockoutKey(username) !in s.kv && Count(s.kv, AttemptsKey(username)) < Threshold
  }

  /**
   * `rateLimitMiddleware` (routes/auth.js:9-42). It calls `next` exactly when
   * the guard passes; the only store write is the lockout flag, set when the
   * counter has reached the threshold.
   */
  function RateLimitStep(s: AuthState, username: string): (r: (AuthState, Guard))
    ensures r.0.clientOpen == s.clientOpen && r.0.users == s.users
    ensures r.1 == Proceed <==> GuardPasses(s, username)
    ensures r.1.Rejected? ==> r.1.outcome in {ClientUnavailable, AccountLocked, TooManyAttempts} && r.1.outcome.Status() in {500, 429}
    ensures r.1 == Rejected(TooManyAttempts) <==>
              s.clientOpen && LockoutKey(username) !in s.kv && Count(s.kv, AttemptsKey(username)) >= Threshold
    ensures r.1 == Rejected(TooManyAttempts) ==> r.0.kv == s.kv[LockoutKey(username) := LockMarker]
    ensures r.1 != Rejected(TooManyAttempts) ==> r.0 == s
  {
    if !s.clientOpen then (s, Rejected(ClientUnavailable))
    else if LockoutKey(username) in s.kv then (s, Rejected(AccountLocked))
    else if AttemptsKey(username) in s.kv && s.kv[AttemptsKey(username)] >= Threshold then
      (s.(kv := s.kv[LockoutKey(username) := LockMarker]), Rejected(TooManyAttempts))
    else (s, Proceed)
  }

  /**
   * The /login handler once the guard has let the request through
   * (routes/auth.js:44-74): a token exactly when the credentials are right,
   * which deletes the counter; every failure adds one to it.
   */
  function LoginHandler(s: AuthState, username: string, password: string, check: PasswordCheck): (r: (AuthState, LoginOutcome))
    ensures r.0.clientOpen == s.clientOpen && r.0.users == s.users
    ensures r.1 in {UserNotFound, InvalidCredentials} || r.1.TokenIssued?
    ensures r.1 == UserNotFound <==> forall i :: 0 <= i < |s.users| ==> s.users[i].username != username
    ensures r.1.TokenIssued? <==> Authenticates(s.users, username, password, check)
    ensures r.1.TokenIssued? ==> r.1.claims.username == username && r.0.kv == s.kv - {AttemptsKey(username)}
    ensures !r.1.TokenIssued? ==> r.0.kv == s.kv[AttemptsKey(username) := Count(s.kv, AttemptsKey(username)) + 1]
  {
    var key := AttemptsKey(username);
    match FindUser(s.users, username)
    case None => (s.(kv := s.kv[key := Count(s.kv, key) + 1]), UserNotFound)
    case Some(user) =>
      if !check(password, user.passwordHash) then (s.(kv := s.kv[key := Count(s.kv, key) + 1]), InvalidCredentials)
      else (s.(kv := s.kv - {key}), TokenIssued(Claims(user.id, user.username, RoleName(user.role))))
  }

  /**
   * One POST /auth/login request: the guard, then the handler. A token is
   * issued exactly when the guard passes and the credentials are right; the
   * User table is never changed and a lockout flag is never removed.
   */
  function LoginStep(s: AuthState, username: string, password: string, check: PasswordCheck): (r: (AuthState, LoginOutcome))
    ensures r.0.clientOpen == s.clientOpen && r.0.users == s.users
    ensures r.1.TokenIssued? <==> GuardPasses(s, username) && Authenticates(s.users, username, password, check)
    ensures !GuardPasses(s, username) ==> r.1.Status() in {500, 429}
    ensures LockoutKey(username) in s.kv ==> LockoutKey(username) in r.0.kv
  {
    var (t, g) := RateLimitStep(s, username);
    if g.Rejected? then (t, g.outcome) else LoginHandler(t, username, password, check)
  }

  /**
   * The guard as evidently intended: setting the lockout flag also deletes
   * the counter, so that once the flag expires counting starts again from 0.
   * Its decisions are those of `RateLimitStep`.
   */
  function IntendedRateLimitStep(s: AuthState, username: string): (r: (AuthState, Guard))
    ensures r.1 == RateLimitStep(s, username).1
    ensures r.1 == Rejected(TooManyAttempts) ==>
              r.0 == s.(kv := s.kv[LockoutKey(username) := LockMarker] - {AttemptsKey(username)})
    ensures r.1 != Rejected(TooManyAttempts) ==> r.0 == s
  {
    var (t, g) := RateLimitStep(s, username);
    if g == Rejected(TooManyAttempts) then (t.(kv := t.kv - {AttemptsKey(username)}), g) else (t, g)
  }

  /** One login request with the intended guard: the same outcome as `LoginStep`, and the same state unless the guard locks. */
  function IntendedLoginStep(s: AuthState, username: string, password: string, check: PasswordCheck): (r: (AuthState, LoginOutcome))
    ensures r.1 == LoginStep(s, username, password, check).1
    ensures r.1 != TooManyAttempts ==> r == LoginStep(s, username, password, check)
  {
    var (t, g) := IntendedRateLimitStep(s, username);
    if g.Rejected? then (t, g.outcome) else LoginHandler(t, username, password, check)
  }

  /** No two users share a username. */
  predicate UniqueUsernames(users: seq<User>) {
    forall i, j :: 0 <= i < j < |users| ==> users[i].username != users[j].username
  }

  /**
   * One POST /auth/register request (routes/auth.js:76-98) on the User table;
   * `digest` is what `bcrypt.hash` produced for the password.
   */
  function RegisterStep(users: seq<User>, username: string, digest: string, role: Role): (r: (seq<User>, RegisterOutcome))
    ensures r.1 == UsernameTaken <==> exists i :: 0 <= i < |users| && users[i].username == username
    ensures r.1 == UsernameTaken ==> r.0 == users
    ensures r.1 == Registered ==> |r.0| == |users| + 1 && r.0[..|users|] == users
    ensures r.1 == Registered ==> var u := r.0[|users|]; u.username == username && u.passwordHash == digest && u.role == role
    ensures UniqueUsernames(users) ==> UniqueUsernames(r.0)
  {
    if FindUser(users, username).Some? then (users, UsernameTaken)
    else
      var added := users + [User(|users| + 1, username, digest, role)];
      assert added[..|users|] == users;
      (added, Registered)
  }

  /** Every attempt counter in the keyspace lies between 1 and the threshold. */
  ghost predicate CountersBounded(kv: map<string, int>) {
    forall u :: AttemptsKey(u) in kv ==> 1 <= kv[AttemptsKey(u)] <= Threshold
  }

  /** The invariant of the auth state. */
  ghost predicate Inv(s: AuthState) {
    UniqueUsernames(s.users) && CountersBounded(s.kv)
  }

  /** The guard keeps the invariant: the only key it writes is a lockout flag, never a counter. */
  lemma GuardKeepsInvariant(s: AuthState, username: string)
    requires Inv(s)
    ensures Inv(RateLimitStep(s, username).0)
  {
    var t := RateLimitStep(s, username).0;
    forall v | AttemptsKey(v) in t.kv
      ensures 1 <= t.kv[AttemptsKey(v)] <= Threshold
    {
      KeyFamiliesDisjoint(v, username, [], 0);
    }
  }

  /** A login attempt preserves the invariant: in particular no counter ever passes the threshold. */
  lemma AttemptKeepsInvariant(s: AuthState, username: string, password: string, check: PasswordCheck)
    requires Inv(s)
    ensures Inv(LoginStep(s, username, password, check).0)
  {
    var t := LoginStep(s, username, password, check).0;
    assert t.users == s.users;
    forall v | AttemptsKey(v) in t.kv
      ensures 1 <= t.kv[AttemptsKey(v)] <= Threshold
    {
      KeyFamiliesDisjoint(v, username, [], 0);
      AttemptsKeyInjective(v, username);
    }
  }

  /** The class that performs the requests one store call at a time. */
  class AuthRouter {
    var clientOpen: bool
    var kv: map<string, int>
    var users: seq<User>

    function State(): AuthState
      reads this
    {
      AuthState(clientOpen, kv, users)
    }

    ghost predicate Valid()
      reads this
    {
      Inv(State())
    }

    constructor (clientOpen: bool)
      ensures State() == AuthState(clientOpen, map[], [])
      ensures Valid()
    {
      this.clientOpen := clientOpen;
      kv := map[];
      users := [];
    }

    /** `rateLimitMiddleware`: get the lockout key, get the counter, maybe set the lockout key. */
    method RateLimit(username: string) returns (g: Guard)
      requires Valid()
      modifies this`kv
      ensures Valid()
      ensures (State(), g) == RateLimitStep(old(State()), username)
    {
      GuardKeepsInvariant(State(), username);
      if !clientOpen {
        return Rejected(ClientUnavailable);
      }
      var attemptsKey := AttemptsKey(username);
      var lockoutKey := LockoutKey(username);
      if lockoutKey in kv {
        return Rejected(AccountLocked);
      }
      if attemptsKey in kv && kv[attemptsKey] >= Threshold {
        kv := kv[lockoutKey := LockMarker];
        return Rejected(TooManyAttempts);
      }
      g := Proceed;
    }

    /** POST /auth/login: the guard, the user lookup, the password check, then INCR or DEL of the counter. */
    method Login(username: string, password: string, check: PasswordCheck) returns (out: LoginOutcome)
      requires Valid()
      modifies this`kv
      ensures Valid()
      ensures (State(), out) == LoginStep(old(State()), username, password, check)
    {
      AttemptKeepsInvariant(State(), username, password, check);
      var g := RateLimit(username);
      if g.Rejected? {
        return g.outcome;
      }
      var attemptsKey := AttemptsKey(username);
      var user := FindUser(users, username);
      if user.None? {
        kv := kv[attemptsKey := (if attemptsKey in kv then kv[attemptsKey] else 0) + 1];
        return UserNotFound;
      }
      var valid := check(password, user.value.passwordHash);
      if !valid {
        kv := kv[attemptsKey := (if attemptsKey in kv then kv[attemptsKey] else 0) + 1];
        return InvalidCredentials;
      }
      kv := kv - {attemptsKey};
      out := TokenIssued(Claims(user.value.id, user.value.username, RoleName(user.value.role)));
    }

    /** POST /auth/register: look the name up, then insert one user. */
    method Register(username: string, digest: string, role: Role) returns (out: RegisterOutcome)
      requires Valid()
      modifies this`users
      ensures Valid()
      ensures (users, out) == RegisterStep(old(users), username, digest, role)
    {
      var existing := FindUser(users, username);
      if existing.Some? {
        return UsernameTaken;
      }
      users := users + [User(|users| + 1, username, digest, role)];
      out := Registered;
    }

    /** The store dropping a key whose time to live has elapsed. */
    method Expire(key: string)
      requires Valid()
      modifies this`kv
      ensures Valid()
      ensures kv == old(kv) - {key}
    {
      kv := kv - {key};
    }
  }
}
