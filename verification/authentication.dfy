/** One login call: the attempt-throttling decision and the attempt state it
    writes back. The password comparison and the token generator are outside
    code and arrive as functions; the current time is a parameter. */
module Authentication {
  import opened Options
  import opened UserModel

  /** Failed attempts after which the account is throttled. */
  const MaxAttempts := 5
  /** Length of the throttling window: thirty minutes in milliseconds. */
  const LockoutWindowMs := 30 * 60 * 1000
  /** The stand-in hash the source prepares for an unknown email. */
  const PlaceholderPassword := "<RANDOM_PASSWORD_FILLER>"

  /** What a login call produces. Every variant but `TypeErrorThrown` stands for
      one of the source's messages (which also carry a time stamp, not modelled)
      or its success object. `TypeErrorThrown` is the rejection raised when the
      email matches no user and `attempts` is read from nothing. */
  datatype LoginOutcome =
    | TypeErrorThrown
    | ResetNotice(email: string)
    | LockedOut(email: string)
    | Authenticated(email: string, name: string, userId: string, token: string)
    | LimitReached(email: string, attempts: int)
    | LoginFailed(email: string, attempts: int)

  /** One call of the outside password comparison: candidate and stored hash. */
  datatype PasswordCheck = PasswordCheck(candidate: string, hash: string)

  /** The outcome, the attempt state written back (if any), and the password
      comparisons made, in order. */
  datatype LoginResult = LoginResult(outcome: LoginOutcome, write: Option<AttemptWrite>, checks: seq<PasswordCheck>)

  /** The account is throttled: at least the maximum attempts, with the last one
      less than the window ago. The source also requires `attempts` to be
      truthy, which the first condition already implies. */
  function LoginTimeoutCheck(attempts: int, now: int, lastAttempt: int): (throttled: bool)
    ensures throttled <==> attempts >= MaxAttempts && now - lastAttempt < LockoutWindowMs
  {
    attempts >= 5 && attempts != 0 && now - lastAttempt < 30 * 60 * 1000
  }

  /** The last attempt lies at least the window in the past. The source also
      tests the `Date` object for truthiness, which always holds. */
  predicate WindowExpired(now: int, lastAttempt: int) {
    now - lastAttempt >= LockoutWindowMs
  }

  /** The login decision for the user document found by email (`None` when
      there is none), the submitted password and the current time. */
  function CheckLoginCredentials(
    user: Option<Account>, password: string, now: int,
    passwordMatched: (string, string) -> bool,
    generateToken: (string, string) -> string): (r: LoginResult)
    // An unknown email fails before any comparison and writes nothing.
    ensures user.None? <==> r.outcome.TypeErrorThrown?
    ensures user.None? ==> r.checks == [] && r.write.None?
    // A known email is compared exactly once, against its own stored hash.
    ensures user.Some? ==> r.checks == [PasswordCheck(password, user.value.password)]
    // Right password, window over: notice, attempts written back unchanged.
    ensures user.Some? && passwordMatched(password, user.value.password)
            && WindowExpired(now, user.value.lastAttempt) ==>
              r.outcome == ResetNotice(user.value.email)
              && r.write == Some(AttemptWrite(user.value.attempts, now))
    // Right password, throttled: refused, nothing written.
    ensures user.Some? && passwordMatched(password, user.value.password)
            && !WindowExpired(now, user.value.lastAttempt)
            && user.value.attempts >= MaxAttempts ==>
              r.outcome == LockedOut(user.value.email) && r.write.None?
    // Right password otherwise: the user's identity and a token, nothing written.
    ensures user.Some? && passwordMatched(password, user.value.password)
            && !WindowExpired(now, user.value.lastAttempt)
            && user.value.attempts < MaxAttempts ==>
              r.outcome == Authenticated(user.value.email, user.value.name, user.value.id,
                                         generateToken(user.value.email, user.value.id))
              && r.write.None?
    // Wrong password: one more attempt, stamped now, always written.
    ensures user.Some? && !passwordMatched(password, user.value.password) ==>
              var n := user.value.attempts + 1;
              && r.write == Some(AttemptWrite(n, now))
              && (n == MaxAttempts ==> r.outcome == LimitReached(user.value.email, n))
              && (n != MaxAttempts && LoginTimeoutCheck(user.value.attempts, now, user.value.lastAttempt) ==>
                    r.outcome == LockedOut(user.value.email))
              && (n != MaxAttempts && !LoginTimeoutCheck(user.value.attempts, now, user.value.lastAttempt) ==>
                    r.outcome == LoginFailed(user.value.email, n))
    // Summary: what a token requires, and that writes never lower the count.
    ensures r.outcome.Authenticated? ==>
              && passwordMatched(password, user.value.password)
              && user.value.attempts < MaxAttempts
              && now - user.value.lastAttempt < LockoutWindowMs
    ensures r.outcome.LimitReached? ==>
              !passwordMatched(password, user.value.password) && user.value.attempts + 1 == MaxAttempts
    ensures r.write.Some? ==>
              user.Some? && r.write.value.attempts >= user.value.attempts && r.write.value.lastAttempt == now
  {
    match user
    case None => LoginResult(TypeErrorThrown, None, [])
    case Some(u) =>
      var attempts := u.attempts;
      var lastAttempt := u.lastAttempt;
      var timeoutCheck := LoginTimeoutCheck(attempts, now, lastAttempt);
      var passwordChecked := passwordMatched(password, u.password);
      var checks := [PasswordCheck(password, u.password)];
      if passwordChecked then
        if now - lastAttempt >= 30 * 60 * 1000 then
          // resetLoginAttempt rebinds only its own parameters: `attempts` is unchanged here.
          LoginResult(ResetNotice(u.email), Some(AttemptWrite(attempts, now)), checks)
        else if timeoutCheck then
          LoginResult(LockedOut(u.email), None, checks)
        else
          LoginResult(Authenticated(u.email, u.name, u.id, generateToken(u.email, u.id)), None, checks)
      else
        var failed := attempts + 1;
        var outcome :=
          if failed == 5 then LimitReached(u.email, failed)
          else if timeoutCheck then LockedOut(u.email)
          else LoginFailed(u.email, failed);
        LoginResult(outcome, Some(AttemptWrite(failed, now)), checks)
  }

  /** The window-expiry test of the reset branch and the throttling test can
      never both pass for the same time stamps. */
  lemma ExpiryExcludesThrottling(attempts: int, now: int, lastAttempt: int)
    ensures !(WindowExpired(now, lastAttempt) && LoginTimeoutCheck(attempts, now, lastAttempt))
  {
  }

  /** The stand-in hash is never compared: an unknown email fails before the
      comparison, and a known one is compared against its own stored hash. */
  lemma PlaceholderNeverCompared(
    user: Option<Account>, password: string, now: int,
    passwordMatched: (string, string) -> bool, generateToken: (string, string) -> string)
    requires user.Some? ==> user.value.password != PlaceholderPassword
    ensures forall c | c in CheckLoginCredentials(user, password, now, passwordMatched, generateToken).checks ::
              c.hash != PlaceholderPassword
  {
  }

  /** While throttled, every password is refused with the lockout notice, the
      right one included: a right password is not inside the reset branch, and
      a wrong one pushes the count past the maximum, not onto it. */
  lemma ThrottledRefusesEveryPassword(
    user: Account, password: string, now: int,
    passwordMatched: (string, string) -> bool, generateToken: (string, string) -> string)
    requires user.attempts >= MaxAttempts
    requires now - user.lastAttempt < LockoutWindowMs
    ensures CheckLoginCredentials(Some(user), password, now, passwordMatched, generateToken).outcome
            == LockedOut(user.email)
  {
  }

  /** After the window has passed, a wrong password does not start the count
      afresh: it adds one to the old count and reports an ordinary failure. */
  lemma ExpiredWindowKeepsOldCount(
    user: Account, password: string, now: int,
    passwordMatched: (string, string) -> bool, generateToken: (string, string) -> string)
    requires user.attempts >= MaxAttempts
    requires WindowExpired(now, user.lastAttempt)
    requires !passwordMatched(password, user.password)
    ensures var r := CheckLoginCredentials(Some(user), password, now, passwordMatched, generateToken);
            r.outcome == LoginFailed(user.email, user.attempts + 1)
            && r.write == Some(AttemptWrite(user.attempts + 1, now))
  {
  }

  /** A login call made against the store: look the email up, decide, and
      write back the attempt state the decision asks for. */
  datatype StoreStep = StoreStep(outcome: LoginOutcome, store: Store)

  function Login(
    store: Store, email: string, password: string, now: int,
    passwordMatched: (string, string) -> bool,
    generateToken: (string, string) -> string): (r: StoreStep)
    ensures r.store.Keys == store.Keys
    ensures forall e | e in store && e != email :: r.store[e] == store[e]
    ensures email !in store ==> r.outcome.TypeErrorThrown? && r.store == store
    ensures email in store ==>
              && r.store[email].attempts >= store[email].attempts
              && r.store[email].id == store[email].id
              && r.store[email].name == store[email].name
              && r.store[email].email == store[email].email
              && r.store[email].password == store[email].password
    ensures WellFiled(store) ==> WellFiled(r.store)
    ensures r.outcome.Authenticated? ==> email in store && store[email].attempts < MaxAttempts
    ensures r.outcome.LimitReached? ==>
              email in store && store[email].attempts + 1 == MaxAttempts
              && r.store[email].attempts == MaxAttempts
    ensures email in store && !passwordMatched(password, store[email].password) ==>
              r.store[email].attempts == store[email].attempts + 1 && r.store[email].lastAttempt == now
  {
    var user := if email in store then Some(store[email]) else None;
    var res := CheckLoginCredentials(user, password, now, passwordMatched, generateToken);
    match res.write
    case None => StoreStep(res.outcome, store)
    case Some(w) => StoreStep(res.outcome, UpdateLoginAttempt(store, email, w))
  }
}
