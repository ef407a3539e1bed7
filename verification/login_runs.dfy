/** Sequences of login calls against one store, and what holds across them. */
module LoginRuns {
  import opened Options
  import opened UserModel
  import opened Authentication

  /** One login request: who, with which password, and when. */
  datatype Attempt = Attempt(email: string, password: string, now: int)

  /** The outcome of each request, in order, and the store at the end. */
  datatype RunResult = RunResult(outcomes: seq<LoginOutcome>, store: Store)

  /** The requests handled one after the other, each seeing the store the
      previous one left behind. */
  function Run(store: Store, attempts: seq<Attempt>,
               passwordMatched: (string, string) -> bool,
               generateToken: (string, string) -> string): (r: RunResult)
    ensures |r.outcomes| == |attempts|
    ensures r.store.Keys == store.Keys
    decreases |attempts|
  {
    if |attempts| == 0 then RunResult([], store)
    else
      var a := attempts[0];
      var step := Login(store, a.email, a.password, a.now, passwordMatched, generateToken);
      var rest := Run(step.store, attempts[1..], passwordMatched, generateToken);
      RunResult([step.outcome] + rest.outcomes, rest.store)
  }

  /** No sequence of logins ever lowers an account's attempt count, and none
      changes the account's identity or password. */
  lemma {:induction false} AttemptsNeverDecrease(
    store: Store, attempts: seq<Attempt>, e: string,
    passwordMatched: (string, string) -> bool, generateToken: (string, string) -> string)
    requires e in store
    ensures var end := Run(store, attempts, passwordMatched, generateToken).store;
            e in end
            && end[e].attempts >= store[e].attempts
            && end[e].password == store[e].password
            && end[e].id == store[e].id
            && end[e].email == store[e].email
    decreases |attempts|
  {
    if |attempts| > 0 {
      var a := attempts[0];
      var step := Login(store, a.email, a.password, a.now, passwordMatched, generateToken);
      AttemptsNeverDecrease(step.store, attempts[1..], e, passwordMatched, generateToken);
    }
  }

  /** Once an account has reached the maximum attempts, no later login to it
      returns a token, however much time passes: the reset branch keeps the
      count, and nothing else lowers it. */
  lemma {:induction false} NoTokenOnceThrottled(
    store: Store, attempts: seq<Attempt>, e: string,
    passwordMatched: (string, string) -> bool, generateToken: (string, string) -> string)
    requires e in store && store[e].attempts >= MaxAttempts
    ensures var r := Run(store, attempts, passwordMatched, generateToken);
            forall i | 0 <= i < |attempts| && attempts[i].email == e :: !r.outcomes[i].Authenticated?
    decreases |attempts|
  {
    if |attempts| > 0 {
      var a := attempts[0];
      var step := Login(store, a.email, a.password, a.now, passwordMatched, generateToken);
      NoTokenOnceThrottled(step.store, attempts[1..], e, passwordMatched, generateToken);
      var rest := Run(step.store, attempts[1..], passwordMatched, generateToken);
      var r := Run(store, attempts, passwordMatched, generateToken);
      forall i | 0 <= i < |attempts| && attempts[i].email == e
        ensures !r.outcomes[i].Authenticated?
      {
        if i > 0 {
          assert r.outcomes[i] == rest.outcomes[i - 1];
          assert attempts[1..][i - 1] == attempts[i];
        }
      }
    }
  }

  /** The number of requests for `e` answered with the limit-reached notice. */
  function LimitReachedCount(attempts: seq<Attempt>, outcomes: seq<LoginOutcome>, e: string): nat
    requires |outcomes| == |attempts|
  {
    if |attempts| == 0 then 0
    else (if attempts[0].email == e && outcomes[0].LimitReached? then 1 else 0)
         + LimitReachedCount(attempts[1..], outcomes[1..], e)
  }

  /** An account already at the maximum never gets the limit-reached notice. */
  lemma {:induction false} NoLimitNoticeOnceReached(
    store: Store, attempts: seq<Attempt>, e: string,
    passwordMatched: (string, string) -> bool, generateToken: (string, string) -> string)
    requires e in store && store[e].attempts >= MaxAttempts
    ensures var r := Run(store, attempts, passwordMatched, generateToken);
            LimitReachedCount(attempts, r.outcomes, e) == 0
    decreases |attempts|
  {
    if |attempts| > 0 {
      var a := attempts[0];
      var step := Login(store, a.email, a.password, a.now, passwordMatched, generateToken);
      NoLimitNoticeOnceReached(step.store, attempts[1..], e, passwordMatched, generateToken);
      var r := Run(store, attempts, passwordMatched, generateToken);
      assert r.outcomes[1..] == Run(step.store, attempts[1..], passwordMatched, generateToken).outcomes;
    }
  }

  /** Any sequence of logins gives each account the limit-reached notice at
      most once: the count must step from four to five, and it never comes
      back down. */
  lemma {:induction false} LimitNoticeAtMostOnce(
    store: Store, attempts: seq<Attempt>, e: string,
    passwordMatched: (string, string) -> bool, generateToken: (string, string) -> string)
    requires e in store
    ensures var r := Run(store, attempts, passwordMatched, generateToken);
            LimitReachedCount(attempts, r.outcomes, e) <= 1
    decreases |attempts|
  {
    if |attempts| > 0 {
      var a := attempts[0];
      var step := Login(store, a.email, a.password, a.now, passwordMatched, generateToken);
      var r := Run(store, attempts, passwordMatched, generateToken);
      assert r.outcomes[1..] == Run(step.store, attempts[1..], passwordMatched, generateToken).outcomes;
      if a.email == e && step.outcome.LimitReached? {
        NoLimitNoticeOnceReached(step.store, attempts[1..], e, passwordMatched, generateToken);
      } else {
        LimitNoticeAtMostOnce(step.store, attempts[1..], e, passwordMatched, generateToken);
      }
    }
  }

  /** Wrong passwords only: the count grows by exactly one per request and the
      last attempt is stamped with the time of the final request. */
  lemma {:induction false} WrongPasswordsAccumulate(
    store: Store, attempts: seq<Attempt>, e: string,
    passwordMatched: (string, string) -> bool, generateToken: (string, string) -> string)
    requires e in store
    requires forall i | 0 <= i < |attempts| ::
               attempts[i].email == e && !passwordMatched(attempts[i].password, store[e].password)
    ensures var end := Run(store, attempts, passwordMatched, generateToken).store;
            e in end
            && end[e].attempts == store[e].attempts + |attempts|
            && (|attempts| > 0 ==> end[e].lastAttempt == attempts[|attempts| - 1].now)
    decreases |attempts|
  {
    if |attempts| > 0 {
      var a := attempts[0];
      var step := Login(store, a.email, a.password, a.now, passwordMatched, generateToken);
      assert step.store[e].password == store[e].password;
      assert forall i | 0 <= i < |attempts[1..]| ::
               attempts[1..][i].email == e && !passwordMatched(attempts[1..][i].password, step.store[e].password) by {
        forall i | 0 <= i < |attempts[1..]|
          ensures attempts[1..][i].email == e && !passwordMatched(attempts[1..][i].password, step.store[e].password)
        {
          assert attempts[1..][i] == attempts[i + 1];
        }
      }
      WrongPasswordsAccumulate(step.store, attempts[1..], e, passwordMatched, generateToken);
    }
  }

  /** A new user with the right password: because the schema stamps the last
      attempt at the epoch, the first login (at any real time) only gets the
      reset notice; a second one within the window gets the token. */
  lemma NewUserFirstLoginIsResetNotice(
    id: string, name: string, email: string, hash: string, password: string, t1: int, t2: int,
    passwordMatched: (string, string) -> bool, generateToken: (string, string) -> string)
    requires passwordMatched(password, hash)
    requires t1 >= LockoutWindowMs
    requires t1 <= t2 < t1 + LockoutWindowMs
    ensures var store := map[email := NewAccount(id, name, email, hash)];
            var r := Run(store, [Attempt(email, password, t1), Attempt(email, password, t2)],
                         passwordMatched, generateToken);
            r.outcomes == [ResetNotice(email), Authenticated(email, name, id, generateToken(email, id))]
            && r.store[email] == Account(id, name, email, hash, 0, t1)
  {
    var store := map[email := NewAccount(id, name, email, hash)];
    var first := Login(store, email, password, t1, passwordMatched, generateToken);
    assert first.store[email] == Account(id, name, email, hash, 0, t1);
    var second := Login(first.store, email, password, t2, passwordMatched, generateToken);
    var attempts := [Attempt(email, password, t1), Attempt(email, password, t2)];
    assert attempts[1..][1..] == [];
    assert Run(first.store, attempts[1..], passwordMatched, generateToken).outcomes == [second.outcome];
  }
}
