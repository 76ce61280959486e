/** The attempt counter and the one-hour lock of a password login. Times are milliseconds. */
module LoginLock {
  import opened Basics

  const MAX_ATTEMPTS := 5
  const LOCK_DURATION_MS := 60 * 60 * 1000

  datatype User = User(loginAttempts: int, isLocked: bool, lockUntil: Option<int>)

  datatype Reply = TemporarilyLocked | WrongPassword | LoggedIn

  datatype Compared = Compared(at: int, ok: bool)

  predicate Refused(u: User, now: int) { u.isLocked && (u.lockUntil == None || now < u.lockUntil.value) }

  function Reset(): User { User(0, false, None) }

  function Incremented(u: User, now: int): User {
    var attempts := u.loginAttempts + 1;
    if attempts >= MAX_ATTEMPTS then User(attempts, true, Some(now + LOCK_DURATION_MS)) else u.(loginAttempts := attempts)
  }

  /** What a login leaves on the account; an expired lock is lifted before the password is looked at. */
  function AfterLogin(u: User, now: int, passwordOk: bool): User {
    if Refused(u, now) then u
    else
      var open := if u.isLocked then Reset() else u;
      if !passwordOk then Incremented(open, now)
      else if u.loginAttempts > 0 then Reset() else open
  }

  function Answer(u: User, now: int, passwordOk: bool): Reply {
    if Refused(u, now) then TemporarilyLocked else if passwordOk then LoggedIn else WrongPassword
  }

  class UserRecord {
    var user: User

    constructor ()
      ensures user == Reset()
    {
      user := Reset();
    }

    method IncrementLoginAttempts(now: int)
      modifies this
      ensures user == Incremented(old(user), now)
    {
      user := user.(loginAttempts := user.loginAttempts + 1);
      if user.loginAttempts >= MAX_ATTEMPTS {
        user := user.(isLocked := true, lockUntil := Some(now + LOCK_DURATION_MS));
      }
    }

    method ResetLoginAttempts()
      modifies this
      ensures user == Reset()
    {
      user := User(0, false, None);
    }

    /** `passwordOk` is the outcome of the comparison, were it made. */
    method Login(now: int, passwordOk: bool) returns (reply: Reply)
      modifies this
      ensures user == AfterLogin(old(user), now, passwordOk)
      ensures reply == Answer(old(user), now, passwordOk)
    {
      var loaded := user;
      if loaded.isLocked {
        if loaded.lockUntil == None || now < loaded.lockUntil.value { return TemporarilyLocked; }
        ResetLoginAttempts();
      }
      if !passwordOk {
        IncrementLoginAttempts(now);
        return WrongPassword;
      }
      if loaded.loginAttempts > 0 {
        ResetLoginAttempts();
      }
      reply := LoggedIn;
    }
  }

  // ----- all runs

  datatype Request = Request(at: int, passwordOk: bool)

  predicate InOrder(run: seq<Request>) { forall i, j :: 0 <= i < j < |run| ==> run[i].at <= run[j].at }

  function UserAfter(run: seq<Request>): User {
    if run == [] then Reset()
    else var r := run[|run| - 1]; AfterLogin(UserAfter(run[..|run| - 1]), r.at, r.passwordOk)
  }

  /** The password comparisons that were made. */
  function Log(run: seq<Request>): seq<Compared> {
    if run == [] then []
    else
      var r := run[|run| - 1];
      if Refused(UserAfter(run[..|run| - 1]), r.at) then Log(run[..|run| - 1])
      else Log(run[..|run| - 1]) + [Compared(r.at, r.passwordOk)]
  }

  /** The counter as the log determines it. */
  function Attempts(log: seq<Compared>): nat {
    if log == [] || log[|log| - 1].ok then 0
    else
      var before := Attempts(log[..|log| - 1]);
      if before == MAX_ATTEMPTS then 1 else before + 1
  }

  predicate LogOk(log: seq<Compared>) {
    |log| <= 1 ||
    (var before, last := log[..|log| - 1], log[|log| - 2];
     LogOk(before) && log[|log| - 1].at >= (if Attempts(before) == MAX_ATTEMPTS then last.at + LOCK_DURATION_MS else last.at))
  }

  predicate Inv(u: User, log: seq<Compared>, now: int) {
    && u.loginAttempts == Attempts(log) <= MAX_ATTEMPTS && LogOk(log)
    && (u.isLocked <==> Attempts(log) == MAX_ATTEMPTS)
    && (u.isLocked ==> u.lockUntil == Some(log[|log| - 1].at + LOCK_DURATION_MS))
    && (log != [] ==> log[|log| - 1].at <= now)
  }

  lemma LoginKeepsInv(u: User, log: seq<Compared>, before: int, now: int, passwordOk: bool)
    requires Inv(u, log, before) && before <= now
    ensures Inv(AfterLogin(u, now, passwordOk), if Refused(u, now) then log else log + [Compared(now, passwordOk)], now)
  {
    assert (log + [Compared(now, passwordOk)])[..|log|] == log;
  }

  lemma {:induction false} RunKeepsInv(run: seq<Request>)
    requires InOrder(run)
    ensures run != [] ==> Inv(UserAfter(run), Log(run), run[|run| - 1].at)
  {
    if run != [] {
      var before, r := run[..|run| - 1], run[|run| - 1];
      RunKeepsInv(before);
      LoginKeepsInv(UserAfter(before), Log(before), if before == [] then r.at else before[|before| - 1].at, r.at, r.passwordOk);
    }
  }

  lemma {:induction false} LogOkUpTo(log: seq<Compared>, n: nat)
    requires LogOk(log) && n <= |log|
    ensures LogOk(log[..n])
  {
    if n < |log| {
      LogOkUpTo(log[..|log| - 1], n);
      assert log[..|log| - 1][..n] == log[..n];
    } else {
      assert log[..n] == log;
    }
  }

  /** One failed comparison after another: the counter goes up by one, or the lock has been waited out. */
  lemma {:induction false} NextFailure(log: seq<Compared>, n: nat)
    requires LogOk(log) && 0 < n < |log| && !log[n].ok
    ensures log[n].at >= log[n - 1].at
    ensures Attempts(log[..n + 1]) == Attempts(log[..n]) + 1 || log[n].at >= log[n - 1].at + LOCK_DURATION_MS
  {
    LogOkUpTo(log, n + 1);
    assert log[..n + 1][..n] == log[..n];
  }

  /** Along n more failures, either the counter has gone up by n or an hour has passed. */
  lemma {:induction false} FailuresCount(log: seq<Compared>, i: nat, n: nat)
    requires LogOk(log) && i + n < |log| && forall k :: i <= k <= i + n ==> !log[k].ok
    ensures log[i + n].at >= log[i].at
    ensures Attempts(log[..i + n + 1]) == Attempts(log[..i + 1]) + n || log[i + n].at >= log[i].at + LOCK_DURATION_MS
  {
    if n > 0 {
      FailuresCount(log, i, n - 1);
      NextFailure(log, i + n);
    }
  }

  lemma {:induction false} AttemptsBounded(log: seq<Compared>)
    ensures Attempts(log) <= MAX_ATTEMPTS
    ensures log != [] && !log[|log| - 1].ok ==> Attempts(log) >= 1
  {
    if log != [] {
      AttemptsBounded(log[..|log| - 1]);
    }
  }

  /**
   In every run, six failed password comparisons with no success between them span at least an hour.
   */
  lemma {:induction false} SixFailuresTakeAnHour(run: seq<Request>, i: nat)
    requires InOrder(run)
    requires i + 5 < |Log(run)| && forall k :: i <= k <= i + 5 ==> !Log(run)[k].ok
    ensures Log(run)[i + 5].at - Log(run)[i].at >= LOCK_DURATION_MS
  {
    RunKeepsInv(run);
    FailuresCount(Log(run), i, 5);
    AttemptsBounded(Log(run)[..i + 1]);
    AttemptsBounded(Log(run)[..i + 6]);
  }

  /** In every run an account is locked exactly when five failures are counted. */
  lemma {:induction false} LockedMeansFiveFailures(run: seq<Request>)
    requires InOrder(run)
    ensures UserAfter(run).isLocked <==> UserAfter(run).loginAttempts >= MAX_ATTEMPTS
  {
    RunKeepsInv(run);
  }

  // ----- every answer, by the comparisons made before

  function TrailingFailures(log: seq<Compared>): nat {
    if log == [] || log[|log| - 1].ok then 0 else 1 + TrailingFailures(log[..|log| - 1])
  }

  /** The counter starts again after every fifth failure in a row. */
  lemma {:induction false} AttemptsAreTrailing(log: seq<Compared>)
    ensures Attempts(log) == if TrailingFailures(log) == 0 then 0 else (TrailingFailures(log) - 1) % 5 + 1
    ensures Attempts(log) == 5 <==> TrailingFailures(log) > 0 && TrailingFailures(log) % 5 == 0
  {
    if log != [] {
      AttemptsAreTrailing(log[..|log| - 1]);
    }
  }

  /** An hour has not yet passed since a fifth failure in a row, or tenth, and so on. */
  predicate Waiting(log: seq<Compared>, now: int) {
    && TrailingFailures(log) > 0 && TrailingFailures(log) % 5 == 0
    && now < log[|log| - 1].at + 3600000
  }

  /**
   In every run a login is refused exactly during the hour after a fifth failure in a row; at any other time the
   password decides, also right after a lock has expired.
   */
  lemma {:induction false} LoginAnswersExactly(run: seq<Request>, now: int, passwordOk: bool)
    requires InOrder(run) && (run != [] ==> run[|run| - 1].at <= now)
    ensures Answer(UserAfter(run), now, passwordOk) ==
              if Waiting(Log(run), now) then TemporarilyLocked else if passwordOk then LoggedIn else WrongPassword
  {
    RunKeepsInv(run);
    AttemptsAreTrailing(Log(run));
    AttemptsBounded(Log(run));
  }

  lemma {:induction false} StoredByCount(run: seq<Request>)
    requires InOrder(run)
    ensures var u, count := UserAfter(run), Attempts(Log(run));
            u.loginAttempts == count && (u.isLocked <==> count == 5)
            && (u.isLocked ==> Log(run) != [] && u.lockUntil == Some(Log(run)[|Log(run)| - 1].at + 3600000))
  {
    if run != [] { RunKeepsInv(run); }
  }

  /** And the stored fields are those of the failures in a row. */
  lemma {:induction false} StoredByLog(run: seq<Request>)
    requires InOrder(run)
    ensures var u, failures := UserAfter(run), TrailingFailures(Log(run));
            && u.loginAttempts == (if failures == 0 then 0 else (failures - 1) % 5 + 1)
            && (u.isLocked <==> failures > 0 && failures % 5 == 0)
            && (u.isLocked ==> u.lockUntil == Some(Log(run)[|Log(run)| - 1].at + 3600000))
  {
    AttemptsAreTrailing(Log(run));
    StoredByCount(run);
  }
}
