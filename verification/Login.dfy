/** Password login with account lockout.  Times are seconds. */
module Login {
  import opened Options

  const LOCK_THRESHOLD: nat := 5
  const LOCK_SECONDS: int := 15 * 60

  datatype Account = Account(
    failedLoginCount: nat, lockedUntil: Option<int>, status: string, isDeleted: bool, lastLogin: Option<int>)

  datatype LoginResult =
    | AccountLocked(retryAfter: int)     // 423
    | Rejected                           // 401
    | Barred(reason: string)             // 403
    | LoggedIn

  function InactiveReason(status: string): string {
    match status
    case "pending" => "ACCOUNT_PENDING_APPROVAL"
    case "suspended" => "ACCOUNT_SUSPENDED"
    case "rejected" => "ACCOUNT_REJECTED"
    case _ => "ACCOUNT_NOT_ACTIVE"
  }

  predicate IsLocked(a: Account, now: int) {
    a.lockedUntil.Some? && a.lockedUntil.value > now
  }

  /** The failed-login count that the attempt starts from: an expired lock clears it. */
  function CountBefore(a: Account): nat {
    if a.lockedUntil.Some? then 0 else a.failedLoginCount
  }

  function Attempt(a: Account, passwordValid: bool, now: int): LoginResult {
    if IsLocked(a, now) then
      AccountLocked(if a.lockedUntil.value - now >= 1 then a.lockedUntil.value - now else 1)
    else if !passwordValid then Rejected
    else if a.isDeleted then Barred("ACCOUNT_SOFT_DELETED")
    else if a.status != "active" then Barred(InactiveReason(a.status))
    else LoggedIn
  }

  /** The committed row after the attempt; a locked or barred attempt commits nothing. */
  function Committed(a: Account, passwordValid: bool, now: int): Account {
    match Attempt(a, passwordValid, now)
    case AccountLocked(_) => a
    case Barred(_) => a
    case Rejected =>
      var count := CountBefore(a) + 1;
      a.(failedLoginCount := count,
         lockedUntil := if count >= LOCK_THRESHOLD then Some(now + LOCK_SECONDS) else None)
    case LoggedIn => a.(failedLoginCount := 0, lockedUntil := None, lastLogin := Some(now))
  }

  class LoginService {
    var users: map<string, Account>      // the committed table, by normalised email

    /** `passwordValid` is the verdict of the password hash; it is false for an unknown email. */
    method LoginUser(email: string, passwordValid: bool, now: int) returns (result: LoginResult)
      modifies this
      ensures email !in old(users) ==> result == Rejected && users == old(users)
      ensures email in old(users) ==>
        && result == Attempt(old(users)[email], passwordValid, now)
        && users == old(users)[email := Committed(old(users)[email], passwordValid, now)]
    {
      if email !in users { return Rejected; }
      var user := users[email];
      assert users == users[email := users[email]];
      if user.lockedUntil.Some? {
        if user.lockedUntil.value > now {
          var left := user.lockedUntil.value - now;
          return AccountLocked(if left >= 1 then left else 1);
        } else {
          user := user.(lockedUntil := None, failedLoginCount := 0);
        }
      }
      if !passwordValid {
        user := user.(failedLoginCount := user.failedLoginCount + 1);
        if user.failedLoginCount >= LOCK_THRESHOLD {
          user := user.(lockedUntil := Some(now + LOCK_SECONDS));
        }
        users := users[email := user];
        return Rejected;
      }
      if user.isDeleted { return Barred("ACCOUNT_SOFT_DELETED"); }
      if user.status != "active" { return Barred(InactiveReason(user.status)); }
      user := user.(failedLoginCount := 0, lockedUntil := None, lastLogin := Some(now));
      users := users[email := user];
      return LoggedIn;
    }
  }

  // --------------------------------------------------- one account over time

  /** Login attempts, and administrators changing what login does not own. */
  datatype Event =
    | Try(passwordValid: bool, now: int)
    | Administered(status: string, isDeleted: bool)

  function Step(a: Account, e: Event): Account {
    match e
    case Try(valid, now) => Committed(a, valid, now)
    case Administered(status, deleted) => a.(status := status, isDeleted := deleted)
  }

  /** The lock is set exactly when the count has reached five. */
  predicate Consistent(a: Account) {
    (a.lockedUntil.Some? <==> a.failedLoginCount >= LOCK_THRESHOLD) && a.failedLoginCount <= LOCK_THRESHOLD
  }

  function After(a: Account, es: seq<Event>): Account
    decreases |es|
  {
    if es == [] then a else After(Step(a, es[0]), es[1..])
  }

  lemma {:induction false} LockedIffFiveFailures(a: Account, es: seq<Event>)
    requires Consistent(a)
    ensures Consistent(After(a, es))
    decreases |es|
  {
    if es != [] { LockedIffFiveFailures(Step(a, es[0]), es[1..]); }
  }

  /** Who gets in, and what the others are told.  An attempt is answered 423 exactly while a lock lies
      ahead, by the time left; otherwise a wrong password is always answered 401, and with the right
      one an account that is deleted or not active 403. */
  lemma AnswerIff(a: Account, passwordValid: bool, now: int)
    ensures var r, locked := Attempt(a, passwordValid, now), a.lockedUntil.Some? && now < a.lockedUntil.value;
      && (r.AccountLocked? <==> locked) && (r.AccountLocked? ==> now + r.retryAfter == a.lockedUntil.value)
      && (r.LoggedIn? <==> !locked && passwordValid && !a.isDeleted && a.status == "active")
      && (r.Rejected? <==> !locked && !passwordValid)
      && (r.Barred? <==> !locked && passwordValid && (a.isDeleted || a.status != "active"))
      && (r.Barred? ==> (r.reason == "ACCOUNT_SOFT_DELETED" <==> a.isDeleted))
      && (r.Barred? && !a.isDeleted ==>
            && (r.reason == "ACCOUNT_PENDING_APPROVAL" <==> a.status == "pending")
            && (r.reason == "ACCOUNT_SUSPENDED" <==> a.status == "suspended")
            && (r.reason == "ACCOUNT_REJECTED" <==> a.status == "rejected")
            && (r.reason == "ACCOUNT_NOT_ACTIVE" <==> a.status !in {"pending", "suspended", "rejected"}))
  {
  }

  // ------------------------------------------------------- what a history does

  function WrongPasswords(es: seq<Event>): nat
    decreases |es|
  {
    if es == [] then 0 else (if es[0].Try? && !es[0].passwordValid then 1 else 0) + WrongPasswords(es[1..])
  }

  predicate NeverIn(a: Account, es: seq<Event>)
    decreases |es|
  {
    es == [] ||
    ((es[0].Try? ==> !Attempt(a, es[0].passwordValid, es[0].now).LoggedIn?) && NeverIn(Step(a, es[0]), es[1..]))
  }

  predicate NeverLocked(a: Account, es: seq<Event>)
    decreases |es|
  {
    es == [] ||
    (&& (es[0].Try? ==> !Attempt(a, es[0].passwordValid, es[0].now).AccountLocked?)
     && NeverLocked(Step(a, es[0]), es[1..]))
  }

  lemma {:induction false} FewFailures(a: Account, es: seq<Event>)
    requires a.lockedUntil.None? && a.failedLoginCount + WrongPasswords(es) <= 4
    ensures After(a, es).lockedUntil.None? && NeverLocked(a, es)
    decreases |es|
  {
    if es != [] { FewFailures(Step(a, es[0]), es[1..]); }
  }

  /** After a login the next four wrong passwords set no lock, whatever comes between. */
  lemma LoginClearsFailures(a: Account, passwordValid: bool, now: int, es: seq<Event>)
    requires Attempt(a, passwordValid, now).LoggedIn? && WrongPasswords(es) <= 4
    ensures var v := Committed(a, passwordValid, now);
      && passwordValid && v.lastLogin == Some(now) && v.status == a.status == "active" && !v.isDeleted
      && After(v, es).lockedUntil.None? && NeverLocked(v, es)
  {
    FewFailures(Committed(a, passwordValid, now), es);
  }

  /** No run of wrong passwords logs in, however long, and whatever administrators do meanwhile. */
  lemma {:induction false} WrongPasswordsNeverIn(a: Account, es: seq<Event>)
    requires forall i :: 0 <= i < |es| && es[i].Try? ==> !es[i].passwordValid
    ensures NeverIn(a, es) && After(a, es).lastLogin == a.lastLogin
    decreases |es|
  {
    if es != [] { WrongPasswordsNeverIn(Step(a, es[0]), es[1..]); }
  }

  /** The times of the rejections since the last login, or since the five that last set a lock,
      `soFar` those before. */
  function Streak(a: Account, es: seq<Event>, soFar: seq<int>): seq<int>
    decreases |es|
  {
    if es == [] then soFar
    else
      var next := Step(a, es[0]);
      if !es[0].Try? then Streak(next, es[1..], soFar)
      else match Attempt(a, es[0].passwordValid, es[0].now)
        case LoggedIn => Streak(next, es[1..], [])
        case Rejected => Streak(next, es[1..], (if |soFar| >= 5 then [] else soFar) + [es[0].now])
        case _ => Streak(next, es[1..], soFar)
  }

  /** The row tells the streak: its length, and a lock until 15 minutes after the fifth. */
  predicate Records(a: Account, streak: seq<int>) {
    && a.failedLoginCount == |streak| <= 5
    && a.lockedUntil == if |streak| == 5 then Some(streak[4] + 15 * 60) else None
  }

  /** Over every history of an account: the row records the streak. */
  lemma {:induction false} RowRecordsStreak(a: Account, es: seq<Event>, soFar: seq<int>)
    requires Records(a, soFar)
    ensures Records(After(a, es), Streak(a, es, soFar))
    decreases |es|
  {
    if es != [] {
      var e := es[0];
      var streak :=
        if !e.Try? then soFar
        else match Attempt(a, e.passwordValid, e.now)
          case LoggedIn => []
          case Rejected => (if |soFar| >= 5 then [] else soFar) + [e.now]
          case _ => soFar;
      assert Records(Step(a, e), streak);
      RowRecordsStreak(Step(a, e), es[1..], streak);
    }
  }

  /** Clock readings do not go back. */
  predicate Timed(es: seq<Event>, from: int) {
    es == [] ||
    (if es[0].Try? then from <= es[0].now && Timed(es[1..], es[0].now) else Timed(es[1..], from))
  }

  /** When the attempts answered 401 were made. */
  function Rejections(a: Account, es: seq<Event>): seq<int>
    decreases |es|
  {
    if es == [] then []
    else
      (if es[0].Try? && Attempt(a, es[0].passwordValid, es[0].now).Rejected? then [es[0].now] else [])
      + Rejections(Step(a, es[0]), es[1..])
  }

  lemma FiveMore(n: nat)
    ensures (n + LOCK_THRESHOLD) / LOCK_THRESHOLD == n / LOCK_THRESHOLD + 1
  {
  }

  /** What a rejection does to the count and the lock. */
  lemma RejectedRow(a: Account, e: Event)
    requires Consistent(a) && e.Try? && Attempt(a, e.passwordValid, e.now).Rejected?
    ensures var next := Step(a, e);
      && Consistent(next) && (a.lockedUntil.Some? ==> a.lockedUntil.value <= e.now)
      && next.failedLoginCount == CountBefore(a) + 1
      && (next.lockedUntil.Some?
        ==> next.lockedUntil.value == e.now + LOCK_SECONDS && next.failedLoginCount == LOCK_THRESHOLD)
  {
  }

  lemma OtherRow(a: Account, e: Event)
    requires Consistent(a) && !(e.Try? && Attempt(a, e.passwordValid, e.now).Rejected?)
    requires e.Try? ==> !Attempt(a, e.passwordValid, e.now).LoggedIn?
    ensures var next := Step(a, e);
      next.lockedUntil == a.lockedUntil && next.failedLoginCount == a.failedLoginCount
  {
  }

  /** Whatever follows at `from` or later: the j-th rejection from here has to sit out one lock for
      every five failures, those already counted included. */
  lemma {:induction false} RejectionsSitOutLocks(a: Account, es: seq<Event>, from: int, j: nat)
    requires Consistent(a) && Timed(es, from) && NeverIn(a, es)
    requires j < |Rejections(a, es)|
    ensures var base := if a.lockedUntil.Some? then a.lockedUntil.value - LOCK_SECONDS else from;
      Rejections(a, es)[j] >= base + LOCK_SECONDS * ((j + a.failedLoginCount) / LOCK_THRESHOLD)
    decreases |es|
  {
    var e := es[0];
    var next := Step(a, e);
    var rest := Rejections(next, es[1..]);
    if e.Try? && Attempt(a, e.passwordValid, e.now).Rejected? {
      assert Rejections(a, es) == [e.now] + rest;
      RejectedRow(a, e);
      if j > 0 {
        assert Rejections(a, es)[j] == rest[j-1];
        hide Step, Attempt, Rejections;
        RejectionsSitOutLocks(next, es[1..], e.now, j - 1);
        if a.lockedUntil.Some? { FiveMore(j); }
      }
    } else {
      assert Rejections(a, es) == rest;
      OtherRow(a, e);
      hide Step, Attempt, Rejections;
      RejectionsSitOutLocks(next, es[1..], if e.Try? then e.now else from, j);
    }
  }

  /** On one account, without a successful login, n attempts answered 401 span at least
      15 * floor((n - 1) / 5) minutes, wherever in its history the account starts. */
  lemma {:induction false} LockoutBound(a: Account, es: seq<Event>, from: int)
    requires Consistent(a) && Timed(es, from) && NeverIn(a, es)
    ensures var ts := Rejections(a, es);
      ts != [] ==> ts[|ts| - 1] - ts[0] >= 15 * 60 * ((|ts| - 1) / 5)
    decreases |es|
  {
    if es != [] {
      var e := es[0];
      var next := Step(a, e);
      var rest := Rejections(next, es[1..]);
      if e.Try? && Attempt(a, e.passwordValid, e.now).Rejected? {
        assert Rejections(a, es) == [e.now] + rest;
        RejectedRow(a, e);
        hide Step, Attempt, Rejections;
        if rest != [] { RejectionsSitOutLocks(next, es[1..], e.now, |rest| - 1); }
      } else {
        assert Rejections(a, es) == rest;
        OtherRow(a, e);
        hide Step, Attempt, Rejections;
        LockoutBound(next, es[1..], if e.Try? then e.now else from);
      }
    }
  }
}
