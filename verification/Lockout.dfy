/** Lockout of a local account: every fifth wrong password in a row locks it, for longer each
    time. Logins are taken one at a time. */
module Lockout {
  import opened Domain

  const LOCKOUT_THRESHOLD := 5
  const LOCKOUT_SECONDS := 900
  const LOCKOUT_MAX_SECONDS := 3600

  datatype Account = Account(failed: nat, lockedUntil: Option<int>)

  datatype Outcome = Turned | Wrong | Welcome

  function Pow2(n: nat): (p: nat)
    ensures p >= 1
  {
    if n == 0 then 1 else 2 * Pow2(n - 1)
  }

  /** How long the `step`-th lock lasts. */
  function LockFor(step: nat): (secs: nat)
    requires step > 0
  {
    var secs := LOCKOUT_SECONDS * Pow2(step - 1);
    if secs < LOCKOUT_MAX_SECONDS then secs else LOCKOUT_MAX_SECONDS
  }

  predicate Locked(a: Account, now: int) {
    a.lockedUntil.Some? && a.lockedUntil.value > now
  }

  /** One login to an active local account. */
  function Login(a: Account, now: int, right: bool): (Account, Outcome) {
    if Locked(a, now) then (a, Turned)
    else if right then (Account(0, None), Welcome)
    else
      var fails := a.failed + 1;
      (Account(fails, if fails % LOCKOUT_THRESHOLD == 0 then Some(now + LockFor(fails / LOCKOUT_THRESHOLD)) else a.lockedUntil), Wrong)
  }

  /** Attempts with wrong passwords, at the given times, last one last. */
  function Attack(a: Account, times: seq<int>): Account {
    if times == [] then a else Login(Attack(a, times[..|times| - 1]), times[|times| - 1], false).0
  }

  /** The times at which a password was really checked. */
  function Checks(a: Account, times: seq<int>): seq<int> {
    if times == [] then []
    else
      var init, now := times[..|times| - 1], times[|times| - 1];
      Checks(a, init) + if Locked(Attack(a, init), now) then [] else [now]
  }

  predicate InOrder(times: seq<int>) {
    forall i, j :: 0 <= i < j < |times| ==> times[i] <= times[j]
  }

  /** The locks that the first `5 * k` wrong passwords bring, added up. */
  function Waited(k: nat): nat {
    if k == 0 then 0 else Waited(k - 1) + LockFor(k)
  }

  // ------------------------------------------------------------------- the bound

  /** The account has seen `|checks|` wrong passwords, and the next check is no sooner than the
      locks so far allow. */
  ghost predicate Paced(a: Account, start: Account, checks: seq<int>, now: int) {
    && a.failed == start.failed + |checks|
    && (forall i :: 0 <= i < |checks| ==> checks[i] <= now)
    && (checks != [] ==>
          checks[0] + Waited(a.failed / 5) - Waited(start.failed / 5) <= Later(a.lockedUntil, now))
    && (forall i :: 0 <= i < |checks| ==> InTime(start, checks, i))
  }

  predicate InTime(start: Account, checks: seq<int>, i: nat)
    requires i < |checks|
  {
    i > 0 ==> checks[0] + Waited((start.failed + i) / 5) - Waited(start.failed / 5) <= checks[i]
  }

  function Later(until: Option<int>, now: int): int {
    if until.Some? && until.value > now then until.value else now
  }

  lemma AllInTime(a: Account, start: Account, checks: seq<int>, then_: int, now: int)
    requires Paced(a, start, checks, then_) && then_ <= now && !Locked(a, now)
    ensures forall i :: 0 <= i < |checks + [now]| ==> InTime(start, checks + [now], i)
  {
    var checks' := checks + [now];
    forall i | 0 <= i < |checks'| ensures InTime(start, checks', i) {
      if i < |checks| { assert InTime(start, checks, i); }
    }
  }

  lemma OneMorePaced(a: Account, start: Account, checks: seq<int>, then_: int, now: int)
    requires Paced(a, start, checks, then_) && then_ <= now
    ensures var checks' := checks + if Locked(a, now) then [] else [now];
            Paced(Login(a, now, false).0, start, checks', now)
  {
    if Locked(a, now) {
      assert checks + [] == checks;
    } else {
      FifthStep(a.failed);
      AllInTime(a, start, checks, then_, now);
    }
  }

  lemma FifthStep(f: nat)
    ensures (f + 1) / 5 == f / 5 + if (f + 1) % 5 == 0 then 1 else 0
    ensures Waited((f + 1) / 5) == Waited(f / 5) + if (f + 1) % 5 == 0 then LockFor((f + 1) / 5) else 0
  {
  }

  lemma {:induction false} AlwaysPaced(start: Account, times: seq<int>)
    requires InOrder(times) && times != []
    ensures Paced(Attack(start, times), start, Checks(start, times), times[|times| - 1])
  {
    var init, now := times[..|times| - 1], times[|times| - 1];
    if init == [] {
      assert Attack(start, init) == start && Checks(start, init) == [];
      assert Paced(start, start, [], now);
      OneMorePaced(start, start, [], now, now);
    } else {
      AlwaysPaced(start, init);
      OneMorePaced(Attack(start, init), start, Checks(start, init), init[|init| - 1], now);
    }
  }

  /** The (5k+1)-th real check of a fresh account comes no sooner than the first k locks last:
      900 + 1800 + 3600 + 3600 + ... seconds after the first, whenever the attempts are made. */
  lemma ChecksTakeTime(times: seq<int>, k: nat)
    requires InOrder(times) && 5 * k < |Checks(Account(0, None), times)|
    ensures var checks := Checks(Account(0, None), times);
            checks[0] + Waited(k) <= checks[5 * k]
  {
    AlwaysPaced(Account(0, None), times);
    FromPaced(Attack(Account(0, None), times), Checks(Account(0, None), times), times[|times| - 1], k);
  }

  lemma FromPaced(a: Account, checks: seq<int>, now: int, k: nat)
    requires Paced(a, Account(0, None), checks, now) && 5 * k < |checks|
    ensures checks[0] + Waited(k) <= checks[5 * k]
  {
    assert InTime(Account(0, None), checks, 5 * k);
    assert (0 + 5 * k) / 5 == k;
  }

  /** From the third lock on, an hour each. */
  lemma {:induction false} WaitedClosed(k: nat)
    requires k >= 2
    ensures Waited(k) == 2700 + 3600 * (k - 2)
  {
    if k == 2 {
      assert Pow2(1) == 2 && Waited(2) == LockFor(1) + LockFor(2);
    } else {
      WaitedClosed(k - 1);
      PowGrows(k - 1);
    }
  }

  lemma {:induction false} PowGrows(n: nat)
    requires n >= 2
    ensures Pow2(n) >= 4
  {
    if n > 2 { PowGrows(n - 1); } else { assert Pow2(2) == 2 * Pow2(1) && Pow2(1) == 2 * Pow2(0); }
  }

  lemma FiveAnHour(n: nat, k: nat, span: nat)
    requires n <= 5 * k + 5 && 3600 * k <= span + 4500
    ensures n <= 5 * ((span + 4500) / 3600) + 5
  {
  }

  /** In any `span` seconds from the first wrong password, at most 5 * (span + 4500) / 3600 + 5
      passwords are really checked: five at once, then five an hour. */
  lemma ChecksBounded(times: seq<int>, span: nat)
    requires InOrder(times)
    requires var checks := Checks(Account(0, None), times);
             checks != [] && checks[|checks| - 1] <= checks[0] + span
    ensures |Checks(Account(0, None), times)| <= 5 * ((span + 4500) / 3600) + 5
  {
    var checks := Checks(Account(0, None), times);
    var k := (|checks| - 1) / 5;
    ChecksTakeTime(times, k);
    ChecksInOrder(Account(0, None), times);
    assert checks[5 * k] <= checks[|checks| - 1];
    if k >= 2 { WaitedClosed(k); }
    FiveAnHour(|checks|, k, span);
  }

  lemma {:induction false} ChecksInOrder(a: Account, times: seq<int>)
    requires InOrder(times)
    ensures InOrder(Checks(a, times))
    ensures forall i :: 0 <= i < |Checks(a, times)| ==> times != [] && Checks(a, times)[i] <= times[|times| - 1]
  {
    if times != [] { ChecksInOrder(a, times[..|times| - 1]); }
  }

  /** Someone who tries as soon as each lock is over. */
  function Eager(n: nat): (times: seq<int>)
    ensures |times| == n
  {
    seq(n, i requires 0 <= i => Waited(i / 5))
  }

  /** The account after `n` of them. */
  function Worn(n: nat): Account {
    Account(n, if n < 5 then None else Some(Waited(n / 5)))
  }

  lemma EagerStep(n: nat)
    ensures Login(Worn(n), Waited(n / 5), false) == (Worn(n + 1), Wrong)
  {
    FifthStep(n);
  }

  lemma Extend(a: Account, times: seq<int>, now: int)
    ensures Attack(a, times + [now]) == Login(Attack(a, times), now, false).0
    ensures Checks(a, times + [now]) == Checks(a, times) + if Locked(Attack(a, times), now) then [] else [now]
  {
    assert (times + [now])[..|times|] == times;
  }

  lemma EagerGrows(n: nat)
    ensures Eager(n + 1) == Eager(n) + [Waited(n / 5)]
  {
  }

  /** The bound is met: an eager attacker has every attempt checked, the (i+1)-th of them
      exactly `Waited(i / 5)` seconds after the first. */
  lemma {:induction false} BoundIsMet(n: nat)
    ensures Checks(Account(0, None), Eager(n)) == Eager(n)
    ensures Attack(Account(0, None), Eager(n)) == Worn(n)
  {
    if n > 0 {
      BoundIsMet(n - 1);
      EagerGrows(n - 1);
      Extend(Account(0, None), Eager(n - 1), Waited((n - 1) / 5));
      EagerStep(n - 1);
    }
  }

  lemma LongLock(step: nat)
    requires step >= 3
    ensures LockFor(step) == 3600
  {
    assert Pow2(step - 1) == 2 * (2 * Pow2(step - 3));
  }

  /** The first lock lasts a quarter of an hour, the second half an hour, every later one an hour. */
  lemma LocksSpelled(fails: nat)
    ensures fails > 0 && fails % 5 == 0 ==> LockFor(fails / 5) == if fails == 5 then 900 else if fails == 10 then 1800 else 3600
  {
    if fails > 10 && fails % 5 == 0 { LongLock(fails / 5); }
  }

  // -------------------------------------------------------------------- in place

  /** The user's row, as login reads and writes it. */
  class Row {
    var failedLogins: nat
    var lockedUntil: Option<int>
    var active: bool

    function Value(): Account
      reads this
    {
      Account(failedLogins, lockedUntil)
    }

    constructor ()
      ensures Value() == Account(0, None) && active
    {
      failedLogins, lockedUntil, active := 0, None, true;
    }

    /** `right` is what verify_password says; it is not asked of a locked or inactive account. */
    method SignIn(now: int, right: bool) returns (outcome: Outcome)
      modifies this`failedLogins, this`lockedUntil
      ensures (Value(), outcome) == if active then Login(old(Value()), now, right) else (old(Value()), Turned)
      ensures outcome == Turned <==> !active || (old(lockedUntil).Some? && now < old(lockedUntil).value)
      ensures outcome == Turned ==> Value() == old(Value())
      ensures outcome == Welcome ==> right && failedLogins == 0 && lockedUntil == None
      ensures outcome == Wrong ==> !right && failedLogins == old(failedLogins) + 1
      ensures outcome == Wrong && failedLogins % 5 != 0 ==> lockedUntil == old(lockedUntil)
      ensures outcome == Wrong && failedLogins % 5 == 0 ==>
                lockedUntil == Some(now + if failedLogins == 5 then 900 else if failedLogins == 10 then 1800 else 3600)
    {
      LocksSpelled(failedLogins + 1);
      var locked := lockedUntil.Some? && lockedUntil.value > now;
      if !active || locked {
        return Turned;
      }
      if !right {
        var fails := failedLogins + 1;
        var lockFor := None;
        if fails % LOCKOUT_THRESHOLD == 0 {
          lockFor := Some(now + LockFor(fails / LOCKOUT_THRESHOLD));
        }
        failedLogins := fails;
        lockedUntil := if lockFor.Some? then lockFor else lockedUntil;
        return Wrong;
      }
      failedLogins, lockedUntil := 0, None;
      outcome := Welcome;
    }
  }
}
