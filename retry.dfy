/**
 * The bounded retry loop around the workflow engine: the first attempt runs
 * the base command, every later one the resume command, until an attempt
 * exits with 0 or the retries are used up.
 */
module Retry {

  /**
   * Number of attempts made when attempt `k` exits with `exitOf(k)`: up to
   * `maxRetries`, stopping after the first zero exit.
   */
  function Attempts(maxRetries: int, exitOf: nat -> int): (n: nat)
    ensures maxRetries <= 0 ==> n == 0
    ensures maxRetries > 0 ==> 1 <= n <= maxRetries
  {
    if maxRetries <= 0 then 0 else AttemptsFrom(0, maxRetries, exitOf)
  }

  function AttemptsFrom(k: nat, maxRetries: int, exitOf: nat -> int): (n: nat)
    requires k < maxRetries
    ensures k < n <= maxRetries
    decreases maxRetries - k
  {
    if exitOf(k) == 0 || k + 1 == maxRetries then k + 1 else AttemptsFrom(k + 1, maxRetries, exitOf)
  }

  /**
   * The attempts stop at the first zero exit: all attempts but the last
   * failed, and the last is the final allowed one unless it succeeded.
   */
  lemma {:induction false} AttemptsFromSpec(k: nat, maxRetries: int, exitOf: nat -> int)
    requires k < maxRetries
    requires forall j :: 0 <= j < k ==> exitOf(j) != 0
    ensures var n := AttemptsFrom(k, maxRetries, exitOf);
      (forall j :: 0 <= j < n - 1 ==> exitOf(j) != 0) &&
      (exitOf(n - 1) == 0 || n == maxRetries)
    decreases maxRetries - k
  {
    if !(exitOf(k) == 0 || k + 1 == maxRetries) {
      AttemptsFromSpec(k + 1, maxRetries, exitOf);
    }
  }

  /**
   * Some attempt succeeds exactly when one of the first `maxRetries` exits
   * is zero, and then it is the last attempt.
   */
  lemma AttemptsSpec(maxRetries: int, exitOf: nat -> int)
    ensures var n := Attempts(maxRetries, exitOf);
      (forall j :: 0 <= j < n - 1 ==> exitOf(j) != 0) &&
      (n > 0 && exitOf(n - 1) == 0 <==> exists j :: 0 <= j < maxRetries && exitOf(j) == 0)
  {
    if maxRetries > 0 {
      AttemptsFromSpec(0, maxRetries, exitOf);
      var n := Attempts(maxRetries, exitOf);
      if exists j :: 0 <= j < maxRetries && exitOf(j) == 0 {
        var j :| 0 <= j < maxRetries && exitOf(j) == 0;
        assert !(j < n - 1);
      }
    }
  }

  /**
   * The retry loop. `calls` lists the command of each attempt. It returns
   * the exit of the last attempt, or -1 when no attempt was made.
   */
  method RunWithRetries(maxRetries: int, exitOf: nat -> int, base: seq<string>, resume: seq<string>)
    returns (retval: int, calls: seq<seq<string>>)
    ensures |calls| == Attempts(maxRetries, exitOf)
    ensures |calls| <= if maxRetries > 0 then maxRetries else 0
    ensures forall k :: 0 <= k < |calls| ==> calls[k] == if k == 0 then base else resume
    ensures retval == if |calls| == 0 then -1 else exitOf(|calls| - 1)
    ensures forall k :: 0 <= k < |calls| - 1 ==> exitOf(k) != 0
    ensures retval == 0 <==> exists k :: 0 <= k < maxRetries && exitOf(k) == 0
  {
    var retries := maxRetries;
    retval := -1;
    var cmd := base;
    calls := [];
    while retries > 0 && retval != 0
      invariant retries == maxRetries - |calls| + (if retval == 0 then 1 else 0)
      invariant |calls| == 0 ==> retval == -1 && cmd == base
      invariant |calls| > 0 ==> retval == exitOf(|calls| - 1) && (retval != 0 ==> cmd == resume)
      invariant forall k :: 0 <= k < |calls| ==> calls[k] == if k == 0 then base else resume
      invariant forall k :: 0 <= k < |calls| - 1 ==> exitOf(k) != 0
      invariant |calls| > 0 ==> maxRetries > 0 && |calls| <= AttemptsFrom(0, maxRetries, exitOf)
      invariant |calls| > 0 && (retval == 0 || retries == 0) ==> |calls| == AttemptsFrom(0, maxRetries, exitOf)
      decreases retries, if retval == 0 then 0 else 1
    {
      AttemptsPrefix(|calls|, maxRetries, exitOf);
      retval := exitOf(|calls|);
      calls := calls + [cmd];
      if retval != 0 {
        retries := retries - 1;
        cmd := resume;
      }
    }
    AttemptsSpec(maxRetries, exitOf);
  }

  /** While no attempt has succeeded, more attempts are made until the retries run out. */
  lemma {:induction false} AttemptsPrefix(m: nat, maxRetries: int, exitOf: nat -> int)
    requires m < maxRetries
    requires forall j :: 0 <= j < m ==> exitOf(j) != 0
    ensures m < AttemptsFrom(0, maxRetries, exitOf)
    ensures exitOf(m) == 0 || m + 1 == maxRetries ==> AttemptsFrom(0, maxRetries, exitOf) == m + 1
  {
    AttemptsFromPrefix(0, m, maxRetries, exitOf);
  }

  lemma {:induction false} AttemptsFromPrefix(k: nat, m: nat, maxRetries: int, exitOf: nat -> int)
    requires k <= m < maxRetries
    requires forall j :: k <= j < m ==> exitOf(j) != 0
    ensures AttemptsFrom(k, maxRetries, exitOf) == AttemptsFrom(m, maxRetries, exitOf)
    decreases m - k
  {
    if k < m {
      AttemptsFromPrefix(k + 1, m, maxRetries, exitOf);
    }
  }

  /** Three retries, the first two failing: three attempts, and the run succeeds. */
  lemma ThreeRetriesTwoFailures()
    ensures var exits := (k: nat) => if k < 2 then 1 else 0;
      Attempts(3, exits) == 3 && exits(2) == 0
  {
    var exits := (k: nat) => if k < 2 then 1 else 0;
    assert AttemptsFrom(2, 3, exits) == 3;
    assert AttemptsFrom(1, 3, exits) == 3;
  }

  /** Two retries, every attempt failing: two attempts, and the run fails. */
  lemma TwoRetriesAllFailing()
    ensures var exits := (k: nat) => 1;
      Attempts(2, exits) == 2 && !(exists j :: 0 <= j < 2 && exits(j) == 0)
  {
    var exits := (k: nat) => 1;
    assert AttemptsFrom(1, 2, exits) == 2;
  }

  /**
   * The status after cleaning up: a successful run whose clean-up (removing
   * state, packing the work directory) raised is reported with 127.
   */
  function FinalStatus(retval: int, cleanupFailed: bool): (status: int)
    ensures status == 0 <==> retval == 0 && !cleanupFailed
    ensures retval != 0 ==> status == retval
  {
    if cleanupFailed && retval == 0 then 127 else retval
  }
}
