/** The shape shared by both bounded retry loops of the pipeline: the station's
    ESP-NOW send loop and the gateway's HTTP retry loop both stop at the first
    attempt that reports success, and give up after a fixed number of attempts. */
module Retry {

  /** Index of the first successful attempt among attempts `from .. limit - 1`,
      or `limit` when none of them succeeds. */
  function FirstTrue(outcomes: seq<bool>, limit: nat, from: nat): (k: nat)
    requires from <= limit <= |outcomes|
    ensures from <= k <= limit
    ensures forall j :: from <= j < k ==> !outcomes[j]
    ensures k < limit ==> outcomes[k]
    decreases limit - from
  {
    if from == limit then limit
    else if outcomes[from] then from
    else FirstTrue(outcomes, limit, from + 1)
  }

  /** Number of attempts a loop makes that stops at the first success and gives up
      after `limit` attempts. */
  function AttemptsMade(outcomes: seq<bool>, limit: nat): (n: nat)
    requires limit <= |outcomes|
    ensures n <= limit
    ensures limit > 0 ==> n >= 1
  {
    var k := FirstTrue(outcomes, limit, 0);
    if k < limit then k + 1 else limit
  }

  /** A loop that stops at the first success makes exactly `k + 1` attempts when
      attempt `k` is the first to succeed, and `limit` attempts when none succeeds. */
  lemma AttemptsExact(outcomes: seq<bool>, limit: nat, k: nat)
    requires limit <= |outcomes| && k < limit
    requires outcomes[k] && forall j :: 0 <= j < k ==> !outcomes[j]
    ensures AttemptsMade(outcomes, limit) == k + 1
  {
    var f := FirstTrue(outcomes, limit, 0);
    assert f == k;
  }

  /** When every attempt fails, all `limit` attempts are made. */
  lemma AllFail(outcomes: seq<bool>, limit: nat)
    requires limit <= |outcomes|
    requires forall j :: 0 <= j < limit ==> !outcomes[j]
    ensures FirstTrue(outcomes, limit, 0) == limit
    ensures AttemptsMade(outcomes, limit) == limit
  {
  }
}
