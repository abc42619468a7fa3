/** The health gate after a restart: four components, each probed over TCP and then HTTPS, retried a
    bounded number of times. */
module HealthCheck {

  /** What the two probes of one component answer, and how long they take. */
  datatype Answer = Answer(tcpOk: bool, tcpTime: nat, httpOk: bool, httpTime: nat) {
    predicate Healthy() { tcpOk && httpOk }
    function Time(): nat { if tcpOk then tcpTime + httpTime else tcpTime }
  }

  const COMPONENTS: nat := 4

  /** The answers of the cluster: by attempt, counted from one, and component. */
  type Cluster = (nat, nat) -> Answer

  /** Both probes of every component are answered well. */
  predicate BothAnswer(cluster: Cluster, attempt: nat) {
    forall c: nat :: c < COMPONENTS ==> cluster(attempt, c).tcpOk && cluster(attempt, c).httpOk
  }

  /** Every probe gives up after the timeout. */
  ghost predicate Punctual(cluster: Cluster, timeout: nat) {
    forall a: nat, c: nat :: cluster(a, c).tcpTime <= timeout && cluster(a, c).httpTime <= timeout
  }

  /** Time of one attempt that looks at components c and later, stopping at the first that fails. */
  function AttemptTime(cluster: Cluster, attempt: nat, c: nat): nat
    requires c <= COMPONENTS
    decreases COMPONENTS - c
  {
    if c == COMPONENTS then 0
    else
      cluster(attempt, c).Time() + if cluster(attempt, c).Healthy() then AttemptTime(cluster, attempt, c + 1) else 0
  }

  /** The time of both probes of the components from c up to the n-th. */
  function BothTimes(cluster: Cluster, attempt: nat, c: nat, n: nat): nat
    requires c <= n
    decreases n - c
  {
    if c == n then 0 else cluster(attempt, c).tcpTime + cluster(attempt, c).httpTime + BothTimes(cluster, attempt, c + 1, n)
  }

  /** The n-th component is the first that fails; its HTTPS probe is tried only if TCP is answered. */
  predicate FailsFirst(cluster: Cluster, attempt: nat, n: nat) {
    && (forall c: nat :: c < n ==> cluster(attempt, c).tcpOk && cluster(attempt, c).httpOk)
    && !(cluster(attempt, n).tcpOk && cluster(attempt, n).httpOk)
  }

  function TimeToFailure(cluster: Cluster, attempt: nat, n: nat): nat {
    BothTimes(cluster, attempt, 0, n) + cluster(attempt, n).tcpTime + if cluster(attempt, n).tcpOk then cluster(attempt, n).httpTime else 0
  }

  lemma {:induction false} AttemptTimeIs(cluster: Cluster, attempt: nat, c: nat, n: nat)
    requires c <= n <= COMPONENTS && forall k: nat :: c <= k < n ==> cluster(attempt, k).tcpOk && cluster(attempt, k).httpOk
    ensures AttemptTime(cluster, attempt, c) == BothTimes(cluster, attempt, c, n) + AttemptTime(cluster, attempt, n)
    decreases n - c
  {
    if c < n {
      AttemptTimeIs(cluster, attempt, c + 1, n);
    }
  }

  lemma {:induction false} AttemptBound(cluster: Cluster, timeout: nat, attempt: nat, c: nat)
    requires c <= COMPONENTS && Punctual(cluster, timeout)
    ensures AttemptTime(cluster, attempt, c) <= 2 * (COMPONENTS - c) * timeout
    decreases COMPONENTS - c
  {
    if c < COMPONENTS {
      AttemptBound(cluster, timeout, attempt, c + 1);
      assert cluster(attempt, c).Time() <= 2 * timeout;
      assert 2 * (COMPONENTS - c) * timeout == 2 * timeout + 2 * (COMPONENTS - (c + 1)) * timeout;
    }
  }

  /** One attempt passes exactly when all four components answer both probes. It takes the time of all
      eight probes, or of those up to the first that fails. */
  method CheckAll(cluster: Cluster, attempt: nat) returns (healthy: bool, time: nat)
    ensures healthy <==> forall c: nat :: c < 4 ==> cluster(attempt, c).tcpOk && cluster(attempt, c).httpOk
    ensures healthy ==> time == BothTimes(cluster, attempt, 0, 4)
    ensures !healthy ==> exists n: nat :: n < 4 && FailsFirst(cluster, attempt, n) && time == TimeToFailure(cluster, attempt, n)
    ensures time == AttemptTime(cluster, attempt, 0)
  {
    time := 0;
    for c := 0 to COMPONENTS
      invariant forall k: nat :: k < c ==> cluster(attempt, k).tcpOk && cluster(attempt, k).httpOk
      invariant time + AttemptTime(cluster, attempt, c) == AttemptTime(cluster, attempt, 0)
    {
      time := time + cluster(attempt, c).Time();
      if !cluster(attempt, c).Healthy() {
        AttemptTimeIs(cluster, attempt, 0, c);
        assert FailsFirst(cluster, attempt, c) && time == TimeToFailure(cluster, attempt, c);
        return false, time;
      }
    }
    AttemptTimeIs(cluster, attempt, 0, COMPONENTS);
    healthy := true;
  }

  /** The time of the first n attempts, with a wait of `interval` before each but the first. */
  function RetryTime(cluster: Cluster, n: nat, interval: nat): nat {
    if n == 0 then 0
    else RetryTime(cluster, n - 1, interval) + (if n == 1 then 0 else interval) + AttemptTime(cluster, n, 0)
  }

  lemma {:induction false} RetryBound(cluster: Cluster, timeout: nat, n: nat, interval: nat)
    requires Punctual(cluster, timeout) && n >= 1
    ensures RetryTime(cluster, n, interval) <= n * (8 * timeout) + (n - 1) * interval
    decreases n
  {
    AttemptBound(cluster, timeout, n, 0);
    if n > 1 {
      RetryBound(cluster, timeout, n - 1, interval);
      assert n * (8 * timeout) == (n - 1) * (8 * timeout) + 8 * timeout;
      assert (n - 1) * interval == (n - 2) * interval + interval;
    } else {
      assert RetryTime(cluster, 0, interval) == 0;
    }
  }

  lemma TimesMore(n: nat, m: nat, x: nat)
    requires n <= m
    ensures n * x <= m * x
  {
  }

  lemma RetryWithin(cluster: Cluster, timeout: nat, n: nat, max: nat, interval: nat)
    requires Punctual(cluster, timeout) && 1 <= n <= max
    ensures RetryTime(cluster, n, interval) <= max * (8 * timeout) + (max - 1) * interval
  {
    RetryBound(cluster, timeout, n, interval);
    TimesMore(n, max, 8 * timeout);
    TimesMore(n - 1, max - 1, interval);
  }

  /** Success means that one single attempt found all four components answering both probes, unless
      nothing was probed at all; attempts stop at the first that passes and wait the interval in
      between; and the total time is bounded. */
  method CheckAllWithRetry(cluster: Cluster, timeout: nat, interval: nat, maxAttempts: int, dryRun: bool)
    returns (passed: bool, attempts: nat, time: nat)
    ensures passed <==> dryRun || maxAttempts <= 0 || exists a: nat :: 1 <= a <= maxAttempts && BothAnswer(cluster, a)
    ensures dryRun || maxAttempts <= 0 ==> attempts == 0
    ensures !dryRun && 1 <= maxAttempts ==>
      && 1 <= attempts <= maxAttempts
      && (forall a: nat :: 1 <= a < attempts ==> !BothAnswer(cluster, a))
      && (if passed then BothAnswer(cluster, attempts) else attempts == maxAttempts)
      && (Punctual(cluster, timeout) ==> time <= maxAttempts * (8 * timeout) + (maxAttempts - 1) * interval)
    ensures time == RetryTime(cluster, attempts, interval)
  {
    attempts, time := 0, 0;
    if dryRun {
      return true, 0, 0;
    }
    while attempts < maxAttempts
      invariant maxAttempts >= 0 ==> attempts <= maxAttempts
      invariant attempts > 0 ==> attempts < maxAttempts
      invariant forall a: nat :: 1 <= a <= attempts ==> !BothAnswer(cluster, a)
      invariant time == RetryTime(cluster, attempts, interval) + if attempts == 0 then 0 else interval
    {
      attempts := attempts + 1;
      var healthy, t := CheckAll(cluster, attempts);
      time := time + t;
      if Punctual(cluster, timeout) {
        RetryWithin(cluster, timeout, attempts, maxAttempts, interval);
      }
      if healthy {
        assert BothAnswer(cluster, attempts);
        return true, attempts, time;
      }
      if attempts == maxAttempts {
        return false, attempts, time;
      }
      time := time + interval;
    }
    passed := true;
  }
}
