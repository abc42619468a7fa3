/** When certificates are renewed, and whether one can ever be found expired. Times are integer
    nanoseconds. */
module Expiry {
  import opened Generator
  import opened Detector

  function HealthAt(thresholdDays: int, expiry: int, now: int): Health {
    Classify(thresholdDays, ResidualDays(expiry, now))
  }

  function Min(a: int, b: int): int {
    if a < b then a else b
  }

  /** The exact windows of the three classes. */
  lemma Windows(thresholdDays: int, expiry: int, now: int)
    ensures HealthAt(thresholdDays, expiry, now) == Expired <==> expiry - now < DAY
    ensures HealthAt(thresholdDays, expiry, now) == OK <==> expiry - now >= DAY && expiry - now >= (thresholdDays + 1) * DAY
  {
    var x := expiry - now;
    if x >= 0 {
      assert x / DAY >= thresholdDays + 1 <==> x >= (thresholdDays + 1) * DAY;
    }
  }

  function Rank(h: Health): nat {
    match h case OK => 0 case Approaching => 1 case Expired => 2
  }

  /** Left alone, a certificate only ever moves from OK to APPROACHING to EXPIRED. */
  lemma OnlyGetsWorse(thresholdDays: int, expiry: int, now: int, later: int)
    requires now <= later
    ensures Rank(HealthAt(thresholdDays, expiry, now)) <= Rank(HealthAt(thresholdDays, expiry, later))
  {
    Windows(thresholdDays, expiry, now);
    Windows(thresholdDays, expiry, later);
  }

  /** A certificate built at `built` is OK for 364 days less the threshold, and not a moment
      longer. */
  lemma FreshCertificateLifetime(thresholdDays: int, built: int, now: int)
    requires thresholdDays >= 1 && built <= now
    ensures HealthAt(thresholdDays, built + CERT_VALIDITY, now) == OK <==> now <= built + (364 - thresholdDays) * DAY
  {
    Windows(thresholdDays, built + CERT_VALIDITY, now);
  }

  /** A certificate signed at `built` is due for renewal at `now`. */
  predicate Due(thresholdDays: int, built: int, now: int) {
    HealthAt(thresholdDays, built + CERT_VALIDITY, now) != OK
  }

  /** The resource admits thresholds up to 365 days. From 364 days on a certificate is due again as
      soon as it is written; below, it is not. */
  lemma AlwaysDueAgain(thresholdDays: int)
    requires thresholdDays >= 1
    ensures (forall built: int, now: int :: built < now ==> Due(thresholdDays, built, now)) <==> thresholdDays >= 364
  {
    if thresholdDays >= 364 {
      forall built: int, now: int | built < now ensures Due(thresholdDays, built, now) {
        FreshCertificateLifetime(thresholdDays, built, now);
      }
    } else {
      FreshCertificateLifetime(thresholdDays, 0, 1);
      assert !Due(thresholdDays, 0, 1);
    }
  }

  // ---- runs ----

  /** One check of a certificate. If the check finds it due, a renewal is tried; `signedAt` is when the
      new certificate was signed, if the renewal succeeded. */
  datatype Visit = Visit(at: int, signedAt: int, renewed: bool)

  predicate DueAt(thresholdDays: int, expiry: int, at: int) {
    HealthAt(thresholdDays, expiry, at) != OK
  }

  function ExpiryAfter(thresholdDays: int, expiry: int, v: Visit): int {
    if DueAt(thresholdDays, expiry, v.at) && v.renewed then v.signedAt + CERT_VALIDITY else expiry
  }

  /** The expiry that the i-th check finds. */
  function ExpiryFound(thresholdDays: int, expiry: int, visits: seq<Visit>, i: nat): int
    requires i <= |visits|
  {
    if i == 0 then expiry
    else ExpiryAfter(thresholdDays, ExpiryFound(thresholdDays, expiry, visits, i - 1), visits[i - 1])
  }

  /** The i-th check asks for a renewal, and it fails. */
  predicate Fails(thresholdDays: int, expiry: int, visits: seq<Visit>, i: nat)
    requires i < |visits|
  {
    DueAt(thresholdDays, ExpiryFound(thresholdDays, expiry, visits, i), visits[i].at) && !visits[i].renewed
  }

  /** Every renewal is signed between its check and the next, and checks are at most `gap` apart. */
  predicate Spaced(visits: seq<Visit>, gap: int) {
    forall i :: 0 <= i < |visits| - 1 ==>
      visits[i].at <= visits[i].signedAt <= visits[i + 1].at <= visits[i].at + gap
  }

  /** Not the first renewal, and never more than k in a row, fail. */
  predicate Resilient(thresholdDays: int, expiry: int, visits: seq<Visit>, k: nat) {
    (visits != [] ==> !Fails(thresholdDays, expiry, visits, 0)) &&
    forall i: nat, j: nat :: i <= j < |visits| && j - i >= k ==> !AllFail(thresholdDays, expiry, visits, i, j)
  }

  /** The checks from the i-th to the j-th all fail. */
  predicate AllFail(thresholdDays: int, expiry: int, visits: seq<Visit>, i: nat, j: nat)
    requires i <= j < |visits|
  {
    forall m: nat :: i <= m <= j ==> Fails(thresholdDays, expiry, visits, m)
  }

  predicate FoundInTime(thresholdDays: int, expiry: int, visits: seq<Visit>) {
    forall i :: 0 <= i < |visits| ==> HealthAt(thresholdDays, ExpiryFound(thresholdDays, expiry, visits, i), visits[i].at) != Expired
  }

  /** k + 1 times this distance fits into the smaller of the threshold and 364 days. */
  predicate Fits(thresholdDays: int, gap: int, k: nat) {
    (k + 1) * gap <= Min(thresholdDays, 364) * DAY
  }

  /** No run of any length in which at most k renewals in a row fail finds the certificate expired,
      unless its first check does. */
  ghost predicate Safe(thresholdDays: int, gap: int, k: nat) {
    forall expiry: int, visits: seq<Visit> ::
      Spaced(visits, gap) && Resilient(thresholdDays, expiry, visits, k)
      && visits != [] && HealthAt(thresholdDays, expiry, visits[0].at) != Expired
      ==> FoundInTime(thresholdDays, expiry, visits)
  }

  /** The last check up to the i-th that did not fail. */
  lemma {:induction false} LastGood(thresholdDays: int, expiry: int, visits: seq<Visit>, i: nat) returns (j: nat)
    requires i < |visits| && !Fails(thresholdDays, expiry, visits, 0)
    ensures j <= i && !Fails(thresholdDays, expiry, visits, j)
    ensures j < i ==> AllFail(thresholdDays, expiry, visits, j + 1, i)
    ensures ExpiryFound(thresholdDays, expiry, visits, i + 1) == ExpiryFound(thresholdDays, expiry, visits, j + 1)
    decreases i
  {
    if !Fails(thresholdDays, expiry, visits, i) {
      j := i;
    } else {
      j := LastGood(thresholdDays, expiry, visits, i - 1);
    }
  }

  lemma {:induction false} Elapsed(visits: seq<Visit>, gap: int, j: nat, i: nat)
    requires Spaced(visits, gap) && j <= i < |visits|
    ensures visits[j].at <= visits[i].at <= visits[j].at + (i - j) * gap
    decreases i
  {
    if j < i {
      Elapsed(visits, gap, j, i - 1);
      assert visits[i - 1].at <= visits[i].at <= visits[i - 1].at + gap;
      assert (i - 1 - j) * gap + gap == (i - j) * gap;
    }
  }

  lemma Times(n: nat, m: nat, gap: int)
    requires n <= m && gap >= 0
    ensures n * gap <= m * gap
  {
  }

  lemma NextVisit(thresholdDays: int, k: nat, gap: int, expiry: int, v: Visit, n: nat, next: int)
    requires thresholdDays >= 1 && Fits(thresholdDays, gap, k) && n <= k + 1 && gap >= 0
    requires v.at <= v.signedAt && next <= v.at + n * gap && HealthAt(thresholdDays, expiry, v.at) != Expired
    requires DueAt(thresholdDays, expiry, v.at) ==> v.renewed
    ensures HealthAt(thresholdDays, ExpiryAfter(thresholdDays, expiry, v), next) != Expired
  {
    Times(n, k + 1, gap);
    Windows(thresholdDays, expiry, v.at);
    Windows(thresholdDays, ExpiryAfter(thresholdDays, expiry, v), next);
  }

  lemma {:induction false} NeverExpired(thresholdDays: int, gap: int, k: nat, expiry: int, visits: seq<Visit>, i: nat)
    requires thresholdDays >= 1 && Fits(thresholdDays, gap, k)
    requires Spaced(visits, gap) && Resilient(thresholdDays, expiry, visits, k)
    requires i < |visits| && HealthAt(thresholdDays, expiry, visits[0].at) != Expired
    ensures HealthAt(thresholdDays, ExpiryFound(thresholdDays, expiry, visits, i), visits[i].at) != Expired
    decreases i
  {
    if i > 0 {
      var j := LastGood(thresholdDays, expiry, visits, i - 1);
      NeverExpired(thresholdDays, gap, k, expiry, visits, j);
      Elapsed(visits, gap, j, i);
      assert visits[j].at <= visits[j].signedAt <= visits[j + 1].at <= visits[j].at + gap;
      NextVisit(thresholdDays, k, gap, ExpiryFound(thresholdDays, expiry, visits, j), visits[j], i - j, visits[i].at);
    }
  }

  /** The checks at 0, gap, 2 gap and so on, of which only the first and the last renew. */
  function Sparse(gap: int, k: nat): seq<Visit> {
    seq(k + 2, (i: nat) => Visit(i * gap, i * gap, i == 0 || i == k + 1))
  }

  lemma SparseIsSpaced(gap: int, k: nat)
    requires gap >= 0
    ensures Spaced(Sparse(gap, k), gap)
  {
    forall i: nat | i < k + 2 - 1
      ensures Sparse(gap, k)[i].at <= Sparse(gap, k)[i].signedAt <= Sparse(gap, k)[i + 1].at <= Sparse(gap, k)[i].at + gap
    {
      assert (i + 1) * gap == i * gap + gap;
    }
  }

  lemma SparseIsResilient(thresholdDays: int, gap: int, k: nat, expiry: int)
    ensures Resilient(thresholdDays, expiry, Sparse(gap, k), k)
  {
    var visits := Sparse(gap, k);
    assert !Fails(thresholdDays, expiry, visits, 0) && !Fails(thresholdDays, expiry, visits, k + 1);
    forall i: nat, j: nat | i <= j < |visits| && j - i >= k ensures !AllFail(thresholdDays, expiry, visits, i, j) {
      assert i <= 0 || j >= k + 1;
    }
  }

  /** A certificate that is one instant from being due, or is about to be renewed. */
  function AtTheEdge(thresholdDays: int): int {
    if thresholdDays <= 364 then (thresholdDays + 1) * DAY else DAY
  }

  lemma TooLate(thresholdDays: int, at: int)
    requires thresholdDays >= 1 && at > Min(thresholdDays, 364) * DAY
    ensures HealthAt(thresholdDays, AtTheEdge(thresholdDays), 0) != Expired
    ensures HealthAt(thresholdDays, ExpiryAfter(thresholdDays, AtTheEdge(thresholdDays), Visit(0, 0, true)), at) == Expired
  {
    Windows(thresholdDays, AtTheEdge(thresholdDays), 0);
    Windows(thresholdDays, ExpiryAfter(thresholdDays, AtTheEdge(thresholdDays), Visit(0, 0, true)), at);
  }

  /** A run that is too sparse: the first check comes at the edge, k renewals in a row fail, and the
      next check comes too late. */
  lemma TooSparse(thresholdDays: int, gap: int, k: nat)
    requires thresholdDays >= 1 && !Fits(thresholdDays, gap, k)
    ensures !Safe(thresholdDays, gap, k)
  {
    PositiveGap(thresholdDays, gap, k);
    var visits := Sparse(gap, k);
    var expiry := AtTheEdge(thresholdDays);
    assert visits[0] == Visit(0, 0, true);
    SparseIsSpaced(gap, k);
    SparseIsResilient(thresholdDays, gap, k, expiry);
    FailingRun(thresholdDays, gap, k, expiry, visits, k + 1);
    TooLate(thresholdDays, (k + 1) * gap);
    Caught(thresholdDays, gap, k, expiry, visits, k + 1);
  }

  lemma Caught(thresholdDays: int, gap: int, k: nat, expiry: int, visits: seq<Visit>, i: nat)
    requires Spaced(visits, gap) && Resilient(thresholdDays, expiry, visits, k) && i < |visits|
    requires HealthAt(thresholdDays, expiry, visits[0].at) != Expired
    requires HealthAt(thresholdDays, ExpiryFound(thresholdDays, expiry, visits, i), visits[i].at) == Expired
    ensures !Safe(thresholdDays, gap, k)
  {
    assert !FoundInTime(thresholdDays, expiry, visits);
  }

  lemma PositiveGap(thresholdDays: int, gap: int, k: nat)
    requires thresholdDays >= 1 && !Fits(thresholdDays, gap, k)
    ensures gap > 0
  {
    if gap <= 0 { Times(0, k + 1, -gap); }
  }

  lemma {:induction false} FailingRun(thresholdDays: int, gap: int, k: nat, expiry: int, visits: seq<Visit>, i: nat)
    requires 1 <= i <= k + 1 && |visits| == k + 2
    requires forall m: nat :: 1 <= m <= k ==> !visits[m].renewed
    ensures ExpiryFound(thresholdDays, expiry, visits, i) == ExpiryAfter(thresholdDays, expiry, visits[0])
    decreases i
  {
    if i > 1 {
      FailingRun(thresholdDays, gap, k, expiry, visits, i - 1);
    } else {
      assert ExpiryFound(thresholdDays, expiry, visits, 0) == expiry;
    }
  }

  /** The exact bound on the distance between checks, for every number of failures to survive. */
  lemma SafeGap(thresholdDays: int, gap: int, k: nat)
    requires thresholdDays >= 1
    ensures Safe(thresholdDays, gap, k) <==> Fits(thresholdDays, gap, k)
  {
    if Fits(thresholdDays, gap, k) {
      forall expiry: int, visits: seq<Visit> |
        Spaced(visits, gap) && Resilient(thresholdDays, expiry, visits, k)
        && visits != [] && HealthAt(thresholdDays, expiry, visits[0].at) != Expired
        ensures FoundInTime(thresholdDays, expiry, visits)
      {
        forall i | 0 <= i < |visits| {
          NeverExpired(thresholdDays, gap, k, expiry, visits, i);
        }
      }
    } else {
      TooSparse(thresholdDays, gap, k);
    }
  }

  /** `requeueWithJitter`: the check interval plus up to 119 seconds, drawn from the hash of the
      node name. */
  function RequeueWithJitter(checkIntervalHours: int, nameHash: nat): int {
    checkIntervalHours * HOUR + (nameHash % 120) * SECOND
  }

  function RequeueInterval(checkIntervalHours: int): int {
    checkIntervalHours * HOUR
  }

  /** Two nodes come back at the same distance exactly when their hashes agree modulo 120; all 120 delays
      are taken, from none to 119 seconds on top of the interval. */
  lemma JitterSpreads(checkIntervalHours: int, a: nat, b: nat)
    ensures RequeueWithJitter(checkIntervalHours, a) == RequeueWithJitter(checkIntervalHours, b) <==> a % 120 == b % 120
    ensures 0 <= RequeueWithJitter(checkIntervalHours, a) - checkIntervalHours * 3600 * SECOND <= 119 * SECOND
    ensures a < 120 ==> RequeueWithJitter(checkIntervalHours, a) == checkIntervalHours * 3600 * SECOND + a * SECOND
  {
    var x, y := a % 120, b % 120;
    assert RequeueWithJitter(checkIntervalHours, a) == checkIntervalHours * HOUR + x * SECOND;
    assert RequeueWithJitter(checkIntervalHours, b) == checkIntervalHours * HOUR + y * SECOND;
  }

  /** Every node of a cluster with this configuration is safe, if a reconciliation takes at most `lag`
      and at most k renewals in a row fail. */
  ghost predicate SafeOnEveryNode(thresholdDays: int, checkIntervalHours: int, lag: int, k: nat) {
    forall nameHash: nat :: Safe(thresholdDays, RequeueWithJitter(checkIntervalHours, nameHash) + lag, k)
  }

  function LongestGap(checkIntervalHours: int, lag: int): int {
    checkIntervalHours * HOUR + 119 * SECOND + lag
  }

  lemma LongestJitter(checkIntervalHours: int, lag: int, nameHash: nat)
    ensures RequeueWithJitter(checkIntervalHours, nameHash) + lag <= LongestGap(checkIntervalHours, lag)
    ensures RequeueWithJitter(checkIntervalHours, 119) + lag == LongestGap(checkIntervalHours, lag)
  {
    assert 119 % 120 == 119;
  }

  lemma TimesMonotone(n: nat, x: int, y: int)
    requires x <= y
    ensures n * x <= n * y
  {
  }

  lemma FitsLess(thresholdDays: int, x: int, y: int, k: nat)
    requires x <= y && Fits(thresholdDays, y, k)
    ensures Fits(thresholdDays, x, k)
  {
    TimesMonotone(k + 1, x, y);
  }

  /** A configuration is safe on every node exactly when k + 1 times the interval, the largest jitter
      and the time of a reconciliation together stay within the smaller of the threshold and 364
      days. */
  lemma SafeConfiguration(thresholdDays: int, checkIntervalHours: int, lag: int, k: nat)
    requires thresholdDays >= 1
    ensures SafeOnEveryNode(thresholdDays, checkIntervalHours, lag, k) <==> Fits(thresholdDays, LongestGap(checkIntervalHours, lag), k)
  {
    var longest := LongestGap(checkIntervalHours, lag);
    LongestJitter(checkIntervalHours, lag, 119);
    SafeGap(thresholdDays, longest, k);
    if Fits(thresholdDays, longest, k) {
      forall nameHash: nat ensures Safe(thresholdDays, RequeueWithJitter(checkIntervalHours, nameHash) + lag, k) {
        var gap := RequeueWithJitter(checkIntervalHours, nameHash) + lag;
        LongestJitter(checkIntervalHours, lag, nameHash);
        FitsLess(thresholdDays, gap, longest, k);
        SafeGap(thresholdDays, gap, k);
      }
    } else {
      assert !Safe(thresholdDays, RequeueWithJitter(checkIntervalHours, 119) + lag, k);
    }
  }

  lemma FitsOnce(thresholdDays: int, checkIntervalHours: int, lag: int)
    requires 0 <= lag <= 58 * MINUTE
    ensures Fits(thresholdDays, LongestGap(checkIntervalHours, lag), 0) <==> checkIntervalHours < 24 * Min(thresholdDays, 364)
  {
    var bound := Min(thresholdDays, 364);
    assert (0 + 1) * LongestGap(checkIntervalHours, lag) == LongestGap(checkIntervalHours, lag);
    assert bound * DAY == (24 * bound) * HOUR;
  }

  lemma FitsAdmitted(thresholdDays: int, checkIntervalHours: int, lag: int)
    requires thresholdDays >= 8 && checkIntervalHours <= 168 && 0 <= lag <= 23 * HOUR
    ensures Fits(thresholdDays, LongestGap(checkIntervalHours, lag), 0) && !Fits(7, LongestGap(168, 0), 0)
  {
  }

  /** If reconciliations take at most 58 minutes and no renewal fails, the interval has to be shorter,
      in hours, than the smaller of the threshold and 364 days, and no more. */
  lemma SafeWithoutFailures(thresholdDays: int, checkIntervalHours: int, lag: int)
    requires thresholdDays >= 1 && 0 <= lag <= 58 * MINUTE
    ensures SafeOnEveryNode(thresholdDays, checkIntervalHours, lag, 0) <==> checkIntervalHours < 24 * Min(thresholdDays, 364)
  {
    SafeConfiguration(thresholdDays, checkIntervalHours, lag, 0);
    FitsOnce(thresholdDays, checkIntervalHours, lag);
  }

  /** The longest interval the resource admits is 168 hours: with reconciliations of up to 23 hours
      and no failed renewal, every threshold from eight days on is safe with every admitted interval;
      a threshold of seven days is not safe even with reconciliations that take no time. */
  lemma AdmittedConfigurations(thresholdDays: int, checkIntervalHours: int, lag: int)
    requires 1 <= thresholdDays <= 365 && 1 <= checkIntervalHours <= 168 && 0 <= lag <= 23 * HOUR
    ensures thresholdDays >= 8 ==> SafeOnEveryNode(thresholdDays, checkIntervalHours, lag, 0)
    ensures !SafeOnEveryNode(7, 168, 0, 0)
  {
    SafeConfiguration(thresholdDays, checkIntervalHours, lag, 0);
    SafeConfiguration(7, 168, 0, 0);
    FitsAdmitted(if thresholdDays >= 8 then thresholdDays else 8, checkIntervalHours, lag);
  }

  /** With the default threshold of 30 days and interval of 24 hours, and reconciliations of at most
      45 minutes, 28 renewals in a row may fail, and 29 may not. */
  lemma DefaultConfiguration(lag: int)
    requires 0 <= lag <= 45 * MINUTE
    ensures SafeOnEveryNode(30, 24, lag, 28) && !SafeOnEveryNode(30, 24, lag, 29)
  {
    SafeConfiguration(30, 24, lag, 28);
    SafeConfiguration(30, 24, lag, 29);
  }
}
