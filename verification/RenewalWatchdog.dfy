/**
  The renewal loop of a held lock, against an exact local timer in milliseconds.

  Each renewal attempt is an input: how long the acquire call took and what it returned.  A
  successful one put its file on the store at some moment of the call; the lease runs from there,
  while the loop only knows when the call returned.
 */
module RenewalWatchdog {
  import opened Prelude

  /** `Won(after)`: the claim was put on the store `after` milliseconds into the call. */
  datatype Outcome = Won(after: nat) | Yielded | BackwardClock | OtherStatus | StoreError

  /** `cancelled`: shutdown was asked for that long into the sleep after the attempt. */
  datatype Attempt = Attempt(took: nat, outcome: Outcome, cancelled: Option<nat>)

  datatype LockLost = Preempted | Expired(elapsedSecs: int, thresholdSecs: int) | ClockRegression | Cancelled

  /** `claim` is when the last successful claim reached the store, `now` when the loop stopped. */
  datatype Report = Report(lost: Option<LockLost>, now: int, claim: int)

  const RETRY_MS: nat := 15_000

  /** Two thirds of the lease, in whole seconds. */
  function GiveUpAfter(lease: nat): (r: nat)
    ensures 3 * r <= 2 * lease < 3 * (r + 1)
  {
    lease * 2 / 3
  }

  /** A third of it, in whole seconds, as milliseconds. */
  function RenewMs(lease: nat): (r: nat)
    ensures r % 1000 == 0 && 3 * r <= 1000 * lease < 3 * (r + 1000)
  {
    lease / 3 * 1000
  }

  /** Time during which the claim protects its holder. */
  predicate LeaseRuns(lease: nat, claim: int, now: int) { now < claim + 1000 * lease }

  /** The sleep of `ms` milliseconds does not last. */
  predicate CutShort(cancelled: Option<nat>, ms: nat) { cancelled.Some? && cancelled.value < ms }

  /** The loop from its head, reached at `now` with the last success at `last`. */
  function Watch(lease: nat, last: int, now: int, claim: int, attempts: seq<Attempt>): Report
    decreases |attempts|
  {
    var elapsed := (now - last) / 1000;
    if elapsed >= GiveUpAfter(lease) then Report(Some(Expired(elapsed, GiveUpAfter(lease))), now, claim)
    else if attempts == [] then Report(None, now, claim)
    else
      var end := now + attempts[0].took;
      match attempts[0].outcome
      case Won(after) =>
        if CutShort(attempts[0].cancelled, RenewMs(lease))
        then Report(Some(Cancelled), end + attempts[0].cancelled.value, now + after)
        else Watch(lease, end, end + RenewMs(lease), now + after, attempts[1..])
      case Yielded => Report(Some(Preempted), end, claim)
      case BackwardClock => Report(Some(ClockRegression), end, claim)
      case OtherStatus => Report(Some(Preempted), end, claim)
      case StoreError =>
        if CutShort(attempts[0].cancelled, RETRY_MS)
            then Report(Some(Cancelled), end + attempts[0].cancelled.value, claim)
        else Watch(lease, last, end + RETRY_MS, claim, attempts[1..])
  }

  /** The whole loop, with the sleep before its first renewal. */
  function Renew(lease: nat, acquiredAt: int, firstClaim: int, cancelled: Option<nat>, attempts: seq<Attempt>): Report {
    if CutShort(cancelled, RenewMs(lease)) then Report(Some(Cancelled), acquiredAt + cancelled.value, firstClaim)
    else Watch(lease, acquiredAt, acquiredAt + RenewMs(lease), firstClaim, attempts)
  }

  /** The loop; it stops early when the attempts given to it are used up. */
  method RenewalLoop(lease: nat, acquiredAt: int, firstClaim: int, cancelled: Option<nat>, attempts: seq<Attempt>)
    returns (r: Report)
    ensures r == Renew(lease, acquiredAt, firstClaim, cancelled, attempts)
  {
    if CutShort(cancelled, RenewMs(lease)) { return Report(Some(Cancelled), acquiredAt + cancelled.value, firstClaim); }
    var lastSuccess, claim := acquiredAt, firstClaim;
    var now := acquiredAt + RenewMs(lease);
    var i := 0;
    while true
      invariant 0 <= i <= |attempts|
      invariant Watch(lease, lastSuccess, now, claim, attempts[i..]) ==
                Watch(lease, acquiredAt, acquiredAt + RenewMs(lease), firstClaim, attempts)
      decreases |attempts| - i
    {
      var elapsed := (now - lastSuccess) / 1000;
      if elapsed >= GiveUpAfter(lease) {
        return Report(Some(Expired(elapsed, GiveUpAfter(lease))), now, claim);
      }
      if i == |attempts| {
        return Report(None, now, claim);
      }
      var start := now;
      now := start + attempts[i].took;
      assert attempts[i..][1..] == attempts[i + 1..];
      match attempts[i].outcome {
        case Won(after) =>
          lastSuccess, claim := now, start + after;
          if CutShort(attempts[i].cancelled, RenewMs(lease)) {
            return Report(Some(Cancelled), now + attempts[i].cancelled.value, claim);
          }
          now := now + RenewMs(lease);
        case Yielded => return Report(Some(Preempted), now, claim);
        case BackwardClock => return Report(Some(ClockRegression), now, claim);
        case OtherStatus => return Report(Some(Preempted), now, claim);
        case StoreError =>
          if CutShort(attempts[i].cancelled, RETRY_MS) {
            return Report(Some(Cancelled), now + attempts[i].cancelled.value, claim);
          }
          now := now + RETRY_MS;
      }
      i := i + 1;
    }
  }

  // ---------------------------------------------------------------- which report follows from which attempt

  /** The loop from its head gets to attempt `i`. */
  predicate GetsTo(lease: nat, last: int, now: int, claim: int, attempts: seq<Attempt>, i: int) {
    0 <= i < |attempts| && Watch(lease, last, now, claim, attempts[..i]).lost.None?
  }

  lemma {:induction false} AttemptReports(lease: nat, last: int, now: int, claim: int, attempts: seq<Attempt>, i: nat)
    requires GetsTo(lease, last, now, claim, attempts, i)
    ensures var r, head := Watch(lease, last, now, claim, attempts), Watch(lease, last, now, claim, attempts[..i]);
            var a := attempts[i];
            var end := head.now + a.took;
            && (a.outcome.Yielded? || a.outcome.OtherStatus? ==> r == Report(Some(Preempted), end, head.claim))
            && (a.outcome.BackwardClock? ==> r == Report(Some(ClockRegression), end, head.claim))
            && (a.outcome.Won? && CutShort(a.cancelled, RenewMs(lease)) ==>
                  r == Report(Some(Cancelled), end + a.cancelled.value, head.now + a.outcome.after))
            && (a.outcome.StoreError? && CutShort(a.cancelled, RETRY_MS) ==>
                  r == Report(Some(Cancelled), end + a.cancelled.value, head.claim))
    decreases |attempts|
  {
    if i > 0 {
      var a, end, rest := attempts[0], now + attempts[0].took, attempts[1..];
      assert attempts[..i][0] == a && attempts[..i][1..] == rest[..i - 1];
      match a.outcome
      case Won(after) => AttemptReports(lease, end, end + RenewMs(lease), now + after, rest, i - 1);
      case StoreError => AttemptReports(lease, last, end + RETRY_MS, claim, rest, i - 1);
    }
  }

  /** The attempt that makes the loop report the loss. */
  predicate Brings(lease: nat, a: Attempt, lost: LockLost) {
    match lost
    case Preempted => a.outcome.Yielded? || a.outcome.OtherStatus?
    case ClockRegression => a.outcome.BackwardClock?
    case Cancelled =>
      || (a.outcome.Won? && CutShort(a.cancelled, RenewMs(lease)))
      || (a.outcome.StoreError? && CutShort(a.cancelled, RETRY_MS))
    case Expired(_, _) => false
  }

  lemma {:induction false} ReportComesFrom(lease: nat, last: int, now: int, claim: int, attempts: seq<Attempt>)
    returns (i: int)
    requires var r := Watch(lease, last, now, claim, attempts); r.lost.Some? && !r.lost.value.Expired?
    ensures GetsTo(lease, last, now, claim, attempts, i)
    ensures Brings(lease, attempts[i], Watch(lease, last, now, claim, attempts).lost.value)
    decreases |attempts|
  {
    i := 0;
    var a, end, rest := attempts[0], now + attempts[0].took, attempts[1..];
    if !Brings(lease, a, Watch(lease, last, now, claim, attempts).lost.value) {
      match a.outcome {
        case Won(after) => i := ReportComesFrom(lease, end, end + RenewMs(lease), now + after, rest);
        case StoreError => i := ReportComesFrom(lease, last, end + RETRY_MS, claim, rest);
      }
      i := i + 1;
      assert attempts[..i][0] == a && attempts[..i][1..] == rest[..i - 1];
    }
  }

  /**
    A loss other than expiry is reported if and only if the loop gets to an attempt that brings it: one
    that yields or ends in another status preempts, one that meets a backward clock is a regression.
   */
  lemma LossExactly(lease: nat, last: int, now: int, claim: int, attempts: seq<Attempt>, lost: LockLost)
    requires !lost.Expired?
    ensures Watch(lease, last, now, claim, attempts).lost == Some(lost) <==>
            exists i :: GetsTo(lease, last, now, claim, attempts, i) && Brings(lease, attempts[i], lost)
  {
    if Watch(lease, last, now, claim, attempts).lost == Some(lost) {
      var i := ReportComesFrom(lease, last, now, claim, attempts);
    }
    if i :| GetsTo(lease, last, now, claim, attempts, i) && Brings(lease, attempts[i], lost) {
      AttemptReports(lease, last, now, claim, attempts, i);
    }
  }

  /** An expiry tells the threshold, and that at least that long has passed since the last success. */
  lemma {:induction false} ExpiryTells(lease: nat, last: int, now: int, claim: int, attempts: seq<Attempt>)
    requires var r := Watch(lease, last, now, claim, attempts); r.lost.Some? && r.lost.value.Expired?
    ensures var lost := Watch(lease, last, now, claim, attempts).lost.value;
            lost.elapsedSecs >= lost.thresholdSecs && 3 * lost.thresholdSecs <= 2 * lease < 3 * lost.thresholdSecs + 3
    decreases |attempts|
  {
    if (now - last) / 1000 < GiveUpAfter(lease) {
      var a, end, rest := attempts[0], now + attempts[0].took, attempts[1..];
      match a.outcome
      case Won(after) => ExpiryTells(lease, end, end + RenewMs(lease), now + after, rest);
      case StoreError => ExpiryTells(lease, last, end + RETRY_MS, claim, rest);
    }
  }

  /** Every attempt takes at most `bound`, and a claim is made during its call. */
  predicate Bounded(attempts: seq<Attempt>, bound: nat) {
    forall a | a in attempts :: a.took <= bound && (a.outcome.Won? ==> a.outcome.after <= a.took)
  }

  /**
    With every acquire bounded by `bound` and `2 * bound + 15 s <= lease / 3`, the loop stops, or is
    still at its head, before the lease of the last successful claim ends.
   */
  lemma {:induction false} StopsWithinLease(lease: nat, last: int, now: int, claim: int, attempts: seq<Attempt>,
                                            bound: nat)
    requires Bounded(attempts, bound) && 3 * (2 * bound + RETRY_MS) <= 1000 * lease
    requires last - bound <= claim <= last <= now
    requires now < last + 1000 * GiveUpAfter(lease) + bound + RETRY_MS
    ensures var r := Watch(lease, last, now, claim, attempts); LeaseRuns(lease, r.claim, r.now)
    decreases |attempts|
  {
    if (now - last) / 1000 < GiveUpAfter(lease) && attempts != [] {
      var end := now + attempts[0].took;
      assert attempts[0] in attempts;
      match attempts[0].outcome {
        case Won(after) =>
          if !CutShort(attempts[0].cancelled, RenewMs(lease)) {
            StopsWithinLease(lease, end, end + RenewMs(lease), now + after, attempts[1..], bound);
          }
        case StoreError =>
          if !CutShort(attempts[0].cancelled, RETRY_MS) {
            StopsWithinLease(lease, last, end + RETRY_MS, claim, attempts[1..], bound);
          }
        case _ =>
      }
    }
  }

  /** The bound for a whole loop, started by an acquire that was itself bounded. */
  lemma LossBeforeLeaseEnds(lease: nat, acquiredAt: int, firstClaim: int, cancelled: Option<nat>,
                            attempts: seq<Attempt>, bound: nat)
    requires Bounded(attempts, bound) && 3 * (2 * bound + RETRY_MS) <= 1000 * lease
    requires acquiredAt - bound <= firstClaim <= acquiredAt
    ensures InTime(lease, acquiredAt, firstClaim, cancelled, attempts)
  {
    StopsWithinLease(lease, acquiredAt, acquiredAt + RenewMs(lease), firstClaim, attempts, bound);
  }

  /** Failed renewals do not go on: each costs 15 s, so the loop gives up within `GiveUpAfter / 15 + 1` of them. */
  lemma {:induction false} FailuresEndInLoss(lease: nat, last: int, now: int, claim: int, attempts: seq<Attempt>)
    requires forall a | a in attempts :: a.outcome.StoreError?
    requires last <= now && (now - last) + RETRY_MS * |attempts| >= 1000 * GiveUpAfter(lease)
    ensures Watch(lease, last, now, claim, attempts).lost.Some?
    decreases |attempts|
  {
    if (now - last) / 1000 < GiveUpAfter(lease) {
      assert attempts[0] in attempts;
      if !CutShort(attempts[0].cancelled, RETRY_MS) {
        FailuresEndInLoss(lease, last, now + attempts[0].took + RETRY_MS, claim, attempts[1..]);
      }
    }
  }

  // ---------------------------------------------------------------- exactly when the report is in time

  /** The loop stops while the lease of its last successful claim runs. */
  predicate InTime(lease: nat, acquiredAt: int, firstClaim: int, cancelled: Option<nat>, attempts: seq<Attempt>) {
    var r := Renew(lease, acquiredAt, firstClaim, cancelled, attempts);
    LeaseRuns(lease, r.claim, r.now)
  }

  /** Every loop does whose acquires take at most `bound`. */
  ghost predicate InTimeAlways(lease: nat, bound: nat) {
    forall acquiredAt: int, firstClaim: int, cancelled, attempts |
        Bounded(attempts, bound) && acquiredAt - bound <= firstClaim <= acquiredAt ::
      InTime(lease, acquiredAt, firstClaim, cancelled, attempts)
  }

  function GiveUpMs(lease: nat): nat { 1000 * GiveUpAfter(lease) }

  /** How many failed renewals fit before the loop gives up. */
  function Retries(lease: nat): nat
    requires RenewMs(lease) < GiveUpMs(lease)
  {
    (GiveUpMs(lease) - 1 - RenewMs(lease)) / RETRY_MS
  }

  /** The latest moment, counted from the last success, at which the loop can start another renewal. */
  function LatestStart(lease: nat, bound: nat): nat
    requires RenewMs(lease) < GiveUpMs(lease)
  {
    var slowest := RenewMs(lease) + Retries(lease) * (RETRY_MS + bound);
    if slowest < GiveUpMs(lease) then slowest else GiveUpMs(lease) - 1
  }

  /** The last renewal, its pause and the time between a claim and its return all fit into the lease. */
  predicate Fits(lease: nat, bound: nat) {
    if RenewMs(lease) >= GiveUpMs(lease) then RenewMs(lease) + bound < 1000 * lease
    else LatestStart(lease, bound) + bound + RETRY_MS + bound < 1000 * lease
  }

  lemma MulMonotone(m: nat, n: nat, k: nat)
    requires m <= n
    ensures m * k <= n * k
  {}

  lemma MulSucc(n: nat, k: nat)
    ensures (n + 1) * k == n * k + k
  {}

  /** A head reached after `n` failures and before giving up is no later than the latest start. */
  lemma StartBound(lease: nat, bound: nat, n: nat, x: int)
    requires RenewMs(lease) < GiveUpMs(lease) && RenewMs(lease) + n * RETRY_MS <= x < GiveUpMs(lease)
    requires x <= RenewMs(lease) + n * (RETRY_MS + bound)
    ensures x <= LatestStart(lease, bound)
  {
    assert n <= Retries(lease);
    MulMonotone(n, Retries(lease), RETRY_MS + bound);
  }

  /** The loop from a head reached `n` failures after the last success. */
  lemma {:induction false} StaysInTime(lease: nat, last: int, now: int, claim: int, attempts: seq<Attempt>, bound: nat,
                                       n: nat)
    requires Bounded(attempts, bound) && Fits(lease, bound) && RenewMs(lease) < GiveUpMs(lease)
    requires last - bound <= claim <= last
    requires RenewMs(lease) + n * RETRY_MS <= now - last <= RenewMs(lease) + n * (RETRY_MS + bound)
    requires now - last <= LatestStart(lease, bound) + bound + RETRY_MS
    ensures var r := Watch(lease, last, now, claim, attempts); LeaseRuns(lease, r.claim, r.now)
    decreases |attempts|
  {
    hide LatestStart, GiveUpAfter, RenewMs;
    if (now - last) / 1000 < GiveUpAfter(lease) {
      StartBound(lease, bound, n, now - last);
      if attempts != [] {
        var end := now + attempts[0].took;
        assert attempts[0] in attempts;
        match attempts[0].outcome {
          case Won(after) =>
            StartBound(lease, bound, 0, RenewMs(lease));
            if !CutShort(attempts[0].cancelled, RenewMs(lease)) {
              StaysInTime(lease, end, end + RenewMs(lease), now + after, attempts[1..], bound, 0);
            }
          case StoreError =>
            MulSucc(n, RETRY_MS);
            MulSucc(n, RETRY_MS + bound);
            if !CutShort(attempts[0].cancelled, RETRY_MS) {
              StaysInTime(lease, last, end + RETRY_MS, claim, attempts[1..], bound, n + 1);
            }
          case _ =>
        }
      }
    }
  }

  /** `n` failed renewals that take `total` together, none longer than `bound`. */
  function Failing(n: nat, total: nat, bound: nat): (r: seq<Attempt>)
    requires total <= n * bound
    ensures Bounded(r, bound)
    decreases n
  {
    if n == 0 then []
    else
      var first := if total < bound then total else bound;
      MulSucc(n - 1, bound);
      [Attempt(first, StoreError, None)] + Failing(n - 1, total - first, bound)
  }

  lemma WatchFails(lease: nat, last: int, now: int, claim: int, took: nat, rest: seq<Attempt>)
    requires last <= now && now - last < GiveUpMs(lease)
    ensures Watch(lease, last, now, claim, [Attempt(took, StoreError, None)] + rest) ==
        Watch(lease, last, now + took + RETRY_MS, claim, rest)
  {
    assert ([Attempt(took, StoreError, None)] + rest)[1..] == rest;
  }

  /** They bring the loop to a head exactly that much later, if it does not give up on the way. */
  lemma {:induction false} FailingLeads(lease: nat, last: int, now: int, claim: int, n: nat, total: nat, bound: nat,
                                        rest: seq<Attempt>)
    requires total <= n * bound && last <= now && now + n * RETRY_MS + total - last < GiveUpMs(lease)
    ensures Watch(lease, last, now, claim, Failing(n, total, bound) + rest) ==
            Watch(lease, last, now + n * RETRY_MS + total, claim, rest)
    decreases n
  {
    hide Watch, GiveUpMs;
    if n == 0 {
      assert Failing(n, total, bound) + rest == rest;
    } else {
      var first := if total < bound then total else bound;
      MulSucc(n - 1, bound);
      MulSucc(n - 1, RETRY_MS);
      MulMonotone(0, n - 1, RETRY_MS);
      var tail := Failing(n - 1, total - first, bound) + rest;
      assert Failing(n, total, bound) + rest == [Attempt(first, StoreError, None)] + tail;
      WatchFails(lease, last, now, claim, first, tail);
      FailingLeads(lease, last, now + first + RETRY_MS, claim, n - 1, total - first, bound, rest);
    }
  }

  /** The slowest failures: the loop starts its last renewal as late as it can. */
  lemma LateReport(lease: nat, bound: nat) returns (attempts: seq<Attempt>)
    requires RenewMs(lease) < GiveUpMs(lease)
    ensures Bounded(attempts, bound)
    ensures var r := Watch(lease, 0, RenewMs(lease), -(bound as int), attempts);
            r.now == LatestStart(lease, bound) + bound + RETRY_MS && r.claim == -(bound as int)
  {
    var claim: int := -(bound as int);
    var n, y := Retries(lease), LatestStart(lease, bound);
    MulMonotone(0, n, bound);
    assert n * (RETRY_MS + bound) == n * RETRY_MS + n * bound;
    assert RenewMs(lease) + n * RETRY_MS < GiveUpMs(lease) <= RenewMs(lease) + n * RETRY_MS + RETRY_MS;
    var total := y - RenewMs(lease) - n * RETRY_MS;
    var last := [Attempt(bound, StoreError, None)];
    attempts := Failing(n, total, bound) + last;
    FailingLeads(lease, 0, RenewMs(lease), claim, n, total, bound, last);
    assert last[1..] == [];
    assert y + bound + RETRY_MS >= GiveUpMs(lease);
    assert Watch(lease, 0, y, claim, last) == Watch(lease, 0, y + bound + RETRY_MS, claim, []);
  }

  lemma FitsIsInTime(lease: nat, bound: nat, acquiredAt: int, firstClaim: int, cancelled: Option<nat>,
                     attempts: seq<Attempt>)
    requires Fits(lease, bound) && Bounded(attempts, bound) && acquiredAt - bound <= firstClaim <= acquiredAt
    ensures InTime(lease, acquiredAt, firstClaim, cancelled, attempts)
  {
    if RenewMs(lease) < GiveUpMs(lease) {
      StartBound(lease, bound, 0, RenewMs(lease));
      StaysInTime(lease, acquiredAt, acquiredAt + RenewMs(lease), firstClaim, attempts, bound, 0);
    }
  }

  /** A loss is always reported before the lease ends if and only if the slowest failing run fits into it. */
  lemma InTimeExactly(lease: nat, bound: nat)
    ensures InTimeAlways(lease, bound) <==> Fits(lease, bound)
  {
    var claim: int := -(bound as int);
    if Fits(lease, bound) {
      hide Fits, InTime, Bounded;
      forall acquiredAt: int, firstClaim: int, cancelled, attempts
        | Bounded(attempts, bound) && acquiredAt - bound <= firstClaim <= acquiredAt
        ensures InTime(lease, acquiredAt, firstClaim, cancelled, attempts)
      {
        FitsIsInTime(lease, bound, acquiredAt, firstClaim, cancelled, attempts);
      }
    } else {
      var attempts: seq<Attempt> := [];
      if RenewMs(lease) < GiveUpMs(lease) { attempts := LateReport(lease, bound); }
      assert Bounded(attempts, bound) && !InTime(lease, 0, claim, None, attempts);
    }
  }
}
