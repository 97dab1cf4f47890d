/**
 * The renewal of the sidecar's lease, against the recovery of its Jobs by
 * another sidecar: when a sidecar cut off from the database stops, and whether
 * that is soon enough. Times are milliseconds on one clock.
 */
module LeaseRenewal {
  import opened Common

  datatype Timing = Timing(
    leaseMs: nat, outageToleranceMs: nat, leaseRenewMs: nat, jobLeaseMs: nat, jobHeartbeatMs: nat)

  const SIDECAR_TIMING := Timing(15_000, 300_000, 5_000, 30_000, 10_000)

  /** How one renewal ends: an answer, or none (an error, or `leaseMs` of silence). */
  datatype Answer = Renewed | Taken | NoAnswer

  datatype StopReason = LeaseLost | LeaseLapsed

  /** `next`: when the next renewal begins. */
  datatype State = State(lastRenewed: int, next: int, stop: Option<(int, StopReason)>)

  /** One renewal that takes `took`, and the wait after it. A hung one is given up after `leaseMs`. */
  datatype Attempt = Attempt(took: nat, answer: Answer)

  function Took(t: Timing, a: Attempt): nat {
    if a.took > t.leaseMs then t.leaseMs else a.took
  }

  /** What the caller hears: a renewal that hung past `leaseMs` is no answer. */
  function Heard(t: Timing, a: Attempt): Answer {
    if a.took >= t.leaseMs then NoAnswer else a.answer
  }

  function Next(t: Timing, s: State, a: Attempt): State {
    var end := s.next + Took(t, a);
    var on := s.(next := end + t.leaseRenewMs);
    if s.stop.Some? then s
    else match Heard(t, a)
      case Renewed => on.(lastRenewed := end)
      case Taken => on.(stop := Some((end, LeaseLost)))
      case NoAnswer =>
        if end - s.lastRenewed > t.outageToleranceMs then on.(stop := Some((end, LeaseLapsed))) else on
  }

  function After(t: Timing, s: State, attempts: seq<Attempt>): State {
    if attempts == [] then s
    else Next(t, After(t, s, attempts[..|attempts| - 1]), attempts[|attempts| - 1])
  }

  predicate Silent(t: Timing, attempts: seq<Attempt>) {
    forall i :: 0 <= i < |attempts| ==> Heard(t, attempts[i]) == NoAnswer
  }

  /**
   * Nothing tried since the answer at `renewed`, and the next renewal at
   * `first`: at once when the sidecar comes up, after the wait from then on.
   */
  function From(renewed: int, first: int): State
    requires first >= renewed
  {
    State(renewed, first, None)
  }

  // ---- The latest stop ----------------------------------------------------------------

  /** How many failing attempts can be tolerated, when the first begins `wait` after the last answer. */
  function Tolerated(t: Timing, wait: nat): nat
    requires wait <= t.outageToleranceMs
  {
    var spare := t.outageToleranceMs - wait;
    if t.leaseRenewMs == 0 then spare else spare / t.leaseRenewMs + 1
  }

  /**
   * Counted from the last answer, the latest beginning of an attempt: after
   * `Tolerated` attempts that hung for as long as each may, but one wait
   * after the tolerance at the latest.
   */
  function LatestBegin(t: Timing, wait: nat): int {
    if wait > t.outageToleranceMs then wait
    else
      var n := Tolerated(t, wait);
      var hung := wait + n * t.leaseRenewMs + n * t.leaseMs;
      if hung <= t.outageToleranceMs + t.leaseRenewMs then hung else t.outageToleranceMs + t.leaseRenewMs
  }

  function LatestStop(t: Timing, wait: nat): int {
    LatestBegin(t, wait) + t.leaseMs
  }

  lemma Times(a: int, b: int, c: nat)
    requires a <= b
    ensures a * c <= b * c
  {
  }

  lemma LastOfTolerated(t: Timing, wait: nat)
    requires wait <= t.outageToleranceMs
    ensures var n := Tolerated(t, wait);
      && (n > 0 ==> wait + (n - 1) * t.leaseRenewMs <= t.outageToleranceMs)
      && (t.leaseRenewMs > 0 ==> n > 0 && wait + n * t.leaseRenewMs > t.outageToleranceMs)
  {
    var spare, w := t.outageToleranceMs - wait, t.leaseRenewMs;
    if w > 0 {
      assert (spare / w + 1) * w == spare / w * w + w;
    }
  }

  /** The attempts made since the last answer. */
  datatype Silence = Silence(renewed: int, first: int, n: nat)

  function SilenceAfter(t: Timing, start: State, attempts: seq<Attempt>): Silence {
    if attempts == [] then Silence(start.lastRenewed, start.next, 0)
    else
      var n := |attempts| - 1;
      var s, silence := After(t, start, attempts[..n]), SilenceAfter(t, start, attempts[..n]);
      if s.stop.Some? then silence
      else if Heard(t, attempts[n]) == Renewed then
        var end := s.next + Took(t, attempts[n]);
        Silence(end, end + t.leaseRenewMs, 0)
      else silence.(n := silence.n + 1)
  }

  /** Running on, every attempt since the last answer was tolerated; stopped by silence, in time. */
  predicate InSilence(t: Timing, q: Silence, s: State) {
    && q.first >= q.renewed == s.lastRenewed
    && match s.stop
       case None =>
         && q.first + q.n * t.leaseRenewMs <= s.next <= q.first + q.n * t.leaseRenewMs + q.n * t.leaseMs
         && (q.n > 0 ==> s.next - t.leaseRenewMs <= q.renewed + t.outageToleranceMs)
       case Some(stop) =>
         stop.1 == LeaseLapsed ==>
           q.renewed + t.outageToleranceMs < stop.0 <= q.renewed + LatestStop(t, q.first - q.renewed)
  }

  lemma {:induction false} EveryRunIsInSilence(t: Timing, renewed: int, first: int, attempts: seq<Attempt>)
    requires first >= renewed
    ensures InSilence(t, SilenceAfter(t, From(renewed, first), attempts), After(t, From(renewed, first), attempts))
  {
    if attempts != [] {
      var n := |attempts| - 1;
      EveryRunIsInSilence(t, renewed, first, attempts[..n]);
      var q, s := SilenceAfter(t, From(renewed, first), attempts[..n]), After(t, From(renewed, first), attempts[..n]);
      if s.stop.None? && Heard(t, attempts[n]) != Renewed {
        OneMore(t, q, s, attempts[n]);
      }
    }
  }

  lemma OneMore(t: Timing, q: Silence, s: State, a: Attempt)
    requires InSilence(t, q, s) && s.stop.None? && Heard(t, a) != Renewed
    ensures InSilence(t, q.(n := q.n + 1), Next(t, s, a))
  {
    hide LatestBegin, Tolerated;
    assert (q.n + 1) * t.leaseRenewMs == q.n * t.leaseRenewMs + t.leaseRenewMs;
    assert (q.n + 1) * t.leaseMs == q.n * t.leaseMs + t.leaseMs;
    BeginsBy(t, q.first - q.renewed, q.n, s.next - q.renewed);
  }

  /** An attempt not stopped before it begins no later than `LatestBegin`, unless it can hang for no time at all. */
  lemma BeginsBy(t: Timing, wait: nat, n: nat, next: int)
    requires wait + n * t.leaseRenewMs <= next <= wait + n * t.leaseRenewMs + n * t.leaseMs
    requires n > 0 ==> next - t.leaseRenewMs <= t.outageToleranceMs
    ensures next <= LatestBegin(t, wait) || next + t.leaseMs <= t.outageToleranceMs
  {
    if wait <= t.outageToleranceMs {
      var most := Tolerated(t, wait);
      LastOfTolerated(t, wait);
      if t.leaseRenewMs > 0 {
        if n > most { Times(most, n - 1, t.leaseRenewMs); assert false; }
        Times(n, most, t.leaseRenewMs);
        Times(n, most, t.leaseMs);
      } else if t.leaseMs > 0 {
        Times(1, t.leaseMs, most);
      }
    } else if n > 0 {
      Times(0, n - 1, t.leaseRenewMs);
    }
  }

  /**
   * Whatever the renewals answer, over every run: running on, the next begins
   * within one wait of the tolerance; stopped by silence, the last answer was
   * longer ago than the tolerance, and the stop is no later than the latest
   * there is; and stopped by another's lease, some renewal was answered so.
   */
  lemma {:induction false} EveryRunStopsInTime(t: Timing, renewed: int, first: int, attempts: seq<Attempt>)
    requires renewed <= first <= renewed + t.leaseRenewMs
    ensures var s, q := After(t, From(renewed, first), attempts), SilenceAfter(t, From(renewed, first), attempts);
      && s.lastRenewed == q.renewed <= q.first <= q.renewed + t.leaseRenewMs
      && match s.stop
         case None => q.first <= s.next <= q.renewed + t.outageToleranceMs + t.leaseRenewMs
         case Some(stop) =>
           if stop.1 == LeaseLapsed then
             q.renewed + t.outageToleranceMs < stop.0 <= q.renewed + LatestStop(t, q.first - q.renewed)
           else exists i :: 0 <= i < |attempts| && Heard(t, attempts[i]) == Taken
  {
    hide LatestBegin;
    EveryRunIsInSilence(t, renewed, first, attempts);
    if attempts != [] {
      var n := |attempts| - 1;
      EveryRunStopsInTime(t, renewed, first, attempts[..n]);
      if exists i :: 0 <= i < n && Heard(t, attempts[..n][i]) == Taken {
        var i :| 0 <= i < n && Heard(t, attempts[..n][i]) == Taken;
        assert Heard(t, attempts[i]) == Taken;
      }
    }
  }

  lemma {:induction false} SilentThroughout(t: Timing, renewed: int, first: int, attempts: seq<Attempt>)
    requires first >= renewed && Silent(t, attempts)
    ensures var s, q := After(t, From(renewed, first), attempts), SilenceAfter(t, From(renewed, first), attempts);
      && q.renewed == renewed && q.first == first
      && match s.stop case None => q.n == |attempts| case Some(stop) => stop.1 == LeaseLapsed
  {
    if attempts != [] {
      var n := |attempts| - 1;
      SilentThroughout(t, renewed, first, attempts[..n]);
      assert Heard(t, attempts[n]) == NoAnswer;
    }
  }

  /**
   * Whatever mix of errors and hangs the renewals run into once the database
   * falls silent: the sidecar runs on for the whole tolerance, and has stopped
   * by the latest stop.
   */
  lemma SilenceStopsInTime(t: Timing, renewed: int, first: int, attempts: seq<Attempt>)
    requires first >= renewed && Silent(t, attempts)
    ensures match After(t, From(renewed, first), attempts).stop
      case None =>
        |attempts| > 0 ==> first + |attempts| * t.leaseRenewMs <= renewed + t.outageToleranceMs + t.leaseRenewMs
      case Some(stop) =>
        && stop.1 == LeaseLapsed
        && renewed + t.outageToleranceMs < stop.0 <= renewed + LatestStop(t, first - renewed)
  {
    hide LatestBegin, LatestStop;
    SilentThroughout(t, renewed, first, attempts);
    EveryRunIsInSilence(t, renewed, first, attempts);
  }

  /** `n` failing attempts that take `hung` in all. */
  function Fails(t: Timing, n: nat, hung: nat): seq<Attempt>
    requires hung <= n * t.leaseMs
  {
    if n == 0 then []
    else
      var last := if hung <= t.leaseMs then hung else t.leaseMs;
      assert (n - 1) * t.leaseMs == n * t.leaseMs - t.leaseMs;
      Fails(t, n - 1, hung - last) + [Attempt(last, NoAnswer)]
  }

  lemma OneFewer(t: Timing, n: nat)
    requires n > 0
    ensures (n - 1) * t.leaseMs == n * t.leaseMs - t.leaseMs
    ensures (n - 1) * t.leaseRenewMs == n * t.leaseRenewMs - t.leaseRenewMs
    ensures n > 1 ==> (n - 2) * t.leaseRenewMs == (n - 1) * t.leaseRenewMs - t.leaseRenewMs
  {
  }

  lemma {:induction false} FailsRun(t: Timing, renewed: int, first: int, n: nat, hung: nat)
    requires first >= renewed && hung <= n * t.leaseMs
    requires n > 0 ==> first + (n - 1) * t.leaseRenewMs + hung <= renewed + t.outageToleranceMs
    ensures Silent(t, Fails(t, n, hung))
    ensures After(t, From(renewed, first), Fails(t, n, hung))
         == State(renewed, first + n * t.leaseRenewMs + hung, None)
  {
    hide Next, After, Silent, Fails;
    if n == 0 {
      FailsNone(t, renewed, first);
    } else {
      var last := if hung <= t.leaseMs then hung else t.leaseMs;
      OneFewer(t, n);
      FailsRun(t, renewed, first, n - 1, hung - last);
      FailsAreOneMore(t, n, hung, last);
      OneMoreFails(t, From(renewed, first), Fails(t, n - 1, hung - last), last);
    }
  }

  lemma FailsNone(t: Timing, renewed: int, first: int)
    requires first >= renewed
    ensures Silent(t, Fails(t, 0, 0)) && After(t, From(renewed, first), Fails(t, 0, 0)) == State(renewed, first, None)
  {
  }

  lemma FailsAreOneMore(t: Timing, n: nat, hung: nat, last: nat)
    requires n > 0 && last <= hung <= n * t.leaseMs && last == if hung <= t.leaseMs then hung else t.leaseMs
    requires hung - last <= (n - 1) * t.leaseMs
    ensures Fails(t, n, hung) == Fails(t, n - 1, hung - last) + [Attempt(last, NoAnswer)]
  {
  }

  lemma OneMoreFails(t: Timing, start: State, before: seq<Attempt>, last: nat)
    requires Silent(t, before) && last <= t.leaseMs
    requires var s := After(t, start, before); s.stop.None? && s.next + last - s.lastRenewed <= t.outageToleranceMs
    ensures var s, all := After(t, start, before), before + [Attempt(last, NoAnswer)];
      Silent(t, all) && After(t, start, all) == s.(next := s.next + last + t.leaseRenewMs)
  {
    hide Next;
    var all := before + [Attempt(last, NoAnswer)];
    assert all[..|all| - 1] == before;
    FailsOnce(t, After(t, start, before), last);
  }

  lemma FailsOnce(t: Timing, s: State, took: nat)
    requires s.stop.None? && took <= t.leaseMs && s.next + took - s.lastRenewed <= t.outageToleranceMs
    ensures Next(t, s, Attempt(took, NoAnswer)) == s.(next := s.next + took + t.leaseRenewMs)
  {
  }

  function Attempts(t: Timing, wait: nat): nat {
    if wait > t.outageToleranceMs then 0 else Tolerated(t, wait)
  }

  /** How long the attempts before the latest begin hang in all. */
  function Hung(t: Timing, wait: nat): (hung: nat)
    ensures hung <= Attempts(t, wait) * t.leaseMs
  {
    if wait > t.outageToleranceMs then 0
    else
      LastOfTolerated(t, wait);
      LatestBegin(t, wait) - wait - Attempts(t, wait) * t.leaseRenewMs
  }

  /** They are all tolerated, and the one begun last is not, should it hang. */
  lemma HungIsTolerated(t: Timing, wait: nat)
    requires t.leaseRenewMs + t.leaseMs > 0
    ensures var n := Attempts(t, wait);
      && (n > 0 ==> wait + (n - 1) * t.leaseRenewMs + Hung(t, wait) <= t.outageToleranceMs)
      && LatestStop(t, wait) == wait + n * t.leaseRenewMs + Hung(t, wait) + t.leaseMs > t.outageToleranceMs
  {
    var n := Attempts(t, wait);
    if wait <= t.outageToleranceMs {
      LastOfTolerated(t, wait);
      assert (n - 1) * t.leaseRenewMs == n * t.leaseRenewMs - t.leaseRenewMs;
      if t.leaseRenewMs == 0 { Times(1, t.leaseMs, n); }
    }
  }

  /** A silence that ends in the latest stop: the tolerated attempts fill the tolerance, and one more hangs. */
  function Longest(t: Timing, wait: nat): seq<Attempt> {
    Fails(t, Attempts(t, wait), Hung(t, wait)) + [Attempt(t.leaseMs, NoAnswer)]
  }

  /** The bound is met, whatever the timing. */
  lemma LatestStopIsReached(t: Timing, renewed: int, first: int)
    requires first >= renewed && t.leaseRenewMs + t.leaseMs > 0
    ensures var attempts := Longest(t, first - renewed);
      && Silent(t, attempts)
      && After(t, From(renewed, first), attempts).stop
         == Some((renewed + LatestStop(t, first - renewed), LeaseLapsed))
  {
    hide LatestStop, Attempts, Hung, Fails, Next, After, Silent;
    var wait := first - renewed;
    HungIsTolerated(t, wait);
    Shift(t, renewed, first, Attempts(t, wait), Hung(t, wait));
    FailsThenHangs(t, renewed, first, Attempts(t, wait), Hung(t, wait));
  }

  lemma FailsThenHangs(t: Timing, renewed: int, first: int, n: nat, hung: nat)
    requires first >= renewed && hung <= n * t.leaseMs
    requires n > 0 ==> first + (n - 1) * t.leaseRenewMs + hung <= renewed + t.outageToleranceMs
    requires first + n * t.leaseRenewMs + hung + t.leaseMs > renewed + t.outageToleranceMs
    ensures var attempts := Fails(t, n, hung) + [Attempt(t.leaseMs, NoAnswer)];
      && Silent(t, attempts)
      && After(t, From(renewed, first), attempts).stop
         == Some((first + n * t.leaseRenewMs + hung + t.leaseMs, LeaseLapsed))
  {
    hide Fails, Next;
    FailsRun(t, renewed, first, n, hung);
    var all := Fails(t, n, hung) + [Attempt(t.leaseMs, NoAnswer)];
    assert all[..|all| - 1] == Fails(t, n, hung);
    HangStops(t, State(renewed, first + n * t.leaseRenewMs + hung, None));
  }

  lemma Shift(t: Timing, renewed: int, first: int, n: nat, hung: nat)
    requires n > 0 ==> first - renewed + (n - 1) * t.leaseRenewMs + hung <= t.outageToleranceMs
    ensures n > 0 ==> first + (n - 1) * t.leaseRenewMs + hung <= renewed + t.outageToleranceMs
  {
  }

  lemma HangStops(t: Timing, s: State)
    requires s.stop.None? && s.next + t.leaseMs - s.lastRenewed > t.outageToleranceMs
    ensures Next(t, s, Attempt(t.leaseMs, NoAnswer)).stop == Some((s.next + t.leaseMs, LeaseLapsed))
  {
  }

  /**
   * One renewal of a sidecar not yet stopped, by what the database said and
   * when: an answer in time starts the tolerance again or stops it at once; a
   * late one, and none, only stop it once the last is too long ago.
   */
  lemma EachRenewalCounts(t: Timing, s: State, a: Attempt)
    requires s.stop.None?
    ensures var end, after := s.next + (if a.took < t.leaseMs then a.took else t.leaseMs), Next(t, s, a);
      && after.next == end + t.leaseRenewMs
      && (after.lastRenewed == if a.took < t.leaseMs && a.answer.Renewed? then end else s.lastRenewed)
      && (after.stop == Some((end, LeaseLost)) <==> a.took < t.leaseMs && a.answer.Taken?)
      && (after.stop == Some((end, LeaseLapsed)) <==>
            (a.took >= t.leaseMs || a.answer.NoAnswer?) && end - s.lastRenewed > t.outageToleranceMs)
      && (after.stop.Some? ==> after.stop.value.0 == end)
  {
  }

  // ---- Against recovery ---------------------------------------------------------------

  /** The last moment at which no other sidecar may yet recover a Job heartbeated at `heartbeat`. */
  function SafeUntil(t: Timing, heartbeat: int): int {
    heartbeat + t.jobLeaseMs + t.outageToleranceMs
  }

  predicate Safe(t: Timing) {
    t.leaseRenewMs + t.leaseMs + t.jobHeartbeatMs <= t.jobLeaseMs
  }

  /**
   * With safe timing, however the renewals go, a sidecar stopped by silence
   * has been told so while no other may yet recover a Job it heartbeated
   * within a heartbeat period of the last renewal answered.
   */
  lemma StopsBeforeRecovery(t: Timing, renewed: int, first: int, attempts: seq<Attempt>, heartbeat: int)
    requires Safe(t) && renewed <= first <= renewed + t.leaseRenewMs
    requires heartbeat >= After(t, From(renewed, first), attempts).lastRenewed - t.jobHeartbeatMs
    ensures match After(t, From(renewed, first), attempts).stop
      case Some(stop) => stop.1 == LeaseLapsed ==> stop.0 <= SafeUntil(t, heartbeat)
      case None => true
  {
    EveryRunStopsInTime(t, renewed, first, attempts);
  }

  /** In every silence, the sidecar is told to stop while no other may yet recover what it heartbeated. */
  ghost predicate StopsInTime(t: Timing, renewed: int, first: int)
    requires first >= renewed
  {
    forall attempts, heartbeat: int :: Silent(t, attempts) && heartbeat >= renewed - t.jobHeartbeatMs ==>
      match After(t, From(renewed, first), attempts).stop
      case Some(stop) => stop.0 <= SafeUntil(t, heartbeat)
      case None => true
  }

  /** Whatever the timing: every silence stops the sidecar in time exactly when the latest stop is in time. */
  lemma StopsInTimeExactlyWhen(t: Timing, renewed: int, first: int)
    requires first >= renewed && t.leaseRenewMs + t.leaseMs > 0
    ensures StopsInTime(t, renewed, first)
       <==> renewed + LatestStop(t, first - renewed) <= SafeUntil(t, renewed - t.jobHeartbeatMs)
  {
    hide LatestBegin, Longest;
    LatestStopIsReached(t, renewed, first);
    forall attempts, heartbeat: int | Silent(t, attempts) && heartbeat >= renewed - t.jobHeartbeatMs
      && renewed + LatestStop(t, first - renewed) <= SafeUntil(t, renewed - t.jobHeartbeatMs)
      ensures match After(t, From(renewed, first), attempts).stop
        case Some(stop) => stop.0 <= SafeUntil(t, heartbeat)
        case None => true
    {
      SilenceStopsInTime(t, renewed, first, attempts);
    }
  }

  /**
   * When a renewal may hang for at least the wait between two, and one fits
   * the tolerance, safe timing is exactly what the promise needs.
   */
  lemma SafeExactlyWhen(t: Timing, renewed: int, first: int)
    requires t.leaseMs >= t.leaseRenewMs > 0 && renewed <= first <= renewed + t.outageToleranceMs
    ensures StopsInTime(t, renewed, first) <==> Safe(t)
  {
    StopsInTimeExactlyWhen(t, renewed, first);
    var wait := first - renewed;
    LastOfTolerated(t, wait);
    Times(1, Tolerated(t, wait), t.leaseMs);
  }

  /** The sidecar's own numbers are safe with no margin: a millisecond more on any of the three is not. */
  lemma SidecarTimingIsJustSafe(more: nat)
    ensures var t := SIDECAR_TIMING;
      && LatestStop(t, 0) == LatestStop(t, t.leaseRenewMs) == SafeUntil(t, 0 - t.jobHeartbeatMs)
      && (StopsInTime(t.(leaseMs := t.leaseMs + more), 0, 0) <==> more == 0)
      && (StopsInTime(t.(jobHeartbeatMs := t.jobHeartbeatMs + more), 0, 0) <==> more == 0)
      && (t.leaseRenewMs + more <= t.leaseMs ==>
            (StopsInTime(t.(leaseRenewMs := t.leaseRenewMs + more), 0, 0) <==> more == 0))
  {
    hide StopsInTime;
    var t := SIDECAR_TIMING;
    SafeExactlyWhen(t.(leaseMs := t.leaseMs + more), 0, 0);
    SafeExactlyWhen(t.(jobHeartbeatMs := t.jobHeartbeatMs + more), 0, 0);
    if t.leaseRenewMs + more <= t.leaseMs {
      SafeExactlyWhen(t.(leaseRenewMs := t.leaseRenewMs + more), 0, 0);
    }
  }

  /** An answered renewal starts the tolerance again; a refused one stops the sidecar at once. */
  class Renewal {
    const timing: Timing
    var lastRenewed: int
    var next: int
    var stop: Option<(int, StopReason)>

    function Abs(): State
      reads this
    {
      State(lastRenewed, next, stop)
    }

    constructor (timing: Timing, now: int)
      ensures Abs() == From(now, now) && this.timing == timing
    {
      this.timing := timing;
      lastRenewed, next, stop := now, now, None;
    }

    method Renew(a: Attempt)
      requires stop == None
      modifies this
      ensures Abs() == Next(timing, old(Abs()), a)
    {
      var now := next + Took(timing, a);
      next := now + timing.leaseRenewMs;
      match Heard(timing, a) {
        case Renewed => lastRenewed := now;
        case Taken => stop := Some((now, LeaseLost));
        case NoAnswer =>
          if now - lastRenewed > timing.outageToleranceMs { stop := Some((now, LeaseLapsed)); }
      }
    }
  }
}
