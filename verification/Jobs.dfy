/**
 * One Job's row, and every statement that changes it: claim, complete, fail,
 * cancel, put back, recover, the author's Retry, and the events a run writes.
 * The row is modelled with its log of Job Events, which two of the statements
 * read back: `FREE_LOST_RUNS` counts the lost requeues in it, and the author's
 * Retry looks in it for a post that went out.
 *
 * `RowAction` lists the statements, each as one transaction.
 */
module Jobs {
  import opened Common

  type Holder = string

  datatype Lane = Default | Publish

  /** A kind's policy, as the registry holds it. */
  datatype Kind = Kind(lane: Lane, maxAttempts: nat, posting: bool, neverRequeued: bool, resumable: bool)

  datatype Status = Queued | Running | Succeeded | Failed | Interrupted | Cancelled

  datatype JobEvent =
    | Added
    | Retried
    | Started
    | Retrying
    | Requeued(lost: bool)
    | Ended(how: Status)
    | Posted
    | PostChecked(found: bool)

  datatype Job = Job(
    kind: Kind, status: Status, attempt: nat, maxAttempts: nat, holder: Option<Holder>, log: seq<JobEvent>)

  const FREE_LOST_RUNS: nat := 5

  /** What the definitions of kinds can build: never-re-run kinds have one attempt and do not resume. */
  predicate Defined(k: Kind) {
    && k.maxAttempts >= 1
    && (k.posting ==> k.lane == Default && !k.neverRequeued)
    && (IsNeverReRun(k) ==> k.maxAttempts == 1 && !k.resumable)
    && (k.lane == Publish ==> k.neverRequeued)
  }

  predicate IsNeverReRun(k: Kind) {
    k.posting || k.neverRequeued
  }

  // ---- Settling -----------------------------------------------------------------------

  /** How a handler's run ended. */
  datatype Exit = Success | Failure | AuthorCancelled | Cut

  /** The write that records it. */
  datatype Write = Complete | Cancel | Return | Fail(interrupted: bool, mayRetry: bool, resumable: bool)

  /** Which write `settle` makes for a run of kind `k`, in a sidecar that is `stopping` or not. */
  function SettleWrite(k: Kind, exit: Exit, stopping: bool): Write {
    match exit
    case Success => Complete
    case AuthorCancelled => Cancel
    case Failure => Fail(false, !k.posting, k.resumable)
    case Cut =>
      if stopping && !IsNeverReRun(k) then Return
      else Fail(true, !k.posting && !IsNeverReRun(k), k.resumable)
  }

  /** `w` is a write some ending of a run of kind `k` makes. */
  predicate Allowed(k: Kind, w: Write) {
    exists exit, stopping :: w == SettleWrite(k, exit, stopping)
  }

  /** The row is still `h`'s to settle. */
  predicate Held(j: Job, h: Holder) {
    j.status == Running && j.holder == Some(h)
  }

  function End(j: Job, how: Status): Job {
    j.(status := how, holder := None, log := j.log + [Ended(how)])
  }

  function PutBack(j: Job, attempt: nat, event: JobEvent): Job {
    j.(status := Queued, attempt := attempt, holder := None, log := j.log + [event])
  }

  /** The retry rule. */
  function SettledFailure(j: Job, interrupted: bool, mayRetry: bool, resumable: bool): Job {
    if mayRetry && interrupted && resumable && Count(j.log, Requeued(true)) < FREE_LOST_RUNS then
      PutBack(j, j.attempt, Requeued(true))
    else if mayRetry && j.attempt < j.maxAttempts then
      PutBack(j, j.attempt + 1, Retrying)
    else
      End(j, if interrupted then Interrupted else Failed)
  }

  /** A settling write: nothing at all unless the row is still held. */
  function Written(j: Job, h: Holder, w: Write): Job {
    if !Held(j, h) then j
    else match w
      case Complete => End(j, Succeeded)
      case Cancel => End(j, Cancelled)
      case Return => PutBack(j, j.attempt, Requeued(false))
      case Fail(interrupted, mayRetry, resumable) => SettledFailure(j, interrupted, mayRetry, resumable)
  }

  // ---- The other statements -----------------------------------------------------------

  function Enqueued(k: Kind, spent: nat): Job
    requires spent < k.maxAttempts
  {
    Job(k, Queued, 1, k.maxAttempts - spent, None, [Added])
  }

  function Claimed(j: Job, h: Holder): Job {
    if j.status != Queued then j
    else j.(status := Running, holder := Some(h), log := j.log + [Started])
  }

  /** Recovery of a row whose lease ran out: an interrupted attempt, by the retry rule. */
  function Recovered(j: Job): Job {
    if j.status != Running then j
    else SettledFailure(j, true, !IsNeverReRun(j.kind), j.kind.resumable)
  }

  /** The row's latest run is known to have gone out. */
  predicate WentOut(log: seq<JobEvent>) {
    log != [] && log[|log| - 1] != Started
    && (log[|log| - 1] in [Posted, PostChecked(true)] || WentOut(log[..|log| - 1]))
  }

  datatype RetryOutcome = RetryQueued | NotAPost | NotRetryable | Stale | AlreadyWentOut | ParentNotSucceeded

  /** The author's Retry of run `attempt`; `parentOk`: what the Job waits on, if anything, succeeded. */
  function RetryOutcomeOf(j: Job, attempt: nat, parentOk: bool): RetryOutcome {
    if !j.kind.posting then NotAPost
    else if j.status != Failed && j.status != Interrupted then NotRetryable
    else if j.attempt != attempt then Stale
    else if WentOut(j.log) then AlreadyWentOut
    else if !parentOk then ParentNotSucceeded
    else RetryQueued
  }

  function AfterRetry(j: Job, attempt: nat, parentOk: bool): Job {
    if RetryOutcomeOf(j, attempt, parentOk) != RetryQueued then j
    else PutBack(j.(maxAttempts := j.attempt + 1), j.attempt + 1, Retried)
  }

  // ---- What every statement keeps -----------------------------------------------------

  datatype RowAction =
    | Keep
    | Claim(holder: Holder)
    | Settle(from: Holder, write: Write)
    | Recover
    | Retry(seen: nat, parentOk: bool)
    | CancelQueued
    | FailQueued
    | NotePosted
    | NoteCheck(found: bool)

  function Act(j: Job, a: RowAction): Job {
    match a
    case Keep => j
    case Claim(h) => Claimed(j, h)
    case Settle(h, w) => Written(j, h, w)
    case Recover => Recovered(j)
    case Retry(seen, parentOk) => AfterRetry(j, seen, parentOk)
    case CancelQueued => if j.status == Queued then End(j, Cancelled) else j
    case FailQueued => if j.status == Queued then End(j, Failed) else j
    case NotePosted => j.(log := j.log + [Posted])
    case NoteCheck(found) => j.(log := j.log + [PostChecked(found)])
  }

  /** Only writes the sidecar makes for a row's kind ever reach it. */
  predicate Lawful(k: Kind, a: RowAction) {
    a.Settle? ==> Allowed(k, a.write)
  }

  function Starts(j: Job): nat {
    Count(j.log, Started)
  }

  /** What a row's starts are paid with: its attempts, its lost runs put back, its deliberate stops. */
  function Payment(j: Job): nat
  {
    j.attempt + Count(j.log, Requeued(true)) + Count(j.log, Requeued(false))
  }

  /** A start, and the start a queued row waits for, each cost one; and a row not yet settled has had all it paid for. */
  predicate Paid(j: Job) {
    var starts := Starts(j) + (if j.status == Queued then 1 else 0);
    && starts <= Payment(j)
    && (!j.kind.posting && (j.status == Queued || j.status == Running) ==> starts == Payment(j))
  }

  /** The attempts and the free lost runs stay inside what the kind grants. */
  predicate Granted(j: Job) {
    && 1 <= j.attempt <= j.maxAttempts <= j.kind.maxAttempts + Count(j.log, Retried)
    && Count(j.log, Requeued(true)) <= (if j.kind.resumable then FREE_LOST_RUNS else 0)
    && (!j.kind.posting ==> Count(j.log, Retried) == 0)
  }

  /** A never-re-run kind is never put back, and has no attempt left beyond the running one. */
  predicate Once(j: Job) {
    IsNeverReRun(j.kind) ==> j.attempt == j.maxAttempts && Count(j.log, Requeued(false)) == 0
  }

  predicate Sound(j: Job) {
    Defined(j.kind) && Paid(j) && Granted(j) && Once(j)
  }

  /** What `e` at the end of the log does to every count. */
  lemma LogGrows(log: seq<JobEvent>, e: JobEvent)
    ensures Count(log + [e], Started) == Count(log, Started) + (if e == Started then 1 else 0)
    ensures Count(log + [e], Retried) == Count(log, Retried) + (if e == Retried then 1 else 0)
    ensures Count(log + [e], Requeued(true)) == Count(log, Requeued(true)) + (if e == Requeued(true) then 1 else 0)
    ensures Count(log + [e], Requeued(false)) == Count(log, Requeued(false)) + (if e == Requeued(false) then 1 else 0)
  {
    CountOneMore(log, e, Started);
    CountOneMore(log, e, Retried);
    CountOneMore(log, e, Requeued(true));
    CountOneMore(log, e, Requeued(false));
  }

  lemma FailureKeepsSound(j: Job, interrupted: bool, mayRetry: bool)
    requires Sound(j) && j.status == Running
    requires mayRetry ==> !j.kind.posting && !(IsNeverReRun(j.kind) && interrupted)
    ensures Sound(SettledFailure(j, interrupted, mayRetry, j.kind.resumable))
  {
    hide Count;
    LogGrows(j.log, Requeued(true));
    LogGrows(j.log, Retrying);
    LogGrows(j.log, Ended(if interrupted then Interrupted else Failed));
  }

  lemma WriteKeepsSound(j: Job, h: Holder, w: Write)
    requires Sound(j) && Allowed(j.kind, w)
    ensures Sound(Written(j, h, w))
  {
    hide Count, SettledFailure;
    if Held(j, h) {
      match w {
        case Complete => LogGrows(j.log, Ended(Succeeded));
        case Cancel => LogGrows(j.log, Ended(Cancelled));
        case Return => LogGrows(j.log, Requeued(false));
        case Fail(interrupted, mayRetry, resumable) => FailureKeepsSound(j, interrupted, mayRetry);
      }
    }
  }

  lemma RetryKeepsSound(j: Job, seen: nat, parentOk: bool)
    requires Sound(j)
    ensures Sound(AfterRetry(j, seen, parentOk))
  {
    hide Count, WentOut;
    LogGrows(j.log, Retried);
  }

  lemma ActKeepsSound(j: Job, a: RowAction)
    requires Sound(j) && Lawful(j.kind, a)
    ensures Sound(Act(j, a)) && Act(j, a).kind == j.kind
  {
    hide Count, SettledFailure, AfterRetry, Written, Allowed, WentOut;
    match a {
      case Keep =>
      case Claim(h) => LogGrows(j.log, Started);
      case Settle(h, w) => WriteKeepsSound(j, h, w); KindStays(j, a);
      case Recover => if j.status == Running { FailureKeepsSound(j, true, !IsNeverReRun(j.kind)); } KindStays(j, a);
      case Retry(seen, parentOk) => RetryKeepsSound(j, seen, parentOk); KindStays(j, a);
      case CancelQueued => LogGrows(j.log, Ended(Cancelled));
      case FailQueued => LogGrows(j.log, Ended(Failed));
      case NotePosted => LogGrows(j.log, Posted);
      case NoteCheck(found) => LogGrows(j.log, PostChecked(found));
    }
  }

  lemma KindStays(j: Job, a: RowAction)
    ensures Act(j, a).kind == j.kind
  {
    hide Count, WentOut;
  }

  lemma EnqueuedIsSound(k: Kind, spent: nat)
    requires Defined(k) && spent < k.maxAttempts
    ensures Sound(Enqueued(k, spent)) && Starts(Enqueued(k, spent)) == 0
  {
    hide Count;
    FreshLog(Started);
    FreshLog(Retried);
    FreshLog(Requeued(true));
    FreshLog(Requeued(false));
  }

  lemma FreshLog(e: JobEvent)
    requires e != Added
    ensures Count([Added], e) == 0
  {
    assert [Added][..0] == [];
  }

  /**
   * A run that lost its lease and settles itself, and one that recovery
   * settles for it, leave the same row.
   */
  lemma RecoverySettlesAsALostLease(j: Job, h: Holder)
    requires Held(j, h)
    ensures Recovered(j) == Written(j, h, SettleWrite(j.kind, Cut, false))
  {
    hide Count;
  }

  /**
   * What becomes of a held row, by how its run ended. A stop on purpose spends
   * no attempt; a lost run of a resumable kind spends none while free ones are
   * left; any other unsuccessful run spends one, if one is left; and a kind
   * that is never re-run ends here, however it was cut off.
   */
  lemma HowARunEnds(j: Job, h: Holder, exit: Exit, stopping: bool)
    requires Sound(j) && Held(j, h)
    ensures var after := Written(j, h, SettleWrite(j.kind, exit, stopping));
      var lost := Count(j.log, Requeued(true));
      match exit
      case Success => after.status == Succeeded
      case AuthorCancelled => after.status == Cancelled
      case Failure =>
        if j.kind.posting || j.attempt == j.maxAttempts then after.status == Failed
        else after.status == Queued && after.attempt == j.attempt + 1
      case Cut =>
        if IsNeverReRun(j.kind) then after.status == Interrupted
        else if stopping then after.status == Queued && after.attempt == j.attempt && Count(after.log, Requeued(true)) == lost
        else if j.kind.resumable && lost < FREE_LOST_RUNS then
          after.status == Queued && after.attempt == j.attempt && Count(after.log, Requeued(true)) == lost + 1
        else if j.attempt == j.maxAttempts then after.status == Interrupted
        else after.status == Queued && after.attempt == j.attempt + 1
  {
    hide Count, Paid;
    LogGrows(j.log, Requeued(true));
    LogGrows(j.log, Requeued(false));
  }

  // ---- What moves a row ----------------------------------------------------------------

  /**
   * The author's Retry changes a row exactly when it is a post that ended
   * unsuccessfully, whose latest run is the one the author saw and is not
   * known to have gone out, and what it waits on succeeded. That run is then
   * its last, unless the author retries that one too.
   */
  lemma RetriedExactlyWhen(j: Job, seen: nat, parentOk: bool)
    ensures Act(j, Retry(seen, parentOk)) != j <==>
      j.kind.posting && (j.status == Failed || j.status == Interrupted)
      && j.attempt == seen && !WentOut(j.log) && parentOk
    ensures var after := Act(j, Retry(seen, parentOk));
      after != j ==> after == Job(j.kind, Queued, seen + 1, seen + 1, None, j.log + [Retried])
  {
    hide WentOut;
  }

  /**
   * A row's life: what takes it out of the queue, out of a sidecar's hands,
   * and back from its end. Nothing else does.
   */
  lemma RowMovesExactlyWhen(j: Job, a: RowAction)
    ensures j.status == Queued ==>
      (Act(j, a).status != Queued <==> a.Claim? || a.CancelQueued? || a.FailQueued?)
    ensures j.status == Queued ==>
      match a
      case Claim(h) => Held(Act(j, a), h)
      case CancelQueued => Act(j, a).status == Cancelled
      case FailQueued => Act(j, a).status == Failed
      case _ => true
    ensures j.status == Running ==>
      (Act(j, a).status == Running && Act(j, a).holder == j.holder <==>
         !(a.Recover? || (a.Settle? && j.holder == Some(a.from))))
    ensures j.status != Queued && j.status != Running ==>
      (Act(j, a).status != j.status <==> a.Retry? && Act(j, a) != j)
    ensures Act(j, a).attempt >= j.attempt
    ensures j.log <= Act(j, a).log && |Act(j, a).log| <= |j.log| + 1
  {
    hide WentOut, Count;
  }

  /** Only a running row is held. */
  predicate HeldWhileRunning(j: Job) {
    j.holder.Some? <==> j.status == Running
  }

  /**
   * Every change of a row is told by one event, and a row nothing changed
   * tells nothing: a start, a way back into the queue, the end it came to, or
   * the note that was written.
   */
  lemma EachChangeIsLogged(j: Job, a: RowAction)
    requires HeldWhileRunning(j)
    ensures var after := Act(j, a);
      && HeldWhileRunning(after)
      && (after.log == j.log <==> after == j)
      && (after != j ==>
            after.log == j.log + [after.log[|j.log|]] &&
            match after.log[|j.log|]
            case Started => j.status == Queued && after.status == Running
            case Retried => j.status in [Failed, Interrupted] && after.status == Queued && after.attempt == j.attempt + 1
            case Retrying => j.status == Running && after.status == Queued && after.attempt == j.attempt + 1
            case Requeued(_) => j.status == Running && after.status == Queued && after.attempt == j.attempt
            case Ended(how) => j.status in [Queued, Running] && after.status == how && how !in [Queued, Running]
            case Posted => a.NotePosted? && after == j.(log := after.log)
            case PostChecked(found) => a == NoteCheck(found) && after == j.(log := after.log)
            case Added => false)
    ensures a.NotePosted? || a.NoteCheck? ==> Act(j, a) != j
    ensures a.NotePosted? || a == NoteCheck(true) ==> WentOut(Act(j, a).log)
  {
    hide Count;
  }

  // ---- A post that went out -----------------------------------------------------------

  /** That is: a posted event, or a check that found it, stands in the log after every start. */
  lemma {:induction false} WentOutMeansSinceTheLastStart(log: seq<JobEvent>)
    ensures WentOut(log) <==>
      exists i :: 0 <= i < |log| && (log[i] == Posted || log[i] == PostChecked(true)) && NoStartAfter(log, i)
  {
    if log != [] {
      var front, last := log[..|log| - 1], log[|log| - 1];
      WentOutMeansSinceTheLastStart(front);
      if WentOut(front) && last != Started {
        var i :| 0 <= i < |front| && (front[i] == Posted || front[i] == PostChecked(true)) && NoStartAfter(front, i);
        assert NoStartAfter(log, i);
      }
      if last == Posted || last == PostChecked(true) { assert NoStartAfter(log, |log| - 1); }
      forall i | 0 <= i < |front| && NoStartAfter(log, i) ensures NoStartAfter(front, i) && last != Started {
        assert log[|log| - 1] != Started;
      }
    }
  }

  predicate NoStartAfter(log: seq<JobEvent>, i: nat)
    requires i < |log|
  {
    forall j :: i < j < |log| ==> log[j] != Started
  }

  /** A post whose latest run is known to have gone out, and that is not waiting to run. */
  predicate OutAndNotQueued(j: Job) {
    j.kind.posting && WentOut(j.log) && j.status != Queued
  }

  lemma OutStays(log: seq<JobEvent>, e: JobEvent)
    requires WentOut(log) && e != Started
    ensures WentOut(log + [e])
  {
    assert (log + [e])[..|log + [e]| - 1] == log;
  }

  lemma EndedStaysOut(j: Job, how: Status)
    requires OutAndNotQueued(j) && how != Queued
    ensures OutAndNotQueued(End(j, how)) && Starts(End(j, how)) == Starts(j)
  {
    hide Count, WentOut;
    OutStays(j.log, Ended(how));
    LogGrows(j.log, Ended(how));
  }

  lemma ActKeepsOut(j: Job, a: RowAction)
    requires OutAndNotQueued(j) && Lawful(j.kind, a)
    ensures OutAndNotQueued(Act(j, a)) && Starts(Act(j, a)) == Starts(j)
  {
    hide Count, WentOut;
    match a {
      case Settle(h, w) =>
        if Held(j, h) {
          EndedStaysOut(j, Succeeded); EndedStaysOut(j, Cancelled);
          EndedStaysOut(j, Failed); EndedStaysOut(j, Interrupted);
        }
      case Recover => if j.status == Running { EndedStaysOut(j, Interrupted); }
      case NotePosted => OutStays(j.log, Posted); LogGrows(j.log, Posted);
      case NoteCheck(found) => OutStays(j.log, PostChecked(found)); LogGrows(j.log, PostChecked(found));
      case _ =>
    }
  }

  // ---- Writing the same ending twice --------------------------------------------------

  /** The write tried again changes the row exactly when the row is held by that sidecar once more. */
  lemma SecondWriteChangesOnlyAHeldRow(j: Job, h: Holder, w: Write)
    ensures Written(j, h, w) != j <==> Held(j, h)
  {
    hide Count;
  }

  lemma WrittenIsLetGo(j: Job, h: Holder, w: Write)
    ensures !Held(Written(j, h, w), h)
  {
    hide Count;
  }

  lemma NotHeldStays(j: Job, h: Holder, a: RowAction)
    requires !Held(j, h) && a != Claim(h)
    ensures !Held(Act(j, a), h)
  {
    hide Count, WentOut;
  }
}
