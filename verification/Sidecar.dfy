/**
 * The sidecars that run the Jobs: lanes, the map of running Jobs, settling
 * with retries, deliberate stops, deaths, and recovery by another sidecar.
 *
 * A step of the state machine is one thing the database or one fiber does, so
 * a run of `Next` is any interleaving of them. A run (a forked `runJob`) works,
 * then settles: its write may land without its answer and be tried again, and
 * may be given up. A claim may land without its answer too. Time is not
 * modelled: a lease may lapse, and recovery may take a row, at any moment.
 */
module Sidecar {
  import opened Common
  import opened Jobs

  type JobId = string

  datatype Phase = Working | Settling(write: Write) | Over

  datatype Run = Run(holder: Holder, id: JobId, lane: Lane, phase: Phase)

  /** An entry of the `running` map: its lane, and which run it is. */
  datatype Entry = Entry(lane: Lane, run: nat)

  datatype Proc = Proc(alive: bool, stopping: bool, running: map<JobId, Entry>)

  /** `lease`: who holds it now; `leased`: whose name is on it, lapsed or not. */
  datatype State = State(
    rows: map<JobId, Job>, procs: map<Holder, Proc>, runs: seq<Run>, lease: Option<Holder>, leased: Option<Holder>)

  datatype Event =
    | Boot(holder: Holder)
    | LeaseLapses
    | Renews(holder: Holder)
    | Enqueue(id: JobId, kind: Kind, spent: nat)
    | ClaimAnswered(holder: Holder, id: JobId)
    | ClaimUnanswered(holder: Holder, id: JobId)
    | Finish(run: nat, exit: Exit)
    | WriteLands(run: nat, answered: bool)
    | WriteGivenUp(run: nat)
    | Recovers(holder: Holder, id: JobId)
    | Elsewhere(id: JobId, action: RowAction)
    | StopAsked(holder: Holder)
    | Left(holder: Holder)
    | Dies(holder: Holder)

  const INIT := State(map[], map[], [], None, None)

  // ---- Lanes --------------------------------------------------------------------------

  function InLane(running: map<JobId, Entry>, lane: Lane): set<JobId> {
    set id | id in running && running[id].lane == lane
  }

  predicate LaneHasRoom(lane: Lane, n: nat) {
    lane == Default || n < 1
  }

  predicate HasRoom(p: Proc, lane: Lane) {
    LaneHasRoom(lane, |InLane(p.running, lane)|)
  }

  function Registered(p: Proc, id: JobId, entry: Entry): Proc {
    p.(running := p.running[id := entry])
  }

  function Forgotten(p: Proc, id: JobId): Proc {
    p.(running := p.running - {id})
  }

  // ---- The machine --------------------------------------------------------------------

  predicate Alive(s: State, h: Holder) {
    h in s.procs && s.procs[h].alive
  }

  predicate CanClaim(s: State, h: Holder, id: JobId) {
    Alive(s, h) && id in s.rows && s.rows[id].status == Queued && HasRoom(s.procs[h], s.rows[id].kind.lane)
  }

  predicate IsSettling(s: State, r: nat) {
    && r < |s.runs| && s.runs[r].phase.Settling?
    && s.runs[r].id in s.rows && s.runs[r].holder in s.procs
  }

  /** The statements other parts of the system send: the author's, the event writers', a parent's. */
  predicate FromElsewhere(a: RowAction) {
    a.Retry? || a.CancelQueued? || a.FailQueued? || a.NotePosted? || a.NoteCheck?
  }

  predicate Enabled(s: State, e: Event) {
    match e
    case Boot(h) => h !in s.procs && s.lease == None
    case LeaseLapses => true
    case Renews(h) => Alive(s, h) && s.leased == Some(h)
    case Enqueue(id, k, spent) => id !in s.rows && Defined(k) && spent < k.maxAttempts
    case ClaimAnswered(h, id) => CanClaim(s, h, id)
    case ClaimUnanswered(h, id) => CanClaim(s, h, id)
    case Finish(r, exit) =>
      && r < |s.runs| && s.runs[r].phase.Working?
      && s.runs[r].id in s.rows && s.runs[r].holder in s.procs
    case WriteLands(r, answered) => IsSettling(s, r)
    case WriteGivenUp(r) => IsSettling(s, r)
    case Recovers(h, id) => Alive(s, h) && id in s.rows && id !in s.procs[h].running
    case Elsewhere(id, a) => id in s.rows && FromElsewhere(a)
    case StopAsked(h) => Alive(s, h)
    case Left(h) => Alive(s, h) && s.procs[h].stopping && AllOver(s.runs, h)
    case Dies(h) => Alive(s, h)
  }

  predicate AllOver(runs: seq<Run>, h: Holder) {
    forall i :: 0 <= i < |runs| && runs[i].holder == h ==> runs[i].phase == Over
  }

  function ActOn(s: State, id: JobId, a: RowAction): State
    requires id in s.rows
  {
    s.(rows := s.rows[id := Act(s.rows[id], a)])
  }

  function WithPhase(s: State, r: nat, phase: Phase): State
    requires r < |s.runs|
  {
    s.(runs := s.runs[r := s.runs[r].(phase := phase)])
  }

  function WithProc(s: State, h: Holder, p: Proc): State {
    s.(procs := s.procs[h := p])
  }

  /** The run is over, and `running.delete(job.id)` takes out whatever entry its Job has. */
  function RunOver(s: State, r: nat): State
    requires r < |s.runs| && s.runs[r].holder in s.procs
  {
    var run := s.runs[r];
    WithProc(WithPhase(s, r, Over), run.holder, Forgotten(s.procs[run.holder], run.id))
  }

  function Killed(runs: seq<Run>, h: Holder): (k: seq<Run>)
    ensures |k| == |runs|
    ensures forall i :: 0 <= i < |runs| ==>
      k[i] == if runs[i].holder == h then runs[i].(phase := Over) else runs[i]
  {
    if runs == [] then []
    else
      var last := runs[|runs| - 1];
      Killed(runs[..|runs| - 1], h) + [if last.holder == h then last.(phase := Over) else last]
  }

  function Launch(s: State, h: Holder, id: JobId): State
    requires id in s.rows && h in s.procs
  {
    var lane := s.rows[id].kind.lane;
    WithProc(s, h, Registered(s.procs[h], id, Entry(lane, |s.runs|))).(runs := s.runs + [Run(h, id, lane, Working)])
  }

  function Step(s: State, e: Event): State
    requires Enabled(s, e)
  {
    match e
    case Boot(h) => WithProc(s, h, Proc(true, false, map[])).(lease := Some(h), leased := Some(h))
    case LeaseLapses => s.(lease := None)
    case Renews(h) => s.(lease := Some(h))
    case Enqueue(id, k, spent) => s.(rows := s.rows[id := Enqueued(k, spent)])
    case ClaimAnswered(h, id) => ActOn(Launch(s, h, id), id, Claim(h))
    case ClaimUnanswered(h, id) => ActOn(s, id, Claim(h))
    case Finish(r, exit) =>
      var run := s.runs[r];
      WithPhase(s, r, Settling(SettleWrite(s.rows[run.id].kind, exit, s.procs[run.holder].stopping)))
    case WriteLands(r, answered) =>
      var run := s.runs[r];
      var landed := ActOn(s, run.id, Settle(run.holder, run.phase.write));
      if answered then RunOver(landed, r) else landed
    case WriteGivenUp(r) => RunOver(s, r)
    case Recovers(h, id) => ActOn(s, id, Recover)
    case Elsewhere(id, a) => ActOn(s, id, a)
    case StopAsked(h) => WithProc(s, h, s.procs[h].(stopping := true))
    case Left(h) =>
      WithProc(s, h, Proc(false, true, map[])).(lease := if s.lease == Some(h) then None else s.lease)
    case Dies(h) =>
      WithProc(s, h, Proc(false, s.procs[h].stopping, map[])).(runs := Killed(s.runs, h))
  }

  function Next(s: State, e: Event): State {
    if Enabled(s, e) then Step(s, e) else s
  }

  function After(s: State, events: seq<Event>): State {
    if events == [] then s else Next(After(s, events[..|events| - 1]), events[|events| - 1])
  }

  // ---- Every row lives a lawful history -----------------------------------------------

  /** Which statement `e` is for the row `id`. */
  function ActionOn(s: State, e: Event, id: JobId): RowAction {
    if !Enabled(s, e) then Keep
    else match e
      case ClaimAnswered(h, i) => if i == id then Claim(h) else Keep
      case ClaimUnanswered(h, i) => if i == id then Claim(h) else Keep
      case WriteLands(r, answered) =>
        if s.runs[r].id == id then Settle(s.runs[r].holder, s.runs[r].phase.write) else Keep
      case Recovers(h, i) => if i == id then Recover else Keep
      case Elsewhere(i, a) => if i == id then a else Keep
      case _ => Keep
  }

  lemma RowFollows(s: State, e: Event, id: JobId)
    requires id in s.rows
    ensures id in Next(s, e).rows && Next(s, e).rows[id] == Act(s.rows[id], ActionOn(s, e, id))
  {
    hide Claimed, Written, Recovered, AfterRetry, Killed, HasRoom, SettleWrite, End, Defined;
  }

  lemma NewRow(s: State, e: Event, id: JobId)
    requires id !in s.rows && id in Next(s, e).rows
    ensures e.Enqueue? && Defined(e.kind) && e.spent < e.kind.maxAttempts && e.id == id
    ensures Next(s, e).rows[id] == Enqueued(e.kind, e.spent)
  {
    hide Act, Killed, HasRoom, SettleWrite, Defined;
  }

  predicate RowsSound(s: State) {
    forall id :: id in s.rows ==> Sound(s.rows[id])
  }

  /** Every run is of a row, in that row's lane, and settles with a write of that row's kind. */
  predicate RunFits(s: State, r: nat)
    requires r < |s.runs|
  {
    var run := s.runs[r];
    && run.id in s.rows && run.holder in s.procs
    && s.rows[run.id].kind.lane == run.lane
    && (run.phase.Settling? ==> Allowed(s.rows[run.id].kind, run.phase.write))
  }

  predicate RunsFit(s: State) {
    forall r :: 0 <= r < |s.runs| ==> RunFits(s, r)
  }

  function IdsOf(runs: seq<Run>): seq<JobId> {
    seq(|runs|, i requires 0 <= i < |runs| => runs[i].id)
  }

  /** How many handlers were started for `id`. */
  function HandlerStarts(s: State, id: JobId): nat {
    Count(IdsOf(s.runs), id)
  }

  predicate StartsRecorded(s: State) {
    forall id :: id in s.rows ==> HandlerStarts(s, id) <= Starts(s.rows[id])
  }

  predicate Inv(s: State) {
    RowsSound(s) && RunsFit(s) && StartsRecorded(s)
  }

  lemma ActionIsLawful(s: State, e: Event, id: JobId)
    requires id in s.rows && RunsFit(s)
    ensures Lawful(s.rows[id].kind, ActionOn(s, e, id))
  {
    hide Act, Step, Allowed, Defined, HasRoom;
    if e.WriteLands? && Enabled(s, e) { assert RunFits(s, e.run); }
  }

  lemma RowStaysSound(s: State, e: Event, id: JobId)
    requires RowsSound(s) && RunsFit(s) && id in Next(s, e).rows
    ensures Sound(Next(s, e).rows[id])
    ensures id in s.rows ==> Next(s, e).rows[id].kind == s.rows[id].kind
  {
    hide Sound, Act, Next, ActionOn, Lawful, RunsFit, Defined, Enqueued;
    if id in s.rows {
      RowFollows(s, e, id);
      ActionIsLawful(s, e, id);
      ActKeepsSound(s.rows[id], ActionOn(s, e, id));
    } else {
      NewRow(s, e, id);
      EnqueuedIsSound(e.kind, e.spent);
    }
  }

  /** What a step may do to a run that was there before it. */
  lemma RunMoves(s: State, e: Event, r: nat)
    requires r < |s.runs|
    ensures var t := Next(s, e);
      && |t.runs| >= |s.runs|
      && s.runs[r].holder == t.runs[r].holder && s.runs[r].id == t.runs[r].id && s.runs[r].lane == t.runs[r].lane
      && (t.runs[r].phase == s.runs[r].phase || t.runs[r].phase == Over
          || (e.Finish? && e.run == r && Enabled(s, e) && s.runs[r].phase == Working
              && t.runs[r].phase == Settling(SettleWrite(s.rows[s.runs[r].id].kind, e.exit, s.procs[s.runs[r].holder].stopping))))
  {
    hide Act, HasRoom, SettleWrite, Defined;
  }

  lemma ProcsStay(s: State, e: Event, h: Holder)
    requires h in s.procs
    ensures h in Next(s, e).procs
  {
    hide Act, HasRoom, SettleWrite, Defined, Killed;
  }

  /** Which runs a step adds: one, for a claim that was answered. */
  lemma NewRun(s: State, e: Event)
    ensures var t := Next(s, e);
      if e.ClaimAnswered? && Enabled(s, e)
      then |t.runs| == |s.runs| + 1 && t.runs[|s.runs|] == Run(e.holder, e.id, s.rows[e.id].kind.lane, Working)
      else |t.runs| == |s.runs|
  {
    hide Act, HasRoom, SettleWrite, Defined;
  }

  lemma SomeEndingIsAllowed(k: Kind, exit: Exit, stopping: bool)
    ensures Allowed(k, SettleWrite(k, exit, stopping))
  {
    hide SettleWrite;
  }

  lemma RunStaysFit(s: State, e: Event, r: nat)
    requires RowsSound(s) && RunsFit(s) && r < |Next(s, e).runs|
    ensures RunFits(Next(s, e), r)
  {
    hide Next, Sound, Allowed, SettleWrite, ActionOn, Act, RowsSound, Lawful, Enabled;
    NewRun(s, e);
    if r < |s.runs| {
      RunMoves(s, e, r);
      var run := s.runs[r];
      assert RunFits(s, r);
      RowFollows(s, e, run.id);
      KindStays(s.rows[run.id], ActionOn(s, e, run.id));
      ProcsStay(s, e, run.holder);
      if e.Finish? && Enabled(s, e) {
        SomeEndingIsAllowed(s.rows[run.id].kind, e.exit, s.procs[run.holder].stopping);
      }
    } else {
      ClaimIsOfARow(s, e);
      RowFollows(s, e, e.id);
      KindStays(s.rows[e.id], ActionOn(s, e, e.id));
      ProcsStay(s, e, e.holder);
    }
  }

  lemma ClaimIsOfARow(s: State, e: Event)
    requires Enabled(s, e) && (e.ClaimAnswered? || e.ClaimUnanswered?)
    ensures e.id in s.rows && e.holder in s.procs && s.rows[e.id].status == Queued
    ensures HasRoom(s.procs[e.holder], s.rows[e.id].kind.lane)
    ensures ActionOn(s, e, e.id) == Claim(e.holder)
  {
    hide HasRoom;
  }

  lemma IdsGrow(s: State, e: Event)
    ensures IdsOf(Next(s, e).runs)
         == IdsOf(s.runs) + (if e.ClaimAnswered? && Enabled(s, e) then [e.id] else [])
  {
    hide Next, Enabled;
    NewRun(s, e);
    forall r | 0 <= r < |s.runs| ensures IdsOf(Next(s, e).runs)[r] == s.runs[r].id {
      RunMoves(s, e, r);
    }
  }

  lemma {:induction false} NotThereCountsZero<T>(xs: seq<T>, x: T)
    requires x !in xs
    ensures Count(xs, x) == 0
  {
    if xs != [] { NotThereCountsZero(xs[..|xs| - 1], x); }
  }

  lemma StartsNeverFall(j: Job, a: RowAction)
    ensures Starts(Act(j, a)) >= Starts(j)
    ensures a.Claim? && j.status == Queued ==> Starts(Act(j, a)) == Starts(j) + 1
  {
    hide Count, WentOut;
    LogGrows(j.log, Started); LogGrows(j.log, Retried); LogGrows(j.log, Retrying);
    LogGrows(j.log, Requeued(true)); LogGrows(j.log, Requeued(false));
    LogGrows(j.log, Posted); LogGrows(j.log, PostChecked(true)); LogGrows(j.log, PostChecked(false));
    LogGrows(j.log, Ended(Succeeded)); LogGrows(j.log, Ended(Failed));
    LogGrows(j.log, Ended(Interrupted)); LogGrows(j.log, Ended(Cancelled));
  }

  lemma StartsStayRecorded(s: State, e: Event, id: JobId)
    requires Inv(s) && id in Next(s, e).rows
    ensures HandlerStarts(Next(s, e), id) <= Starts(Next(s, e).rows[id])
  {
    hide Next, Sound, Starts, Act, ActionOn, Enabled, IdsOf, Count, RowsSound;
    IdsGrow(s, e);
    if e.ClaimAnswered? { CountOneMore(IdsOf(s.runs), e.id, id); }
    assert IdsOf(s.runs) + [] == IdsOf(s.runs);
    if id in s.rows {
      RowFollows(s, e, id);
      StartsNeverFall(s.rows[id], ActionOn(s, e, id));
      if e.ClaimAnswered? && Enabled(s, e) && e.id == id { ClaimIsOfARow(s, e); }
    } else {
      NewRow(s, e, id);
      IdsHaveRows(s, id);
      NotThereCountsZero(IdsOf(s.runs), id);
    }
  }

  lemma IdsHaveRows(s: State, id: JobId)
    requires RunsFit(s) && id !in s.rows
    ensures id !in IdsOf(s.runs)
  {
    hide Allowed;
    forall r | 0 <= r < |s.runs| ensures IdsOf(s.runs)[r] != id { assert RunFits(s, r); }
  }

  lemma NextKeepsInv(s: State, e: Event)
    requires Inv(s)
    ensures Inv(Next(s, e))
  {
    hide Next, Sound, RunFits, HandlerStarts, Starts;
    var t := Next(s, e);
    forall id | id in t.rows ensures Sound(t.rows[id]) && HandlerStarts(t, id) <= Starts(t.rows[id]) {
      RowStaysSound(s, e, id);
      StartsStayRecorded(s, e, id);
    }
    forall r | 0 <= r < |t.runs| ensures RunFits(t, r) { RunStaysFit(s, e, r); }
  }

  lemma InitHolds()
    ensures Inv(INIT)
  {
  }

  lemma {:induction false} EveryRunKeepsInv(events: seq<Event>)
    ensures Inv(After(INIT, events))
  {
    hide Next, Inv;
    if events == [] {
      InitHolds();
    } else {
      EveryRunKeepsInv(events[..|events| - 1]);
      NextKeepsInv(After(INIT, events[..|events| - 1]), events[|events| - 1]);
    }
  }

  // ---- The sidecars -------------------------------------------------------------------

  /** A sidecar is up from its boot until it leaves, told to stop and with nothing running, or dies; nobody else is touched. */
  lemma SidecarsComeAndGo(s: State, e: Event, h: Holder)
    requires Enabled(s, e)
    ensures Alive(Next(s, e), h) <==> e == Boot(h) || (Alive(s, h) && e != Left(h) && e != Dies(h))
    ensures h in s.procs ==>
      h in Next(s, e).procs && (Next(s, e).procs[h].stopping <==> s.procs[h].stopping || e == StopAsked(h))
    ensures e == Boot(h) ==> Next(s, e).procs[h] == Proc(true, false, map[])
    ensures e == Left(h) || e == Dies(h) ==> Next(s, e).procs[h].running == map[]
  {
    hide Act, HasRoom, SettleWrite, Defined, Killed, AllOver;
  }

  predicate LeaseNamed(s: State) {
    s.lease.Some? ==> s.lease == s.leased
  }

  lemma NextKeepsLeaseNamed(s: State, e: Event)
    requires LeaseNamed(s)
    ensures LeaseNamed(Next(s, e))
    ensures Next(s, e).leased != s.leased ==> e.Boot? && s.lease.None? && Next(s, e).lease == Some(e.holder)
    ensures Next(s, e).lease != s.lease && Next(s, e).lease.None? ==> e.LeaseLapses? || (e.Left? && s.lease == Some(e.holder))
    ensures Enabled(s, e) && (e.Boot? || e.Renews?) ==> Next(s, e).lease == Some(e.holder) == Next(s, e).leased
    ensures Enabled(s, e) && (e.Left? || e.LeaseLapses?) ==> Next(s, e).lease == None || Next(s, e).lease == s.lease
    ensures Enabled(s, e) && e.Left? ==> Next(s, e).lease != Some(e.holder)
    ensures e.LeaseLapses? ==> Next(s, e).lease == None
  {
    hide Act, HasRoom, SettleWrite, Defined, Killed, AllOver;
  }

  /**
   * Over every run, a lease is held only in the name that is on it; and that
   * name changes only when a sidecar comes up while no lease is held.
   */
  lemma {:induction false} LeaseIsTheNamedOnes(events: seq<Event>)
    ensures LeaseNamed(After(INIT, events))
  {
    hide Next;
    if events != [] {
      LeaseIsTheNamedOnes(events[..|events| - 1]);
      NextKeepsLeaseNamed(After(INIT, events[..|events| - 1]), events[|events| - 1]);
    }
  }

  /** What a run goes through: it ends, settles by its own ending, and is over, its Job out of the map, once its write is answered or given up. */
  lemma RunsGoThrough(s: State, e: Event, r: nat)
    requires Enabled(s, e) && r < |s.runs| && s.runs[r].holder in s.procs
    requires (e.Finish? || e.WriteLands? || e.WriteGivenUp?) && e.run == r
    ensures var t, run := Next(s, e), s.runs[r];
      match e
      case Finish(_, exit) =>
        && t.runs[r].phase == Settling(SettleWrite(s.rows[run.id].kind, exit, s.procs[run.holder].stopping))
        && t.rows == s.rows && t.procs == s.procs
      case WriteLands(_, answered) =>
        && t.rows == s.rows[run.id := Written(s.rows[run.id], run.holder, run.phase.write)]
        && (if answered then t.runs[r].phase == Over && t.procs[run.holder].running.Keys == s.procs[run.holder].running.Keys - {run.id}
            else t.runs == s.runs && t.procs == s.procs)
      case WriteGivenUp(_) =>
        t.runs[r].phase == Over && t.rows == s.rows
        && t.procs[run.holder].running.Keys == s.procs[run.holder].running.Keys - {run.id}
      case _ => true
  {
    hide Written, SettleWrite;
  }

  // ---- How often a handler starts -----------------------------------------------------

  /**
   * Over every interleaving of claims, failures, stops, lost leases, deaths,
   * lost answers and recoveries, the handler of a Job that is never re-run on
   * its own starts at most once for the enqueue and once for each Retry the
   * author was granted, a Publish's at most once; and any other Job's starts
   * no more often than its attempts, its free lost runs and the deliberate
   * stops that put it back.
   */
  lemma HandlerStartsAreGranted(events: seq<Event>, id: JobId)
    requires id in After(INIT, events).rows
    ensures var s := After(INIT, events); var j := s.rows[id];
      && (j.kind.neverRequeued ==> HandlerStarts(s, id) <= 1)
      && (j.kind.posting ==> HandlerStarts(s, id) <= 1 + Count(j.log, Retried))
      && (!IsNeverReRun(j.kind) ==>
            HandlerStarts(s, id) <= j.kind.maxAttempts + (if j.kind.resumable then FREE_LOST_RUNS else 0)
                                    + Count(j.log, Requeued(false)))
  {
    hide After, Count, RunsFit, HandlerStarts;
    EveryRunKeepsInv(events);
    var s := After(INIT, events);
    assert Sound(s.rows[id]) && HandlerStarts(s, id) <= Starts(s.rows[id]);
  }

  /** The runs the author has seen of a Job as they asked to retry it. */
  function RetriesAsked(events: seq<Event>, id: JobId): set<nat> {
    if events == [] then {}
    else
      var before, e := RetriesAsked(events[..|events| - 1], id), events[|events| - 1];
      if e.Elsewhere? && e.id == id && e.action.Retry? then before + {e.action.seen} else before
  }

  function Below(asked: set<nat>, attempt: nat): set<nat> { set seen | seen in asked && seen < attempt }

  lemma RetryCounts(j: Job, a: RowAction, asked: set<nat>, after: set<nat>)
    requires Count(j.log, Retried) <= |Below(asked, j.attempt)|
    requires after == asked + (if a.Retry? then {a.seen} else {})
    ensures Count(Act(j, a).log, Retried) <= |Below(after, Act(j, a).attempt)|
  {
    hide Count, WentOut, Act;
    RowMovesExactlyWhen(j, a);
    SubsetSize(Below(asked, j.attempt), Below(after, Act(j, a).attempt));
    if a.Retry? {
      RetriedExactlyWhen(j, a.seen, a.parentOk);
      LogGrows(j.log, Retried);
      if Act(j, a) != j {
        SubsetSize(Below(asked, j.attempt) + {a.seen}, Below(after, Act(j, a).attempt));
      }
    } else {
      OthersRetryNothing(j, a);
    }
  }

  lemma OthersRetryNothing(j: Job, a: RowAction)
    requires !a.Retry?
    ensures Count(Act(j, a).log, Retried) == Count(j.log, Retried)
  {
    hide Count, WentOut;
    LogGrows(j.log, Started); LogGrows(j.log, Retrying);
    LogGrows(j.log, Requeued(true)); LogGrows(j.log, Requeued(false));
    LogGrows(j.log, Posted); LogGrows(j.log, PostChecked(true)); LogGrows(j.log, PostChecked(false));
    LogGrows(j.log, Ended(Succeeded)); LogGrows(j.log, Ended(Failed));
    LogGrows(j.log, Ended(Interrupted)); LogGrows(j.log, Ended(Cancelled));
  }

  /**
   * Over every run, a Job is retried at most once for each of its runs the
   * author asked to retry, however often and from how many tabs they asked:
   * so a post's handler starts at most once, and once more for each of those.
   */
  lemma {:induction false} RetriedOnceForEachRun(events: seq<Event>, id: JobId)
    requires id in After(INIT, events).rows
    ensures var s := After(INIT, events); var j := s.rows[id];
      && Count(j.log, Retried) <= |Below(RetriesAsked(events, id), j.attempt)|
      && (j.kind.posting ==> HandlerStarts(s, id) <= 1 + |RetriesAsked(events, id)|)
  {
    hide Next, HandlerStarts, Count, Act, ActionOn, Enabled;
    var n := |events| - 1;
    var before, e := After(INIT, events[..n]), events[n];
    if id in before.rows {
      RetriedOnceForEachRun(events[..n], id);
      RowFollows(before, e, id);
      AskedOfTheRow(before, e, id);
      var asked, a := RetriesAsked(events[..n], id), ActionOn(before, e, id);
      var askedNow := asked + (if a.Retry? then {a.seen} else {});
      RetryCounts(before.rows[id], a, asked, askedNow);
      SubsetSize(Below(askedNow, After(INIT, events).rows[id].attempt),
                 Below(RetriesAsked(events, id), After(INIT, events).rows[id].attempt));
    } else {
      NewRow(before, e, id);
      FreshLog(Retried);
    }
    HandlerStartsAreGranted(events, id);
    SubsetSize(Below(RetriesAsked(events, id), After(INIT, events).rows[id].attempt), RetriesAsked(events, id));
  }

  lemma AskedOfTheRow(s: State, e: Event, id: JobId)
    ensures ActionOn(s, e, id).Retry? ==> e.Elsewhere? && e.id == id && e.action == ActionOn(s, e, id)
  {
    hide Enabled;
  }

  /**
   * Nothing is lost either: a row that waits or runs has been started exactly
   * as often as its attempt, its lost runs put back and its deliberate stops
   * say, the start it waits for not yet counted.
   */
  lemma EveryStartIsAccountedFor(events: seq<Event>, id: JobId)
    requires id in After(INIT, events).rows
    ensures var j := After(INIT, events).rows[id];
      && (!j.kind.posting && j.status == Running ==> Starts(j) == Payment(j))
      && (!j.kind.posting && j.status == Queued ==> Starts(j) + 1 == Payment(j))
  {
    hide After, Count, RunsFit, HandlerStarts;
    EveryRunKeepsInv(events);
    assert Sound(After(INIT, events).rows[id]);
  }

  /** Once a post that is not queued is known to have gone out, its handler never starts again. */
  lemma {:induction false} WentOutNeverStartsAgain(events: seq<Event>, more: seq<Event>, id: JobId)
    requires id in After(INIT, events).rows && OutAndNotQueued(After(INIT, events).rows[id])
    ensures var s := After(INIT, events); var t := After(s, more);
      id in t.rows && OutAndNotQueued(t.rows[id]) && HandlerStarts(t, id) == HandlerStarts(s, id) && Inv(t)
  {
    hide Next, Inv, OutAndNotQueued, HandlerStarts;
    var s := After(INIT, events);
    if more == [] {
      EveryRunKeepsInv(events);
    } else {
      WentOutNeverStartsAgain(events, more[..|more| - 1], id);
      OutStepStartsNothing(After(s, more[..|more| - 1]), more[|more| - 1], id);
    }
  }

  lemma OutStepStartsNothing(s: State, e: Event, id: JobId)
    requires Inv(s) && id in s.rows && OutAndNotQueued(s.rows[id])
    ensures var t := Next(s, e);
      Inv(t) && id in t.rows && OutAndNotQueued(t.rows[id]) && HandlerStarts(t, id) == HandlerStarts(s, id)
  {
    hide Next, Inv, Act, ActionOn, Enabled, WentOut, Count, IdsOf, Starts, Lawful;
    NextKeepsInv(s, e);
    RowFollows(s, e, id);
    assert RunsFit(s) by { InvHasFits(s); }
    ActionIsLawful(s, e, id);
    ActKeepsOut(s.rows[id], ActionOn(s, e, id));
    IdsGrow(s, e);
    assert IdsOf(s.runs) + [] == IdsOf(s.runs);
    if e.ClaimAnswered? && Enabled(s, e) {
      ClaimIsOfARow(s, e);
      CountOneMore(IdsOf(s.runs), e.id, id);
    }
  }

  lemma InvHasFits(s: State)
    requires Inv(s)
    ensures RunsFit(s)
  {
    hide RunsFit, RowsSound, StartsRecorded;
  }

  lemma {:induction false} LongerThanAll(names: set<string>) returns (n: nat)
    ensures forall x :: x in names ==> |x| < n
  {
    n := 0;
    if x :| x in names {
      n := LongerThanAll(names - {x});
      if |x| >= n { n := |x| + 1; }
    }
  }

  /** A name not used yet, as a fresh UUID is. */
  lemma Unused(names: set<string>) returns (name: string)
    ensures name !in names
  {
    var n := LongerThanAll(names);
    name := seq(n, _ => 'a');
  }

  /** A queued row of the default lane can always be started: by a sidecar that takes the lease, if by no other. */
  lemma QueuedCanStart(s: State, id: JobId) returns (more: seq<Event>)
    requires id in s.rows && s.rows[id].status == Queued && s.rows[id].kind.lane == Default
    ensures HandlerStarts(After(s, more), id) == HandlerStarts(s, id) + 1
  {
    hide Act, Count, IdsOf, After;
    var h := Unused(s.procs.Keys);
    var lapsed := Next(s, LeaseLapses);
    var booted := Next(lapsed, Boot(h));
    assert booted.runs == s.runs && CanClaim(booted, h, id);
    var claimed := Next(booted, ClaimAnswered(h, id));
    IdsGrow(booted, ClaimAnswered(h, id));
    CountOneMore(IdsOf(s.runs), id, id);
    more := [LeaseLapses, Boot(h), ClaimAnswered(h, id)];
    ThreeSteps(s, LeaseLapses, Boot(h), ClaimAnswered(h, id));
  }

  lemma ThreeSteps(s: State, a: Event, b: Event, c: Event)
    ensures After(s, [a, b, c]) == Next(Next(Next(s, a), b), c)
  {
    hide Next;
    assert [a, b, c][..2] == [a, b];
    assert [a, b][..1] == [a];
    assert After(s, [a]) == Next(After(s, []), a);
    assert After(s, [a, b]) == Next(After(s, [a]), b);
  }

  /** A post known to have gone out can be started again, by some further steps, exactly when its row is queued. */
  lemma StartedAgainExactlyWhenQueued(events: seq<Event>, id: JobId)
    requires id in After(INIT, events).rows
    requires After(INIT, events).rows[id].kind.posting && WentOut(After(INIT, events).rows[id].log)
    ensures var s := After(INIT, events);
      (exists more :: HandlerStarts(After(s, more), id) > HandlerStarts(s, id)) <==> s.rows[id].status == Queued
  {
    hide After, HandlerStarts, WentOut, RunsFit, StartsRecorded;
    var s := After(INIT, events);
    if s.rows[id].status == Queued {
      EveryRunKeepsInv(events);
      assert Sound(s.rows[id]);
      var more := QueuedCanStart(s, id);
    } else {
      forall more ensures HandlerStarts(After(s, more), id) == HandlerStarts(s, id) {
        WentOutNeverStartsAgain(events, more, id);
      }
    }
  }

  const A_POST := Kind(Default, 1, true, false, false)

  /** The post as it is recovered, retried and found out about too late, by sidecar "b", under the hands of "a". */
  function PostedWorld(x: Job): State {
    State(map["x" := x],
          map["a" := Proc(true, false, map["x" := Entry(Default, 0)]), "b" := Proc(true, false, map[])],
          [Run("a", "x", Default, Working)], Some("b"), Some("b"))
  }

  lemma PostIsTakenOver()
    ensures var s4 := Next(Next(Next(Next(INIT, Boot("a")), Enqueue("x", A_POST, 0)), ClaimAnswered("a", "x")), LeaseLapses);
      Next(s4, Boot("b")) == PostedWorld(Job(A_POST, Running, 1, 1, Some("a"), [Added] + [Started]))
  {
    hide InLane;
    var s2 := Next(Next(INIT, Boot("a")), Enqueue("x", A_POST, 0));
    assert s2 == State(map["x" := Job(A_POST, Queued, 1, 1, None, [Added])], map["a" := Proc(true, false, map[])], [],
                       Some("a"), Some("a"));
    var s3 := Next(s2, ClaimAnswered("a", "x"));
    assert s3 == State(map["x" := Job(A_POST, Running, 1, 1, Some("a"), [Added] + [Started])],
                       map["a" := Proc(true, false, map["x" := Entry(Default, 0)])], [Run("a", "x", Default, Working)],
                       Some("a"), Some("a"));
  }

  lemma PostIsRetried()
    ensures var s5 := PostedWorld(Job(A_POST, Running, 1, 1, Some("a"), [Added] + [Started]));
      Next(Next(s5, Recovers("b", "x")), Elsewhere("x", Retry(1, true)))
      == PostedWorld(Job(A_POST, Queued, 2, 2, None, [Added] + [Started] + [Ended(Interrupted)] + [Retried]))
  {
    hide InLane, Count, WentOut;
    var s5 := PostedWorld(Job(A_POST, Running, 1, 1, Some("a"), [Added] + [Started]));
    var s6 := Next(s5, Recovers("b", "x"));
    assert s6 == PostedWorld(Job(A_POST, Interrupted, 1, 1, None, [Added] + [Started] + [Ended(Interrupted)]));
    NotOutYet();
  }

  lemma NotOutYet()
    ensures !WentOut([Added] + [Started] + [Ended(Interrupted)])
  {
    var log := [Added] + [Started] + [Ended(Interrupted)];
    assert log[..2] == [Added] + [Started];
  }

  lemma PostedIsOut(log: seq<JobEvent>)
    ensures WentOut(log + [Posted])
  {
  }

  lemma PostedTooLate()
    ensures var log := [Added] + [Started] + [Ended(Interrupted)] + [Retried];
      var s8 := Next(PostedWorld(Job(A_POST, Queued, 2, 2, None, log)), Elsewhere("x", NotePosted));
      && s8.rows["x"].status == Queued && WentOut(s8.rows["x"].log)
      && Next(s8, ClaimAnswered("b", "x")).runs == [Run("a", "x", Default, Working), Run("b", "x", Default, Working)]
  {
    hide InLane, Count, WentOut;
    var log := [Added] + [Started] + [Ended(Interrupted)] + [Retried];
    PostedIsOut(log);
    var s8 := Next(PostedWorld(Job(A_POST, Queued, 2, 2, None, log)), Elsewhere("x", NotePosted));
    assert s8 == PostedWorld(Job(A_POST, Queued, 2, 2, None, log + [Posted]));
  }

  /**
   * And such a row is reached: sidecar "a" posts and is cut off, "b" recovers
   * the run as interrupted, the author retries it, and only then the first
   * run's posted event lands. Its log says the post went out, and it is
   * started again.
   */
  lemma LatePostedStartsAgain()
    ensures var taken := After(INIT, [Boot("a"), Enqueue("x", A_POST, 0), ClaimAnswered("a", "x"), LeaseLapses]);
      var s := After(taken, [Boot("b"), Recovers("b", "x"), Elsewhere("x", Retry(1, true)), Elsewhere("x", NotePosted)]);
      && "x" in s.rows && s.rows["x"].kind.posting && s.rows["x"].status == Queued && WentOut(s.rows["x"].log)
      && Next(s, ClaimAnswered("b", "x")).runs == [Run("a", "x", Default, Working), Run("b", "x", Default, Working)]
  {
    hide After, Next, WentOut;
    FourSteps(INIT, Boot("a"), Enqueue("x", A_POST, 0), ClaimAnswered("a", "x"), LeaseLapses);
    var taken := After(INIT, [Boot("a"), Enqueue("x", A_POST, 0), ClaimAnswered("a", "x"), LeaseLapses]);
    FourSteps(taken, Boot("b"), Recovers("b", "x"), Elsewhere("x", Retry(1, true)), Elsewhere("x", NotePosted));
    PostIsTakenOver();
    PostIsRetried();
    PostedTooLate();
    RowFollows(PostedWorld(Job(A_POST, Queued, 2, 2, None, [Added] + [Started] + [Ended(Interrupted)] + [Retried])),
               Elsewhere("x", NotePosted), "x");
  }

  // ---- The write tried again ----------------------------------------------------------

  predicate NotHeld(s: State, h: Holder, id: JobId) {
    id in s.rows && !Held(s.rows[id], h)
  }

  predicate ClaimsFor(e: Event, h: Holder, id: JobId) {
    e == ClaimAnswered(h, id) || e == ClaimUnanswered(h, id)
  }

  lemma StepKeepsNotHeld(s: State, e: Event, h: Holder, id: JobId)
    requires NotHeld(s, h, id) && !ClaimsFor(e, h, id)
    ensures NotHeld(Next(s, e), h, id)
  {
    hide Next, Held, Act, HasRoom, Defined, AllOver;
    RowFollows(s, e, id);
    NotHeldStays(s.rows[id], h, ActionOn(s, e, id));
  }

  lemma {:induction false} RunKeepsNotHeld(s: State, events: seq<Event>, h: Holder, id: JobId)
    requires NotHeld(s, h, id)
    requires forall i :: 0 <= i < |events| ==> !ClaimsFor(events[i], h, id)
    ensures NotHeld(After(s, events), h, id)
  {
    hide NotHeld, Next, ClaimsFor;
    if events != [] {
      RunKeepsNotHeld(s, events[..|events| - 1], h, id);
      StepKeepsNotHeld(After(s, events[..|events| - 1]), events[|events| - 1], h, id);
    }
  }

  /**
   * A settling write that landed without its answer, tried again after any
   * further steps, changes no row, so long as none of them is a claim of the
   * same Job by the same sidecar.
   */
  lemma TriedAgainChangesNothing(s: State, r: nat, between: seq<Event>, answered: bool)
    requires IsSettling(s, r)
    requires forall i :: 0 <= i < |between| ==> !ClaimsFor(between[i], s.runs[r].holder, s.runs[r].id)
    ensures var t := After(Next(s, WriteLands(r, false)), between);
      Next(t, WriteLands(r, answered)).rows == t.rows
  {
    hide After, Written, Killed, ClaimsFor, Held;
    var h, id := s.runs[r].holder, s.runs[r].id;
    var landed := Next(s, WriteLands(r, false));
    WrittenIsLetGo(s.rows[id], h, s.runs[r].phase.write);
    RunKeepsNotHeld(landed, between, h, id);
    RunsKeepTheirNames(landed, between, r);
    var t := After(landed, between);
    if IsSettling(t, r) {
      SecondWriteChangesOnlyAHeldRow(t.rows[id], h, t.runs[r].phase.write);
      assert Act(t.rows[id], Settle(h, t.runs[r].phase.write)) == t.rows[id];
    }
  }

  lemma {:induction false} RunsKeepTheirNames(s: State, events: seq<Event>, r: nat)
    requires r < |s.runs|
    ensures var t := After(s, events);
      r < |t.runs| && t.runs[r].holder == s.runs[r].holder && t.runs[r].id == s.runs[r].id && t.runs[r].lane == s.runs[r].lane
  {
    hide Next;
    if events != [] {
      RunsKeepTheirNames(s, events[..|events| - 1], r);
      RunMoves(After(s, events[..|events| - 1]), events[|events| - 1], r);
    }
  }

  // ---- The publish lane ---------------------------------------------------------------

  /** A live publish run is the entry of its Job in its sidecar's map. */
  predicate PublishListed(s: State, r: nat)
    requires r < |s.runs|
  {
    var run := s.runs[r];
    run.lane == Publish && run.phase != Over ==>
      && run.holder in s.procs && run.id in s.procs[run.holder].running
      && s.procs[run.holder].running[run.id] == Entry(Publish, r)
  }

  predicate OnePublishEntry(p: Proc) {
    forall a, b :: a in p.running && b in p.running && p.running[a].lane == Publish && p.running[b].lane == Publish
      ==> a == b
  }

  predicate LaneInv(s: State) {
    && (forall r :: 0 <= r < |s.runs| ==> PublishListed(s, r))
    && (forall h :: h in s.procs ==> OnePublishEntry(s.procs[h]))
  }

  /** No two publish runs work or settle at once in one sidecar. */
  predicate OnePublishEach(s: State) {
    forall i, j | 0 <= i < |s.runs| && 0 <= j < |s.runs| && LivePublish(s.runs[i]) && LivePublish(s.runs[j])
      :: s.runs[i].holder == s.runs[j].holder ==> i == j
  }

  /** No two publish runs work or settle at once anywhere. */
  predicate OnePublish(s: State) {
    forall i, j | 0 <= i < |s.runs| && 0 <= j < |s.runs| && LivePublish(s.runs[i]) && LivePublish(s.runs[j])
      :: i == j
  }

  predicate LivePublish(run: Run) {
    run.lane == Publish && run.phase != Over
  }

  lemma ListedMeansOne(s: State)
    requires LaneInv(s)
    ensures OnePublishEach(s)
  {
    forall i, j | 0 <= i < |s.runs| && 0 <= j < |s.runs| && s.runs[i].holder == s.runs[j].holder
      && LivePublish(s.runs[i]) && LivePublish(s.runs[j])
      ensures i == j
    {
      assert PublishListed(s, i) && PublishListed(s, j);
      assert OnePublishEntry(s.procs[s.runs[i].holder]);
    }
  }

  lemma {:induction false} TwiceCountsTwo<T>(xs: seq<T>, i: nat, j: nat)
    requires i < j < |xs| && xs[i] == xs[j]
    ensures Count(xs, xs[i]) >= 2
  {
    var front := xs[..|xs| - 1];
    if j < |front| {
      TwiceCountsTwo(front, i, j);
    } else {
      ThereCountsOne(front, i);
    }
  }

  lemma {:induction false} ThereCountsOne<T>(xs: seq<T>, i: nat)
    requires i < |xs|
    ensures Count(xs, xs[i]) >= 1
  {
    var front := xs[..|xs| - 1];
    if i < |front| { ThereCountsOne(front, i); }
  }

  /** A Publish has one run at most, ever. */
  lemma OnePublishRunPerJob(s: State, i: nat, j: nat)
    requires Inv(s) && i < |s.runs| && j < |s.runs|
    requires s.runs[i].lane == Publish && s.runs[i].id == s.runs[j].id
    ensures i == j
  {
    hide Count;
    var id := s.runs[i].id;
    assert RunFits(s, i);
    assert Sound(s.rows[id]) && HandlerStarts(s, id) <= 1;
    if i < j { TwiceCountsTwo(IdsOf(s.runs), i, j); }
    if j < i { TwiceCountsTwo(IdsOf(s.runs), j, i); }
  }

  lemma EntryFillsLane(running: map<JobId, Entry>, lane: Lane, id: JobId)
    requires id in running && running[id].lane == lane
    ensures |InLane(running, lane)| >= 1
  {
    assert id in InLane(running, lane);
  }

  lemma EmptyLaneHasNoEntry(running: map<JobId, Entry>, lane: Lane)
    requires |InLane(running, lane)| < 1
    ensures forall id :: id in running ==> running[id].lane != lane
  {
    forall id | id in running ensures running[id].lane != lane {
      if running[id].lane == lane { EntryFillsLane(running, lane, id); }
    }
  }

  /** Claiming into a lane with room leaves at most one Publish in the map. */
  lemma LaunchKeepsOneEntry(p: Proc, id: JobId, entry: Entry)
    requires OnePublishEntry(p) && HasRoom(p, entry.lane)
    ensures OnePublishEntry(Registered(p, id, entry))
  {
    if entry.lane == Publish { EmptyLaneHasNoEntry(p.running, Publish); }
  }

  lemma ProcKeepsOneEntry(s: State, e: Event, h: Holder)
    requires LaneInv(s) && h in Next(s, e).procs
    ensures OnePublishEntry(Next(s, e).procs[h])
  {
    hide Act, HasRoom, SettleWrite, Defined, Killed, PublishListed;
    if h in s.procs { assert OnePublishEntry(s.procs[h]); }
    if e.ClaimAnswered? && Enabled(s, e) && e.holder == h {
      LaunchKeepsOneEntry(s.procs[h], e.id, Entry(s.rows[e.id].kind.lane, |s.runs|));
    }
  }

  /** Which entries a step may take out of a map that stays in use. */
  lemma EntryStays(s: State, e: Event, r: nat)
    requires Inv(s) && r < |s.runs| && PublishListed(s, r) && LivePublish(s.runs[r])
    ensures r < |Next(s, e).runs| && PublishListed(Next(s, e), r)
  {
    hide Act, SettleWrite, Defined, Sound, Inv, Allowed;
    RunMoves(s, e, r);
    if Enabled(s, e) {
      match e {
        case ClaimAnswered(h, id) => if s.runs[r].holder == h { ClaimSparesEntry(s, h, id, r); }
        case WriteLands(q, answered) => if q != r { OtherJob(s, q, r); }
        case WriteGivenUp(q) => if q != r { OtherJob(s, q, r); }
        case Left(h) => LeavingHasNoLiveRun(s, h, r);
        case _ =>
      }
    }
  }

  lemma LeavingHasNoLiveRun(s: State, h: Holder, r: nat)
    requires Enabled(s, Left(h)) && r < |s.runs| && s.runs[r].phase != Over
    ensures s.runs[r].holder != h
  {
    hide Defined, HasRoom;
  }

  lemma OtherJob(s: State, q: nat, r: nat)
    requires Inv(s) && q < |s.runs| && r < |s.runs| && q != r && s.runs[r].lane == Publish
    ensures s.runs[q].id != s.runs[r].id
  {
    hide Inv;
    if s.runs[q].id == s.runs[r].id { OnePublishRunPerJob(s, r, q); }
  }

  lemma ClaimSparesEntry(s: State, h: Holder, id: JobId, r: nat)
    requires Inv(s) && r < |s.runs| && PublishListed(s, r) && LivePublish(s.runs[r])
    requires Enabled(s, ClaimAnswered(h, id)) && s.runs[r].holder == h
    ensures id != s.runs[r].id
  {
    hide Allowed, Sound, RowsSound, StartsRecorded;
    assert RunFits(s, r);
    if id == s.runs[r].id { EmptyLaneHasNoEntry(s.procs[h].running, Publish); }
  }

  lemma NextKeepsLaneInv(s: State, e: Event)
    requires Inv(s) && LaneInv(s)
    ensures LaneInv(Next(s, e))
  {
    hide Next, Inv, PublishListed, OnePublishEntry;
    var t := Next(s, e);
    forall h | h in t.procs ensures OnePublishEntry(t.procs[h]) { ProcKeepsOneEntry(s, e, h); }
    forall r | 0 <= r < |t.runs| ensures PublishListed(t, r) { RunStaysListed(s, e, r); }
  }

  lemma RunStaysListed(s: State, e: Event, r: nat)
    requires Inv(s) && LaneInv(s) && r < |Next(s, e).runs|
    ensures PublishListed(Next(s, e), r)
  {
    hide Next, Inv, OnePublishEntry, Enabled, SettleWrite;
    NewRun(s, e);
    if r < |s.runs| {
      RunMoves(s, e, r);
      if LivePublish(s.runs[r]) { EntryStays(s, e, r); }
    } else {
      NewRunIsListed(s, e);
    }
  }

  lemma NewRunIsListed(s: State, e: Event)
    requires e.ClaimAnswered? && Enabled(s, e)
    ensures |Next(s, e).runs| > |s.runs| && PublishListed(Next(s, e), |s.runs|)
  {
    hide Act, HasRoom;
  }

  lemma {:induction false} EveryRunKeepsLanes(events: seq<Event>)
    ensures Inv(After(INIT, events)) && LaneInv(After(INIT, events))
  {
    hide Next, Inv, LaneInv;
    EveryRunKeepsInv(events);
    if events == [] {
      InitHoldsLanes();
    } else {
      EveryRunKeepsLanes(events[..|events| - 1]);
      NextKeepsLaneInv(After(INIT, events[..|events| - 1]), events[|events| - 1]);
    }
  }

  lemma InitHoldsLanes()
    ensures LaneInv(INIT)
  {
  }

  // ---- One sidecar at a time ----------------------------------------------------------

  /** The lease never lapses under a living sidecar. */
  predicate LeaseKept(s: State, e: Event) {
    e.LeaseLapses? ==> forall h :: h in s.procs ==> !s.procs[h].alive
  }

  predicate LeaseKeptOver(s: State, events: seq<Event>) {
    forall i :: 0 <= i < |events| ==> LeaseKept(After(s, events[..i]), events[i])
  }

  /** A run that is not over is a living sidecar's. */
  predicate RunsAlive(s: State) {
    forall r :: 0 <= r < |s.runs| && s.runs[r].phase != Over ==> Alive(s, s.runs[r].holder)
  }

  predicate OneAlive(s: State) {
    && (forall h :: h in s.procs && s.procs[h].alive ==> s.lease == Some(h))
    && RunsAlive(s)
  }

  lemma NextKeepsRunsAlive(s: State, e: Event)
    requires RunsAlive(s)
    ensures RunsAlive(Next(s, e))
  {
    hide Act, HasRoom, SettleWrite, Defined;
    forall r | 0 <= r < |Next(s, e).runs| && Next(s, e).runs[r].phase != Over
      ensures Alive(Next(s, e), Next(s, e).runs[r].holder)
    {
      NewRun(s, e);
      if r < |s.runs| { RunMoves(s, e, r); }
    }
  }

  lemma StepKeepsOneAlive(s: State, e: Event)
    requires OneAlive(s) && LeaseKept(s, e)
    ensures OneAlive(Next(s, e))
  {
    hide Act, HasRoom, SettleWrite, Defined, RunsAlive, Killed;
    NextKeepsRunsAlive(s, e);
  }

  lemma {:induction false} LeaseKeptMeansOneAlive(events: seq<Event>)
    requires LeaseKeptOver(INIT, events)
    ensures OneAlive(After(INIT, events))
  {
    hide Next, LeaseKept, OneAlive;
    if events == [] {
      InitHasOneAlive();
    } else {
      var before := events[..|events| - 1];
      forall i | 0 <= i < |before| ensures LeaseKept(After(INIT, before[..i]), before[i]) {
        assert events[..i] == before[..i];
      }
      LeaseKeptMeansOneAlive(before);
      StepKeepsOneAlive(After(INIT, before), events[|events| - 1]);
    }
  }

  lemma InitHasOneAlive()
    ensures OneAlive(INIT)
  {
  }

  /**
   * The publish lane runs at most one Job in each sidecar, over every
   * interleaving; and one in all, so long as the lease never lapses under a
   * living sidecar.
   */
  lemma PublishesOneAtATime(events: seq<Event>)
    ensures OnePublishEach(After(INIT, events))
    ensures LeaseKeptOver(INIT, events) ==> OnePublish(After(INIT, events))
  {
    hide After, Inv, LaneInv, LeaseKeptOver;
    EveryRunKeepsLanes(events);
    ListedMeansOne(After(INIT, events));
    if LeaseKeptOver(INIT, events) { LeaseKeptMeansOneAlive(events); }
  }

  /** Two Publishes run at once as soon as a lease lapses under a sidecar that still works. */
  lemma LapsedLeasePublishesTwice()
    ensures var kind := Kind(Publish, 1, false, true, false);
      var s := After(After(INIT, [Boot("a"), Enqueue("x", kind, 0), ClaimAnswered("a", "x"), LeaseLapses]),
                     [Boot("b"), Enqueue("y", kind, 0), ClaimAnswered("b", "y"), LeaseLapses]);
      |s.runs| == 2 && s.runs[0].phase == Working && s.runs[1].phase == Working && !OnePublish(s)
  {
    hide After, Next;
    var kind := Kind(Publish, 1, false, true, false);
    var s1 := Next(INIT, Boot("a"));
    var s2 := Next(s1, Enqueue("x", kind, 0));
    var s3 := Next(s2, ClaimAnswered("a", "x"));
    var s4 := Next(s3, LeaseLapses);
    FirstPublish(kind);
    SecondPublish(s3, kind);
    FourSteps(INIT, Boot("a"), Enqueue("x", kind, 0), ClaimAnswered("a", "x"), LeaseLapses);
    FourSteps(s4, Boot("b"), Enqueue("y", kind, 0), ClaimAnswered("b", "y"), LeaseLapses);
  }

  lemma FirstPublish(kind: Kind)
    requires kind == Kind(Publish, 1, false, true, false)
    ensures var s3 := Next(Next(Next(INIT, Boot("a")), Enqueue("x", kind, 0)), ClaimAnswered("a", "x"));
      s3.procs == map["a" := Proc(true, false, map["x" := Entry(Publish, 0)])]
      && "y" !in s3.rows && s3.runs == [Run("a", "x", Publish, Working)]
  {
    var s2 := Next(Next(INIT, Boot("a")), Enqueue("x", kind, 0));
    assert s2.procs == map["a" := Proc(true, false, map[])];
    assert InLane(map[], Publish) == {};
    assert CanClaim(s2, "a", "x");
  }

  lemma SecondPublish(s3: State, kind: Kind)
    requires kind == Kind(Publish, 1, false, true, false)
    requires s3.procs == map["a" := Proc(true, false, map["x" := Entry(Publish, 0)])]
    requires "y" !in s3.rows && s3.runs == [Run("a", "x", Publish, Working)]
    ensures var s7 := Next(Next(Next(Next(s3, LeaseLapses), Boot("b")), Enqueue("y", kind, 0)), ClaimAnswered("b", "y"));
      Next(s7, LeaseLapses).runs == s7.runs && s7.runs == [Run("a", "x", Publish, Working), Run("b", "y", Publish, Working)]
  {
    var s6 := Next(Next(Next(s3, LeaseLapses), Boot("b")), Enqueue("y", kind, 0));
    assert s6.procs["b"] == Proc(true, false, map[]);
    assert InLane(map[], Publish) == {};
    assert CanClaim(s6, "b", "y");
  }

  /** Every Publish in a sidecar's map is a live run of that sidecar and Job. */
  predicate LiveEntry(s: State, h: Holder, id: JobId)
    requires h in s.procs && id in s.procs[h].running
  {
    var entry := s.procs[h].running[id];
    entry.lane == Publish ==>
      && entry.run < |s.runs| && LivePublish(s.runs[entry.run])
      && s.runs[entry.run].holder == h && s.runs[entry.run].id == id
  }

  predicate EntriesLive(s: State) {
    forall h, id :: h in s.procs && id in s.procs[h].running ==> LiveEntry(s, h, id)
  }

  lemma EntryStaysLive(s: State, e: Event, h: Holder, id: JobId)
    requires EntriesLive(s) && h in Next(s, e).procs && id in Next(s, e).procs[h].running
    ensures LiveEntry(Next(s, e), h, id)
  {
    hide Act, HasRoom, SettleWrite, Defined;
    if h in s.procs && id in s.procs[h].running {
      assert LiveEntry(s, h, id);
      var r := s.procs[h].running[id].run;
      if r < |s.runs| { RunMoves(s, e, r); }
    }
  }

  ghost predicate PublishInv(s: State) {
    Inv(s) && LaneInv(s) && EntriesLive(s) && RunsAlive(s)
  }

  lemma NextKeepsPublishInv(s: State, e: Event)
    requires PublishInv(s)
    ensures PublishInv(Next(s, e))
  {
    hide Next, Inv, LaneInv, RunsAlive, LiveEntry;
    NextKeepsInv(s, e);
    NextKeepsLaneInv(s, e);
    NextKeepsRunsAlive(s, e);
    var t := Next(s, e);
    forall h, id | h in t.procs && id in t.procs[h].running ensures LiveEntry(t, h, id) { EntryStaysLive(s, e, h, id); }
  }

  lemma {:induction false} EveryRunKeepsPublishInv(events: seq<Event>)
    ensures PublishInv(After(INIT, events))
  {
    hide Next, PublishInv;
    if events == [] {
      InitHoldsPublishInv();
    } else {
      EveryRunKeepsPublishInv(events[..|events| - 1]);
      NextKeepsPublishInv(After(INIT, events[..|events| - 1]), events[|events| - 1]);
    }
  }

  lemma InitHoldsPublishInv()
    ensures PublishInv(INIT)
  {
    InitHolds();
    InitHoldsLanes();
  }

  predicate NoLapse(events: seq<Event>) {
    forall i :: 0 <= i < |events| ==> !events[i].LeaseLapses?
  }

  /** Two sidecars are alive, or one is and the lease is free for another. */
  ghost predicate RoomForTwo(s: State) {
    || (exists g, h :: g != h && Alive(s, g) && Alive(s, h))
    || (s.lease == None && exists h :: Alive(s, h))
  }

  lemma NextKeepsOneOnly(s: State, e: Event)
    requires !RoomForTwo(s) && !e.LeaseLapses?
    ensures !RoomForTwo(Next(s, e))
  {
    hide Act, HasRoom, SettleWrite, Defined, Killed;
    var t := Next(s, e);
    forall g, h | Alive(t, g) && Alive(t, h) ensures g == h && t.lease != None {
      StaysAlive(s, e, g);
      StaysAlive(s, e, h);
    }
  }

  /** Only a boot brings a sidecar to life. */
  lemma StaysAlive(s: State, e: Event, h: Holder)
    requires Alive(Next(s, e), h)
    ensures Alive(s, h) || (e == Boot(h) && Enabled(s, e))
  {
    hide Act, HasRoom, SettleWrite, Defined, Killed;
  }

  lemma OneOnlyMeansOnePublish(s: State)
    requires PublishInv(s) && !RoomForTwo(s)
    ensures OnePublish(s)
  {
    hide Inv, LaneInv;
    ListedMeansOne(s);
    forall i, j | 0 <= i < |s.runs| && 0 <= j < |s.runs| && LivePublish(s.runs[i]) && LivePublish(s.runs[j]) ensures i == j {
      assert Alive(s, s.runs[i].holder) && Alive(s, s.runs[j].holder);
    }
  }

  lemma {:induction false} OneOnlyStays(s: State, more: seq<Event>)
    requires PublishInv(s) && !RoomForTwo(s) && NoLapse(more)
    ensures PublishInv(After(s, more)) && !RoomForTwo(After(s, more))
  {
    hide Next, PublishInv, RoomForTwo;
    if more != [] {
      var n := |more| - 1;
      OneOnlyStays(s, more[..n]);
      NextKeepsPublishInv(After(s, more[..n]), more[n]);
      NextKeepsOneOnly(After(s, more[..n]), more[n]);
    }
  }

  const A_PUBLISH := Kind(Publish, 1, false, true, false)

  lemma NoLivePublishHasRoom(s: State, h: Holder)
    requires EntriesLive(s) && h in s.procs
    requires forall r :: 0 <= r < |s.runs| && s.runs[r].holder == h ==> !LivePublish(s.runs[r])
    ensures HasRoom(s.procs[h], Publish)
  {
    forall id | id in s.procs[h].running ensures s.procs[h].running[id].lane != Publish { assert LiveEntry(s, h, id); }
    NothingInLane(s.procs[h].running, Publish);
  }

  lemma NothingInLane(running: map<JobId, Entry>, lane: Lane)
    requires forall id :: id in running ==> running[id].lane != lane
    ensures |InLane(running, lane)| == 0
  {
    assert InLane(running, lane) == {};
  }

  /** What putting a Publish to work leaves as it was. */
  predicate StillThere(s: State, t: State) {
    && |s.runs| <= |t.runs| && (forall r :: 0 <= r < |s.runs| ==> t.runs[r] == s.runs[r])
    && (forall h :: h in s.procs && s.procs[h].alive ==> Alive(t, h))
  }

  /** A living sidecar has a live Publish, or can be given one, whatever else is going on. */
  lemma CanPublish(s: State, h: Holder) returns (more: seq<Event>, r: nat)
    requires PublishInv(s) && Alive(s, h)
    ensures var t := After(s, more);
      && NoLapse(more) && PublishInv(t) && StillThere(s, t)
      && r < |t.runs| && LivePublish(t.runs[r]) && t.runs[r].holder == h
  {
    hide After, Inv, LaneInv, EntriesLive, RunsAlive;
    if r' :| 0 <= r' < |s.runs| && LivePublish(s.runs[r']) && s.runs[r'].holder == h {
      more, r := [], r';
      NoSteps(s);
    } else {
      NoLivePublishHasRoom(s, h);
      var id := Unused(s.rows.Keys);
      more, r := [Enqueue(id, A_PUBLISH, 0), ClaimAnswered(h, id)], |s.runs|;
      TwoSteps(s, Enqueue(id, A_PUBLISH, 0), ClaimAnswered(h, id));
      FreshPublishStarts(s, h, id);
      NextKeepsPublishInv(s, Enqueue(id, A_PUBLISH, 0));
      NextKeepsPublishInv(Next(s, Enqueue(id, A_PUBLISH, 0)), ClaimAnswered(h, id));
    }
  }

  lemma FreshPublishStarts(s: State, h: Holder, id: JobId)
    requires Alive(s, h) && HasRoom(s.procs[h], Publish) && id !in s.rows
    ensures var t := Next(Next(s, Enqueue(id, A_PUBLISH, 0)), ClaimAnswered(h, id));
      StillThere(s, t) && t.runs == s.runs + [Run(h, id, Publish, Working)]
  {
    hide HasRoom;
    var added := Next(s, Enqueue(id, A_PUBLISH, 0));
    assert added.procs == s.procs && added.runs == s.runs && CanClaim(added, h, id);
  }

  lemma NoSteps(s: State)
    ensures After(s, []) == s
  {
  }

  lemma TwoSteps(s: State, a: Event, b: Event)
    ensures After(s, [a, b]) == Next(Next(s, a), b)
  {
    hide Next;
    assert [a, b][..1] == [a];
    assert After(s, [a]) == Next(After(s, []), a);
  }

  lemma {:induction false} AfterInTwo(s: State, a: seq<Event>, b: seq<Event>)
    ensures After(s, a + b) == After(After(s, a), b)
  {
    hide Next;
    if b == [] {
      assert a + b == a;
    } else {
      AfterInTwo(s, a, b[..|b| - 1]);
      assert (a + b)[..|a + b| - 1] == a + b[..|b| - 1];
    }
  }

  lemma TwoAlivePublishTwice(s: State, g: Holder, h: Holder) returns (more: seq<Event>)
    requires PublishInv(s) && g != h && Alive(s, g) && Alive(s, h)
    ensures NoLapse(more) && !OnePublish(After(s, more))
  {
    hide After, PublishInv;
    var first, i := CanPublish(s, g);
    var second, j := CanPublish(After(s, first), h);
    AfterInTwo(s, first, second);
    more := first + second;
    var t := After(s, more);
    assert LivePublish(t.runs[i]) && LivePublish(t.runs[j]) && t.runs[i].holder == g && t.runs[j].holder == h;
  }

  /**
   * Exactly when two Publishes can come to run at once with no lease lapsing
   * from now on: when two sidecars are alive, or one is and the lease is free.
   */
  lemma PublishesTwiceExactlyWhen(events: seq<Event>)
    ensures var s := After(INIT, events);
      (exists more :: NoLapse(more) && !OnePublish(After(s, more))) <==> RoomForTwo(s)
  {
    hide After, PublishInv, NoLapse, OnePublish;
    var s := After(INIT, events);
    EveryRunKeepsPublishInv(events);
    if g, h :| g != h && Alive(s, g) && Alive(s, h) {
      var more := TwoAlivePublishTwice(s, g, h);
    } else if s.lease == None && exists h :: Alive(s, h) {
      var h :| Alive(s, h);
      var more := FreeLeasePublishesTwice(s, h);
    } else {
      forall more | NoLapse(more) ensures OnePublish(After(s, more)) {
        OneOnlyStays(s, more);
        OneOnlyMeansOnePublish(After(s, more));
      }
    }
  }

  lemma FreeLeasePublishesTwice(s: State, h: Holder) returns (more: seq<Event>)
    requires PublishInv(s) && Alive(s, h) && s.lease == None
    ensures NoLapse(more) && !OnePublish(After(s, more))
  {
    hide PublishInv, OnePublish, Act;
    var g := Unused(s.procs.Keys);
    var booted := Next(s, Boot(g));
    NextKeepsPublishInv(s, Boot(g));
    var rest := TwoAlivePublishTwice(booted, g, h);
    more := [Boot(g)] + rest;
    AfterInTwo(s, [Boot(g)], rest);
    OneEvent(s, Boot(g));
  }

  lemma OneEvent(s: State, e: Event)
    ensures After(s, [e]) == Next(s, e)
  {
    hide Next;
    assert [e][..0] == [];
    NoSteps(s);
  }

  // ---- One handler of a Job at a time -------------------------------------------------

  /**
   * The two things that keep a Job's handlers apart. Recovery takes no row
   * whose holder still works on it (what the lease timing is for); and a
   * sidecar claims no Job whose earlier run it has not finished settling
   * (which nothing enforces).
   */
  predicate Calm(s: State, e: Event) {
    match e
    case Recovers(h, id) => forall r :: 0 <= r < |s.runs| && s.runs[r].id == id ==> s.runs[r].phase != Working
    case ClaimAnswered(h, id) =>
      forall r :: 0 <= r < |s.runs| && s.runs[r].id == id && s.runs[r].holder == h ==> s.runs[r].phase == Over
    case _ => true
  }

  predicate CalmOver(s: State, events: seq<Event>) {
    forall i :: 0 <= i < |events| ==> Calm(After(s, events[..i]), events[i])
  }

  predicate WorkingIsHeld(s: State, r: nat)
    requires r < |s.runs|
  {
    var run := s.runs[r];
    run.phase == Working ==> run.id in s.rows && Held(s.rows[run.id], run.holder)
  }

  predicate SameLiveRun(s: State, i: nat, j: nat)
    requires i < |s.runs| && j < |s.runs|
  {
    s.runs[i].phase != Over && s.runs[j].phase != Over
    && s.runs[i].id == s.runs[j].id && s.runs[i].holder == s.runs[j].holder
  }

  predicate ApartInv(s: State) {
    && (forall r :: 0 <= r < |s.runs| ==> WorkingIsHeld(s, r))
    && (forall i, j :: 0 <= i < |s.runs| && 0 <= j < |s.runs| && SameLiveRun(s, i, j) ==> i == j)
  }

  /** No two handlers of one Job work at once, in one sidecar or in two. */
  predicate OneHandlerPerJob(s: State) {
    forall i, j | 0 <= i < |s.runs| && 0 <= j < |s.runs| && s.runs[i].phase == Working && s.runs[j].phase == Working
      :: s.runs[i].id == s.runs[j].id ==> i == j
  }

  lemma ApartMeansOneHandler(s: State)
    requires ApartInv(s)
    ensures OneHandlerPerJob(s)
  {
    forall i, j | 0 <= i < |s.runs| && 0 <= j < |s.runs| && s.runs[i].phase == Working && s.runs[j].phase == Working
      && s.runs[i].id == s.runs[j].id
      ensures i == j
    {
      assert WorkingIsHeld(s, i) && WorkingIsHeld(s, j);
      assert SameLiveRun(s, i, j);
    }
  }

  lemma LiveRunsDiffer(s: State, i: nat, j: nat)
    requires ApartInv(s) && i < |s.runs| && j < |s.runs|
    ensures SameLiveRun(s, i, j) ==> i == j
  {
    hide WorkingIsHeld;
  }

  /** A held row stays held unless its holder's own write, or recovery, takes it. */
  lemma HeldStays(j: Job, h: Holder, a: RowAction)
    requires Held(j, h) && a != Recover && !(a.Settle? && a.from == h)
    ensures Held(Act(j, a), h)
  {
    hide Count, WentOut;
  }

  lemma StepKeepsHeld(s: State, e: Event, r: nat)
    requires ApartInv(s) && Calm(s, e) && r < |s.runs|
    ensures r < |Next(s, e).runs| && WorkingIsHeld(Next(s, e), r)
  {
    hide Next, Act, Held, HasRoom, Defined, AllOver;
    RunMoves(s, e, r);
    if Next(s, e).runs[r].phase == Working {
      assert WorkingIsHeld(s, r);
      var id := s.runs[r].id;
      RowFollows(s, e, id);
      if e.WriteLands? && IsSettling(s, e.run) && s.runs[e.run].id == id && s.runs[e.run].holder == s.runs[r].holder {
        LiveRunsDiffer(s, r, e.run);
      } else {
        HeldStays(s.rows[id], s.runs[r].holder, ActionOn(s, e, id));
      }
    }
  }

  lemma NewRunIsHeld(s: State, e: Event)
    requires e.ClaimAnswered? && Enabled(s, e)
    ensures |Next(s, e).runs| > |s.runs| && WorkingIsHeld(Next(s, e), |s.runs|)
  {
    hide HasRoom;
  }

  lemma StepKeepsDistinct(s: State, e: Event, i: nat, j: nat)
    requires ApartInv(s) && Calm(s, e) && i < j < |Next(s, e).runs|
    ensures !SameLiveRun(Next(s, e), i, j)
  {
    hide Next, Enabled, SettleWrite, WorkingIsHeld;
    NewRun(s, e);
    RunMoves(s, e, i);
    if j < |s.runs| {
      RunMoves(s, e, j);
      assert !SameLiveRun(s, i, j);
    }
  }

  lemma StepKeepsApart(s: State, e: Event)
    requires ApartInv(s) && Calm(s, e)
    ensures ApartInv(Next(s, e))
  {
    hide Next, Calm, SameLiveRun, WorkingIsHeld, Enabled;
    var t := Next(s, e);
    NewRun(s, e);
    forall r | 0 <= r < |t.runs| ensures WorkingIsHeld(t, r) {
      if r < |s.runs| { StepKeepsHeld(s, e, r); } else { NewRunIsHeld(s, e); }
    }
    forall i, j | 0 <= i < |t.runs| && 0 <= j < |t.runs| && SameLiveRun(t, i, j) ensures i == j {
      if i < j { StepKeepsDistinct(s, e, i, j); }
      if j < i { StepKeepsDistinct(s, e, j, i); SameLiveRunIsSymmetric(t, i, j); }
    }
  }

  lemma SameLiveRunIsSymmetric(s: State, i: nat, j: nat)
    requires i < |s.runs| && j < |s.runs|
    ensures SameLiveRun(s, i, j) <==> SameLiveRun(s, j, i)
  {
  }

  lemma {:induction false} CalmKeepsApart(events: seq<Event>)
    requires CalmOver(INIT, events)
    ensures ApartInv(After(INIT, events))
  {
    hide Next, Calm, ApartInv;
    if events == [] {
      InitIsApart();
    } else {
      var before := events[..|events| - 1];
      forall i | 0 <= i < |before| ensures Calm(After(INIT, before[..i]), before[i]) {
        assert events[..i] == before[..i];
      }
      CalmKeepsApart(before);
      StepKeepsApart(After(INIT, before), events[|events| - 1]);
    }
  }

  lemma InitIsApart()
    ensures ApartInv(INIT)
  {
  }

  /** Step `e` takes the row of a run from under it: recovery of its Job, or a write by a run of the same sidecar and Job. */
  predicate LosesItsRow(s: State, e: Event, r: nat)
    requires r < |s.runs|
  {
    var run := s.runs[r];
    && run.phase == Working && Enabled(s, e)
    && ((e.Recovers? && e.id == run.id)
        || (e.WriteLands? && s.runs[e.run].id == run.id && s.runs[e.run].holder == run.holder))
  }

  lemma LetGoOnlyByItsHolder(j: Job, h: Holder, a: RowAction)
    requires Held(j, h)
    ensures !Held(Act(j, a), h) <==> a == Recover || (a.Settle? && a.from == h)
  {
    hide Count, WentOut;
  }

  /** A working run's row, once held, stays held until exactly such a step. */
  lemma HeldUntilTaken(s: State, e: Event, r: nat)
    requires r < |s.runs| && s.runs[r].phase == Working && WorkingIsHeld(s, r)
    ensures var run := s.runs[r];
      run.id in Next(s, e).rows && (!Held(Next(s, e).rows[run.id], run.holder) <==> LosesItsRow(s, e, r))
  {
    hide Next, Act, Held, HasRoom, Defined, AllOver;
    var id := s.runs[r].id;
    RowFollows(s, e, id);
    LetGoOnlyByItsHolder(s.rows[id], s.runs[r].holder, ActionOn(s, e, id));
  }

  /** An answered claim of a Job one of whose runs still works. */
  predicate ClaimsBeside(s: State, e: Event, r: nat)
    requires r < |s.runs|
  {
    Enabled(s, e) && e.ClaimAnswered? && s.runs[r].id == e.id && s.runs[r].phase == Working
  }

  /** Exactly the steps that set two handlers of a Job to work. */
  lemma TwoHandlersByAClaimBeside(s: State, e: Event)
    requires OneHandlerPerJob(s)
    ensures OneHandlerPerJob(Next(s, e)) <==> forall r :: 0 <= r < |s.runs| ==> !ClaimsBeside(s, e, r)
  {
    hide Next, Enabled, SettleWrite;
    var t := Next(s, e);
    NewRun(s, e);
    forall r | 0 <= r < |s.runs|
      ensures r < |t.runs| && t.runs[r].id == s.runs[r].id && (t.runs[r].phase == Working ==> s.runs[r].phase == Working)
      ensures e.ClaimAnswered? ==> t.runs[r].phase == s.runs[r].phase
    {
      RunMoves(s, e, r);
      if e.ClaimAnswered? { ClaimMovesNoRun(s, e, r); }
    }
    if r :| 0 <= r < |s.runs| && ClaimsBeside(s, e, r) {
      assert t.runs[r].phase == Working && t.runs[|s.runs|].phase == Working && t.runs[r].id == t.runs[|s.runs|].id;
    } else {
      forall i, j | 0 <= i < |t.runs| && 0 <= j < |t.runs| && t.runs[i].phase == Working && t.runs[j].phase == Working
        && t.runs[i].id == t.runs[j].id
        ensures i == j
      {
        if i < |s.runs| { assert !ClaimsBeside(s, e, i); }
        if j < |s.runs| { assert !ClaimsBeside(s, e, j); }
      }
    }
  }

  lemma ClaimMovesNoRun(s: State, e: Event, r: nat)
    requires e.ClaimAnswered? && r < |s.runs|
    ensures r < |Next(s, e).runs| && Next(s, e).runs[r] == s.runs[r]
  {
    hide Act, HasRoom;
  }

  /** A run that works on a row that is not its own has lost it at some step. */
  lemma {:induction false} LostItsRowBefore(events: seq<Event>, r: nat) returns (k: nat)
    requires r < |After(INIT, events).runs| && !WorkingIsHeld(After(INIT, events), r)
    ensures k < |events| && r < |After(INIT, events[..k]).runs| && LosesItsRow(After(INIT, events[..k]), events[k], r)
  {
    hide Next, WorkingIsHeld, LosesItsRow, Enabled;
    if events == [] {
      InitHasNoRuns();
    } else {
      var n := |events| - 1;
      var before, e := After(INIT, events[..n]), events[n];
      NewRun(before, e);
      if r >= |before.runs| {
        NewRunIsHeld(before, e);
      } else if !WorkingIsHeld(before, r) {
        k := LostItsRowBefore(events[..n], r);
        assert events[..n][..k] == events[..k];
      } else {
        TakenByTheLastStep(before, e, r);
        k := n;
      }
    }
  }

  lemma InitHasNoRuns()
    ensures INIT.runs == []
  {
  }

  lemma TakenByTheLastStep(s: State, e: Event, r: nat)
    requires r < |s.runs| && WorkingIsHeld(s, r) && r < |Next(s, e).runs| && !WorkingIsHeld(Next(s, e), r)
    ensures LosesItsRow(s, e, r)
  {
    hide Next, Held, LosesItsRow;
    RunMoves(s, e, r);
    HeldUntilTaken(s, e, r);
  }

  /** At every moment of a run, no two handlers of one Job work at once. */
  predicate OneHandlerThroughout(events: seq<Event>) {
    forall n :: 0 <= n <= |events| ==> OneHandlerPerJob(After(INIT, events[..n]))
  }

  /** Run `r` lost its row at step `k`, and at step `i`, while it still worked, its Job was claimed again. */
  predicate ClaimedAfterLoss(events: seq<Event>, k: nat, i: nat, r: nat) {
    && k < i < |events|
    && r < |After(INIT, events[..k]).runs| && LosesItsRow(After(INIT, events[..k]), events[k], r)
    && r < |After(INIT, events[..i]).runs| && ClaimsBeside(After(INIT, events[..i]), events[i], r)
  }

  lemma ClaimBesideNeedsALoss(events: seq<Event>, i: nat, r: nat) returns (k: nat)
    requires i < |events| && r < |After(INIT, events[..i]).runs| && ClaimsBeside(After(INIT, events[..i]), events[i], r)
    ensures ClaimedAfterLoss(events, k, i, r)
  {
    hide After, Next, LosesItsRow, HasRoom;
    k := LostItsRowBefore(events[..i], r);
    assert events[..i][..k] == events[..k];
  }

  lemma {:induction false} TwoHandlersNeedAClaimBeside(events: seq<Event>) returns (i: nat, r: nat)
    requires !OneHandlerPerJob(After(INIT, events))
    ensures i < |events| && r < |After(INIT, events[..i]).runs| && ClaimsBeside(After(INIT, events[..i]), events[i], r)
  {
    hide Next, OneHandlerPerJob, ClaimsBeside;
    if events == [] {
      InitHasOneHandler();
    } else {
      var n := |events| - 1;
      var before := After(INIT, events[..n]);
      if OneHandlerPerJob(before) {
        TwoHandlersByAClaimBeside(before, events[n]);
        i := n;
        r :| 0 <= r < |before.runs| && ClaimsBeside(before, events[n], r);
      } else {
        i, r := TwoHandlersNeedAClaimBeside(events[..n]);
        assert events[..n][..i] == events[..i];
      }
    }
  }

  lemma InitHasOneHandler()
    ensures OneHandlerPerJob(INIT)
  {
  }

  /**
   * Over every run, exactly when two handlers of one Job come to work at once:
   * a working run's row is taken from under it, by recovery or by an earlier
   * run of the same sidecar settling the same Job, and the Job is claimed
   * again while that run still works.
   */
  lemma TwoHandlersExactlyWhen(events: seq<Event>)
    ensures !OneHandlerThroughout(events) <==> exists k: nat, i: nat, r: nat :: ClaimedAfterLoss(events, k, i, r)
  {
    hide After, Next, OneHandlerPerJob, LosesItsRow, ClaimsBeside;
    if n :| 0 <= n <= |events| && !OneHandlerPerJob(After(INIT, events[..n])) {
      var i, r := TwoHandlersNeedAClaimBeside(events[..n]);
      assert events[..n][..i] == events[..i];
      var k := ClaimBesideNeedsALoss(events, i, r);
    }
    if k: nat, i: nat, r: nat :| ClaimedAfterLoss(events, k, i, r) {
      var s := After(INIT, events[..i]);
      if OneHandlerPerJob(s) {
        TwoHandlersByAClaimBeside(s, events[i]);
        OneStepOn(events, i);
        assert !OneHandlerPerJob(After(INIT, events[..i + 1]));
      }
    }
  }

  lemma OneStepOn(events: seq<Event>, i: nat)
    requires i < |events|
    ensures After(INIT, events[..i + 1]) == Next(After(INIT, events[..i]), events[i])
  {
    hide Next;
    assert events[..i + 1][..i] == events[..i];
  }

  /** Over every calm run, no two handlers of one Job work at once. */
  lemma CalmRunsOneHandler(events: seq<Event>)
    requires CalmOver(INIT, events)
    ensures OneHandlerPerJob(After(INIT, events))
  {
    hide After, CalmOver, ApartInv, OneHandlerPerJob;
    CalmKeepsApart(events);
    ApartMeansOneHandler(After(INIT, events));
  }

  /** A world of one sidecar "a" and one Job "x", for the counterexample below. */
  function Small(x: Job, running: map<JobId, Entry>, runs: seq<Run>): State {
    State(map["x" := x], map["a" := Proc(true, false, running)], runs, Some("a"), Some("a"))
  }

  function RunOfX(phase: Phase): Run {
    Run("a", "x", Default, phase)
  }

  const THREE_TRIES := Kind(Default, 3, false, false, false)
  const FAILED_ONCE := SettleWrite(THREE_TRIES, Failure, false)

  lemma FirstRunFails()
    ensures Next(Next(Next(Next(INIT, Boot("a")), Enqueue("x", THREE_TRIES, 0)), ClaimAnswered("a", "x")), Finish(0, Failure))
         == Small(Job(THREE_TRIES, Running, 1, 3, Some("a"), [Added] + [Started]), map["x" := Entry(Default, 0)],
                  [RunOfX(Settling(FAILED_ONCE))])
  {
    hide InLane;
    var s2 := Next(Next(INIT, Boot("a")), Enqueue("x", THREE_TRIES, 0));
    assert s2 == Small(Job(THREE_TRIES, Queued, 1, 3, None, [Added]), map[], []);
    var s3 := Next(s2, ClaimAnswered("a", "x"));
    assert s3 == Small(Job(THREE_TRIES, Running, 1, 3, Some("a"), [Added] + [Started]), map["x" := Entry(Default, 0)],
                       [RunOfX(Working)]);
  }

  lemma AnswerIsLost()
    ensures var s4 := Small(Job(THREE_TRIES, Running, 1, 3, Some("a"), [Added] + [Started]), map["x" := Entry(Default, 0)],
                            [RunOfX(Settling(FAILED_ONCE))]);
      Next(Next(s4, WriteLands(0, false)), ClaimAnswered("a", "x"))
      == Small(Job(THREE_TRIES, Running, 2, 3, Some("a"), [Added] + [Started] + [Retrying] + [Started]),
               map["x" := Entry(Default, 1)], [RunOfX(Settling(FAILED_ONCE)), RunOfX(Working)])
  {
    hide InLane, Count;
    var s4 := Small(Job(THREE_TRIES, Running, 1, 3, Some("a"), [Added] + [Started]), map["x" := Entry(Default, 0)],
                    [RunOfX(Settling(FAILED_ONCE))]);
    var s5 := Next(s4, WriteLands(0, false));
    assert s5 == Small(Job(THREE_TRIES, Queued, 2, 3, None, [Added] + [Started] + [Retrying]), map["x" := Entry(Default, 0)],
                       [RunOfX(Settling(FAILED_ONCE))]);
    assert s5.procs["a"].running["x" := Entry(Default, 1)] == map["x" := Entry(Default, 1)];
    var s6 := Next(s5, ClaimAnswered("a", "x"));
    assert s6.runs == [RunOfX(Settling(FAILED_ONCE)), RunOfX(Working)];
    assert s6.procs == map["a" := Proc(true, false, map["x" := Entry(Default, 1)])];
  }

  lemma TriedAgainFailsTheNewRun()
    ensures var s6 := Small(Job(THREE_TRIES, Running, 2, 3, Some("a"), [Added] + [Started] + [Retrying] + [Started]),
                            map["x" := Entry(Default, 1)], [RunOfX(Settling(FAILED_ONCE)), RunOfX(Working)]);
      Next(Next(s6, WriteLands(0, true)), ClaimAnswered("a", "x")).runs
      == [RunOfX(Over), RunOfX(Working), RunOfX(Working)]
  {
    hide InLane, Count;
    var s6 := Small(Job(THREE_TRIES, Running, 2, 3, Some("a"), [Added] + [Started] + [Retrying] + [Started]),
                    map["x" := Entry(Default, 1)], [RunOfX(Settling(FAILED_ONCE)), RunOfX(Working)]);
    var s7 := Next(s6, WriteLands(0, true));
    assert s7.runs == [RunOfX(Over), RunOfX(Working)];
    assert s7 == Small(Job(THREE_TRIES, Queued, 3, 3, None, [Added] + [Started] + [Retrying] + [Started] + [Retrying]), map[],
                       [RunOfX(Over), RunOfX(Working)]);
  }

  /**
   * Without the second condition two handlers of one Job do work at once: the
   * answer of attempt 1's failure is lost, the same sidecar claims attempt 2
   * before it tries the write again, the second try fails attempt 2's row and
   * takes its entry out of the map, and attempt 3 starts beside it.
   */
  lemma LostAnswerRunsTwoHandlers()
    ensures var s := After(After(INIT, [Boot("a"), Enqueue("x", THREE_TRIES, 0), ClaimAnswered("a", "x"), Finish(0, Failure)]),
                           [WriteLands(0, false), ClaimAnswered("a", "x"), WriteLands(0, true), ClaimAnswered("a", "x")]);
      !OneHandlerPerJob(s)
  {
    hide After, Next;
    FirstRunFails();
    AnswerIsLost();
    TriedAgainFailsTheNewRun();
    FourSteps(INIT, Boot("a"), Enqueue("x", THREE_TRIES, 0), ClaimAnswered("a", "x"), Finish(0, Failure));
    var s4 := After(INIT, [Boot("a"), Enqueue("x", THREE_TRIES, 0), ClaimAnswered("a", "x"), Finish(0, Failure)]);
    FourSteps(s4, WriteLands(0, false), ClaimAnswered("a", "x"), WriteLands(0, true), ClaimAnswered("a", "x"));
    var runs := After(s4, [WriteLands(0, false), ClaimAnswered("a", "x"), WriteLands(0, true), ClaimAnswered("a", "x")]).runs;
    assert runs == [RunOfX(Over), RunOfX(Working), RunOfX(Working)];
    assert runs[1].id == runs[2].id;
  }

  lemma FourSteps(s: State, a: Event, b: Event, c: Event, d: Event)
    ensures After(s, [a, b, c, d]) == Next(Next(Next(Next(s, a), b), c), d)
  {
    hide Next;
    assert [a, b, c, d][..3] == [a, b, c];
    assert [a, b, c][..2] == [a, b];
    assert [a, b][..1] == [a];
    assert After(s, [a]) == Next(After(s, []), a);
    assert After(s, [a, b]) == Next(After(s, [a]), b);
    assert After(s, [a, b, c]) == Next(After(s, [a, b]), c);
  }

  // ---- The code's own form ------------------------------------------------------------

  /** What `fillLane` leaves in the map when the database answers its claims with `offers`, then nothing. */
  function Filled(p: Proc, lane: Lane, offers: seq<(JobId, nat)>): Proc
    decreases |offers|
  {
    if offers == [] || !HasRoom(p, lane) then p
    else Filled(Registered(p, offers[0].0, Entry(lane, offers[0].1)), lane, offers[1..])
  }

  /** However many Jobs are on offer, filling a lane leaves at most one Publish in the map. */
  lemma {:induction false} FilledKeepsOnePublish(p: Proc, lane: Lane, offers: seq<(JobId, nat)>)
    requires OnePublishEntry(p)
    ensures OnePublishEntry(Filled(p, lane, offers))
    decreases |offers|
  {
    hide OnePublishEntry, HasRoom;
    if offers != [] && HasRoom(p, lane) {
      LaunchKeepsOneEntry(p, offers[0].0, Entry(lane, offers[0].1));
      FilledKeepsOnePublish(Registered(p, offers[0].0, Entry(lane, offers[0].1)), lane, offers[1..]);
    }
  }

  /** A lane is filled as far as there are Jobs and room: with room left at the end, every Job offered was taken; and nothing else changes. */
  lemma {:induction false} FilledWhileRoom(p: Proc, lane: Lane, offers: seq<(JobId, nat)>)
    ensures var after := Filled(p, lane, offers);
      && (HasRoom(after, lane) ==> forall k :: 0 <= k < |offers| ==> offers[k].0 in after.running)
      && (HasRoom(p, lane) && offers != [] ==> offers[0].0 in after.running)
      && p.running.Keys <= after.running.Keys && after.alive == p.alive && after.stopping == p.stopping
      && (forall id :: id in after.running ==> id in p.running || exists k :: 0 <= k < |offers| && offers[k].0 == id)
    decreases |offers|
  {
    hide HasRoom;
    if offers != [] && HasRoom(p, lane) {
      var next := Registered(p, offers[0].0, Entry(lane, offers[0].1));
      FilledWhileRoom(next, lane, offers[1..]);
      var after := Filled(p, lane, offers);
      forall id | id in after.running && id !in p.running ensures exists k :: 0 <= k < |offers| && offers[k].0 == id {
        if id != offers[0].0 {
          var k :| 0 <= k < |offers[1..]| && offers[1..][k].0 == id;
          assert offers[k + 1].0 == id;
        }
      }
      forall k | 0 <= k < |offers| && HasRoom(after, lane) ensures offers[k].0 in after.running {
        if k > 0 { assert offers[1..][k - 1].0 in after.running; }
      }
    }
  }

  /** One sidecar's own state: its map of running Jobs and its `stopping` flag. */
  class Runner {
    var running: map<JobId, Entry>
    var stopping: bool

    function Abs(): Proc
      reads this
    {
      Proc(true, stopping, running)
    }

    constructor ()
      ensures Abs() == Proc(true, false, map[])
    {
      running, stopping := map[], false;
    }

    method FillLane(lane: Lane, offers: seq<(JobId, nat)>)
      modifies this
      ensures Abs() == Filled(old(Abs()), lane, offers)
      ensures old(OnePublishEntry(Abs())) ==> OnePublishEntry(Abs())
    {
      var k := 0;
      while k < |offers| && HasRoom(Abs(), lane)
        invariant 0 <= k <= |offers|
        invariant Filled(old(Abs()), lane, offers) == Filled(Abs(), lane, offers[k..])
      {
        running := running[offers[k].0 := Entry(lane, offers[k].1)];
        k := k + 1;
      }
      if old(OnePublishEntry(Abs())) { FilledKeepsOnePublish(old(Abs()), lane, offers); }
    }

    /** `settle`: which write a run's ending leads to, as this sidecar stands. */
    method Settle(kind: Kind, exit: Exit) returns (write: Write)
      ensures write == SettleWrite(kind, exit, stopping)
    {
      if exit == Success { return Complete; }
      if exit == AuthorCancelled { return Cancel; }
      var interrupted := exit == Cut;
      var neverReRun := IsNeverReRun(kind);
      if interrupted && stopping && !neverReRun { return Return; }
      write := Fail(interrupted, !kind.posting && !(neverReRun && interrupted), kind.resumable);
    }

    method Ended(id: JobId)
      modifies this
      ensures Abs() == Forgotten(old(Abs()), id)
    {
      running := running - {id};
    }

    /** Which runs a heartbeat cuts off: exactly those of the Jobs the database no longer gives this holder. */
    method Heartbeat(held: set<JobId>) returns (cut: set<nat>)
      ensures forall r :: r in cut <==> exists id :: id in running && id !in held && running[id].run == r
    {
      cut := {};
      var left := running.Keys;
      while |left| > 0
        invariant forall id :: id in left ==> id in running
        invariant forall r :: r in cut <==> exists id :: id in running && id !in left && id !in held && running[id].run == r
        decreases |left|
      {
        var id := AnyOf(left);
        var before, was := left, cut;
        left := left - {id};
        if id !in held { cut := cut + {running[id].run}; }
        forall r ensures r in cut <==> exists i :: i in running && i !in left && i !in held && running[i].run == r {
          if r in was {
            var i :| i in running && i !in before && i !in held && running[i].run == r;
            assert i !in left;
          }
        }
      }
    }

    method Stop()
      modifies this
      ensures Abs() == old(Abs()).(stopping := true)
    {
      stopping := true;
    }
  }

  /**
   * The kinds recovery must not retry, gathered by name. What recovery then
   * looks up, "is this name among them", is `IsNeverReRun` of that kind.
   */
  method NeverReRunNames(registry: map<string, Kind>, names: seq<string>) returns (never: set<string>)
    requires forall name :: name in names <==> name in registry
    ensures forall name :: name in never <==> name in registry && IsNeverReRun(registry[name])
  {
    never := {};
    for i := 0 to |names|
      invariant forall name :: name in never <==> name in names[..i] && IsNeverReRun(registry[name])
    {
      if IsNeverReRun(registry[names[i]]) { never := never + {names[i]}; }
    }
  }
}
