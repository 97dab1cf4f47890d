/**
 * The Live Stream's supervisor (`createStreamSide`): one stream process at a time, launched again
 * when it quits or stalls until the stream is ended. Each of its callbacks is a step; the exit
 * handler is two, since other callbacks may run while it awaits the process's going.
 */
module StreamSide {
  import opened Common

  datatype Status = Idle | Starting | Connecting | Live | Reconnecting | Ending | Ended

  /**
   * One stream process. `gone` is the quit its exit handler waits for; `handled` says that
   * handler has begun; `scene` is what it shows, from its arguments or its last command.
   */
  datatype Process = Process(
    scene: nat, fromStart: bool, ending: bool, framed: bool, pushLost: bool, liveAt: Option<int>,
    gone: Option<nat>, exited: bool, handled: bool)

  /** A `q`, and then a kill, under way; `end`'s own clears `running` once it is done. */
  datatype Quit = Quit(process: nat, fromEnd: bool)

  /** The Live Stream Go Live started: its name, and the scene it was given. */
  datatype Held = Held(name: nat, scene: nat)

  datatype State = State(
    status: Status,
    running: Option<nat>,
    held: Option<Held>,
    scene: Option<nat>,
    reconnects: nat,
    relaunches: nat,
    relaunchTimer: Option<nat>,
    /** Timers set and neither fired nor cleared, with what was held when each was set. */
    timers: map<nat, Held>,
    /** Quits under way, and the ended processes whose quit is done and not yet heard of. */
    quitting: map<nat, Quit>,
    ended: set<nat>,
    /** Exit handlers at their await, with the wait before the relaunch. */
    awaiting: map<nat, nat>,
    /** Every process launched, oldest first: a process is named by its place. */
    processes: seq<Process>,
    /** The next name for a timer, a quit or a Live Stream. */
    nextName: nat)

  datatype Event =
    | Start(scene: nat)
    | Banner(process: nat)
    | Block(process: nat, frame: int, nowMs: int)
    | PushLost(process: nat)
    | PushBack(process: nat, nowMs: int)
    | Stall(process: nat)
    | Exits(process: nat)
    | ExitSeen(process: nat, nowMs: int)
    | GoneSeen(process: nat)
    | TimerFires(timer: nat)
    | QuitDone(quit: nat)
    | EndedSeen(process: nat)
    | End
    | EndPressed
    | SwitchScene(scene: nat)

  const FIRST_WAIT_MS := 250
  const LAST_WAIT_MS := 8_000
  const HEALTHY_MS := 30_000

  const INITIAL := State(Idle, None, None, None, 0, 0, None, map[], map[], {}, map[], [], 0)

  function Pow2(n: nat): (p: nat)
    ensures p >= 1
  {
    if n == 0 then 1 else 2 * Pow2(n - 1)
  }

  function RelaunchWait(relaunches: nat): (wait: nat)
    ensures FIRST_WAIT_MS <= wait <= LAST_WAIT_MS
  {
    if FIRST_WAIT_MS * Pow2(relaunches) <= LAST_WAIT_MS then FIRST_WAIT_MS * Pow2(relaunches) else LAST_WAIT_MS
  }

  // ---- What the callbacks do -----------------------------------------------------------

  /** `set`: the status shown, unless it is already that, or ending, which only its end follows. */
  function Shown(status: Status, next: Status): Status {
    if status == next && next != Ended then status
    else if status == Ending && next != Ended then status
    else next
  }

  function Show(s: State, next: Status): State { s.(status := Shown(s.status, next)) }

  predicate Over(status: Status) { status == Idle || status == Ended }

  predicate Current(s: State, p: nat) {
    s.running == Some(p) && p < |s.processes| && !s.processes[p].ending
  }

  function WithProcess(s: State, p: nat, process: Process): State
    requires p < |s.processes|
  {
    s.(processes := s.processes[p := process])
  }

  function WentLive(s: State, p: nat, nowMs: int): State
    requires p < |s.processes|
  {
    Show(WithProcess(s, p, s.processes[p].(liveAt := Some(nowMs))), Live)
  }

  function Reconnected(s: State): State { Show(s.(reconnects := s.reconnects + 1), Reconnecting) }

  function LaunchOne(s: State, scene: nat, fromStart: bool): State {
    var shown := if s.scene.Some? then s.scene.value else scene;
    s.(running := Some(|s.processes|),
       processes := s.processes + [Process(shown, fromStart, false, false, false, None, None, false, false)])
  }

  function StartQuit(s: State, p: nat, fromEnd: bool): State {
    s.(quitting := s.quitting[s.nextName := Quit(p, fromEnd)], nextName := s.nextName + 1)
  }

  /** The exit handler up to its await. */
  function Exited(s: State, p: nat, nowMs: int): State
    requires p < |s.processes|
  {
    var process := s.processes[p];
    var seen := WithProcess(s, p, process.(handled := true));
    if s.running != Some(p) then seen
    else if process.ending then seen.(running := None)
    else
      var healthy := process.liveAt.Some? && nowMs - process.liveAt.value >= HEALTHY_MS;
      var relaunches := if healthy then 0 else s.relaunches;
      Reconnected(seen).(relaunches := relaunches + 1, awaiting := s.awaiting[p := RelaunchWait(relaunches)])
  }

  /** `end`: nothing is held any more, no timer will launch, and the process is told to quit. */
  function EndOf(s: State): State {
    var cleared := s.(held := None, relaunchTimer := None,
                      timers := if s.relaunchTimer.Some? then s.timers - {s.relaunchTimer.value} else s.timers);
    var over := if Over(s.status) then cleared else Show(cleared, Ended);
    if s.running.None? || s.running.value >= |s.processes| || s.processes[s.running.value].ending then over
    else
      var p := s.running.value;
      StartQuit(WithProcess(over, p, s.processes[p].(ending := true)), p, true)
  }

  /** What can happen: a process's lines come before it exits, and what a promise waits on is done. */
  predicate Enabled(s: State, e: Event) {
    match e
    case Banner(p) => p < |s.processes| && !s.processes[p].exited && s.processes[p].fromStart
    case Block(p, _, _) => p < |s.processes| && !s.processes[p].exited
    case PushLost(p) => p < |s.processes| && !s.processes[p].exited
    case PushBack(p, _) => p < |s.processes| && !s.processes[p].exited
    case Stall(p) => p < |s.processes| && !s.processes[p].handled
    case Exits(p) => p < |s.processes| && !s.processes[p].exited
    case ExitSeen(p, _) => p < |s.processes| && s.processes[p].exited && !s.processes[p].handled
    case GoneSeen(p) =>
      p in s.awaiting && p < |s.processes| && (s.processes[p].gone.Some? ==> s.processes[p].gone.value !in s.quitting)
    case TimerFires(t) => t in s.timers
    case QuitDone(q) => q in s.quitting && s.quitting[q].process < |s.processes| && s.processes[s.quitting[q].process].exited
    case EndedSeen(p) => p in s.ended
    case _ => true
  }

  function Next(s: State, e: Event): State
    requires Enabled(s, e)
  {
    match e
    case Start(scene) =>
      if s.running.Some? || s.held.Some? then s
      else
        var holding := s.(held := Some(Held(s.nextName, scene)), nextName := s.nextName + 1);
        var started := Show(holding.(reconnects := 0, relaunches := 0), Starting);
        LaunchOne(started.(scene := Some(scene)), scene, true)
    case Banner(p) =>
      if s.running == Some(p) && s.status == Starting then Show(s, Connecting) else s
    case Block(p, frame, nowMs) =>
      var process := s.processes[p];
      if !Current(s, p) || frame == 0 || process.framed then s
      else
        var framed := WithProcess(s, p, process.(framed := true));
        if process.pushLost then framed else WentLive(framed, p, nowMs)
    case PushLost(p) =>
      if !Current(s, p) || s.processes[p].pushLost then s
      else
        var lost := WithProcess(s, p, s.processes[p].(pushLost := true));
        if s.status == Live then Reconnected(lost) else lost
    case PushBack(p, nowMs) =>
      if !Current(s, p) || !s.processes[p].pushLost then s
      else
        var back := WithProcess(s, p, s.processes[p].(pushLost := false));
        if s.processes[p].framed then WentLive(back, p, nowMs) else back
    case Stall(p) =>
      if !Current(s, p) then s
      else WithProcess(StartQuit(s, p, false), p, s.processes[p].(gone := Some(s.nextName)))
    case Exits(p) => WithProcess(s, p, s.processes[p].(exited := true))
    case ExitSeen(p, nowMs) => Exited(s, p, nowMs)
    case GoneSeen(p) =>
      var seen := s.(awaiting := s.awaiting - {p});
      if s.running != Some(p) then seen
      else if s.held.None? then seen.(running := None)
      else
        var timed := seen.(relaunchTimer := Some(s.nextName), timers := s.timers[s.nextName := s.held.value]);
        timed.(running := None, nextName := s.nextName + 1)
    case TimerFires(t) =>
      var fired := s.(timers := s.timers - {t}, relaunchTimer := None);
      if s.held != Some(s.timers[t]) || s.running.Some? then fired else LaunchOne(fired, s.timers[t].scene, false)
    case QuitDone(q) =>
      var quit := s.quitting[q];
      s.(quitting := s.quitting - {q}, ended := if quit.fromEnd then s.ended + {quit.process} else s.ended)
    case EndedSeen(p) =>
      s.(ended := s.ended - {p}, running := if s.running == Some(p) then None else s.running)
    case End => EndOf(s)
    case EndPressed => if Over(s.status) then s else Show(s, Ending)
    case SwitchScene(scene) =>
      var switched := s.(scene := Some(scene));
      if s.running.Some? && Current(s, s.running.value) then
        WithProcess(switched, s.running.value, s.processes[s.running.value].(scene := scene))
      else switched
  }

  // ---- What every run keeps ------------------------------------------------------------

  ghost predicate ProcessInv(s: State, p: nat) {
    p < |s.processes| ==>
      var process := s.processes[p];
      && (!process.exited ==> s.running == Some(p))
      && (process.handled ==> process.exited)
      && (s.running == Some(p) && s.held.Some? ==> !process.ending)
      && (s.running == Some(p) && s.held.None? ==> process.ending)
      && (s.running == Some(p) && !process.ending ==> s.scene == Some(process.scene))
      && (s.running == Some(p) && !process.ending && process.handled ==> p in s.awaiting)
      && (s.running == Some(p) && process.ending ==> !process.handled || p in s.awaiting)
      && (p in s.awaiting ==> process.handled)
      && (p in s.ended ==> process.exited && process.ending)
      && (p in s.awaiting && s.running == Some(p) ==> s.status != Live)
      && (s.status == Live && s.running == Some(p) ==> process.framed && !process.pushLost)
  }

  ghost predicate Inv(s: State) {
    && (s.held.Some? <==> !Over(s.status))
    && (s.running.Some? ==> s.running.value < |s.processes|)
    && (s.status == Live ==> s.running.Some?)
    && (s.held.Some? ==> s.scene.Some?)
    && (forall p :: p in s.awaiting ==> p < |s.processes|)
    && (forall p :: p in s.ended ==> p < |s.processes|)
    && (forall q :: q in s.quitting ==> s.quitting[q].process < |s.processes|)
    && (forall q :: q in s.quitting && s.quitting[q].fromEnd ==> s.processes[s.quitting[q].process].ending)
    && (forall t :: t in s.timers ==> s.relaunchTimer == Some(t) && s.running.None? && s.held == Some(s.timers[t]))
    && (s.held.Some? && s.running.None? ==> s.relaunchTimer.Some? && s.relaunchTimer.value in s.timers)
    && (forall p :: ProcessInv(s, p))
  }

  lemma StartKeepsInv(s: State, scene: nat)
    requires Inv(s) && Enabled(s, Start(scene))
    ensures Inv(Next(s, Start(scene)))
  {
    var s' := Next(s, Start(scene));
    if s.running.Some? { assert ProcessInv(s, s.running.value); }
    forall r: nat ensures ProcessInv(s', r) { assert ProcessInv(s, r); }
  }

  lemma BannerKeepsInv(s: State, p: nat)
    requires Inv(s) && Enabled(s, Banner(p))
    ensures Inv(Next(s, Banner(p)))
  {
    var s' := Next(s, Banner(p));
    if s.running.Some? { assert ProcessInv(s, s.running.value); }
    forall r: nat ensures ProcessInv(s', r) { assert ProcessInv(s, r); }
  }

  lemma BlockKeepsInv(s: State, p: nat, frame: int, nowMs: int)
    requires Inv(s) && Enabled(s, Block(p, frame, nowMs))
    ensures Inv(Next(s, Block(p, frame, nowMs)))
  {
    var s' := Next(s, Block(p, frame, nowMs));
    if s.running.Some? { assert ProcessInv(s, s.running.value); }
    forall r: nat ensures ProcessInv(s', r) { assert ProcessInv(s, r); }
  }

  lemma PushLostKeepsInv(s: State, p: nat)
    requires Inv(s) && Enabled(s, PushLost(p))
    ensures Inv(Next(s, PushLost(p)))
  {
    var s' := Next(s, PushLost(p));
    if s.running.Some? { assert ProcessInv(s, s.running.value); }
    forall r: nat ensures ProcessInv(s', r) { assert ProcessInv(s, r); }
  }

  lemma PushBackKeepsInv(s: State, p: nat, nowMs: int)
    requires Inv(s) && Enabled(s, PushBack(p, nowMs))
    ensures Inv(Next(s, PushBack(p, nowMs)))
  {
    var s' := Next(s, PushBack(p, nowMs));
    if s.running.Some? { assert ProcessInv(s, s.running.value); }
    forall r: nat ensures ProcessInv(s', r) { assert ProcessInv(s, r); }
  }

  lemma StallKeepsInv(s: State, p: nat)
    requires Inv(s) && Enabled(s, Stall(p))
    ensures Inv(Next(s, Stall(p)))
  {
    var s' := Next(s, Stall(p));
    if s.running.Some? { assert ProcessInv(s, s.running.value); }
    forall r: nat ensures ProcessInv(s', r) { assert ProcessInv(s, r); }
  }

  lemma ExitsKeepsInv(s: State, p: nat)
    requires Inv(s) && Enabled(s, Exits(p))
    ensures Inv(Next(s, Exits(p)))
  {
    var s' := Next(s, Exits(p));
    if s.running.Some? { assert ProcessInv(s, s.running.value); }
    forall r: nat ensures ProcessInv(s', r) { assert ProcessInv(s, r); }
  }

  lemma ExitSeenKeepsInv(s: State, p: nat, nowMs: int)
    requires Inv(s) && Enabled(s, ExitSeen(p, nowMs))
    ensures Inv(Next(s, ExitSeen(p, nowMs)))
  {
    hide RelaunchWait, Next;
    var s' := Next(s, ExitSeen(p, nowMs));
    assert ProcessInv(s, p);
    if s.running.Some? { assert ProcessInv(s, s.running.value); }
    ExitSeenTimes(s, p, nowMs);
    ExitSeenOthers(s, p, nowMs, p);
    forall r: nat ensures ProcessInv(s', r) {
      assert ProcessInv(s, r);
      ExitSeenOthers(s, p, nowMs, r);
    }
  }

  lemma ExitSeenTimes(s: State, p: nat, nowMs: int)
    requires Enabled(s, ExitSeen(p, nowMs))
    ensures var s' := Next(s, ExitSeen(p, nowMs));
            && s'.timers == s.timers && s'.relaunchTimer == s.relaunchTimer && s'.quitting == s.quitting
            && |s'.processes| == |s.processes|
            && (forall r :: 0 <= r < |s.processes| ==> s'.processes[r].ending == s.processes[r].ending)
            && (s.running == Some(p) && !s.processes[p].ending ==>
                  s'.status == Shown(s.status, Reconnecting) && s'.awaiting.Keys == s.awaiting.Keys + {p})
  {
    hide RelaunchWait, Shown;
  }

  /** An exit handler changes no process but its own. */
  lemma ExitSeenOthers(s: State, p: nat, nowMs: int, r: nat)
    requires Enabled(s, ExitSeen(p, nowMs))
    ensures var s' := Next(s, ExitSeen(p, nowMs));
            && s'.ended == s.ended && s'.scene == s.scene && s'.held == s.held && |s'.processes| == |s.processes|
            && (r < |s.processes| && r != p ==> s'.processes[r] == s.processes[r])
            && s'.processes[p] == s.processes[p].(handled := true)
            && (r != p ==> (r in s'.awaiting <==> r in s.awaiting))
            && (s.running == Some(p) && p < |s.processes| && !s.processes[p].ending ==> p in s'.awaiting && s'.running == s.running)
            && (s.running != Some(p) ==> s'.awaiting == s.awaiting && s'.running == s.running && s'.status == s.status)
            && (s.running == Some(p) && s.processes[p].ending ==> s'.awaiting == s.awaiting && s'.running == None && s'.status == s.status)
  {
    hide RelaunchWait;
  }

  lemma GoneSeenKeepsInv(s: State, p: nat)
    requires Inv(s) && Enabled(s, GoneSeen(p))
    ensures Inv(Next(s, GoneSeen(p)))
  {
    var s' := Next(s, GoneSeen(p));
    if s.running.Some? { assert ProcessInv(s, s.running.value); }
    forall r: nat ensures ProcessInv(s', r) { assert ProcessInv(s, r); }
  }

  lemma TimerFiresKeepsInv(s: State, t: nat)
    requires Inv(s) && Enabled(s, TimerFires(t))
    ensures Inv(Next(s, TimerFires(t)))
  {
    var s' := Next(s, TimerFires(t));
    forall r: nat ensures ProcessInv(s', r) { assert ProcessInv(s, r); }
  }

  lemma QuitDoneKeepsInv(s: State, q: nat)
    requires Inv(s) && Enabled(s, QuitDone(q))
    ensures Inv(Next(s, QuitDone(q)))
  {
    var s' := Next(s, QuitDone(q));
    if s.running.Some? { assert ProcessInv(s, s.running.value); }
    forall r: nat ensures ProcessInv(s', r) { assert ProcessInv(s, r); }
  }

  lemma EndedSeenKeepsInv(s: State, p: nat)
    requires Inv(s) && Enabled(s, EndedSeen(p))
    ensures Inv(Next(s, EndedSeen(p)))
  {
    var s' := Next(s, EndedSeen(p));
    if s.running.Some? { assert ProcessInv(s, s.running.value); }
    forall r: nat ensures ProcessInv(s', r) { assert ProcessInv(s, r); }
  }

  lemma EndKeepsInv(s: State)
    requires Inv(s) && Enabled(s, End)
    ensures Inv(Next(s, End))
  {
    var s' := Next(s, End);
    if s.running.Some? { assert ProcessInv(s, s.running.value); }
    forall r: nat ensures ProcessInv(s', r) { assert ProcessInv(s, r); }
  }

  lemma EndPressedKeepsInv(s: State)
    requires Inv(s) && Enabled(s, EndPressed)
    ensures Inv(Next(s, EndPressed))
  {
    var s' := Next(s, EndPressed);
    if s.running.Some? { assert ProcessInv(s, s.running.value); }
    forall r: nat ensures ProcessInv(s', r) { assert ProcessInv(s, r); }
  }

  lemma SwitchSceneKeepsInv(s: State, scene: nat)
    requires Inv(s) && Enabled(s, SwitchScene(scene))
    ensures Inv(Next(s, SwitchScene(scene)))
  {
    var s' := Next(s, SwitchScene(scene));
    if s.running.Some? { assert ProcessInv(s, s.running.value); }
    forall r: nat ensures ProcessInv(s', r) { assert ProcessInv(s, r); }
  }

  lemma EventKeepsInv(s: State, e: Event)
    requires Inv(s) && Enabled(s, e)
    ensures Inv(Next(s, e))
  {
    hide Inv, Next, Enabled;
    match e
    case Start(scene) => StartKeepsInv(s, scene);
    case Banner(p) => BannerKeepsInv(s, p);
    case Block(p, frame, nowMs) => BlockKeepsInv(s, p, frame, nowMs);
    case PushLost(p) => PushLostKeepsInv(s, p);
    case PushBack(p, nowMs) => PushBackKeepsInv(s, p, nowMs);
    case Stall(p) => StallKeepsInv(s, p);
    case Exits(p) => ExitsKeepsInv(s, p);
    case ExitSeen(p, nowMs) => ExitSeenKeepsInv(s, p, nowMs);
    case GoneSeen(p) => GoneSeenKeepsInv(s, p);
    case TimerFires(t) => TimerFiresKeepsInv(s, t);
    case QuitDone(q) => QuitDoneKeepsInv(s, q);
    case EndedSeen(p) => EndedSeenKeepsInv(s, p);
    case End => EndKeepsInv(s);
    case EndPressed => EndPressedKeepsInv(s);
    case SwitchScene(scene) => SwitchSceneKeepsInv(s, scene);
  }

  /** The state after these events, one that could not happen being passed over. */
  ghost function After(s: State, es: seq<Event>): State
    decreases |es|
  {
    if es == [] then s else After(if Enabled(s, es[0]) then Next(s, es[0]) else s, es[1..])
  }

  lemma {:induction false} RunKeepsInv(s: State, es: seq<Event>)
    requires Inv(s)
    ensures Inv(After(s, es))
    decreases |es|
  {
    hide Inv, Next, Enabled;
    if es != [] {
      if Enabled(s, es[0]) { EventKeepsInv(s, es[0]); }
      RunKeepsInv(if Enabled(s, es[0]) then Next(s, es[0]) else s, es[1..]);
    }
  }

  // ---- What it is for ------------------------------------------------------------------

  ghost predicate AtMostOneProcess(s: State) {
    forall p, q :: 0 <= p < |s.processes| && 0 <= q < |s.processes| && !s.processes[p].exited && !s.processes[q].exited ==> p == q
  }

  ghost predicate LiveIsOnAir(s: State) {
    s.status == Live ==>
      && s.running.Some? && s.running.value < |s.processes|
      && s.processes[s.running.value].framed && !s.processes[s.running.value].pushLost
  }

  ghost predicate ShowsTheScene(s: State) {
    forall p :: 0 <= p < |s.processes| && !s.processes[p].exited && !s.processes[p].ending ==> s.scene == Some(s.processes[p].scene)
  }

  /** While a Live Stream is held something will launch it again: its process, its exit handler or a timer. */
  ghost predicate NeverGivesUp(s: State) {
    s.held.Some? ==>
      || (s.running.None? && s.relaunchTimer.Some? && s.relaunchTimer.value in s.timers && s.timers[s.relaunchTimer.value] == s.held.value)
      || (&& s.running.Some? && s.running.value < |s.processes|
          && (!s.processes[s.running.value].handled || s.running.value in s.awaiting))
  }

  /** Over every run of its callbacks. */
  lemma EveryRun(es: seq<Event>)
    ensures var s := After(INITIAL, es);
            && AtMostOneProcess(s)
            && (s.held.Some? <==> !Over(s.status))
            && LiveIsOnAir(s) && ShowsTheScene(s) && NeverGivesUp(s)
  {
    RunKeepsInv(INITIAL, es);
    var s := After(INITIAL, es);
    if s.running.Some? { assert ProcessInv(s, s.running.value); }
    forall p | 0 <= p < |s.processes|
      ensures !s.processes[p].exited ==> s.running == Some(p)
      ensures !s.processes[p].exited && !s.processes[p].ending ==> s.scene == Some(s.processes[p].scene)
    {
      assert ProcessInv(s, p);
    }
  }

  // ---- What is shown, and when ---------------------------------------------------------

  predicate OnAir(process: Process) {
    process.framed && !process.pushLost
  }

  /**
   * What has happened since the last Live Stream started: End Stream pressed,
   * the first process's banner, how often it was lost, and the scene asked for.
   */
  datatype Past = Past(pressed: bool, banner: bool, losses: nat, scene: Option<nat>)

  const NOTHING_YET := Past(false, false, 0, None)

  /** A running process not told to end, whose exit has not been heard of. */
  predicate Serving(s: State, p: nat) {
    Current(s, p) && !s.processes[p].handled
  }

  ghost function Recall(past: Past, s: State, e: Event): Past
    requires Enabled(s, e)
  {
    match e
    case Start(scene) => if s.running.None? && s.held.None? then Past(false, false, 0, Some(scene)) else past
    case EndPressed => past.(pressed := past.pressed || s.held.Some?)
    case Banner(p) => past.(banner := past.banner || s.running == Some(p))
    case PushLost(p) =>
      past.(losses := past.losses + if Serving(s, p) && OnAir(s.processes[p]) && !past.pressed then 1 else 0)
    case ExitSeen(p, _) => past.(losses := past.losses + if Serving(s, p) then 1 else 0)
    case SwitchScene(scene) => past.(scene := Some(scene))
    case _ => past
  }

  ghost function PastOf(past: Past, s: State, es: seq<Event>): Past
    decreases |es|
  {
    if es == [] then past
    else if Enabled(s, es[0]) then PastOf(Recall(past, s, es[0]), Next(s, es[0]), es[1..])
    else PastOf(past, s, es[1..])
  }

  /** What the page should show. */
  function StatusFor(s: State, past: Past): Status {
    if s.held.None? then if s.processes == [] then Idle else Ended
    else if past.pressed then Ending
    else if s.running.None? || s.running.value >= |s.processes| || s.processes[s.running.value].handled then Reconnecting
    else
      var process := s.processes[s.running.value];
      if OnAir(process) then Live
      else if process.liveAt.Some? || !process.fromStart then Reconnecting
      else if past.banner then Connecting
      else Starting
  }

  ghost predicate Shows(s: State, past: Past) {
    && s.status == StatusFor(s, past) && s.scene == past.scene
    && (s.held.Some? ==> s.reconnects == past.losses && s.processes != [])
    && (s.running.Some? ==> s.running.value < |s.processes|)
    && (s.running.Some? ==> (OnAir(s.processes[s.running.value]) ==> s.processes[s.running.value].liveAt.Some?))
    && (s.running.Some? ==> (s.processes[s.running.value].liveAt.Some? ==> s.processes[s.running.value].framed))
  }

  lemma NextShows(s: State, past: Past, e: Event)
    requires Inv(s) && Shows(s, past) && Enabled(s, e)
    ensures Shows(Next(s, e), Recall(past, s, e))
  {
    hide Inv, Shows, Recall, Next, Enabled;
    if e.Banner? || e.Block? {
      LinesShow(s, past, e);
    } else if e.PushLost? {
      PushesShow(s, past, e);
    } else if e.PushBack? {
      ReturnsShow(s, past, e);
    } else if e.Stall? || e.Exits? || e.QuitDone? {
      QuitsShow(s, past, e);
    } else if e.ExitSeen? {
      ExitsShow(s, past, e);
    } else if e.EndedSeen? {
      EndedShows(s, past, e);
    } else if e.Start? || e.TimerFires? {
      LaunchesShow(s, past, e);
    } else if e.GoneSeen? {
      GoingsShow(s, past, e);
    } else if e.End? {
      EndsShow(s, past, e);
    } else {
      PressesShow(s, past, e);
    }
  }

  lemma LinesShow(s: State, past: Past, e: Event)
    requires Inv(s) && Shows(s, past) && Enabled(s, e) && (e.Banner? || e.Block?)
    ensures Shows(Next(s, e), Recall(past, s, e))
  {
    hide RelaunchWait;
    if s.running.Some? { assert ProcessInv(s, s.running.value); }
    hide ProcessInv;
  }

  lemma PushesShow(s: State, past: Past, e: Event)
    requires Inv(s) && Shows(s, past) && Enabled(s, e) && e.PushLost?
    ensures Shows(Next(s, e), Recall(past, s, e))
  {
    hide RelaunchWait;
    if s.running.Some? { assert ProcessInv(s, s.running.value); }
    hide ProcessInv;
  }

  lemma ReturnsShow(s: State, past: Past, e: Event)
    requires Inv(s) && Shows(s, past) && Enabled(s, e) && e.PushBack?
    ensures Shows(Next(s, e), Recall(past, s, e))
  {
    hide RelaunchWait;
    if s.running.Some? { assert ProcessInv(s, s.running.value); }
    hide ProcessInv;
  }

  lemma QuitsShow(s: State, past: Past, e: Event)
    requires Inv(s) && Shows(s, past) && Enabled(s, e) && (e.Stall? || e.Exits? || e.QuitDone?)
    ensures Shows(Next(s, e), Recall(past, s, e))
  {
    hide RelaunchWait;
    if s.running.Some? { assert ProcessInv(s, s.running.value); }
    hide ProcessInv;
  }

  lemma ExitsShow(s: State, past: Past, e: Event)
    requires Inv(s) && Shows(s, past) && Enabled(s, e) && e.ExitSeen?
    ensures Shows(Next(s, e), Recall(past, s, e))
  {
    hide Inv, Shows, Recall, Next;
    if s.running == Some(e.process) { ServedExitShows(s, past, e); } else { OtherExitShows(s, past, e); }
  }

  lemma ServedExitShows(s: State, past: Past, e: Event)
    requires Inv(s) && Shows(s, past) && Enabled(s, e) && e.ExitSeen? && s.running == Some(e.process)
    ensures Shows(Next(s, e), Recall(past, s, e))
  {
    hide RelaunchWait;
    assert ProcessInv(s, s.running.value);
    hide ProcessInv;
  }

  lemma OtherExitShows(s: State, past: Past, e: Event)
    requires Shows(s, past) && Enabled(s, e) && e.ExitSeen? && s.running != Some(e.process)
    ensures Shows(Next(s, e), Recall(past, s, e))
  {
  }

  lemma EndedShows(s: State, past: Past, e: Event)
    requires Inv(s) && Shows(s, past) && Enabled(s, e) && e.EndedSeen?
    ensures Shows(Next(s, e), Recall(past, s, e))
  {
    if s.running.Some? { assert ProcessInv(s, s.running.value); }
    hide ProcessInv;
  }

  lemma LaunchesShow(s: State, past: Past, e: Event)
    requires Inv(s) && Shows(s, past) && Enabled(s, e) && (e.Start? || e.TimerFires?)
    ensures Shows(Next(s, e), Recall(past, s, e))
  {
    hide RelaunchWait;
    if s.running.Some? { assert ProcessInv(s, s.running.value); }
    hide ProcessInv;
  }

  lemma GoingsShow(s: State, past: Past, e: Event)
    requires Inv(s) && Shows(s, past) && Enabled(s, e) && e.GoneSeen?
    ensures Shows(Next(s, e), Recall(past, s, e))
  {
    hide RelaunchWait;
    if s.running.Some? { assert ProcessInv(s, s.running.value); }
    hide ProcessInv;
  }

  lemma EndsShow(s: State, past: Past, e: Event)
    requires Inv(s) && Shows(s, past) && Enabled(s, e) && e.End?
    ensures Shows(Next(s, e), Recall(past, s, e))
  {
    hide RelaunchWait;
    if s.running.Some? { assert ProcessInv(s, s.running.value); }
    hide ProcessInv;
  }

  lemma PressesShow(s: State, past: Past, e: Event)
    requires Inv(s) && Shows(s, past) && Enabled(s, e) && (e.EndPressed? || e.SwitchScene?)
    ensures Shows(Next(s, e), Recall(past, s, e))
  {
    hide RelaunchWait;
    if s.running.Some? { assert ProcessInv(s, s.running.value); }
    hide ProcessInv;
  }

  lemma {:induction false} RunShows(s: State, past: Past, es: seq<Event>)
    requires Inv(s) && Shows(s, past)
    ensures Shows(After(s, es), PastOf(past, s, es))
    decreases |es|
  {
    hide Inv, Next, Enabled, Shows, Recall;
    if es != [] && Enabled(s, es[0]) {
      EventKeepsInv(s, es[0]);
      NextShows(s, past, es[0]);
      RunShows(Next(s, es[0]), Recall(past, s, es[0]), es[1..]);
    } else if es != [] {
      RunShows(s, past, es[1..]);
    }
  }

  /**
   * Over every run, the status shown is exactly what has happened to the Live
   * Stream: ending once that was pressed, live while the running process's
   * frames go out, reconnecting while they did and do not or another process
   * is to come, and before any did, connecting from the first process's
   * banner on. The losses said are the times it was lost, and the scene is the
   * last one asked for.
   */
  lemma EveryRunShows(es: seq<Event>)
    ensures var s, past := After(INITIAL, es), PastOf(NOTHING_YET, INITIAL, es);
      && s.status == StatusFor(s, past) && s.scene == past.scene
      && (s.held.Some? ==> s.reconnects == past.losses)
  {
    hide Inv, Shows, After, PastOf, StatusFor;
    InitialShows();
    RunShows(INITIAL, NOTHING_YET, es);
    ShowsMeans(After(INITIAL, es), PastOf(NOTHING_YET, INITIAL, es));
  }

  lemma InitialShows()
    ensures Inv(INITIAL) && Shows(INITIAL, NOTHING_YET)
  {
  }

  lemma ShowsMeans(s: State, past: Past)
    requires Shows(s, past)
    ensures s.status == StatusFor(s, past) && s.scene == past.scene && (s.held.Some? ==> s.reconnects == past.losses)
  {
  }

  /**
   * So a process that runs, was not told to end, has framed, has its push and
   * has not been heard to exit is shown live, or ending once that was pressed.
   */
  lemma OnAirIsShown(es: seq<Event>, p: nat)
    requires Serving(After(INITIAL, es), p) && OnAir(After(INITIAL, es).processes[p])
    ensures var s := After(INITIAL, es);
      && s.status == (if PastOf(NOTHING_YET, INITIAL, es).pressed then Ending else Live)
      && s.processes[p].liveAt.Some?
  {
    hide After, PastOf;
    InitialShows();
    RunShows(INITIAL, NOTHING_YET, es);
    RunKeepsInv(INITIAL, es);
    assert ProcessInv(After(INITIAL, es), p);
  }

  /** What is heard of a process: its first frame, its push lost and back, and when it last came on air. */
  ghost predicate Heard(s: State, e: Event, p: nat)
    requires Enabled(s, e) && p < |s.processes| && (e.Block? || e.PushLost? || e.PushBack?)
  {
    && |Next(s, e).processes| == |s.processes|
    && var was, now := s.processes[p], Next(s, e).processes[p];
      var heard := Current(s, p) && e.process == p;
      && (now.framed <==> was.framed || (heard && e.Block? && e.frame != 0))
      && (now.pushLost <==> if heard && !e.Block? then e.PushLost? else was.pushLost)
      && now.liveAt == (if OnAir(now) && !OnAir(was) then Some(e.nowMs) else was.liveAt)
      && now == was.(framed := now.framed, pushLost := now.pushLost, liveAt := now.liveAt)
  }

  lemma LinesAreHeard(s: State, e: Event, p: nat)
    requires Enabled(s, e) && p < |s.processes| && (e.Block? || e.PushLost? || e.PushBack?)
    ensures Heard(s, e, p)
  {
    hide Heard;
    if e.Block? { BlockIsHeard(s, e, p); }
    if e.PushLost? { LossIsHeard(s, e, p); }
    if e.PushBack? { ReturnIsHeard(s, e, p); }
  }

  lemma BlockIsHeard(s: State, e: Event, p: nat)
    requires Enabled(s, e) && p < |s.processes| && e.Block?
    ensures Heard(s, e, p)
  {
    hide Shown;
  }

  lemma LossIsHeard(s: State, e: Event, p: nat)
    requires Enabled(s, e) && p < |s.processes| && e.PushLost?
    ensures Heard(s, e, p)
  {
    hide Shown;
    if !Current(s, e.process) || s.processes[e.process].pushLost {
      assert Next(s, e) == s;
    } else {
      assert Next(s, e).processes == s.processes[e.process := s.processes[e.process].(pushLost := true)];
      hide Next;
    }
  }

  lemma ReturnIsHeard(s: State, e: Event, p: nat)
    requires Enabled(s, e) && p < |s.processes| && e.PushBack?
    ensures Heard(s, e, p)
  {
    hide Shown;
  }

  // ---- How a process begins and is let go ----------------------------------------------

  /** A Go Live is refused while one runs or is held; else it begins with nothing of the last: no reconnects, and no wait to go on from. */
  lemma StartBegins(s: State, scene: nat)
    ensures var t := Next(s, Start(scene));
      if s.running.Some? || s.held.Some? then t == s
      else
        && t.held.Some? && t.held.value.scene == scene && t.scene == Some(scene)
        && t.reconnects == 0 && LastWait(t) == None && |t.processes| == |s.processes| + 1
  {
  }

  /** A process launched shows the scene then current and has done nothing yet; no other is touched. */
  lemma LaunchesFresh(s: State, e: Event)
    requires Enabled(s, e) && |Next(s, e).processes| > |s.processes|
    ensures e.Start? || e.TimerFires?
    ensures var shown := if e.Start? then e.scene else if s.scene.Some? then s.scene.value else s.timers[e.timer].scene;
      && Next(s, e).running == Some(|s.processes|)
      && Next(s, e).processes == s.processes + [Process(shown, e.Start?, false, false, false, None, None, false, false)]
  {
    hide Next;
    if e.Block? || e.Stall? {
      BlocksLaunchNothing(s, e);
    } else if e.PushLost? || e.PushBack? {
      PushesLaunchNothing(s, e);
    } else if e.ExitSeen? || e.GoneSeen? {
      ExitsLaunchNothing(s, e);
    } else {
      LaunchIsFresh(s, e);
    }
  }

  lemma LaunchIsFresh(s: State, e: Event)
    requires Enabled(s, e) && |Next(s, e).processes| > |s.processes|
    requires !e.Block? && !e.Stall? && !e.PushLost? && !e.PushBack? && !e.ExitSeen? && !e.GoneSeen?
    ensures e.Start? || e.TimerFires?
    ensures var shown := if e.Start? then e.scene else if s.scene.Some? then s.scene.value else s.timers[e.timer].scene;
      && Next(s, e).running == Some(|s.processes|)
      && Next(s, e).processes == s.processes + [Process(shown, e.Start?, false, false, false, None, None, false, false)]
  {
  }

  /** Each thing waited for is done with once it has come; and a process whose going was awaited runs no more. */
  lemma IsLetGo(s: State, e: Event)
    requires Enabled(s, e) && (e.GoneSeen? || e.EndedSeen? || e.QuitDone? || e.TimerFires? || e.Exits?)
    ensures e.GoneSeen? ==> e.process !in Next(s, e).awaiting && Next(s, e).running != Some(e.process)
    ensures e.EndedSeen? ==> e.process !in Next(s, e).ended && Next(s, e).running != Some(e.process)
    ensures e.QuitDone? ==>
      && e.quit !in Next(s, e).quitting
      && Next(s, e).ended == s.ended + if s.quitting[e.quit].fromEnd then {s.quitting[e.quit].process} else {}
    ensures e.TimerFires? ==> e.timer !in Next(s, e).timers
    ensures e.Exits? ==> Next(s, e).processes == s.processes[e.process := s.processes[e.process].(exited := true)]
  {
  }

  // ---- Never two on the Windows side ---------------------------------------------------

  /** While the next process is waited for, the last one has exited and, had it stalled, its quit is done. */
  ghost predicate LastIsGone(s: State) {
    && (s.running.Some? ==> s.running.value + 1 == |s.processes|)
    && (forall q :: q in s.quitting ==> q < s.nextName)
    && (forall p :: 0 <= p < |s.processes| && s.processes[p].gone.Some? ==> s.processes[p].gone.value < s.nextName)
    && (s.held.Some? && s.running.None? ==> s.processes != [] && Gone(s, |s.processes| - 1))
  }

  predicate Gone(s: State, p: nat)
    requires p < |s.processes|
  {
    s.processes[p].exited && (s.processes[p].gone.Some? ==> s.processes[p].gone.value !in s.quitting)
  }

  lemma NextKeepsGone(s: State, e: Event)
    requires Inv(s) && LastIsGone(s) && Enabled(s, e)
    ensures LastIsGone(Next(s, e))
  {
    hide Inv, LastIsGone, Next;
    if e.Block? || e.Banner? {
      LinesKeepGone(s, e);
    } else if e.PushLost? || e.PushBack? {
      PushesKeepGone(s, e);
    } else if e.Stall? {
      QuitsKeepGone(s, e);
    } else if e.QuitDone? || e.End? {
      EndsKeepGone(s, e);
    } else if e.ExitSeen? || e.Exits? {
      EndingIsLetGo(s);
      ExitsKeepGone(s, e);
    } else if e.GoneSeen? || e.EndedSeen? {
      GoingsKeepGone(s, e);
    } else {
      OthersKeepGone(s, e);
    }
  }

  lemma EndingIsLetGo(s: State)
    requires Inv(s)
    ensures s.running.Some? ==> s.running.value < |s.processes|
    ensures s.running.Some? && s.processes[s.running.value].ending ==> s.held.None?
  {
    if s.running.Some? { assert ProcessInv(s, s.running.value); }
  }

  lemma LinesKeepGone(s: State, e: Event)
    requires LastIsGone(s) && Enabled(s, e) && (e.Block? || e.Banner?)
    ensures LastIsGone(Next(s, e))
  {
    hide Shown;
  }

  lemma PushesKeepGone(s: State, e: Event)
    requires LastIsGone(s) && Enabled(s, e) && (e.PushLost? || e.PushBack?)
    ensures LastIsGone(Next(s, e))
  {
    hide Shown;
  }

  lemma QuitsKeepGone(s: State, e: Event)
    requires LastIsGone(s) && Enabled(s, e) && e.Stall?
    ensures LastIsGone(Next(s, e))
  {
    hide Shown;
  }

  lemma EndsKeepGone(s: State, e: Event)
    requires LastIsGone(s) && Enabled(s, e) && (e.QuitDone? || e.End?)
    ensures LastIsGone(Next(s, e))
  {
    hide Shown;
  }

  lemma ExitsKeepGone(s: State, e: Event)
    requires LastIsGone(s) && Enabled(s, e) && (e.ExitSeen? || e.Exits?)
    requires e.ExitSeen? && s.running == Some(e.process) && s.processes[e.process].ending ==> s.held.None?
    ensures LastIsGone(Next(s, e))
  {
    hide RelaunchWait, Shown;
  }

  lemma GoingsKeepGone(s: State, e: Event)
    requires Inv(s) && LastIsGone(s) && Enabled(s, e) && (e.GoneSeen? || e.EndedSeen?)
    ensures LastIsGone(Next(s, e))
  {
    if s.running.Some? { assert ProcessInv(s, s.running.value); }
    hide ProcessInv;
  }

  lemma OthersKeepGone(s: State, e: Event)
    requires LastIsGone(s) && Enabled(s, e) && (e.Start? || e.TimerFires? || e.EndPressed? || e.SwitchScene?)
    ensures LastIsGone(Next(s, e))
  {
  }

  lemma {:induction false} RunKeepsGone(s: State, es: seq<Event>)
    requires Inv(s) && LastIsGone(s)
    ensures LastIsGone(After(s, es)) && Inv(After(s, es))
    decreases |es|
  {
    hide Inv, Next, Enabled, LastIsGone;
    if es != [] {
      if Enabled(s, es[0]) {
        EventKeepsInv(s, es[0]);
        NextKeepsGone(s, es[0]);
      }
      RunKeepsGone(if Enabled(s, es[0]) then Next(s, es[0]) else s, es[1..]);
    }
  }

  /** A stalled process is told to quit, and its exit handler waits for that quit and no other. */
  lemma StallQuits(s: State, p: nat)
    requires LastIsGone(s) && Enabled(s, Stall(p))
    ensures var t := Next(s, Stall(p));
      if Current(s, p) then
        && t.processes[p].gone == Some(s.nextName) && s.nextName !in s.quitting
        && t.quitting == s.quitting[s.nextName := Quit(p, false)]
      else t == s
  {
  }

  /**
   * Over every run: a timer that launches does so with nothing else running,
   * the process before it exited and, if it had stalled, its quit done; and
   * each timer that fires while its Live Stream is held does launch.
   */
  lemma RelaunchedOnceGone(es: seq<Event>, t: nat)
    requires Enabled(After(INITIAL, es), TimerFires(t))
    ensures var s := After(INITIAL, es);
      var after := Next(s, TimerFires(t));
      && (|after.processes| > |s.processes| <==> s.held.Some?)
      && (s.held.Some? ==> s.running.None? && s.processes != [] && Gone(s, |s.processes| - 1)
                           && after.running == Some(|s.processes|) && |after.processes| == |s.processes| + 1)
  {
    hide After;
    InitialShows();
    assert LastIsGone(INITIAL);
    RunKeepsGone(INITIAL, es);
  }

  /** Ending is left only for ended, and what is over starts again only at Go Live. */
  lemma EndingOnlyEnds(s: State, e: Event)
    requires Inv(s) && Enabled(s, e)
    ensures s.status == Ending ==> Next(s, e).status == Ending || (e.End? && Next(s, e).status == Ended)
    ensures Over(s.status) && !e.Start? ==> Next(s, e).status == s.status
  {
    hide RelaunchWait;
    if s.running.Some? { assert ProcessInv(s, s.running.value); }
  }

  lemma NothingHeldNothingLaunched(s: State, e: Event)
    requires Inv(s) && Enabled(s, e) && s.held.None? && !e.Start?
    ensures |Next(s, e).processes| == |s.processes| && Next(s, e).held.None?
  {
    hide Inv, Next, Enabled;
    if e.Block? || e.Stall? {
      BlocksLaunchNothing(s, e);
    } else if e.PushLost? || e.PushBack? {
      PushesLaunchNothing(s, e);
    } else if e.ExitSeen? || e.GoneSeen? {
      ExitsLaunchNothing(s, e);
    } else {
      OthersLaunchNothing(s, e);
    }
  }

  lemma BlocksLaunchNothing(s: State, e: Event)
    requires Enabled(s, e) && (e.Block? || e.Stall?)
    ensures |Next(s, e).processes| == |s.processes| && Next(s, e).held == s.held
  {
  }

  lemma PushesLaunchNothing(s: State, e: Event)
    requires Enabled(s, e) && (e.PushLost? || e.PushBack?)
    ensures |Next(s, e).processes| == |s.processes| && Next(s, e).held == s.held
  {
  }

  lemma ExitsLaunchNothing(s: State, e: Event)
    requires Enabled(s, e) && (e.ExitSeen? || e.GoneSeen?)
    ensures |Next(s, e).processes| == |s.processes| && Next(s, e).held == s.held
  {
    hide RelaunchWait;
  }

  lemma OthersLaunchNothing(s: State, e: Event)
    requires Enabled(s, e) && s.held.None? && !e.Start?
    requires !e.Block? && !e.PushLost? && !e.PushBack? && !e.Stall? && !e.ExitSeen? && !e.GoneSeen?
    ensures |Next(s, e).processes| == |s.processes| && Next(s, e).held.None?
  {
  }

  /** Once ended, whatever was still under way, nothing is launched until the next start. */
  lemma {:induction false} NothingLaunchesAfterEnd(s: State, es: seq<Event>)
    requires Inv(s) && forall i :: 0 <= i < |es| ==> !es[i].Start?
    ensures var ended := Next(s, End); |After(ended, es).processes| == |s.processes| && After(ended, es).held.None?
  {
    EventKeepsInv(s, End);
    assert |Next(s, End).processes| == |s.processes| && Next(s, End).held.None?;
    NothingLaunchesUnheld(Next(s, End), es);
  }

  lemma {:induction false} NothingLaunchesUnheld(s: State, es: seq<Event>)
    requires Inv(s) && s.held.None? && forall i :: 0 <= i < |es| ==> !es[i].Start?
    ensures |After(s, es).processes| == |s.processes| && After(s, es).held.None?
    decreases |es|
  {
    hide Inv, Next, Enabled;
    if es != [] {
      var next := if Enabled(s, es[0]) then Next(s, es[0]) else s;
      if Enabled(s, es[0]) {
        EventKeepsInv(s, es[0]);
        NothingHeldNothingLaunched(s, es[0]);
      }
      NothingLaunchesUnheld(next, es[1..]);
    }
  }

  /** Each wait is twice the last, up to the longest. */
  lemma WaitsDouble(n: nat)
    ensures RelaunchWait(0) == FIRST_WAIT_MS
    ensures RelaunchWait(n + 1) == if 2 * RelaunchWait(n) <= LAST_WAIT_MS then 2 * RelaunchWait(n) else LAST_WAIT_MS
  {
  }

  /** A process that quit on its own: the wait before the next, and whether it had been live long enough to count as healthy. */
  datatype Relaunch = Relaunch(wait: nat, healthy: bool)

  predicate WasHealthy(process: Process, nowMs: int) {
    process.liveAt.Some? && nowMs - process.liveAt.value >= HEALTHY_MS
  }

  function RelaunchOf(s: State, e: Event): Option<Relaunch>
    requires Enabled(s, e)
  {
    if !e.ExitSeen? || !Current(s, e.process) then None
    else
      var after := Next(s, e).awaiting;
      if e.process in after then Some(Relaunch(after[e.process], WasHealthy(s.processes[e.process], e.nowMs))) else None
  }

  /** Every relaunch of a run, in order. */
  function Relaunches(s: State, es: seq<Event>): seq<Relaunch>
    decreases |es|
  {
    if es == [] then []
    else if !Enabled(s, es[0]) then Relaunches(s, es[1..])
    else
      var first := RelaunchOf(s, es[0]);
      (if first.Some? then [first.value] else []) + Relaunches(Next(s, es[0]), es[1..])
  }

  /** The wait after one of `last`: the first one after a healthy process, else twice it, up to the longest. */
  predicate Follows(last: Option<nat>, r: Relaunch) {
    var twice := if last.None? then FIRST_WAIT_MS else if 2 * last.value <= LAST_WAIT_MS then 2 * last.value else LAST_WAIT_MS;
    r.wait == if r.healthy then FIRST_WAIT_MS else twice
  }

  predicate EachFollows(last: Option<nat>, rs: seq<Relaunch>)
    decreases |rs|
  {
    rs == [] || (Follows(last, rs[0]) && EachFollows(Some(rs[0].wait), rs[1..]))
  }

  /** The wait before the current process was launched, as the count of relaunches has it. */
  function LastWait(s: State): Option<nat> {
    if s.relaunches == 0 then None else Some(RelaunchWait(s.relaunches - 1))
  }

  lemma RelaunchFollows(s: State, e: Event)
    requires Enabled(s, e) && !e.Start?
    ensures match RelaunchOf(s, e)
      case Some(r) => Follows(LastWait(s), r) && LastWait(Next(s, e)) == Some(r.wait)
      case None => LastWait(Next(s, e)) == LastWait(s)
  {
    hide RelaunchWait, Next, Enabled, Follows;
    if e.ExitSeen? {
      ExitRelaunches(s, e.process, e.nowMs);
    } else {
      OthersRelaunchNone(s, e);
    }
  }

  lemma ExitRelaunches(s: State, p: nat, nowMs: int)
    requires Enabled(s, ExitSeen(p, nowMs))
    ensures var e := ExitSeen(p, nowMs);
      match RelaunchOf(s, e)
      case Some(r) => Follows(LastWait(s), r) && LastWait(Next(s, e)) == Some(r.wait)
      case None => LastWait(Next(s, e)) == LastWait(s)
  {
    hide RelaunchWait;
    WaitsDouble(0);
    if s.relaunches > 0 { WaitsDouble(s.relaunches - 1); }
  }

  lemma OthersRelaunchNone(s: State, e: Event)
    requires Enabled(s, e) && !e.Start? && !e.ExitSeen?
    ensures Next(s, e).relaunches == s.relaunches
  {
  }

  /**
   * Over every run, each wait before a relaunch is the first again after a
   * process that had been healthy, and otherwise twice the one before it, up
   * to the longest.
   */
  lemma {:induction false} WaitsBackOff(s: State, es: seq<Event>)
    requires forall i :: 0 <= i < |es| ==> !es[i].Start?
    ensures EachFollows(LastWait(s), Relaunches(s, es))
    decreases |es|
  {
    hide Next, Enabled, RelaunchOf, Follows, LastWait;
    if es != [] {
      if Enabled(s, es[0]) {
        RelaunchFollows(s, es[0]);
        WaitsBackOff(Next(s, es[0]), es[1..]);
        var first, rest := RelaunchOf(s, es[0]), Relaunches(Next(s, es[0]), es[1..]);
        if first.Some? { assert ([first.value] + rest)[1..] == rest; }
        assert [] + rest == rest;
      } else {
        WaitsBackOff(s, es[1..]);
      }
    }
  }

  // ---- The supervisor ------------------------------------------------------------------

  class StreamSide {
    var status: Status
    var running: Option<nat>
    var held: Option<Held>
    var scene: Option<nat>
    var reconnects: nat
    var relaunches: nat
    var relaunchTimer: Option<nat>
    var timers: map<nat, Held>
    var quitting: map<nat, Quit>
    var ended: set<nat>
    var awaiting: map<nat, nat>
    var processes: seq<Process>
    var nextName: nat

    ghost function Abs(): State
      reads this
    {
      State(status, running, held, scene, reconnects, relaunches, relaunchTimer, timers, quitting, ended, awaiting, processes, nextName)
    }

    constructor ()
      ensures Abs() == INITIAL
    {
      status, running, held, scene := Idle, None, None, None;
      reconnects, relaunches, relaunchTimer, timers := 0, 0, None, map[];
      quitting, ended, awaiting, processes, nextName := map[], {}, map[], [], 0;
    }

    method Set(next: Status)
      modifies this`status
      ensures status == Shown(old(status), next)
    {
      if status == next && next != Ended { return; }
      if status == Ending && next != Ended { return; }
      status := next;
    }

    method Reconnect()
      modifies this`status, this`reconnects
      ensures Abs() == Reconnected(old(Abs()))
    {
      reconnects := reconnects + 1;
      Set(Reconnecting);
    }

    method Launch(startScene: nat, fromStart: bool)
      modifies this`running, this`processes
      ensures Abs() == LaunchOne(old(Abs()), startScene, fromStart)
    {
      var shown := if scene.Some? then scene.value else startScene;
      running := Some(|processes|);
      processes := processes + [Process(shown, fromStart, false, false, false, None, None, false, false)];
    }

    method BeginQuit(p: nat, fromEnd: bool) returns (name: nat)
      modifies this`quitting, this`nextName
      ensures Abs() == StartQuit(old(Abs()), p, fromEnd) && name == old(nextName)
    {
      name := nextName;
      quitting := quitting[name := Quit(p, fromEnd)];
      nextName := nextName + 1;
    }

    method IsCurrent(p: nat) returns (current: bool)
      requires p < |processes|
      ensures current == Current(Abs(), p)
    {
      current := running == Some(p) && !processes[p].ending;
    }

    method GoLive(p: nat, nowMs: int)
      requires p < |processes|
      modifies this`status, this`processes
      ensures Abs() == WentLive(old(Abs()), p, nowMs)
    {
      processes := processes[p := processes[p].(liveAt := Some(nowMs))];
      Set(Live);
    }

    method OnStart(startScene: nat) returns (refused: bool)
      modifies this
      ensures Abs() == Next(old(Abs()), Start(startScene))
      ensures refused == (old(running).Some? || old(held).Some?)
    {
      refused := running.Some? || held.Some?;
      if refused { return; }
      held := Some(Held(nextName, startScene));
      nextName := nextName + 1;
      reconnects, relaunches := 0, 0;
      Set(Starting);
      scene := Some(startScene);
      Launch(startScene, true);
    }

    method OnBanner(p: nat)
      requires Enabled(Abs(), Banner(p))
      modifies this`status
      ensures Abs() == Next(old(Abs()), Banner(p))
    {
      if running == Some(p) && status == Starting { Set(Connecting); }
    }

    method OnBlock(p: nat, frame: int, nowMs: int)
      requires Enabled(Abs(), Block(p, frame, nowMs))
      modifies this`status, this`processes
      ensures Abs() == Next(old(Abs()), Block(p, frame, nowMs))
    {
      var current := IsCurrent(p);
      if !current || frame == 0 || processes[p].framed { return; }
      processes := processes[p := processes[p].(framed := true)];
      if !processes[p].pushLost { GoLive(p, nowMs); }
    }

    method OnPushLost(p: nat)
      requires Enabled(Abs(), PushLost(p))
      modifies this`status, this`processes, this`reconnects
      ensures Abs() == Next(old(Abs()), PushLost(p))
    {
      var current := IsCurrent(p);
      if !current || processes[p].pushLost { return; }
      processes := processes[p := processes[p].(pushLost := true)];
      if status == Live { Reconnect(); }
    }

    method OnPushBack(p: nat, nowMs: int)
      requires Enabled(Abs(), PushBack(p, nowMs))
      modifies this`status, this`processes
      ensures Abs() == Next(old(Abs()), PushBack(p, nowMs))
    {
      var current := IsCurrent(p);
      if !current || !processes[p].pushLost { return; }
      processes := processes[p := processes[p].(pushLost := false)];
      if processes[p].framed { GoLive(p, nowMs); }
    }

    method OnStall(p: nat)
      requires Enabled(Abs(), Stall(p))
      modifies this`processes, this`quitting, this`nextName
      ensures Abs() == Next(old(Abs()), Stall(p))
    {
      var current := IsCurrent(p);
      if !current { return; }
      var quit := BeginQuit(p, false);
      processes := processes[p := processes[p].(gone := Some(quit))];
    }

    /** The exit handler, up to its await. */
    method OnExited(p: nat, nowMs: int)
      requires Enabled(Abs(), ExitSeen(p, nowMs))
      modifies this
      ensures Abs() == Exited(old(Abs()), p, nowMs)
    {
      processes := processes[p := processes[p].(handled := true)];
      if running != Some(p) { return; }
      if processes[p].ending {
        running := None;
        return;
      }
      var liveAt := processes[p].liveAt;
      if liveAt.Some? && nowMs - liveAt.value >= HEALTHY_MS { relaunches := 0; }
      Reconnect();
      awaiting := awaiting[p := RelaunchWait(relaunches)];
      relaunches := relaunches + 1;
    }

    /** The rest of it, once the process has gone. */
    method OnGone(p: nat)
      requires Enabled(Abs(), GoneSeen(p))
      modifies this
      ensures Abs() == Next(old(Abs()), GoneSeen(p))
    {
      awaiting := awaiting - {p};
      if running != Some(p) { return; }
      running := None;
      if held.None? { return; }
      relaunchTimer := Some(nextName);
      timers := timers[nextName := held.value];
      nextName := nextName + 1;
    }

    method OnTimer(t: nat)
      requires Enabled(Abs(), TimerFires(t))
      modifies this
      ensures Abs() == Next(old(Abs()), TimerFires(t))
    {
      var h := timers[t];
      timers := timers - {t};
      relaunchTimer := None;
      if held != Some(h) || running.Some? { return; }
      Launch(h.scene, false);
    }

    method OnEnd()
      modifies this
      ensures Abs() == EndOf(old(Abs()))
    {
      held := None;
      if relaunchTimer.Some? { timers := timers - {relaunchTimer.value}; }
      relaunchTimer := None;
      if status != Idle && status != Ended { Set(Ended); }
      if running.None? || running.value >= |processes| || processes[running.value].ending { return; }
      var p := running.value;
      processes := processes[p := processes[p].(ending := true)];
      var quit := BeginQuit(p, true);
    }

    method OnEndPressed()
      modifies this`status
      ensures Abs() == Next(old(Abs()), EndPressed)
    {
      if status != Idle && status != Ended { Set(Ending); }
    }

    method OnSwitchScene(next: nat)
      modifies this`scene, this`processes
      ensures Abs() == Next(old(Abs()), SwitchScene(next))
    {
      scene := Some(next);
      if running.Some? && running.value < |processes| && !processes[running.value].ending {
        processes := processes[running.value := processes[running.value].(scene := next)];
      }
    }
  }
}
