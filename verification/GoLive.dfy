/**
 * Go Live and End Stream (`createGoLive`), over the stream side: who ends the Live Stream, and the
 * one message the app server is sent for each End Stream, once its push has stopped.
 */
module GoLive {
  import opened Common
  import Side = StreamSide

  /** An End Stream that was accepted: the session it ends, and the Broadcast that went out on. */
  datatype Press = Press(session: nat, broadcast: nat)

  /** A close of the side: the quits it waits for, and how many processes had been launched. */
  datatype Closing = Closing(quits: set<nat>, launched: nat)

  datatype Message = LiveStreamStopped(press: nat, broadcast: nat)

  datatype State = State(
    side: Side.State,
    streamed: Option<nat>,
    broadcast: nat,
    ending: Option<nat>,
    /** Every End Stream accepted, oldest first: one is named by its place. */
    presses: seq<Press>,
    /** End Stream waits not yet over, closes not yet done, and what was sent. */
    waits: set<nat>,
    closing: map<nat, Closing>,
    sent: seq<Message>,
    /** The Broadcast each streamed session went out on. */
    broadcastOf: map<nat, nat>)

  datatype Event =
    | SideEvent(e: Side.Event)
    | StartSide(scene: nat)
    | Recorded(session: Option<nat>, broadcast: nat)
    | GoLiveFails
    | EndStream(recording: Option<nat>)
    | WaitOver(press: nat, recording: Option<nat>, stopThrows: bool)
    | SessionEnded(over: nat)
    | CloseDone(press: nat)
    | ServiceCloses

  const INITIAL := State(Side.INITIAL, None, 0, None, [], {}, map[], [], map[])

  function EndSide(s: State): State { s.(side := Side.EndOf(s.side)) }

  /** `finishEnding`: the first to come ends the stream, and whoever comes after changes nothing. */
  function FinishEnding(s: State, press: nat): State {
    if s.ending != Some(press) then s
    else
      var ended := EndSide(s.(ending := None));
      ended.(closing := s.closing[press := Closing(ended.side.quitting.Keys, |ended.side.processes|)])
  }

  function SessionOver(s: State, session: nat): State {
    if s.streamed != Some(session) then s
    else
      var over := EndSide(s.(streamed := None));
      if s.ending.Some? && s.ending.value < |s.presses| && s.presses[s.ending.value].session == session then
        FinishEnding(over, s.ending.value)
      else over
  }

  /** Go Live records a session of its own, and only while none it streams is recording. */
  predicate Enabled(s: State, e: Event) {
    match e
    case SideEvent(f) => !f.Start? && !f.End? && !f.EndPressed? && Side.Enabled(s.side, f)
    case Recorded(session, _) => s.streamed.None? && (session.Some? ==> session.value !in s.broadcastOf)
    case WaitOver(press, _, _) => press in s.waits && press < |s.presses|
    case CloseDone(press) => press in s.closing && press < |s.presses| && s.closing[press].quits !! s.side.quitting.Keys
    case _ => true
  }

  function Next(s: State, e: Event): State
    requires Enabled(s, e)
  {
    match e
    case SideEvent(f) => s.(side := Side.Next(s.side, f))
    case StartSide(scene) => s.(side := Side.Next(s.side, Side.Start(scene)))
    case Recorded(session, broadcast) =>
      s.(streamed := session, broadcast := broadcast,
         broadcastOf := if session.Some? then s.broadcastOf[session.value := broadcast] else s.broadcastOf)
    case GoLiveFails => EndSide(s)
    case EndStream(recording) =>
      if s.streamed.None? || recording != s.streamed || s.ending.Some? then s
      else
        var press := |s.presses|;
        s.(presses := s.presses + [Press(s.streamed.value, s.broadcast)], ending := Some(press), waits := s.waits + {press},
           side := Side.Next(s.side, Side.EndPressed))
    case WaitOver(press, recording, stopThrows) =>
      var over := s.(waits := s.waits - {press});
      if s.ending != Some(press) then over
      else
        var session := s.presses[press].session;
        FinishEnding(if recording == Some(session) && !stopThrows then SessionOver(over, session) else over, press)
    case SessionEnded(over) => SessionOver(s, over)
    case CloseDone(press) =>
      s.(closing := s.closing - {press}, sent := s.sent + [LiveStreamStopped(press, s.presses[press].broadcast)])
    case ServiceCloses => EndSide(s)
  }

  // ---- Exactly one message for each End Stream -----------------------------------------

  ghost predicate WasSent(s: State, press: nat) { exists m :: m in s.sent && m.press == press }

  ghost predicate PressInv(s: State, press: nat) {
    && (s.ending == Some(press) ==> press < |s.presses|)
    && (press in s.closing ==> press < |s.presses|)
    && (WasSent(s, press) ==> press < |s.presses|)
    && (press < |s.presses| ==>
          && (if s.ending == Some(press) then 1 else 0) + (if press in s.closing then 1 else 0) + (if WasSent(s, press) then 1 else 0) == 1
          && s.presses[press].session in s.broadcastOf
          && s.presses[press].broadcast == s.broadcastOf[s.presses[press].session])
  }

  ghost predicate Inv(s: State) {
    && Side.Inv(s.side)
    && (s.streamed.Some? ==> s.streamed.value in s.broadcastOf && s.broadcastOf[s.streamed.value] == s.broadcast)
    && (forall i, j :: 0 <= i < j < |s.sent| ==> s.sent[i].press != s.sent[j].press)
    && (forall m :: m in s.sent ==> m.press < |s.presses| && m.broadcast == s.presses[m.press].broadcast)
    && (forall press :: PressInv(s, press))
  }

  /** An End Stream not yet finished still has its wait to finish it. */
  ghost predicate WillFinish(s: State) { s.ending.Some? ==> s.ending.value in s.waits }

  /** Nothing but the side, the waits or which session is streamed has changed. */
  lemma SameKeepsInv(s: State, s': State)
    requires Inv(s) && Side.Inv(s'.side) && (s'.streamed == None || s'.streamed == s.streamed)
    requires s' == s.(side := s'.side, waits := s'.waits, streamed := s'.streamed)
    ensures Inv(s')
  {
    forall press: nat ensures PressInv(s', press) { assert PressInv(s, press); }
  }

  lemma FinishKeepsInv(s: State, press: nat)
    requires Inv(s)
    ensures Inv(FinishEnding(s, press))
  {
    if s.ending == Some(press) {
      Side.EndKeepsInv(s.side);
      var s' := FinishEnding(s, press);
      assert PressInv(s, press);
      forall p: nat ensures PressInv(s', p) { assert PressInv(s, p); }
    }
  }

  lemma SessionOverKeepsInv(s: State, session: nat)
    requires Inv(s)
    ensures Inv(SessionOver(s, session)) && SessionOver(s, session).waits == s.waits
    ensures SessionOver(s, session).ending == None || SessionOver(s, session).ending == s.ending
  {
    if s.streamed == Some(session) {
      Side.EndKeepsInv(s.side);
      var over := EndSide(s.(streamed := None));
      SameKeepsInv(s, over);
      if s.ending.Some? { FinishKeepsInv(over, s.ending.value); }
    }
  }

  lemma EndStreamKeepsInv(s: State, recording: Option<nat>)
    requires Inv(s) && WillFinish(s)
    ensures Inv(Next(s, EndStream(recording))) && WillFinish(Next(s, EndStream(recording)))
  {
    Side.EndPressedKeepsInv(s.side);
    var s' := Next(s, EndStream(recording));
    assert PressInv(s, |s.presses|);
    forall p: nat ensures PressInv(s', p) { assert PressInv(s, p); }
  }

  lemma CloseDoneKeepsInv(s: State, press: nat)
    requires Inv(s) && Enabled(s, CloseDone(press))
    ensures Inv(Next(s, CloseDone(press)))
  {
    var s' := Next(s, CloseDone(press));
    var m := LiveStreamStopped(press, s.presses[press].broadcast);
    assert PressInv(s, press);
    assert m in s'.sent;
    forall p: nat ensures PressInv(s', p) {
      assert PressInv(s, p);
      assert WasSent(s', p) <==> WasSent(s, p) || p == press;
    }
    forall i, j | 0 <= i < j < |s'.sent| ensures s'.sent[i].press != s'.sent[j].press {
      assert s'.sent[i] in s.sent;
    }
  }

  lemma WaitOverKeepsInv(s: State, press: nat, recording: Option<nat>, stopThrows: bool)
    requires Inv(s) && WillFinish(s) && Enabled(s, WaitOver(press, recording, stopThrows))
    ensures Inv(Next(s, WaitOver(press, recording, stopThrows))) && WillFinish(Next(s, WaitOver(press, recording, stopThrows)))
  {
    hide Inv, SessionOver, Side.Next;
    var over, session := s.(waits := s.waits - {press}), s.presses[press].session;
    WaitGoneKeepsInv(s, press);
    if s.ending == Some(press) {
      if stopThrows || recording != Some(session) {
        FinishKeepsInv(over, press);
      } else {
        SessionOverKeepsInv(over, session);
        FinishKeepsInv(SessionOver(over, session), press);
      }
    }
  }

  lemma WaitGoneKeepsInv(s: State, press: nat)
    requires Inv(s)
    ensures Inv(s.(waits := s.waits - {press}))
  {
    SameKeepsInv(s, s.(waits := s.waits - {press}));
  }

  lemma SideKeepsInv(s: State, e: Event)
    requires Inv(s) && Enabled(s, e) && (e.SideEvent? || e.StartSide? || e.GoLiveFails? || e.ServiceCloses?)
    ensures Inv(Next(s, e))
  {
    match e {
      case SideEvent(f) => Side.EventKeepsInv(s.side, f);
      case StartSide(scene) => Side.StartKeepsInv(s.side, scene);
      case _ => Side.EndKeepsInv(s.side);
    }
    SameKeepsInv(s, Next(s, e));
  }

  lemma EventKeepsInv(s: State, e: Event)
    requires Inv(s) && WillFinish(s) && Enabled(s, e)
    ensures Inv(Next(s, e)) && WillFinish(Next(s, e))
  {
    hide Inv;
    match e
    case Recorded(_, _) => RecordedKeepsInv(s, e);
    case EndStream(recording) => EndStreamKeepsInv(s, recording);
    case WaitOver(press, recording, stopThrows) => WaitOverKeepsInv(s, press, recording, stopThrows);
    case SessionEnded(over) => SessionOverKeepsInv(s, over);
    case CloseDone(press) => CloseDoneKeepsInv(s, press);
    case _ => SideKeepsInv(s, e);
  }

  lemma RecordedKeepsInv(s: State, e: Event)
    requires Inv(s) && WillFinish(s) && Enabled(s, e) && e.Recorded?
    ensures Inv(Next(s, e)) && WillFinish(Next(s, e))
  {
    forall p: nat ensures PressInv(Next(s, e), p) { assert PressInv(s, p); }
  }

  // ---- Only once the push has stopped --------------------------------------------------

  /** A process has exited, or one of these quits still under way is its end's. */
  ghost predicate Leaving(side: Side.State, p: nat, quits: set<nat>) {
    p < |side.processes| && !side.processes[p].exited ==>
      exists q :: q in quits && q in side.quitting && side.quitting[q] == Side.Quit(p, true)
  }

  ghost predicate AllLeaving(side: Side.State, n: nat, quits: set<nat>) {
    n <= |side.processes| && forall p: nat :: p < n ==> Leaving(side, p, quits)
  }

  /** A process told to end is leaving, and the names of quits are never used twice. */
  ghost predicate EndsAreQuits(side: Side.State) {
    && (forall q :: q in side.quitting ==> q < side.nextName)
    && (forall p: nat :: p < |side.processes| && side.processes[p].ending ==> Leaving(side, p, side.quitting.Keys))
  }

  ghost predicate ClosingInv(s: State) {
    && EndsAreQuits(s.side)
    && forall press :: press in s.closing ==> AllLeaving(s.side, s.closing[press].launched, s.closing[press].quits)
  }

  /** What one step of the side may do to its quits: end one whose process has exited, or begin one. */
  ghost predicate QuitsKept(side: Side.State, after: Side.State) {
    && |side.processes| <= |after.processes| && side.nextName <= after.nextName
    && (forall q :: q in after.quitting ==> q < after.nextName)
    && (forall p: nat :: p < |side.processes| && side.processes[p].exited ==> after.processes[p].exited)
    && (forall q :: q in side.quitting ==>
          || (q in after.quitting && after.quitting[q] == side.quitting[q])
          || (var p := side.quitting[q].process; p < |side.processes| && side.processes[p].exited))
    && (forall p: nat :: p < |after.processes| && after.processes[p].ending ==>
          || (p < |side.processes| && side.processes[p].ending)
          || (side.nextName in after.quitting && after.quitting[side.nextName] == Side.Quit(p, true)))
  }

  lemma StepKeepsQuits(side: Side.State, e: Side.Event)
    requires Side.Enabled(side, e) && forall q :: q in side.quitting ==> q < side.nextName
    ensures QuitsKept(side, Side.Next(side, e))
  {
    hide Side.Next, Side.Enabled;
    if e.End? {
      EndChangesQuits(side);
    } else if e.QuitDone? || e.Stall? {
      QuitsChange(side, e);
    } else {
      if e.Banner? || e.Block? { BlocksTouchNoQuits(side, e); }
      else if e.PushLost? || e.PushBack? { PushesTouchNoQuits(side, e); }
      else if e.Exits? || e.ExitSeen? { ExitsTouchNoQuits(side, e); }
      else if e.GoneSeen? || e.EndedSeen? { GoingsTouchNoQuits(side, e); }
      else { LaunchesTouchNoQuits(side, e); }
    }
  }

  ghost predicate QuitsUntouched(side: Side.State, after: Side.State) {
    && after.quitting == side.quitting && side.nextName <= after.nextName && |side.processes| <= |after.processes|
    && (forall p: nat :: p < |side.processes| ==>
          (side.processes[p].exited ==> after.processes[p].exited) && after.processes[p].ending == side.processes[p].ending)
    && (forall p: nat :: |side.processes| <= p < |after.processes| ==> !after.processes[p].ending)
  }

  lemma BlocksTouchNoQuits(side: Side.State, e: Side.Event)
    requires Side.Enabled(side, e) && (e.Banner? || e.Block?)
    ensures QuitsUntouched(side, Side.Next(side, e))
  {
  }

  lemma PushesTouchNoQuits(side: Side.State, e: Side.Event)
    requires Side.Enabled(side, e) && (e.PushLost? || e.PushBack?)
    ensures QuitsUntouched(side, Side.Next(side, e))
  {
  }

  lemma ExitsTouchNoQuits(side: Side.State, e: Side.Event)
    requires Side.Enabled(side, e) && (e.Exits? || e.ExitSeen?)
    ensures QuitsUntouched(side, Side.Next(side, e))
  {
    hide Side.RelaunchWait;
  }

  lemma GoingsTouchNoQuits(side: Side.State, e: Side.Event)
    requires Side.Enabled(side, e) && (e.GoneSeen? || e.EndedSeen?)
    ensures QuitsUntouched(side, Side.Next(side, e))
  {
  }

  lemma LaunchesTouchNoQuits(side: Side.State, e: Side.Event)
    requires Side.Enabled(side, e) && (e.Start? || e.TimerFires? || e.EndPressed? || e.SwitchScene?)
    ensures QuitsUntouched(side, Side.Next(side, e))
  {
  }

  lemma QuitsChange(side: Side.State, e: Side.Event)
    requires Side.Enabled(side, e) && forall q :: q in side.quitting ==> q < side.nextName
    requires e.QuitDone? || e.Stall?
    ensures QuitsKept(side, Side.Next(side, e))
  {
  }

  lemma EndChangesQuits(side: Side.State)
    requires forall q :: q in side.quitting ==> q < side.nextName
    ensures QuitsKept(side, Side.Next(side, Side.End))
  {
  }

  lemma StaysLeaving(side: Side.State, after: Side.State, n: nat, quits: set<nat>)
    requires AllLeaving(side, n, quits) && QuitsKept(side, after)
    ensures AllLeaving(after, n, quits)
  {
    forall p: nat | p < n && !after.processes[p].exited ensures Leaving(after, p, quits) {
      assert Leaving(side, p, quits);
      var q :| q in quits && q in side.quitting && side.quitting[q] == Side.Quit(p, true);
      assert q in after.quitting && after.quitting[q] == Side.Quit(p, true);
    }
  }

  lemma EndsStayQuits(side: Side.State, after: Side.State)
    requires EndsAreQuits(side) && QuitsKept(side, after)
    ensures EndsAreQuits(after)
  {
    forall p: nat | p < |after.processes| && after.processes[p].ending && !after.processes[p].exited
      ensures Leaving(after, p, after.quitting.Keys)
    {
      if p < |side.processes| && side.processes[p].ending {
        assert Leaving(side, p, side.quitting.Keys);
        var q :| q in side.quitting && side.quitting[q] == Side.Quit(p, true);
        assert q in after.quitting && after.quitting[q] == Side.Quit(p, true);
      }
    }
  }

  /** Once the side has been ended, every process launched is leaving. */
  lemma EndedAllLeaving(side: Side.State)
    requires Side.Inv(side) && EndsAreQuits(side)
    ensures var ended := Side.EndOf(side); EndsAreQuits(ended) && AllLeaving(ended, |ended.processes|, ended.quitting.Keys)
  {
    StepKeepsQuits(side, Side.End);
    var ended := Side.EndOf(side);
    assert Side.Next(side, Side.End) == ended;
    EndsStayQuits(side, ended);
    Side.EndKeepsInv(side);
    assert ended.held.None?;
    hide Side.EndOf;
    forall p: nat | p < |ended.processes| ensures Leaving(ended, p, ended.quitting.Keys) {
      assert Side.ProcessInv(ended, p);
    }
  }

  lemma SideStepKeepsClosing(s: State, e: Side.Event, s': State)
    requires Side.Enabled(s.side, e) && ClosingInv(s)
    requires s'.side == Side.Next(s.side, e) && s'.closing == s.closing
    ensures ClosingInv(s')
  {
    StepKeepsQuits(s.side, e);
    EndsStayQuits(s.side, s'.side);
    forall press | press in s'.closing ensures AllLeaving(s'.side, s'.closing[press].launched, s'.closing[press].quits) {
      StaysLeaving(s.side, s'.side, s.closing[press].launched, s.closing[press].quits);
    }
  }

  lemma FinishKeepsClosing(s: State, press: nat)
    requires Side.Inv(s.side) && ClosingInv(s)
    ensures ClosingInv(FinishEnding(s, press))
  {
    if s.ending == Some(press) {
      SideStepKeepsClosing(s, Side.End, EndSide(s));
      EndedAllLeaving(s.side);
    }
  }

  lemma SessionOverKeepsClosing(s: State, session: nat)
    requires Side.Inv(s.side) && ClosingInv(s)
    ensures ClosingInv(SessionOver(s, session)) && Side.Inv(SessionOver(s, session).side)
  {
    hide ClosingInv, Side.Inv;
    if s.streamed == Some(session) {
      var over := EndSide(s.(streamed := None));
      SideStepKeepsClosing(s, Side.End, over);
      Side.EndKeepsInv(s.side);
      Side.EndKeepsInv(over.side);
      if s.ending.Some? { FinishKeepsClosing(over, s.ending.value); }
    }
  }

  lemma WaitOverKeepsClosing(s: State, press: nat, recording: Option<nat>, stopThrows: bool)
    requires Side.Inv(s.side) && ClosingInv(s) && Enabled(s, WaitOver(press, recording, stopThrows))
    ensures ClosingInv(Next(s, WaitOver(press, recording, stopThrows)))
  {
    var over := s.(waits := s.waits - {press});
    assert ClosingInv(over);
    hide ClosingInv, Side.Inv;
    SessionOverKeepsClosing(over, s.presses[press].session);
    FinishKeepsClosing(over, press);
    FinishKeepsClosing(SessionOver(over, s.presses[press].session), press);
  }

  lemma EventKeepsClosing(s: State, e: Event)
    requires Side.Inv(s.side) && ClosingInv(s) && Enabled(s, e)
    ensures ClosingInv(Next(s, e))
  {
    match e
    case SideEvent(f) => SideStepKeepsClosing(s, f, Next(s, e));
    case StartSide(scene) => SideStepKeepsClosing(s, Side.Start(scene), Next(s, e));
    case Recorded(_, _) =>
    case CloseDone(_) =>
    case EndStream(recording) =>
      if Next(s, e) != s { SideStepKeepsClosing(s, Side.EndPressed, Next(s, e)); }
    case WaitOver(press, recording, stopThrows) => WaitOverKeepsClosing(s, press, recording, stopThrows);
    case SessionEnded(over) => SessionOverKeepsClosing(s, over);
    case _ => SideStepKeepsClosing(s, Side.End, Next(s, e));
  }

  // ---- Over every run ------------------------------------------------------------------

  /** The state after these events, one that could not happen being passed over. */
  ghost function After(s: State, es: seq<Event>): State
    decreases |es|
  {
    if es == [] then s else After(if Enabled(s, es[0]) then Next(s, es[0]) else s, es[1..])
  }

  ghost predicate Good(s: State) { Inv(s) && WillFinish(s) && ClosingInv(s) }

  lemma EventKeepsGood(s: State, e: Event)
    requires Good(s) && Enabled(s, e)
    ensures Good(Next(s, e))
  {
    assert Side.Inv(s.side);
    hide Inv, WillFinish, ClosingInv, Enabled, Next;
    EventKeepsInv(s, e);
    EventKeepsClosing(s, e);
  }

  lemma {:induction false} RunKeepsGood(s: State, es: seq<Event>)
    requires Good(s)
    ensures Good(After(s, es))
    decreases |es|
  {
    hide Good, Enabled, Next;
    if es != [] {
      var next := if Enabled(s, es[0]) then Next(s, es[0]) else s;
      if Enabled(s, es[0]) { EventKeepsGood(s, es[0]); }
      RunKeepsGood(next, es[1..]);
    }
  }

  lemma StartsGood()
    ensures Good(INITIAL)
  {
    forall p: nat ensures PressInv(INITIAL, p) { assert !WasSent(INITIAL, p); }
    forall p: nat ensures Side.ProcessInv(Side.INITIAL, p) {}
  }

  /**
   * Each accepted End Stream is told at most once, with the Broadcast of the session it ended,
   * and exactly once when nothing is left under way; and nothing else is ever told.
   */
  lemma EachEndStreamToldOnce(es: seq<Event>)
    ensures var s := After(INITIAL, es);
            && (forall i, j :: 0 <= i < j < |s.sent| ==> s.sent[i].press != s.sent[j].press)
            && (forall m :: m in s.sent ==>
                  && m.press < |s.presses| && s.presses[m.press].session in s.broadcastOf
                  && m.broadcast == s.broadcastOf[s.presses[m.press].session])
            && (s.waits == {} && s.closing == map[] ==> forall press: nat :: press < |s.presses| ==> WasSent(s, press))
  {
    StartsGood();
    RunKeepsGood(INITIAL, es);
    var s := After(INITIAL, es);
    forall m | m in s.sent
      ensures s.presses[m.press].session in s.broadcastOf && m.broadcast == s.broadcastOf[s.presses[m.press].session]
    {
      assert PressInv(s, m.press);
    }
    forall press: nat | s.waits == {} && s.closing == map[] && press < |s.presses| ensures WasSent(s, press) {
      assert PressInv(s, press);
    }
  }

  /** A close under way stays as it began until it is done. */
  lemma ClosingStays(s: State, e: Event, press: nat)
    requires Good(s) && Enabled(s, e) && press in s.closing
    ensures if e == CloseDone(press) then WasSent(Next(s, e), press)
            else press in Next(s, e).closing && Next(s, e).closing[press] == s.closing[press]
  {
    hide Side.Next, Side.EndOf;
    assert PressInv(s, press);
    if e == CloseDone(press) {
      assert LiveStreamStopped(press, s.presses[press].broadcast) in Next(s, e).sent;
    }
  }

  lemma SentStays(s: State, e: Event, press: nat)
    requires Enabled(s, e) && WasSent(s, press)
    ensures WasSent(Next(s, e), press)
  {
    hide Side.Next, Side.EndOf;
    var m :| m in s.sent && m.press == press;
    assert m in Next(s, e).sent;
  }

  lemma {:induction false} ClosedAsItBegan(s: State, es: seq<Event>, press: nat, closing: Closing)
    requires Good(s)
    requires WasSent(s, press) || (press in s.closing && s.closing[press] == closing)
    ensures var t := After(s, es);
      Good(t) && (WasSent(t, press) || (press in t.closing && t.closing[press] == closing))
    decreases |es|
  {
    hide Good, Enabled, Next, WasSent;
    if es != [] {
      var next := if Enabled(s, es[0]) then Next(s, es[0]) else s;
      if Enabled(s, es[0]) {
        EventKeepsGood(s, es[0]);
        if WasSent(s, press) { SentStays(s, es[0], press); } else { ClosingStays(s, es[0], press); }
      }
      ClosedAsItBegan(next, es[1..], press, closing);
    }
  }

  lemma ClosesAllLaunched(s: State, e: Event, press: nat)
    requires Enabled(s, e) && press !in s.closing && press in Next(s, e).closing
    ensures Next(s, e).closing[press].launched == |Next(s, e).side.processes|
  {
    hide Side.Next, Side.EndOf;
  }

  lemma SentIsNotClosing(s: State, press: nat)
    requires Good(s) && WasSent(s, press)
    ensures press !in s.closing
  {
    assert PressInv(s, press);
  }

  /**
   * When an End Stream is told, every process the stream had launched by the
   * step that began its close has exited, whatever came between.
   */
  lemma ToldOnceStopped(es: seq<Event>, e: Event, more: seq<Event>, press: nat)
    requires Enabled(After(INITIAL, es), e) && press !in After(INITIAL, es).closing
    requires press in Next(After(INITIAL, es), e).closing
    requires Enabled(After(Next(After(INITIAL, es), e), more), CloseDone(press))
    ensures var begun := Next(After(INITIAL, es), e);
      var told := After(begun, more);
      forall p :: 0 <= p < |begun.side.processes| ==> p < |told.side.processes| && told.side.processes[p].exited
  {
    StartsGood();
    RunKeepsGood(INITIAL, es);
    var s := After(INITIAL, es);
    var begun := Next(s, e);
    EventKeepsGood(s, e);
    ClosesAllLaunched(s, e, press);
    ClosedAsItBegan(begun, more, press, begun.closing[press]);
    var told := After(begun, more);
    if WasSent(told, press) { SentIsNotClosing(told, press); }
    assert told.closing[press] == begun.closing[press];
    forall p | 0 <= p < |begun.side.processes|
      ensures p < |told.side.processes| && told.side.processes[p].exited
    {
      assert AllLeaving(told.side, told.closing[press].launched, told.closing[press].quits);
      assert Leaving(told.side, p, told.closing[press].quits);
    }
  }

  // ---- Who ends the Live Stream --------------------------------------------------------

  /** Nothing is held, ended is shown, and every process launched has exited or been told to quit. */
  ghost predicate StreamEnded(side: Side.State) {
    && side.held.None? && Side.Over(side.status)
    && AllLeaving(side, |side.processes|, side.quitting.Keys)
  }

  /** `after` is the side ended: once, or more often. */
  ghost predicate EndedFrom(side: Side.State, after: Side.State) {
    && StreamEnded(after) && Side.Inv(after) && EndsAreQuits(after)
    && |after.processes| == |side.processes|
    && after.status == if side.status == Side.Idle then Side.Idle else Side.Ended
  }

  lemma EndEndsIt(side: Side.State)
    requires Side.Inv(side) && EndsAreQuits(side)
    ensures EndedFrom(side, Side.EndOf(side))
  {
    EndedAllLeaving(side);
    Side.EndKeepsInv(side);
    assert Side.Next(side, Side.End) == Side.EndOf(side);
  }

  lemma EndedTwice(side: Side.State, once: Side.State)
    requires EndedFrom(side, once)
    ensures EndedFrom(side, Side.EndOf(once))
  {
    EndEndsIt(once);
    hide StreamEnded, Side.EndOf, Side.Inv, EndsAreQuits;
  }

  /** The End Stream under way is of this session. */
  predicate EndingOf(s: State, session: nat) {
    s.ending.Some? && s.ending.value < |s.presses| && s.presses[s.ending.value].session == session
  }

  lemma OverEnds(s: State, session: nat)
    requires Side.Inv(s.side) && EndsAreQuits(s.side) && s.streamed == Some(session)
    ensures var after := SessionOver(s, session);
      && EndedFrom(s.side, after.side) && after.streamed == None
      && (if EndingOf(s, session) then after.ending == None && s.ending.value in after.closing
          else after.ending == s.ending && after.closing == s.closing)
  {
    hide EndedFrom, Side.EndOf, Side.Inv, EndsAreQuits;
    EndEndsIt(s.side);
    EndedTwice(s.side, Side.EndOf(s.side));
  }

  lemma WaitEnds(s: State, press: nat, recording: Option<nat>, stopThrows: bool)
    requires Side.Inv(s.side) && EndsAreQuits(s.side) && s.ending == Some(press) && press < |s.presses|
    requires Enabled(s, WaitOver(press, recording, stopThrows))
    ensures var after := Next(s, WaitOver(press, recording, stopThrows));
      EndedFrom(s.side, after.side) && after.ending == None && press in after.closing
  {
    hide EndedFrom, Side.EndOf, Side.Inv, EndsAreQuits, SessionOver;
    EndEndsIt(s.side);
    var waited, session := s.(waits := s.waits - {press}), s.presses[press].session;
    if recording == Some(session) && !stopThrows {
      if s.streamed == Some(session) {
        OverEnds(waited, session);
        EndedTwice(s.side, SessionOver(waited, session).side);
      } else {
        NotStreamed(waited, session);
      }
    }
  }

  lemma NotStreamed(s: State, session: nat)
    requires s.streamed != Some(session)
    ensures SessionOver(s, session) == s
  {
  }

  /**
   * Each of these ends the Live Stream, whatever was under way: the streamed
   * session's end, End Stream pressed or not; the wait of an End Stream,
   * whether its stop went well, threw, or found another session recording; a
   * Go Live that fails; and the service's own close.
   */
  predicate EndsTheStream(s: State, e: Event) {
    match e
    case SessionEnded(over) => s.streamed == Some(over)
    case WaitOver(press, _, _) => s.ending == Some(press)
    case GoLiveFails => true
    case ServiceCloses => true
    case _ => false
  }

  lemma EndsIt(s: State, e: Event)
    requires Good(s) && Enabled(s, e) && EndsTheStream(s, e)
    ensures EndedFrom(s.side, Next(s, e).side)
    ensures e.SessionEnded? ==> Next(s, e).streamed == None
    ensures e.SessionEnded? && EndingOf(s, e.over) ==> Next(s, e).ending == None && s.ending.value in Next(s, e).closing
    ensures e.WaitOver? ==> Next(s, e).ending == None && e.press in Next(s, e).closing
  {
    assert Side.Inv(s.side) && EndsAreQuits(s.side);
    hide EndedFrom, Side.EndOf, Side.Inv, EndsAreQuits, Inv, ClosingInv, SessionOver, FinishEnding;
    match e {
      case SessionEnded(over) => OverEnds(s, over);
      case WaitOver(press, recording, stopThrows) => WaitEnds(s, press, recording, stopThrows);
      case _ => EndEndsIt(s.side);
    }
  }

  /**
   * Over every run, such an event ends the Live Stream for good: it holds
   * nothing, shows ended, every process launched has exited or is told to
   * quit, and none is launched until the next Go Live.
   */
  lemma EndedForGood(es: seq<Event>, e: Event, more: seq<Event>)
    requires Enabled(After(INITIAL, es), e) && EndsTheStream(After(INITIAL, es), e)
    requires forall i :: 0 <= i < |more| ==> !more[i].StartSide?
    ensures var s := After(INITIAL, es);
      var ended := Next(s, e);
      && StreamEnded(ended.side) && (s.side.held.Some? ==> ended.side.status == Side.Ended)
      && |After(ended, more).side.processes| == |s.side.processes| && After(ended, more).side.held.None?
  {
    hide After, Good, StreamEnded, Next;
    StartsGood();
    RunKeepsGood(INITIAL, es);
    var s := After(INITIAL, es);
    EndsIt(s, e);
    EventKeepsGood(s, e);
    HeldIsShown(s);
    EndedFromHolds(s.side, Next(s, e).side);
    StaysEnded(Next(s, e), more);
    EndedHolds(Next(s, e).side);
  }

  lemma HeldIsShown(s: State)
    requires Good(s)
    ensures s.side.held.Some? ==> s.side.status != Side.Idle
  {
    assert Side.Inv(s.side);
  }

  lemma EndedHolds(side: Side.State)
    requires StreamEnded(side)
    ensures side.held.None?
  {
  }

  lemma {:induction false} StaysEnded(s: State, more: seq<Event>)
    requires Good(s) && forall i :: 0 <= i < |more| ==> !more[i].StartSide?
    ensures s.side.held.None? ==>
      |After(s, more).side.processes| == |s.side.processes| && After(s, more).side.held.None?
    decreases |more|
  {
    hide Good, Enabled, Next;
    if more != [] {
      if Enabled(s, more[0]) {
        EventKeepsGood(s, more[0]);
        if s.side.held.None? { StepStaysEnded(s, more[0]); }
      }
      StaysEnded(if Enabled(s, more[0]) then Next(s, more[0]) else s, more[1..]);
    }
  }

  lemma StepStaysEnded(s: State, e: Event)
    requires Good(s) && Enabled(s, e) && s.side.held.None? && !e.StartSide?
    ensures |Next(s, e).side.processes| == |s.side.processes| && Next(s, e).side.held.None?
  {
    assert Side.Inv(s.side) && EndsAreQuits(s.side);
    hide Side.Inv, EndsAreQuits, Inv, ClosingInv, Side.Next, EndedFrom;
    if EndsTheStream(s, e) {
      EndsIt(s, e);
      EndedFromHolds(s.side, Next(s, e).side);
    } else if e.SideEvent? {
      Side.NothingHeldNothingLaunched(s.side, e.e);
    } else if e.EndStream? {
      Side.NothingHeldNothingLaunched(s.side, Side.EndPressed);
    }
  }

  lemma EndedFromHolds(side: Side.State, after: Side.State)
    requires EndedFrom(side, after)
    ensures after.held.None? && |after.processes| == |side.processes| && StreamEnded(after)
    ensures side.status != Side.Idle ==> after.status == Side.Ended
  {
  }

  /** Record begun: its session, if it has one, is the one streamed, on that Broadcast, until it or the next one ends it. */
  lemma RecordedIsStreamed(s: State, session: Option<nat>, broadcast: nat)
    requires Enabled(s, Recorded(session, broadcast))
    ensures var after := Next(s, Recorded(session, broadcast));
      && after.streamed == session && after.broadcast == broadcast && after.side == s.side
      && (session.Some? ==> session.value in after.broadcastOf && after.broadcastOf[session.value] == broadcast)
      && (forall other :: other in s.broadcastOf ==> other in after.broadcastOf && after.broadcastOf[other] == s.broadcastOf[other])
  {
  }

  /** An End Stream accepted is shown as ending at once, and its wait is begun. */
  lemma PressIsShown(es: seq<Event>, recording: Option<nat>)
    requires var s := After(INITIAL, es); Next(s, EndStream(recording)) != s
    ensures var s := After(INITIAL, es);
      var after := Next(s, EndStream(recording));
      && (s.side.held.Some? ==> after.side.status == Side.Ending)
      && after.ending.Some? && after.ending.value in after.waits && after.ending.value == |s.presses|
      && after.side.held == s.side.held && after.side.processes == s.side.processes
  {
    StartsGood();
    RunKeepsGood(INITIAL, es);
    assert Side.Inv(After(INITIAL, es).side);
    hide After;
  }

  /** Pressing again while one is ending changes nothing; nor does pressing with nothing streamed. */
  lemma PressesThatAddNothing(s: State, recording: Option<nat>)
    ensures Next(s, EndStream(recording)) == s <==> s.ending.Some? || s.streamed.None? || recording != s.streamed
  {
    assert |Next(s, EndStream(recording)).presses| > |s.presses| || Next(s, EndStream(recording)) == s;
  }

  // ---- The service's side of it --------------------------------------------------------

  class GoLive {
    const side: Side.StreamSide
    var streamed: Option<nat>
    var broadcast: nat
    var ending: Option<nat>
    var presses: seq<Press>
    var waits: set<nat>
    var closing: map<nat, Closing>
    var sent: seq<Message>
    var broadcastOf: map<nat, nat>

    ghost function Abs(): State
      reads this, side
    {
      State(side.Abs(), streamed, broadcast, ending, presses, waits, closing, sent, broadcastOf)
    }

    constructor ()
      ensures Abs() == INITIAL && fresh(side)
    {
      side := new Side.StreamSide();
      streamed, broadcast, ending, presses := None, 0, None, [];
      waits, closing, sent, broadcastOf := {}, map[], [], map[];
    }

    method Finish(press: nat)
      modifies this`ending, this`closing, side
      ensures Abs() == FinishEnding(old(Abs()), press)
    {
      if ending != Some(press) { return; }
      ending := None;
      side.OnEnd();
      closing := closing[press := Closing(side.quitting.Keys, |side.processes|)];
    }

    method OnRecorded(session: Option<nat>, on: nat)
      requires Enabled(Abs(), Recorded(session, on))
      modifies this`streamed, this`broadcast, this`broadcastOf
      ensures Abs() == Next(old(Abs()), Recorded(session, on))
    {
      streamed, broadcast := session, on;
      if session.Some? { broadcastOf := broadcastOf[session.value := on]; }
    }

    method OnSessionEnded(session: nat)
      modifies this`streamed, this`ending, this`closing, side
      ensures Abs() == SessionOver(old(Abs()), session)
    {
      if streamed != Some(session) { return; }
      streamed := None;
      side.OnEnd();
      if ending.Some? && ending.value < |presses| && presses[ending.value].session == session { Finish(ending.value); }
    }

    /** Refused when there is nothing to end; answered with the first press while that one waits. */
    method OnEndStream(recording: Option<nat>) returns (refused: bool)
      modifies this`ending, this`presses, this`waits, side
      ensures Abs() == Next(old(Abs()), EndStream(recording))
      ensures refused == (old(streamed).None? || recording != old(streamed))
    {
      refused := streamed.None? || recording != streamed;
      if refused || ending.Some? { return; }
      var press := |presses|;
      presses := presses + [Press(streamed.value, broadcast)];
      ending := Some(press);
      side.OnEndPressed();
      waits := waits + {press};
    }

    method OnWaitOver(press: nat, recording: Option<nat>, stopThrows: bool)
      requires Enabled(Abs(), WaitOver(press, recording, stopThrows))
      modifies this`waits, this`streamed, this`ending, this`closing, side
      ensures Abs() == Next(old(Abs()), WaitOver(press, recording, stopThrows))
    {
      waits := waits - {press};
      if ending != Some(press) { return; }
      if recording == Some(presses[press].session) && !stopThrows { OnSessionEnded(presses[press].session); }
      Finish(press);
    }

    method OnClosed(press: nat)
      requires Enabled(Abs(), CloseDone(press))
      modifies this`closing, this`sent
      ensures Abs() == Next(old(Abs()), CloseDone(press))
    {
      closing := closing - {press};
      sent := sent + [LiveStreamStopped(press, presses[press].broadcast)];
    }
  }
}
