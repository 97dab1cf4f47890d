/**
 * One Recording Session's events and the Chat Highlights logged in them, from
 * Record to `recording-stopped`: numbering, the one stop whoever asks first,
 * the speech marks, and the highlight edges with the awaits between them.
 *
 * A step is one callback. What the processes, the card server and the card
 * feed do is in the events; the feed's contract is that it fails a stamp only
 * when it closes for good, and stamps an exit of the card that is up.
 */
module RecordingSession {
  import opened Common
  import opened Speech
  import opened CrashRecovery
  import JsonLines

  datatype Reason = Requested | CameraWentAway | FfmpegExited | EventLogFailed

  /**
   * The session's own variables. `ready`: the beginning has run to its end, so
   * `stopWith` exists. `sent` is every event sent, and `filed` every one whose
   * line is in the log file.
   */
  datatype Session = Session(
    ready: bool, number: int, detector: Speech.State, highlight: Option<string>, logFailed: bool,
    stopping: Option<Reason>, ended: bool, sent: seq<Entry>, filed: seq<Entry>)

  /** What the Chat Highlight command in hand waits for. */
  datatype Command =
    | Idle
    | Rendering(id: string)
    | AwaitingHidden(leaving: string, id: string)
    | AwaitingShown(id: string)
    | AwaitingHide(id: string)
    | Closed

  /** A command whose turn has not come. */
  datatype Asked = AskShow(id: string) | AskHide(id: string)

  /** `cardUp`: a card is on the picture and not leaving. */
  datatype Highlights = Highlights(queue: seq<Asked>, command: Command, showing: Option<string>, cardUp: bool)

  datatype State = State(session: Session, highlights: Highlights)

  /** What a session is given: the Silence Length, and of which events the line can be appended to the log file. */
  datatype Given = Given(minSilence: real, lands: int -> bool)

  datatype Event =
    | SilenceLine(isStart: bool, at: real)
    | ProgressLine(at: real)
    | FramesLostTold
    | Tuned
    | SwitchScene(at: real)
    | CameraLost
    | ProcessExited
    | StopPressed
    | StopFinishes(fileTime: real)
    | Ask(asked: Asked)
    | TurnComes
    | Rendered(drawn: bool)
    | HiddenStamped
    | ShownStamped
    | HideStamped
    | StreamCloses

  // ---- The session --------------------------------------------------------------------

  /** The first reason to stop is the one that counts. Before the beginning has ended there is no stop: asking throws. */
  function StopWith(s: Session, reason: Reason): Session {
    if !s.ready || s.stopping.Some? then s
    else s.(stopping := Some(reason), detector := Speech.Next(s.detector, StopRequested, 0.0))
  }

  /**
   * One event, numbered, filed and sent. The first append that fails asks for
   * the stop before it sends; where there is no stop, that throws, and the
   * event is not sent. A later one that fails is sent all the same.
   */
  function Log(s: Session, what: What, g: Given): Session {
    var e := Entry(s.number + 1, what);
    var counted := s.(number := s.number + 1);
    if g.lands(e.number) then counted.(sent := s.sent + [e], filed := s.filed + [e])
    else if s.logFailed then counted.(sent := s.sent + [e])
    else if !s.ready then counted.(logFailed := true)
    else StopWith(counted.(logFailed := true), EventLogFailed).(sent := s.sent + [e])
  }

  function LogMarks(s: Session, marks: seq<Mark>, g: Given): Session
    decreases |marks|
  {
    if marks == [] then s else LogMarks(Log(s, Said(marks[0]), g), marks[1..], g)
  }

  function Heard(s: Session, call: Call, g: Given): Session {
    LogMarks(s.(detector := Speech.Next(s.detector, call, g.minSilence)), MarksOf(s.detector, call, g.minSilence), g)
  }

  function Edge(s: Session, what: What, g: Given): Session {
    if s.ended then s
    else Log(s.(highlight := if what.Shown? then Some(what.id) else None), what, g)
  }

  /** Every process has quit and every file is closed: the last marks, the open highlight, the stop. */
  function Finished(s: Session, fileTime: real, g: Given): Session {
    var spoken := Heard(s, Stop(fileTime), g);
    var hidden := if spoken.highlight.Some? then Log(spoken, Hidden(spoken.highlight.value), g) else spoken;
    Log(hidden, RecordingStopped, g).(ended := true)
  }

  const UNBEGUN := Session(false, 0, FRESH, None, false, None, false, [], [])

  /**
   * The beginning: the listeners are on, and the first two events are logged.
   * One that cannot be appended throws out of it, and leaves the listeners on
   * a session that nothing can stop and no command reaches.
   */
  function Begin(g: Given): State {
    var started := Log(UNBEGUN, RecordingStarted, g);
    var scened := if started.logFailed then started else Log(started, SceneChanged(0.0), g);
    if scened.logFailed then State.State(scened, Highlights([], Closed, None, false))
    else State.State(scened.(ready := true), Highlights([], Idle, None, false))
  }

  predicate Begins(g: Given) {
    g.lands(1) && g.lands(2)
  }

  const FIRST_TWO := [Entry(1, RecordingStarted), Entry(2, SceneChanged(0.0))]

  /** A session that has begun. */
  const BEGUN := State.State(
    Session(true, 2, FRESH, None, false, None, false, FIRST_TWO, FIRST_TWO), Highlights([], Idle, None, false))

  lemma BeginsWell(g: Given)
    requires Begins(g)
    ensures Begin(g) == BEGUN
  {
  }

  // ---- The highlights -----------------------------------------------------------------

  function WithEdge(t: State, what: What, g: Given, h: Highlights): State {
    State.State(Edge(t.session, what, g), h)
  }

  /** A command judged when its turn comes: refused once the stream has closed, and a hide unless that highlight shows. */
  function AtItsTurn(h: Highlights, asked: Asked): Highlights {
    if h.command != Idle then h
    else match asked
      case AskShow(id) => h.(command := Rendering(id))
      case AskHide(id) => if h.showing == Some(id) then h.(command := AwaitingHide(id), showing := None) else h
  }

  function NextHighlights(t: State, e: Event, g: Given): State
    requires !(e.SilenceLine? || e.ProgressLine? || e.StopFinishes?)
  {
    var h := t.highlights;
    match e
    case Ask(asked) => t.(highlights := h.(queue := h.queue + [asked]))
    case TurnComes =>
      if h.queue == [] || !(h.command == Idle || h.command == Closed) then t
      else t.(highlights := AtItsTurn(h.(queue := h.queue[1..]), h.queue[0]))
    case Rendered(drawn) =>
      if !h.command.Rendering? then t
      else if !drawn then t.(highlights := h.(command := Idle))
      else if h.showing.Some? && h.cardUp
      then t.(highlights := h.(command := AwaitingHidden(h.showing.value, h.command.id)))
      else t.(highlights := h.(command := AwaitingShown(h.command.id), showing := None))
    case HiddenStamped =>
      if !h.command.AwaitingHidden? then t
      else WithEdge(t, Hidden(h.command.leaving), g, Highlights(h.queue, AwaitingShown(h.command.id), None, false))
    case ShownStamped =>
      if !h.command.AwaitingShown? then t
      else WithEdge(t, Shown(h.command.id), g, Highlights(h.queue, Idle, Some(h.command.id), true))
    case HideStamped =>
      if !h.command.AwaitingHide? then t
      else WithEdge(t, Hidden(h.command.id), g, Highlights(h.queue, Idle, None, false))
    case StreamCloses => t.(highlights := h.(command := Closed))
    case _ => t
  }

  function NextSession(s: Session, e: Event, g: Given): Session {
    match e
    case SilenceLine(isStart, at) => Heard(s, if isStart then SilenceStart(at) else SilenceEnd(at), g)
    case ProgressLine(at) => if s.ended then s else Heard(s, Progress(at), g)
    case FramesLostTold => if s.ended then s else Log(s, Noted, g)
    case Tuned => if s.ended || !s.ready then s else Log(s, Noted, g)
    case SwitchScene(at) => if s.ended || !s.ready then s else Log(s, SceneChanged(at), g)
    case CameraLost => if s.stopping.Some? then s else StopWith(Log(s, Noted, g), CameraWentAway)
    case ProcessExited => StopWith(s, FfmpegExited)
    case StopPressed => StopWith(s, Requested)
    case StopFinishes(fileTime) => if s.stopping.Some? && !s.ended then Finished(s, fileTime, g) else s
    case _ => s
  }

  predicate IsHighlightEvent(e: Event) {
    e.Ask? || e.TurnComes? || e.Rendered? || e.HiddenStamped? || e.ShownStamped? || e.HideStamped?
    || e.StreamCloses?
  }

  function Next(t: State, e: Event, g: Given): State {
    if IsHighlightEvent(e) then NextHighlights(t, e, g) else t.(session := NextSession(t.session, e, g))
  }

  function After(t: State, events: seq<Event>, g: Given): State {
    if events == [] then t
    else Next(After(t, events[..|events| - 1], g), events[|events| - 1], g)
  }

  // ---- The promise --------------------------------------------------------------------

  /** The highlight a list of events leaves open; `None` outside once an edge was out of turn. */
  function Edges(log: seq<Entry>): Option<Option<string>> {
    if log == [] then Some(None)
    else
      var before, last := Edges(log[..|log| - 1]), log[|log| - 1].what;
      match last
      case Shown(id) => if before == Some(None) then Some(Some(id)) else None
      case Hidden(id) => if before == Some(Some(id)) then Some(None) else None
      case _ => before
  }

  /** Numbered from 1, opened as a session is, nothing after a stop. */
  ghost predicate Framed(log: seq<Entry>) {
    && |log| >= 2 && log[0].what == RecordingStarted && log[1].what == SceneChanged(0.0)
    && (forall i :: 0 <= i < |log| ==> log[i].number == i + 1)
    && (forall i :: 0 <= i < |log| - 1 ==> !IsEnd(log[i].what))
  }

  ghost predicate SessionInv(s: Session) {
    && s.ready && s.number == |s.sent|
    && (if s.logFailed then s.stopping.Some? else s.filed == s.sent)
    && Framed(s.sent) && Fine(s.detector)
    && Standing(s.sent) == Some(ReaderOf(s.detector))
    && (IsEnd(s.sent[|s.sent| - 1].what) <==> s.ended)
    && (s.ended ==> s.stopping.Some? && s.detector.startedAt.None?)
    && (s.stopping.Some? ==> s.detector.stopping)
    && Edges(s.sent) == Some(if s.ended then None else s.highlight)
  }

  /** The log's open highlight is what the command in hand takes it to be. */
  predicate HighlightsAgree(t: State) {
    var h, open := t.highlights, t.session.highlight;
    match h.command
    case Idle => open == h.showing && (h.showing.Some? ==> h.cardUp)
    case Rendering(_) => open == h.showing && (h.showing.Some? ==> h.cardUp)
    case AwaitingHidden(leaving, _) => open == Some(leaving)
    case AwaitingShown(_) => open == None
    case AwaitingHide(id) => open == Some(id)
    case Closed => true
  }

  ghost predicate Inv(t: State) {
    SessionInv(t.session) && (!t.session.ended ==> HighlightsAgree(t))
  }

  lemma BegunHolds()
    ensures Inv(BEGUN)
  {
    hide MarksIn, Edges;
    var first, second := Entry(1, RecordingStarted), Entry(2, SceneChanged(0.0));
    assert [] + [first] == [first] && [first] + [second] == [first, second];
    EmptySaysNothing();
    MarksOneMore([], first);
    MarksOneMore([first], second);
    EdgesOneMore([], first);
    EdgesOneMore([first], second);
  }

  lemma EmptySaysNothing()
    ensures MarksIn([]) == [] && Edges([]) == Some(None)
  {
  }

  lemma MarksOneMore(log: seq<Entry>, e: Entry)
    ensures MarksIn(log + [e]) == MarksIn(log) + (if e.what.Said? then [e.what.mark] else [])
  {
    assert (log + [e])[..|log + [e]| - 1] == log;
  }

  lemma EdgesOneMore(log: seq<Entry>, e: Entry)
    ensures Edges(log + [e]) == match e.what
      case Shown(id) => if Edges(log) == Some(None) then Some(Some(id)) else None
      case Hidden(id) => if Edges(log) == Some(Some(id)) then Some(None) else None
      case _ => Edges(log)
  {
    assert (log + [e])[..|log + [e]| - 1] == log;
  }

  /** An event that says nothing of speech, added before the end. */
  lemma LogKeeps(s: Session, what: What, g: Given)
    requires SessionInv(s) && !s.ended && !what.Said? && !IsEnd(what)
    requires what.Shown? ==> s.highlight == None
    requires what.Hidden? ==> s.highlight == Some(what.id)
    ensures var nowOpen := if what.Shown? then Some(what.id) else if what.Hidden? then None else s.highlight;
      var after := Log(s.(highlight := nowOpen), what, g);
      SessionInv(after) && !after.ended && after.highlight == nowOpen
  {
    hide MarksIn, Edges, ReadAll, Framed, Fine, ReaderOf;
    MarksOneMore(s.sent, Entry(s.number + 1, what));
    assert MarksIn(s.sent) + [] == MarksIn(s.sent);
    EdgesOneMore(s.sent, Entry(s.number + 1, what));
    FramedOneMore(s.sent, Entry(s.number + 1, what));
    ToldToStop(s.detector);
  }

  lemma FramedOneMore(log: seq<Entry>, e: Entry)
    requires Framed(log) && !IsEnd(log[|log| - 1].what) && e.number == |log| + 1
    ensures Framed(log + [e])
  {
  }

  lemma ToldToStop(d: Speech.State)
    ensures var told := Speech.Next(d, StopRequested, 0.0);
      ReaderOf(told) == ReaderOf(d) && (Fine(d) ==> Fine(told)) && told.stopping
  {
  }

  lemma StopWithKeeps(s: Session, reason: Reason)
    requires SessionInv(s)
    ensures SessionInv(StopWith(s, reason)) && StopWith(s, reason).highlight == s.highlight
    ensures StopWith(s, reason).ended == s.ended && StopWith(s, reason).sent == s.sent
  {
    hide MarksIn, Edges, ReadAll;
  }

  /** What the session still has to send of a detector call's marks, before it has sent them. */
  ghost predicate Owes(s: Session, marks: seq<Mark>) {
    && s.ready && s.number == |s.sent| && !s.ended
    && (if s.logFailed then s.stopping.Some? else s.filed == s.sent)
    && Framed(s.sent) && Fine(s.detector)
    && Standing(s.sent).Some? && ReadAll(Standing(s.sent).value, marks) == Some(ReaderOf(s.detector))
    && !IsEnd(s.sent[|s.sent| - 1].what)
    && (s.stopping.Some? ==> s.detector.stopping)
    && Edges(s.sent) == Some(s.highlight)
  }

  lemma ReadsFirst(r: Reader, marks: seq<Mark>)
    requires marks != [] && ReadAll(r, marks).Some?
    ensures Read(r, marks[0]).Some? && ReadAll(Read(r, marks[0]).value, marks[1..]) == ReadAll(r, marks)
  {
    assert marks == [marks[0]] + marks[1..];
    PrefixReads(r, marks, 1);
    assert marks[..1] == [marks[0]];
    ReadsOne(r, marks[0]);
    ReadsInTwo(r, [marks[0]], marks[1..]);
  }

  lemma OneMarkPaid(s: Session, marks: seq<Mark>, g: Given)
    requires Owes(s, marks) && marks != []
    ensures Owes(Log(s, Said(marks[0]), g), marks[1..])
    ensures Log(s, Said(marks[0]), g).highlight == s.highlight
    ensures s.detector.startedAt.None? ==> Log(s, Said(marks[0]), g).detector.startedAt.None?
    ensures s.stopping.Some? ==> Log(s, Said(marks[0]), g).stopping.Some?
  {
    hide MarksIn, Edges, ReadAll, Read;
    var e := Entry(s.number + 1, Said(marks[0]));
    MarksOneMore(s.sent, e);
    EdgesOneMore(s.sent, e);
    ReadsFirst(Standing(s.sent).value, marks);
    ReadsInTwo(Quiet(false), MarksIn(s.sent), [marks[0]]);
    ReadsOne(Standing(s.sent).value, marks[0]);
  }

  lemma {:induction false} MarksPaid(s: Session, marks: seq<Mark>, g: Given)
    requires Owes(s, marks)
    ensures var after := LogMarks(s, marks, g);
      && SessionInv(after) && !after.ended && after.highlight == s.highlight
      && (s.detector.startedAt.None? ==> after.detector.startedAt.None?)
      && (s.stopping.Some? ==> after.stopping.Some?)
    decreases |marks|
  {
    hide Log, Edges, MarksIn, Read, Framed, ReaderOf, Fine;
    if marks == [] {
      ReadsNone(Standing(s.sent).value);
    } else {
      OneMarkPaid(s, marks, g);
      MarksPaid(Log(s, Said(marks[0]), g), marks[1..], g);
    }
  }

  lemma CallKeepsStopping(d: Speech.State, c: Call, minSilence: real)
    ensures d.stopping ==> Speech.Next(d, c, minSilence).stopping
    ensures c.Stop? ==> Speech.Next(d, c, minSilence).startedAt.None?
  {
  }

  lemma HeardKeeps(s: Session, call: Call, g: Given)
    requires SessionInv(s) && !s.ended
    ensures var after := Heard(s, call, g);
      && SessionInv(after) && !after.ended && after.highlight == s.highlight
      && (call.Stop? ==> after.detector.startedAt.None?)
      && (s.stopping.Some? ==> after.stopping.Some?)
  {
    hide LogMarks, Edges, MarksIn, ReadAll, Framed, ReaderOf, Speech.Next, MarksOf, Fine;
    CallIsAccepted(s.detector, call, g.minSilence);
    CallKeepsStopping(s.detector, call, g.minSilence);
    MarksPaid(s.(detector := Speech.Next(s.detector, call, g.minSilence)), MarksOf(s.detector, call, g.minSilence), g);
  }

  lemma StopKeeps(s: Session, g: Given)
    requires SessionInv(s) && !s.ended && s.highlight == None && s.stopping.Some? && s.detector.startedAt.None?
    ensures SessionInv(Log(s, RecordingStopped, g).(ended := true))
  {
    hide MarksIn, Edges, ReadAll;
    MarksOneMore(s.sent, Entry(s.number + 1, RecordingStopped));
    assert MarksIn(s.sent) + [] == MarksIn(s.sent);
    EdgesOneMore(s.sent, Entry(s.number + 1, RecordingStopped));
  }

  lemma HiddenClearsNothing(s: Session, id: string, g: Given)
    ensures Log(s.(highlight := None), Hidden(id), g) == Log(s, Hidden(id), g).(highlight := None)
  {
  }

  lemma EndedForgetsHighlight(s: Session)
    requires SessionInv(s) && s.ended
    ensures forall h: Option<string> :: SessionInv(s.(highlight := h))
  {
    hide MarksIn, Edges, ReadAll, Framed;
  }

  lemma FinishedKeeps(s: Session, fileTime: real, g: Given)
    requires SessionInv(s) && !s.ended && s.stopping.Some?
    ensures SessionInv(Finished(s, fileTime, g)) && Finished(s, fileTime, g).ended
  {
    hide Heard, SessionInv;
    HeardKeeps(s, Stop(fileTime), g);
    var spoken := Heard(s, Stop(fileTime), g);
    if spoken.highlight.Some? {
      var id := spoken.highlight.value;
      LogKeeps(spoken, Hidden(id), g);
      var closed := Log(spoken.(highlight := None), Hidden(id), g);
      HiddenClearsNothing(spoken, id, g);
      StopKeeps(closed, g);
      EndedForgetsHighlight(Log(closed, RecordingStopped, g).(ended := true));
      assert Finished(s, fileTime, g)
          == Log(closed, RecordingStopped, g).(ended := true, highlight := Some(id));
    } else {
      StopKeeps(spoken, g);
    }
  }

  /** An ended session says nothing more: the detector was told to stop and has stopped. */
  lemma NothingFollowsTheStop(t: State, e: Event, g: Given)
    requires SessionInv(t.session) && t.session.ended
    ensures Next(t, e, g).session.sent == t.session.sent && Next(t, e, g).session.ended
    ensures SessionInv(Next(t, e, g).session)
  {
    hide Framed, Standing, Edges, ReadAll;
    if e.SilenceLine? {
      var call := if e.isStart then SilenceStart(e.at) else SilenceEnd(e.at);
      StoppedSaysNothing(t.session.detector, call, g.minSilence);
      StoppedHearsNothing(t.session.detector, call, g.minSilence);
    }
  }

  lemma StoppedHearsNothing(d: Speech.State, c: Call, minSilence: real)
    requires d.stopping && d.startedAt.None? && (c.SilenceStart? || c.SilenceEnd?)
    ensures Speech.Next(d, c, minSilence) == d
  {
  }

  lemma SessionEventKeeps(s: Session, e: Event, g: Given)
    requires SessionInv(s) && !s.ended && !IsHighlightEvent(e)
    ensures var after := NextSession(s, e, g);
      SessionInv(after) && (!after.ended ==> after.highlight == s.highlight)
  {
    hide SessionInv, Heard, Log, StopWith, Finished;
    match e {
      case SilenceLine(isStart, at) => HeardKeeps(s, if isStart then SilenceStart(at) else SilenceEnd(at), g);
      case ProgressLine(at) => HeardKeeps(s, Progress(at), g);
      case FramesLostTold => LogKeeps(s, Noted, g);
      case Tuned => LogKeeps(s, Noted, g);
      case SwitchScene(at) => LogKeeps(s, SceneChanged(at), g);
      case CameraLost => LogKeeps(s, Noted, g); StopWithKeeps(Log(s, Noted, g), CameraWentAway);
      case ProcessExited => StopWithKeeps(s, FfmpegExited);
      case StopPressed => StopWithKeeps(s, Requested);
      case StopFinishes(fileTime) => if s.stopping.Some? { FinishedKeeps(s, fileTime, g); }
      case _ =>
    }
  }

  lemma EdgeKeeps(s: Session, what: What, g: Given)
    requires SessionInv(s) && !s.ended && (what.Shown? || what.Hidden?)
    requires what.Shown? ==> s.highlight == None
    requires what.Hidden? ==> s.highlight == Some(what.id)
    ensures var after := Edge(s, what, g);
      SessionInv(after) && !after.ended && after.highlight == (if what.Shown? then Some(what.id) else None)
  {
    hide SessionInv, Log;
    LogKeeps(s, what, g);
  }

  lemma HighlightEventKeeps(t: State, e: Event, g: Given)
    requires Inv(t) && !t.session.ended && IsHighlightEvent(e)
    ensures Inv(Next(t, e, g))
  {
    hide SessionInv, Edge;
    var h := t.highlights;
    if e.HiddenStamped? && h.command.AwaitingHidden? { EdgeKeeps(t.session, Hidden(h.command.leaving), g); }
    if e.ShownStamped? && h.command.AwaitingShown? { EdgeKeeps(t.session, Shown(h.command.id), g); }
    if e.HideStamped? && h.command.AwaitingHide? { EdgeKeeps(t.session, Hidden(h.command.id), g); }
  }

  lemma NextKeepsInv(t: State, e: Event, g: Given)
    requires Inv(t)
    ensures Inv(Next(t, e, g))
  {
    hide SessionInv, NextHighlights, NextSession;
    if t.session.ended {
      NothingFollowsTheStop(t, e, g);
    } else if IsHighlightEvent(e) {
      HighlightEventKeeps(t, e, g);
    } else {
      SessionEventKeeps(t.session, e, g);
    }
  }

  lemma {:induction false} EveryRunKeepsInv(events: seq<Event>, g: Given)
    ensures Inv(After(BEGUN, events, g))
  {
    hide Next, Inv;
    if events == [] {
      BegunHolds();
    } else {
      EveryRunKeepsInv(events[..|events| - 1], g);
      NextKeepsInv(After(BEGUN, events[..|events| - 1], g), events[|events| - 1], g);
    }
  }

  /**
   * Whatever races between Stop, camera loss, exits, a failing log and the
   * highlights: the events sent are a good log as crash recovery knows it,
   * opened by the start and a scene at 0; the highlights in it open and close
   * in turn; it holds a stop exactly when the session has ended, as its last
   * event; and then it is complete, with no highlight left open.
   */
  lemma EverySessionIsInOrder(events: seq<Event>, g: Given)
    ensures var s := After(BEGUN, events, g).session;
      && Good(s.sent) && |s.sent| >= 2 && s.sent[1].what == SceneChanged(0.0)
      && Edges(s.sent).Some?
      && (s.ended <==> exists e :: e in s.sent && IsEnd(e.what))
      && (s.ended ==> Complete(s.sent) && Edges(s.sent) == Some(None))
  {
    hide After, Standing, Edges;
    EveryRunKeepsInv(events, g);
    var s := After(BEGUN, events, g).session;
    assert SessionInv(s);
    forall e | e in s.sent && IsEnd(e.what) ensures s.ended {
      var i :| 0 <= i < |s.sent| && s.sent[i] == e;
    }
    assert s.sent[|s.sent| - 1] in s.sent;
  }

  lemma {:induction false} MarksKeepTheReason(s: Session, marks: seq<Mark>, g: Given)
    requires s.stopping.Some?
    ensures LogMarks(s, marks, g).stopping == s.stopping
    decreases |marks|
  {
    if marks != [] { MarksKeepTheReason(Log(s, Said(marks[0]), g), marks[1..], g); }
  }

  lemma NextKeepsTheReason(s: Session, e: Event, g: Given)
    requires s.stopping.Some?
    ensures NextSession(s, e, g).stopping == s.stopping
  {
    hide LogMarks, MarksOf, Speech.Next;
    match e {
      case SilenceLine(isStart, at) =>
        var call := if isStart then SilenceStart(at) else SilenceEnd(at);
        MarksKeepTheReason(s.(detector := Speech.Next(s.detector, call, g.minSilence)), MarksOf(s.detector, call, g.minSilence), g);
      case ProgressLine(at) =>
        MarksKeepTheReason(
          s.(detector := Speech.Next(s.detector, Progress(at), g.minSilence)), MarksOf(s.detector, Progress(at), g.minSilence), g);
      case StopFinishes(at) =>
        MarksKeepTheReason(
          s.(detector := Speech.Next(s.detector, Stop(at), g.minSilence)), MarksOf(s.detector, Stop(at), g.minSilence), g);
      case _ =>
    }
  }

  /** Whoever asks to stop first gives the reason: nothing later changes it, not even a log that fails. */
  lemma {:induction false} FirstReasonStands(t: State, events: seq<Event>, g: Given)
    requires t.session.stopping.Some?
    ensures After(t, events, g).session.stopping == t.session.stopping
  {
    hide NextSession;
    if events != [] {
      FirstReasonStands(t, events[..|events| - 1], g);
      NextKeepsTheReason(After(t, events[..|events| - 1], g).session, events[|events| - 1], g);
    }
  }

  // ---- What stops a session --------------------------------------------------------------

  predicate AsksToStop(e: Event) {
    e.CameraLost? || e.ProcessExited? || e.StopPressed?
  }

  /** An append of these events, the beginning's two not counted, failed. */
  predicate SomeFailed(sent: seq<Entry>, g: Given) {
    exists i :: 2 <= i < |sent| && !g.lands(sent[i].number)
  }

  predicate StopInv(s: Session, g: Given, asked: bool) {
    && 2 <= |s.sent| && s.ready
    && (s.stopping.Some? <==> asked || s.logFailed)
    && (s.logFailed <==> SomeFailed(s.sent, g))
  }

  lemma FailedOneMore(sent: seq<Entry>, e: Entry, g: Given)
    requires 2 <= |sent|
    ensures SomeFailed(sent + [e], g) <==> SomeFailed(sent, g) || !g.lands(e.number)
  {
    var all := sent + [e];
    assert all[|sent|] == e;
    if SomeFailed(sent, g) {
      var i :| 2 <= i < |sent| && !g.lands(sent[i].number);
      assert all[i] == sent[i];
    }
  }

  lemma LogStops(s: Session, what: What, g: Given, asked: bool)
    requires StopInv(s, g, asked)
    ensures StopInv(Log(s, what, g), g, asked)
    ensures s.stopping.Some? ==> Log(s, what, g).stopping == s.stopping
    ensures s.stopping.None? ==> Log(s, what, g).stopping == if g.lands(s.number + 1) then None else Some(EventLogFailed)
  {
    hide SomeFailed;
    FailedOneMore(s.sent, Entry(s.number + 1, what), g);
  }

  lemma {:induction false} MarksStop(s: Session, marks: seq<Mark>, g: Given, asked: bool)
    requires StopInv(s, g, asked)
    ensures StopInv(LogMarks(s, marks, g), g, asked)
    decreases |marks|
  {
    hide StopInv, Log;
    if marks != [] {
      LogStops(s, Said(marks[0]), g, asked);
      MarksStop(Log(s, Said(marks[0]), g), marks[1..], g, asked);
    }
  }

  lemma HeardStops(s: Session, call: Call, g: Given, asked: bool)
    requires StopInv(s, g, asked)
    ensures StopInv(Heard(s, call, g), g, asked)
  {
    hide LogMarks, MarksOf, Speech.Next, SomeFailed;
    var heard := s.(detector := Speech.Next(s.detector, call, g.minSilence));
    MarksStop(heard, MarksOf(s.detector, call, g.minSilence), g, asked);
  }

  lemma NextStops(t: State, e: Event, g: Given, asked: bool)
    requires StopInv(t.session, g, asked)
    ensures StopInv(Next(t, e, g).session, g, asked || AsksToStop(e))
  {
    hide Log, Heard, SomeFailed, Speech.Next;
    var s, c := t.session, t.highlights.command;
    match e {
      case SilenceLine(isStart, at) => HeardStops(s, if isStart then SilenceStart(at) else SilenceEnd(at), g, asked);
      case ProgressLine(at) => HeardStops(s, Progress(at), g, asked);
      case FramesLostTold => LogStops(s, Noted, g, asked);
      case Tuned => LogStops(s, Noted, g, asked);
      case SwitchScene(at) => LogStops(s, SceneChanged(at), g, asked);
      case CameraLost => LogStops(s, Noted, g, asked);
      case StopFinishes(fileTime) =>
        HeardStops(s, Stop(fileTime), g, asked);
        var spoken := Heard(s, Stop(fileTime), g);
        if spoken.highlight.Some? { LogStops(spoken, Hidden(spoken.highlight.value), g, asked); }
        LogStops(if spoken.highlight.Some? then Log(spoken, Hidden(spoken.highlight.value), g) else spoken,
                 RecordingStopped, g, asked);
      case HiddenStamped => if c.AwaitingHidden? { LogStops(s.(highlight := None), Hidden(c.leaving), g, asked); }
      case ShownStamped => if c.AwaitingShown? { LogStops(s.(highlight := Some(c.id)), Shown(c.id), g, asked); }
      case HideStamped => if c.AwaitingHide? { LogStops(s.(highlight := None), Hidden(c.id), g, asked); }
      case _ =>
    }
  }

  predicate WasAsked(events: seq<Event>) {
    exists i :: 0 <= i < |events| && AsksToStop(events[i])
  }

  /**
   * Over every run, exactly when a session has been told to stop: the camera
   * was lost, a process exited, the author pressed Stop, or the line of some
   * event sent could not be appended.
   */
  lemma StoppingExactlyWhen(events: seq<Event>, g: Given)
    ensures var s := After(BEGUN, events, g).session;
      s.stopping.Some? <==> WasAsked(events) || SomeFailed(s.sent, g)
  {
    hide Next, SomeFailed, AsksToStop;
    RunStops(events, g);
  }

  lemma {:induction false} RunStops(events: seq<Event>, g: Given)
    ensures StopInv(After(BEGUN, events, g).session, g, WasAsked(events))
  {
    hide Next, AsksToStop;
    if events == [] {
      assert !SomeFailed(BEGUN.session.sent, g);
    } else {
      var n := |events| - 1;
      var before, e := events[..n], events[n];
      RunStops(before, g);
      NextStops(After(BEGUN, before, g), e, g, WasAsked(before));
      assert WasAsked(events) <==> WasAsked(before) || AsksToStop(e) by {
        if WasAsked(before) {
          var i :| 0 <= i < n && AsksToStop(before[i]);
          assert AsksToStop(events[i]);
        }
        if i :| 0 <= i < |events| && AsksToStop(events[i]) {
          assert i < n ==> AsksToStop(before[i]);
        }
      }
    }
  }

  /** Why: the event's own reason, unless the camera's own line was the first that could not be appended. */
  function ReasonOf(e: Event, landed: bool): Reason
    requires AsksToStop(e)
  {
    match e
    case CameraLost => if landed then CameraWentAway else EventLogFailed
    case ProcessExited => FfmpegExited
    case StopPressed => Requested
  }

  predicate EndsInStop(log: seq<Entry>) {
    log != [] && log[|log| - 1].what == RecordingStopped
  }

  lemma TellsToStop(t: State, e: Event, g: Given, asked: bool)
    requires StopInv(t.session, g, asked) && t.session.stopping == None && AsksToStop(e)
    ensures Next(t, e, g).session.stopping == Some(ReasonOf(e, g.lands(t.session.number + 1)))
    ensures Next(t, e, g).session.ended == t.session.ended
  {
    hide Log, SomeFailed, Speech.Next;
    if e.CameraLost? { LogStops(t.session, Noted, g, asked); LogEndsNothing(t.session, Noted, g); }
  }

  lemma LogEndsNothing(s: Session, what: What, g: Given)
    ensures Log(s, what, g).ended == s.ended && (s.ready ==> Log(s, what, g).ready)
  {
  }

  /**
   * Whatever a session was doing, each of the three stops it, for its own
   * reason; and the stop, once it finishes, is the log's last event, every
   * speech and highlight closed before it.
   */
  lemma EachStopsTheSession(events: seq<Event>, e: Event, fileTime: real, g: Given)
    requires After(BEGUN, events, g).session.stopping == None && AsksToStop(e)
    ensures var t := After(BEGUN, events, g);
      var told := Next(t, e, g).session;
      var over := Next(Next(t, e, g), StopFinishes(fileTime), g).session;
      && told.stopping == Some(ReasonOf(e, g.lands(t.session.number + 1)))
      && over.ended && over.stopping == told.stopping
      && EndsInStop(over.sent) && told.sent <= over.sent && Complete(over.sent) && Edges(over.sent) == Some(None)
  {
    hide After, SessionInv, StopInv, Complete, Edges, NextHighlights, Log, Heard, Finished, HighlightsAgree;
    var t := After(BEGUN, events, g);
    EveryRunKeepsInv(events, g);
    RunStops(events, g);
    TellsToStop(t, e, g, WasAsked(events));
    var u := Next(t, e, g);
    NextKeepsInv(t, e, g);
    EndedWasStopping(t.session);
    ToldStops(u.session, fileTime, g);
    NextKeepsTheReason(u.session, StopFinishes(fileTime), g);
  }

  lemma EndedWasStopping(s: Session)
    requires SessionInv(s)
    ensures s.ended ==> s.stopping.Some?
  {
  }

  lemma {:induction false} MarksGrow(s: Session, marks: seq<Mark>, g: Given)
    requires s.ready
    ensures s.sent <= LogMarks(s, marks, g).sent && LogMarks(s, marks, g).ready
    decreases |marks|
  {
    if marks != [] { MarksGrow(Log(s, Said(marks[0]), g), marks[1..], g); }
  }

  lemma ToldStops(s: Session, fileTime: real, g: Given)
    requires SessionInv(s) && !s.ended && s.stopping.Some?
    ensures var over := Finished(s, fileTime, g);
      && over.ended && EndsInStop(over.sent) && s.sent <= over.sent
      && Complete(over.sent) && Edges(over.sent) == Some(None)
  {
    hide Edges, Standing, LogMarks, Speech.Next, MarksOf;
    FinishedKeeps(s, fileTime, g);
    var heard := s.(detector := Speech.Next(s.detector, Call.Stop(fileTime), g.minSilence));
    MarksGrow(heard, MarksOf(s.detector, Call.Stop(fileTime), g.minSilence), g);
  }

  // ---- What each event sends ------------------------------------------------------------

  function Whats(log: seq<Entry>): seq<What> {
    if log == [] then [] else Whats(log[..|log| - 1]) + [log[|log| - 1].what]
  }

  function Saying(marks: seq<Mark>): seq<What> {
    if marks == [] then [] else [Said(marks[0])] + Saying(marks[1..])
  }

  /** Whatever an event has to say, by what had happened; an ended session says nothing but what its detector still hears. */
  function Says(t: State, e: Event, g: Given): seq<What> {
    var s, c := t.session, t.highlights.command;
    match e
    case SilenceLine(isStart, at) =>
      Saying(MarksOf(s.detector, if isStart then SilenceStart(at) else SilenceEnd(at), g.minSilence))
    case ProgressLine(at) => if s.ended then [] else Saying(MarksOf(s.detector, Progress(at), g.minSilence))
    case FramesLostTold => if s.ended then [] else [Noted]
    case Tuned => if s.ended then [] else [Noted]
    case SwitchScene(at) => if s.ended then [] else [SceneChanged(at)]
    case CameraLost => if s.stopping.Some? then [] else [Noted]
    case StopFinishes(fileTime) =>
      if s.stopping.None? || s.ended then []
      else
        Saying(MarksOf(s.detector, Stop(fileTime), g.minSilence))
        + (if s.highlight.Some? then [Hidden(s.highlight.value)] else []) + [RecordingStopped]
    case HiddenStamped => if c.AwaitingHidden? && !s.ended then [Hidden(c.leaving)] else []
    case ShownStamped => if c.AwaitingShown? && !s.ended then [Shown(c.id)] else []
    case HideStamped => if c.AwaitingHide? && !s.ended then [Hidden(c.id)] else []
    case _ => []
  }

  lemma WhatsOneMore(log: seq<Entry>, e: Entry)
    ensures Whats(log + [e]) == Whats(log) + [e.what]
  {
    assert (log + [e])[..|log + [e]| - 1] == log;
  }

  lemma LogSends(s: Session, what: What, g: Given)
    requires s.ready
    ensures var after := Log(s, what, g);
      Whats(after.sent) == Whats(s.sent) + [what] && after.ready && after.highlight == s.highlight
  {
    hide Whats;
    WhatsOneMore(s.sent, Entry(s.number + 1, what));
  }

  lemma {:induction false} MarksSend(s: Session, marks: seq<Mark>, g: Given)
    requires s.ready
    ensures var after := LogMarks(s, marks, g);
      Whats(after.sent) == Whats(s.sent) + Saying(marks) && after.ready && after.highlight == s.highlight
    decreases |marks|
  {
    hide Whats, Log;
    if marks != [] {
      LogSends(s, Said(marks[0]), g);
      MarksSend(Log(s, Said(marks[0]), g), marks[1..], g);
      assert Whats(s.sent) + [Said(marks[0])] + Saying(marks[1..]) == Whats(s.sent) + Saying(marks);
    } else {
      assert Whats(s.sent) + [] == Whats(s.sent);
    }
  }

  lemma HeardSends(s: Session, call: Call, g: Given)
    requires s.ready
    ensures var after := Heard(s, call, g);
      && Whats(after.sent) == Whats(s.sent) + Saying(MarksOf(s.detector, call, g.minSilence))
      && after.ready && after.highlight == s.highlight
  {
    hide Whats, LogMarks, MarksOf, Speech.Next, Saying;
    MarksSend(s.(detector := Speech.Next(s.detector, call, g.minSilence)), MarksOf(s.detector, call, g.minSilence), g);
  }

  lemma FinishSends(s: Session, fileTime: real, g: Given)
    requires s.ready
    ensures Whats(Finished(s, fileTime, g).sent) == Whats(s.sent)
      + (Saying(MarksOf(s.detector, Stop(fileTime), g.minSilence))
         + (if s.highlight.Some? then [Hidden(s.highlight.value)] else []) + [RecordingStopped])
  {
    hide Whats, Heard, MarksOf, Saying, Log;
    var marks := Saying(MarksOf(s.detector, Stop(fileTime), g.minSilence));
    HeardSends(s, Stop(fileTime), g);
    var spoken := Heard(s, Stop(fileTime), g);
    if spoken.highlight.Some? {
      var id := spoken.highlight.value;
      LogSends(spoken, Hidden(id), g);
      LogSends(Log(spoken, Hidden(id), g), RecordingStopped, g);
      assert Whats(s.sent) + marks + [Hidden(id)] + [RecordingStopped] == Whats(s.sent) + (marks + [Hidden(id)] + [RecordingStopped]);
    } else {
      LogSends(spoken, RecordingStopped, g);
      assert Whats(s.sent) + marks + [RecordingStopped] == Whats(s.sent) + (marks + [] + [RecordingStopped]);
    }
  }

  lemma SessionEventSends(t: State, e: Event, g: Given)
    requires t.session.ready && !IsHighlightEvent(e)
    ensures Whats(Next(t, e, g).session.sent) == Whats(t.session.sent) + Says(t, e, g)
  {
    hide Whats, Heard, Log, MarksOf, Speech.Next, Finished, Saying;
    var s := t.session;
    assert Whats(s.sent) + [] == Whats(s.sent);
    match e {
      case SilenceLine(isStart, at) => HeardSends(s, if isStart then SilenceStart(at) else SilenceEnd(at), g);
      case ProgressLine(at) => HeardSends(s, Progress(at), g);
      case FramesLostTold => LogSends(s, Noted, g);
      case Tuned => LogSends(s, Noted, g);
      case SwitchScene(at) => LogSends(s, SceneChanged(at), g);
      case CameraLost => LogSends(s, Noted, g);
      case StopFinishes(fileTime) => FinishSends(s, fileTime, g);
      case _ =>
    }
  }

  lemma EdgeSends(s: Session, what: What, g: Given)
    requires s.ready && !s.ended && (what.Shown? || what.Hidden?)
    ensures var after := Edge(s, what, g);
      && Whats(after.sent) == Whats(s.sent) + [what] && after.ready && !after.ended
      && after.highlight == if what.Shown? then Some(what.id) else None
  {
    hide Whats, Log;
    var open := s.(highlight := if what.Shown? then Some(what.id) else None);
    LogSends(open, what, g);
    LogEndsNothing(open, what, g);
  }

  lemma HighlightEventSends(t: State, e: Event, g: Given)
    requires t.session.ready && IsHighlightEvent(e)
    ensures Whats(Next(t, e, g).session.sent) == Whats(t.session.sent) + Says(t, e, g)
  {
    hide Whats, Edge, AtItsTurn;
    var s, c := t.session, t.highlights.command;
    assert Whats(s.sent) + [] == Whats(s.sent);
    EndedEdge(s, g);
    if !s.ended {
      match e {
        case HiddenStamped => if c.AwaitingHidden? { EdgeSends(s, Hidden(c.leaving), g); }
        case ShownStamped => if c.AwaitingShown? { EdgeSends(s, Shown(c.id), g); }
        case HideStamped => if c.AwaitingHide? { EdgeSends(s, Hidden(c.id), g); }
        case _ =>
      }
    }
  }

  lemma EndedEdge(s: Session, g: Given)
    ensures s.ended ==> forall what: What :: Edge(s, what, g) == s
  {
  }

  /** Over every run, one more event sends exactly what it has to say: nothing heard, told or stamped is dropped or said twice. */
  lemma EachEventSends(events: seq<Event>, e: Event, g: Given)
    ensures var t := After(BEGUN, events, g);
      Whats(Next(t, e, g).session.sent) == Whats(t.session.sent) + Says(t, e, g)
  {
    hide After, Whats, Says, Next, Inv;
    EveryRunKeepsInv(events, g);
    ReadyWhenInv(After(BEGUN, events, g));
    if IsHighlightEvent(e) {
      HighlightEventSends(After(BEGUN, events, g), e, g);
    } else {
      SessionEventSends(After(BEGUN, events, g), e, g);
    }
  }

  lemma ReadyWhenInv(t: State)
    requires Inv(t)
    ensures t.session.ready
  {
  }

  // ---- What a command comes to ----------------------------------------------------------

  /** Nothing asked for is under way, and the session has not ended. */
  predicate AtRest(t: State) {
    t.highlights.command == Idle && t.highlights.queue == [] && !t.session.ended
  }

  /** A show asked for, its turn come, and its card drawn or not. */
  function Drawn(t: State, id: string, drawn: bool, g: Given): State {
    Next(Next(Next(t, Ask(AskShow(id)), g), TurnComes, g), Rendered(drawn), g)
  }

  lemma Taken(t: State, id: string, g: Given)
    requires AtRest(t)
    ensures Next(Next(t, Ask(AskShow(id)), g), TurnComes, g)
         == t.(highlights := t.highlights.(command := Rendering(id)))
  {
    hide Edge;
    assert t.highlights.queue + [AskShow(id)] == [AskShow(id)] && [AskShow(id)][1..] == [];
  }

  lemma RenderedAwaits(t: State, id: string, drawn: bool, g: Given)
    requires t.highlights.command == Rendering(id) && (t.highlights.showing.Some? ==> t.highlights.cardUp)
    ensures var h := t.highlights;
      Next(t, Rendered(drawn), g) == t.(highlights :=
        if !drawn then h.(command := Idle)
        else if h.showing.Some? then h.(command := AwaitingHidden(h.showing.value, id))
        else h.(command := AwaitingShown(id)))
  {
    hide Edge;
  }

  lemma DrawnAwaits(t: State, id: string, g: Given)
    requires AtRest(t) && HighlightsAgree(t)
    ensures Drawn(t, id, false, g) == t
    ensures var h := t.highlights;
      Drawn(t, id, true, g) == t.(highlights :=
        if h.showing.Some? then h.(command := AwaitingHidden(h.showing.value, id)) else h.(command := AwaitingShown(id)))
  {
    hide Next;
    Taken(t, id, g);
    var taken := t.(highlights := t.highlights.(command := Rendering(id)));
    RenderedAwaits(taken, id, false, g);
    RenderedAwaits(taken, id, true, g);
  }

  lemma HiddenAwaits(t: State, was: string, id: string, g: Given)
    requires t.highlights.command == AwaitingHidden(was, id) && t.session.ready && !t.session.ended
    ensures var u := Next(t, HiddenStamped, g);
      && u.highlights == Highlights(t.highlights.queue, AwaitingShown(id), None, false)
      && Whats(u.session.sent) == Whats(t.session.sent) + [Hidden(was)] && u.session.ready && !u.session.ended
  {
    hide Whats, Edge;
    EdgeSends(t.session, Hidden(was), g);
  }

  lemma ShownRests(t: State, id: string, g: Given)
    requires t.highlights.command == AwaitingShown(id) && t.session.ready && !t.session.ended
    ensures var u := Next(t, ShownStamped, g);
      && u.highlights == Highlights(t.highlights.queue, Idle, Some(id), true)
      && Whats(u.session.sent) == Whats(t.session.sent) + [Shown(id)]
      && !u.session.ended && u.session.highlight == Some(id)
  {
    hide Whats, Edge;
    EdgeSends(t.session, Shown(id), g);
  }

  /**
   * A highlight asked for at rest, every await met, is the one showing: the
   * one that was is hidden first, its edge logged before the new one's; and a
   * card that could not be drawn changes nothing.
   */
  lemma AShowShows(events: seq<Event>, id: string, g: Given)
    requires AtRest(After(BEGUN, events, g))
    ensures var t := After(BEGUN, events, g);
      var drawn, showing := Drawn(t, id, true, g), t.highlights.showing;
      var u := Next(if showing.Some? then Next(drawn, HiddenStamped, g) else drawn, ShownStamped, g);
      && AtRest(u) && u.highlights.showing == Some(id) && u.highlights.cardUp && u.session.highlight == Some(id)
      && Whats(u.session.sent)
         == Whats(t.session.sent) + (if showing.Some? then [Hidden(showing.value)] else []) + [Shown(id)]
    ensures Drawn(After(BEGUN, events, g), id, false, g) == After(BEGUN, events, g)
  {
    hide After, Whats, Next, Drawn, SessionInv;
    EveryRunKeepsInv(events, g);
    var t := After(BEGUN, events, g);
    ReadyWhenInv(t);
    DrawnAwaits(t, id, g);
    var drawn := Drawn(t, id, true, g);
    if t.highlights.showing.Some? {
      HiddenAwaits(drawn, t.highlights.showing.value, id, g);
      ShownRests(Next(drawn, HiddenStamped, g), id, g);
    } else {
      ShownRests(drawn, id, g);
      assert Whats(t.session.sent) + [] == Whats(t.session.sent);
    }
  }

  /** A hide of the highlight showing hides it, its edge logged; of any other, it is refused and nothing changes. */
  lemma AHideHides(events: seq<Event>, id: string, g: Given)
    requires AtRest(After(BEGUN, events, g))
    ensures var t := After(BEGUN, events, g);
      var u := Next(Next(Next(t, Ask(AskHide(id)), g), TurnComes, g), HideStamped, g);
      if t.highlights.showing == Some(id) then
        && AtRest(u) && u.highlights.showing == None && u.session.highlight == None
        && Whats(u.session.sent) == Whats(t.session.sent) + [Hidden(id)]
      else u == t
  {
    EveryRunKeepsInv(events, g);
    var t := After(BEGUN, events, g);
    ReadyWhenInv(t);
    hide After, Whats, Next, SessionInv, HighlightsAgree, NextHighlights;
    HideAwaits(t, id, g);
    var taken := Next(Next(t, Ask(AskHide(id)), g), TurnComes, g);
    if t.highlights.showing == Some(id) { HideRests(taken, id, g); } else { NothingAwaits(taken, g); }
  }

  lemma HideAwaits(t: State, id: string, g: Given)
    requires AtRest(t)
    ensures var h, u := t.highlights, Next(Next(t, Ask(AskHide(id)), g), TurnComes, g);
      u == if h.showing == Some(id) then t.(highlights := Highlights([], AwaitingHide(id), None, h.cardUp)) else t
  {
    hide Edge;
    assert t.highlights.queue + [AskHide(id)] == [AskHide(id)] && [AskHide(id)][1..] == [];
  }

  lemma HideRests(t: State, id: string, g: Given)
    requires t.highlights.command == AwaitingHide(id) && t.session.ready && !t.session.ended
    ensures var u := Next(t, HideStamped, g);
      && u.highlights == Highlights(t.highlights.queue, Idle, None, false)
      && Whats(u.session.sent) == Whats(t.session.sent) + [Hidden(id)]
      && !u.session.ended && u.session.highlight == None
  {
    hide Whats, Edge;
    EdgeSends(t.session, Hidden(id), g);
  }

  lemma NothingAwaits(t: State, g: Given)
    requires t.highlights.command == Idle
    ensures Next(t, HideStamped, g) == t
  {
  }

  /** A command waits while one is in hand, and is taken in the order asked. */
  lemma CommandsTakeTurns(t: State, asked: Asked, g: Given)
    ensures Next(t, Ask(asked), g) == t.(highlights := t.highlights.(queue := t.highlights.queue + [asked]))
    ensures t.highlights.queue == [] || !(t.highlights.command == Idle || t.highlights.command == Closed) ==>
      Next(t, TurnComes, g) == t
    ensures t.highlights.queue != [] && (t.highlights.command == Idle || t.highlights.command == Closed) ==>
      Next(t, TurnComes, g).highlights.queue == t.highlights.queue[1..]
  {
    hide Edge;
  }

  /** Once the stream has closed, commands are refused: whatever is asked or stamped, nothing changes but the queue. */
  lemma ClosedRefuses(t: State, e: Event, g: Given)
    requires IsHighlightEvent(e)
    ensures Next(t, StreamCloses, g) == t.(highlights := t.highlights.(command := Closed))
    ensures t.highlights.command == Closed ==>
      Next(t, e, g) == t.(highlights := t.highlights.(queue := Next(t, e, g).highlights.queue))
  {
    hide Edge;
  }

  // ---- A beginning that throws ---------------------------------------------------------

  /** Nothing stops it or can; its listeners' events are sent with one number missing, the throw's. */
  predicate Unstoppable(t: State, missing: int) {
    var s := t.session;
    && !s.ready && s.logFailed && s.stopping == None && !s.ended && t.highlights.command == Closed
    && s.number == |s.sent| + 1
    && (forall i :: 0 <= i < |s.sent| ==>
          s.sent[i].number == (if i + 1 < missing then i + 1 else i + 2) && !IsEnd(s.sent[i].what))
  }

  predicate NeverToldToStop(s: Session) {
    s.stopping == None && forall e :: e in s.sent ==> !IsEnd(e.what)
  }

  lemma LogGoesOn(t: State, what: What, g: Given, missing: int)
    requires Unstoppable(t, missing) && missing <= |t.session.sent| + 1 && !IsEnd(what)
    ensures var after := Log(t.session, what, g);
      Unstoppable(t.(session := after), missing) && |after.sent| == |t.session.sent| + 1
  {
  }

  lemma {:induction false} MarksGoOn(t: State, marks: seq<Mark>, g: Given, missing: int)
    requires Unstoppable(t, missing) && missing <= |t.session.sent| + 1
    ensures var after := LogMarks(t.session, marks, g);
      Unstoppable(t.(session := after), missing) && |after.sent| == |t.session.sent| + |marks|
    decreases |marks|
  {
    hide Unstoppable, Log;
    if marks != [] {
      LogGoesOn(t, Said(marks[0]), g, missing);
      MarksGoOn(t.(session := Log(t.session, Said(marks[0]), g)), marks[1..], g, missing);
    }
  }

  lemma NextGoesOn(t: State, e: Event, g: Given, missing: int)
    requires Unstoppable(t, missing) && missing <= |t.session.sent| + 1
    ensures Unstoppable(Next(t, e, g), missing)
    ensures |Next(t, e, g).session.sent| >= |t.session.sent|
  {
    hide LogMarks, MarksOf, Speech.Next, Log;
    match e {
      case SilenceLine(isStart, at) =>
        HeardGoesOn(t, if isStart then SilenceStart(at) else SilenceEnd(at), g, missing);
      case ProgressLine(at) => HeardGoesOn(t, Progress(at), g, missing);
      case FramesLostTold => LogGoesOn(t, Noted, g, missing);
      case CameraLost => LogGoesOn(t, Noted, g, missing);
      case _ =>
    }
  }

  lemma HeardGoesOn(t: State, call: Call, g: Given, missing: int)
    requires Unstoppable(t, missing) && missing <= |t.session.sent| + 1
    ensures var after := Heard(t.session, call, g);
      && Unstoppable(t.(session := after), missing)
      && |after.sent| == |t.session.sent| + |MarksOf(t.session.detector, call, g.minSilence)|
  {
    hide LogMarks, MarksOf, Speech.Next;
    var heard := t.session.(detector := Speech.Next(t.session.detector, call, g.minSilence));
    MarksGoOn(t.(session := heard), MarksOf(t.session.detector, call, g.minSilence), g, missing);
  }

  lemma ThrownIsUnstoppable(g: Given)
    requires !Begins(g)
    ensures Unstoppable(Begin(g), if g.lands(1) then 2 else 1)
    ensures |Begin(g).session.sent| == if g.lands(1) then 1 else 0
  {
  }

  /**
   * Over every run after a beginning that threw: nothing stops the session
   * and no stop is sent, though its listeners go on sending, every event after
   * the throw numbered one past its place.
   */
  lemma {:induction false} ThrownGoesOn(events: seq<Event>, g: Given)
    requires !Begins(g)
    ensures var t := After(Begin(g), events, g);
      Unstoppable(t, if g.lands(1) then 2 else 1) && |t.session.sent| >= (if g.lands(1) then 1 else 0)
  {
    hide Next, Unstoppable, Begin;
    if events == [] {
      ThrownIsUnstoppable(g);
    } else {
      var before := events[..|events| - 1];
      ThrownGoesOn(before, g);
      NextGoesOn(After(Begin(g), before, g), events[|events| - 1], g, if g.lands(1) then 2 else 1);
    }
  }

  /** A session can never be told to stop, whatever happens to it, exactly when one of its first two appends failed. */
  lemma NeverStopsExactlyWhen(g: Given)
    ensures (forall events :: NeverToldToStop(After(Begin(g), events, g).session))
      <==> !Begins(g)
  {
    hide Next, Begin, After;
    if Begins(g) {
      BeginsWell(g);
      PressStops(g);
    } else {
      forall events ensures NeverToldToStop(After(Begin(g), events, g).session) {
        ThrownGoesOn(events, g);
        UnstoppableIsNeverTold(After(Begin(g), events, g), if g.lands(1) then 2 else 1);
      }
    }
  }

  lemma UnstoppableIsNeverTold(t: State, missing: int)
    requires Unstoppable(t, missing)
    ensures NeverToldToStop(t.session)
  {
    forall e | e in t.session.sent ensures !IsEnd(e.what) {
      var i :| 0 <= i < |t.session.sent| && t.session.sent[i] == e;
    }
  }

  lemma PressStops(g: Given)
    ensures !NeverToldToStop(After(BEGUN, [StopPressed], g).session)
  {
    assert [StopPressed][..0] == [];
    assert After(BEGUN, [StopPressed], g) == Next(After(BEGUN, [], g), StopPressed, g);
  }

  /** Its listeners do send: a first silence after the throw is told, with no recording started. */
  lemma SpeechIsSentAfterTheThrow(at: real, g: Given)
    requires !g.lands(1)
    ensures After(Begin(g), [SilenceLine(true, at)], g).session.sent
         == [Entry(2, Said(WarmedUp(Max(0.0, at))))]
  {
    var e := SilenceLine(true, at);
    var t := Begin(g);
    assert [e][..0] == [];
    assert After(t, [e], g) == Next(After(t, [], g), e, g);
    var marks := MarksOf(t.session.detector, SilenceStart(at), g.minSilence);
    assert marks == [WarmedUp(Max(0.0, at))] && marks[1..] == [];
    var heard := t.session.(detector := Speech.Next(t.session.detector, SilenceStart(at), g.minSilence));
    assert LogMarks(heard, marks, g) == LogMarks(Log(heard, Said(marks[0]), g), [], g);
  }

  // ---- A crash while it records ---------------------------------------------------------

  /** What a session has sent, every append having landed, is what its file holds. */
  lemma FileIsWhatWasSent(events: seq<Event>, g: Given)
    requires !After(BEGUN, events, g).session.logFailed
    ensures var s := After(BEGUN, events, g).session; s.filed == s.sent && OfASession(s.sent)
  {
    hide After, Standing, Edges, Framed;
    EveryRunKeepsInv(events, g);
    EverySessionIsInOrder(events, g);
    var s := After(BEGUN, events, g).session;
    assert SessionInv(s);
  }

  /**
   * A session under way, whatever has happened in it, is cut off: its file
   * ends after any number of characters that leave its first event readable.
   * Recovered, it reads as a good log with an end that begins with what was
   * there, complete exactly when the mic's length is known or no speech was
   * going.
   */
  lemma CrashedSessionRecovers(
      events: seq<Event>, g: Given, json: JsonLines.Json<Entry>, n: nat, micDuration: Option<real>)
    requires var s := After(BEGUN, events, g).session;
      && !s.logFailed && (forall e :: e in s.filed ==> JsonLines.WorksOn(json, e))
      && n <= |JsonLines.Written(json, s.filed)|
    requires var cut := JsonLines.Written(json, After(BEGUN, events, g).session.filed)[..n];
      var read := JsonLines.Records(json, cut);
      read != [] && forall e :: e in Added(read, micDuration) ==> JsonLines.WorksOn(json, e)
    ensures var sent := After(BEGUN, events, g).session.sent;
      var cut := JsonLines.Written(json, After(BEGUN, events, g).session.filed)[..n];
      var read, after := JsonLines.Records(json, cut), JsonLines.Records(json, Recovered(json, cut, micDuration));
      && read <= sent && read <= after && Good(after) && IsEnd(after[|after| - 1].what)
      && (Complete(after) <==> micDuration.Some? || IsQuiet(read))
  {
    hide After, Good, Complete, Recovered, Added, IsQuiet, OfASession;
    FileIsWhatWasSent(events, g);
    CutAnywhereRecovers(json, After(BEGUN, events, g).session.filed, n, micDuration);
  }

  // ---- A crash after an append has failed -----------------------------------------------

  /** Those of the events sent whose line could be appended. */
  function Landed(sent: seq<Entry>, g: Given): seq<Entry> {
    if sent == [] then []
    else
      var last := sent[|sent| - 1];
      Landed(sent[..|sent| - 1], g) + (if g.lands(last.number) then [last] else [])
  }

  /** The file holds exactly those; numbers rise, and 1 is the start's. */
  ghost predicate FiledInv(s: Session, g: Given) {
    && s.filed == Landed(s.sent, g) && Rising(s.sent) && s.number >= 1
    && (forall i :: 0 <= i < |s.sent| ==>
          1 <= s.sent[i].number <= s.number && (s.sent[i].what == RecordingStarted <==> s.sent[i].number == 1))
    && (g.lands(1) ==> s.sent != [] && s.sent[0].number == 1)
  }

  lemma LandedOneMore(sent: seq<Entry>, e: Entry, g: Given)
    ensures Landed(sent + [e], g) == Landed(sent, g) + (if g.lands(e.number) then [e] else [])
  {
    assert (sent + [e])[..|sent + [e]| - 1] == sent;
  }

  lemma LogFiles(s: Session, what: What, g: Given)
    requires FiledInv(s, g) && what != RecordingStarted
    ensures FiledInv(Log(s, what, g), g)
  {
    hide Landed;
    var e := Entry(s.number + 1, what);
    LandedOneMore(s.sent, e, g);
    assert Landed(s.sent, g) + [] == Landed(s.sent, g);
    RisesOn(s.sent, e);
  }

  lemma RisesOn(log: seq<Entry>, e: Entry)
    requires Rising(log) && forall i :: 0 <= i < |log| ==> log[i].number < e.number
    ensures Rising(log + [e])
  {
  }

  lemma {:induction false} MarksFile(s: Session, marks: seq<Mark>, g: Given)
    requires FiledInv(s, g)
    ensures FiledInv(LogMarks(s, marks, g), g)
    decreases |marks|
  {
    hide FiledInv, Log;
    if marks != [] {
      LogFiles(s, Said(marks[0]), g);
      MarksFile(Log(s, Said(marks[0]), g), marks[1..], g);
    }
  }

  lemma HeardFiles(s: Session, call: Call, g: Given)
    requires FiledInv(s, g)
    ensures FiledInv(Heard(s, call, g), g)
  {
    hide LogMarks, Landed, MarksOf, Speech.Next;
    var heard := s.(detector := Speech.Next(s.detector, call, g.minSilence));
    MarksFile(heard, MarksOf(s.detector, call, g.minSilence), g);
  }

  lemma NextFiles(t: State, e: Event, g: Given)
    requires FiledInv(t.session, g)
    ensures FiledInv(Next(t, e, g).session, g)
  {
    if IsHighlightEvent(e) {
      HighlightEventFiles(t, e, g);
    } else {
      SessionEventFiles(t.session, e, g);
    }
  }

  lemma HighlightEventFiles(t: State, e: Event, g: Given)
    requires FiledInv(t.session, g) && IsHighlightEvent(e)
    ensures FiledInv(NextHighlights(t, e, g).session, g)
  {
    hide Landed, Log, Rising;
    var s, c := t.session, t.highlights.command;
    match e {
      case HiddenStamped => if c.AwaitingHidden? { LogFiles(s.(highlight := None), Hidden(c.leaving), g); }
      case ShownStamped => if c.AwaitingShown? { LogFiles(s.(highlight := Some(c.id)), Shown(c.id), g); }
      case HideStamped => if c.AwaitingHide? { LogFiles(s.(highlight := None), Hidden(c.id), g); }
      case _ =>
    }
  }

  lemma SessionEventFiles(s: Session, e: Event, g: Given)
    requires FiledInv(s, g)
    ensures FiledInv(NextSession(s, e, g), g)
  {
    hide Landed, Log, Rising, Heard, Speech.Next;
    match e {
      case SilenceLine(isStart, at) => HeardFiles(s, if isStart then SilenceStart(at) else SilenceEnd(at), g);
      case ProgressLine(at) => HeardFiles(s, Progress(at), g);
      case FramesLostTold => LogFiles(s, Noted, g);
      case Tuned => LogFiles(s, Noted, g);
      case SwitchScene(at) => LogFiles(s, SceneChanged(at), g);
      case CameraLost => LogFiles(s, Noted, g);
      case StopFinishes(fileTime) =>
        HeardFiles(s, Stop(fileTime), g);
        var spoken := Heard(s, Stop(fileTime), g);
        if spoken.highlight.Some? { LogFiles(spoken, Hidden(spoken.highlight.value), g); }
        LogFiles(if spoken.highlight.Some? then Log(spoken, Hidden(spoken.highlight.value), g) else spoken, RecordingStopped, g);
      case _ =>
    }
  }

  lemma BeginFiles(g: Given)
    ensures FiledInv(Begin(g).session, g)
  {
    hide FiledInv, Log;
    var started := Log(UNBEGUN, RecordingStarted, g);
    StartFiles(g);
    if !started.logFailed { LogFiles(started, SceneChanged(0.0), g); }
    var scened := if started.logFailed then started else Log(started, SceneChanged(0.0), g);
    ReadyFiles(scened, g);
  }

  lemma StartFiles(g: Given)
    ensures FiledInv(Log(UNBEGUN, RecordingStarted, g), g)
  {
    assert [] + [Entry(1, RecordingStarted)] == [Entry(1, RecordingStarted)];
    LandedOneMore([], Entry(1, RecordingStarted), g);
  }

  lemma ReadyFiles(s: Session, g: Given)
    requires FiledInv(s, g)
    ensures FiledInv(s.(ready := true), g)
  {
    hide Landed, Rising;
  }

  /** Whatever appends fail, over every run: the file holds exactly the events sent whose append did not. */
  lemma {:induction false} FileIsWhatLanded(events: seq<Event>, g: Given)
    ensures var s := After(Begin(g), events, g).session; FiledInv(s, g) && s.filed == Landed(s.sent, g)
  {
    hide Next, Begin, Landed, Rising;
    if events == [] {
      BeginFiles(g);
    } else {
      FileIsWhatLanded(events[..|events| - 1], g);
      NextFiles(After(Begin(g), events[..|events| - 1], g), events[|events| - 1], g);
    }
  }

  lemma {:induction false} LandedIn(sent: seq<Entry>, g: Given, e: Entry)
    ensures e in Landed(sent, g) <==> e in sent && g.lands(e.number)
  {
    if sent != [] {
      assert sent == sent[..|sent| - 1] + [sent[|sent| - 1]];
      LandedIn(sent[..|sent| - 1], g, e);
    }
  }

  /** Every one that landed stands in the list in its place. */
  lemma {:induction false} LandedIsOpened(sent: seq<Entry>, g: Given)
    requires Rising(sent) && (sent != [] ==> g.lands(sent[0].number))
    requires forall i :: 0 <= i < |sent| - 1 ==> !IsEnd(sent[i].what)
    ensures var landed := Landed(sent, g);
      && Rising(landed) && (sent != [] ==> landed != [] && landed[0] == sent[0])
      && forall i :: 0 <= i < |landed| - 1 ==> !IsEnd(landed[i].what)
  {
    if |sent| == 1 {
      assert sent[..0] == [];
    } else if sent != [] {
      var n := |sent| - 1;
      LandedIsOpened(sent[..n], g);
      var before := Landed(sent[..n], g);
      forall i | 0 <= i < |before| ensures before[i].number < sent[n].number && !IsEnd(before[i].what) {
        LandedIn(sent[..n], g, before[i]);
      }
    }
  }

  /** A session's events, whatever failed: only the last can be an end. */
  lemma EndIsSentLast(events: seq<Event>, g: Given)
    ensures var sent := After(Begin(g), events, g).session.sent;
      forall i :: 0 <= i < |sent| - 1 ==> !IsEnd(sent[i].what)
  {
    hide After, Begin, Standing, Edges;
    if Begins(g) {
      BeginsWell(g);
      EveryRunKeepsInv(events, g);
    } else {
      ThrownGoesOn(events, g);
    }
  }

  /**
   * A session under way, whatever has happened in it and whichever of its
   * appends failed, is cut off: its file ends after any number of characters
   * that leave an event readable. Recovered, it begins with what was there;
   * its numbers rise; one end closes it, as its last event; up to the last
   * number that was there, exactly the events sent are in it whose append did
   * not fail; and recovering it again changes nothing.
   */
  lemma AnyCrashedSessionRecovers(
      events: seq<Event>, g: Given, json: JsonLines.Json<Entry>, n: nat, micDuration: Option<real>)
    requires g.lands(1)
    requires var s := After(Begin(g), events, g).session;
      (forall e :: e in s.filed ==> JsonLines.WorksOn(json, e)) && n <= |JsonLines.Written(json, s.filed)|
    requires var cut := JsonLines.Written(json, After(Begin(g), events, g).session.filed)[..n];
      var read := JsonLines.Records(json, cut);
      read != [] && forall e :: e in Added(read, micDuration) ==> JsonLines.WorksOn(json, e)
    ensures var sent := After(Begin(g), events, g).session.sent;
      var cut := JsonLines.Written(json, After(Begin(g), events, g).session.filed)[..n];
      var recovered := Recovered(json, cut, micDuration);
      var read, after := JsonLines.Records(json, cut), JsonLines.Records(json, recovered);
      && read <= after && Opened(after) && IsEnd(after[|after| - 1].what)
      && (forall e: Entry :: e.number <= read[|read| - 1].number ==>
            (e in after <==> e in sent && g.lands(e.number)))
      && (if IsEnd(read[|read| - 1].what) then after == read
          else OpenSpeech(after).None? <==> micDuration.Some? || OpenSpeech(read).None?)
      && Recovered(json, recovered, micDuration) == recovered
  {
    hide After, Begin, Landed, Recovered, Added, OpenSpeech;
    var s := After(Begin(g), events, g).session;
    FileIsWhatLanded(events, g);
    EndIsSentLast(events, g);
    LandedIsOpened(s.sent, g);
    CutAnywhereRecoversHoles(json, s.filed, n, micDuration);
    var cut := JsonLines.Written(json, s.filed)[..n];
    var read, after := JsonLines.Records(json, cut), JsonLines.Records(json, Recovered(json, cut, micDuration));
    forall e: Entry | e.number <= read[|read| - 1].number ensures e in after <==> e in s.sent && g.lands(e.number) {
      LandedIn(s.sent, g, e);
      UpToTheLastRead(s.filed, read, after, e);
    }
  }

  lemma UpToTheLastRead(filed: seq<Entry>, read: seq<Entry>, after: seq<Entry>, e: Entry)
    requires read != [] && read <= filed && read <= after && Rising(filed) && Rising(after)
    requires e.number <= read[|read| - 1].number
    ensures e in after <==> e in filed
  {
    if e in filed {
      var i :| 0 <= i < |filed| && filed[i] == e;
      assert read[|read| - 1] == filed[|read| - 1];
      assert i < |read|;
      assert after[i] == e;
    }
    if e in after {
      var i :| 0 <= i < |after| && after[i] == e;
      assert read[|read| - 1] == after[|read| - 1];
      assert i < |read|;
      assert filed[i] == e;
    }
  }

  /** A session whose start could not be appended has a file recovery does not touch. */
  lemma UnstartedFileIsLeft(
      events: seq<Event>, g: Given, json: JsonLines.Json<Entry>, n: nat, micDuration: Option<real>)
    requires !g.lands(1)
    requires var s := After(Begin(g), events, g).session;
      (forall e :: e in s.filed ==> JsonLines.WorksOn(json, e)) && n <= |JsonLines.Written(json, s.filed)|
    ensures var cut := JsonLines.Written(json, After(Begin(g), events, g).session.filed)[..n];
      Recovered(json, cut, micDuration) == cut
  {
    hide After, Begin, Landed, Added;
    var s := After(Begin(g), events, g).session;
    FileIsWhatLanded(events, g);
    var k := JsonLines.CutReadsAPrefix(json, s.filed, n);
    forall e | e in s.filed[..k] ensures e.what != RecordingStarted {
      LandedIn(s.sent, g, e);
    }
  }

  /** Crash recovery does not close a highlight: the recovered log leaves open what the cut one did. */
  lemma {:induction false} RecoveryLeavesTheHighlight(log: seq<Entry>, number: int, marks: seq<Mark>)
    ensures Edges(log + Numbered(number, marks)) == Edges(log)
    decreases |marks|
  {
    hide Edges;
    if marks == [] {
      EdgesOneMore(log, Entry(number + 1, RecordingCrashed));
    } else {
      var first := Entry(number + 1, Said(marks[0]));
      EdgesOneMore(log, first);
      RecoveryLeavesTheHighlight(log + [first], number + 1, marks[1..]);
      assert log + Numbered(number, marks) == (log + [first]) + Numbered(number + 1, marks[1..]);
    }
  }

  // ---- The code's own form ------------------------------------------------------------

  /** A take under way. */
  class Take {
    const given: Given
    var ready: bool
    var number: int
    var detector: Speech.State
    var highlight: Option<string>
    var logFailed: bool
    var stopping: Option<Reason>
    var ended: bool
    var sent: seq<Entry>
    var filed: seq<Entry>

    function Abs(): Session
      reads this
    {
      Session(ready, number, detector, highlight, logFailed, stopping, ended, sent, filed)
    }

    /** Record: left not ready when it throws. */
    constructor (given: Given)
      ensures Abs() == Begin(given).session && this.given == given
    {
      this.given := given;
      ready, number, detector, highlight, logFailed := false, 0, FRESH, None, false;
      stopping, ended, sent, filed := None, false, [], [];
      new;
      LogOne(RecordingStarted);
      if logFailed { return; }
      LogOne(SceneChanged(0.0));
      if logFailed { return; }
      ready := true;
    }

    method Stop(reason: Reason)
      modifies this
      ensures Abs() == StopWith(old(Abs()), reason)
    {
      if !ready || stopping.Some? { return; }
      stopping := Some(reason);
      detector := detector.(stopping := true);
    }

    method LogOne(what: What)
      modifies this
      ensures Abs() == Log(old(Abs()), what, given)
    {
      number := number + 1;
      var e := Entry(number, what);
      if given.lands(number) {
        filed := filed + [e];
      } else if !logFailed {
        logFailed := true;
        if !ready { return; }
        Stop(EventLogFailed);
      }
      sent := sent + [e];
    }

    method LogEach(marks: seq<Mark>)
      modifies this
      ensures Abs() == LogMarks(old(Abs()), marks, given)
    {
      var i := 0;
      while i < |marks|
        invariant 0 <= i <= |marks|
        invariant LogMarks(old(Abs()), marks, given) == LogMarks(Abs(), marks[i..], given)
      {
        LogOne(Said(marks[i]));
        i := i + 1;
      }
    }

    method Hear(call: Call)
      modifies this
      ensures Abs() == Heard(old(Abs()), call, given)
    {
      var marks := MarksOf(detector, call, given.minSilence);
      detector := Speech.Next(detector, call, given.minSilence);
      LogEach(marks);
    }

    method OnSilenceLine(isStart: bool, at: real)
      modifies this
      ensures Abs() == NextSession(old(Abs()), SilenceLine(isStart, at), given)
    {
      Hear(if isStart then SilenceStart(at) else SilenceEnd(at));
    }

    method OnProgressLine(at: real)
      modifies this
      ensures Abs() == NextSession(old(Abs()), ProgressLine(at), given)
    {
      if ended { return; }
      Hear(Progress(at));
    }

    method OnSwitchScene(at: real)
      requires ready
      modifies this
      ensures Abs() == NextSession(old(Abs()), SwitchScene(at), given)
    {
      if ended { return; }
      LogOne(SceneChanged(at));
    }

    method OnFramesLost()
      modifies this
      ensures Abs() == NextSession(old(Abs()), FramesLostTold, given)
    {
      if !ended { LogOne(Noted); }
    }

    method OnCameraLost()
      modifies this
      ensures Abs() == NextSession(old(Abs()), CameraLost, given)
    {
      if stopping.Some? { return; }
      LogOne(Noted);
      Stop(CameraWentAway);
    }

    method ChatHighlight(edge: What)
      requires edge.Shown? || edge.Hidden?
      modifies this
      ensures Abs() == Edge(old(Abs()), edge, given)
    {
      if ended { return; }
      highlight := if edge.Shown? then Some(edge.id) else None;
      LogOne(edge);
    }

    /** What follows once every process has exited and every file is closed. */
    method FinishStop(fileTime: real)
      requires stopping.Some? && !ended
      modifies this
      ensures Abs() == NextSession(old(Abs()), StopFinishes(fileTime), given)
    {
      Hear(Call.Stop(fileTime));
      if highlight.Some? { LogOne(Hidden(highlight.value)); }
      LogOne(RecordingStopped);
      ended := true;
    }
  }

  /** The Chat Highlight commands of one Live Stream, run one at a time. */
  class ChatHighlights {
    const session: Take
    var queue: seq<Asked>
    var command: Command
    var showing: Option<string>
    var cardUp: bool

    function Both(): State
      reads this, session
    {
      State.State(session.Abs(), Highlights(queue, command, showing, cardUp))
    }

    constructor (session: Take)
      ensures this.session == session
      ensures Both() == State.State(session.Abs(), Highlights([], Idle, None, false))
    {
      this.session := session;
      queue, command, showing, cardUp := [], Idle, None, false;
    }

    /** A command is asked for: it waits for those before it. */
    method OnCommand(asked: Asked)
      modifies this
      ensures Both() == NextHighlights(old(Both()), Ask(asked), session.given)
    {
      queue := queue + [asked];
    }

    /** The next command's turn. `refused`: the stream has closed, or it hides a highlight that is not the one showing. */
    method OnTurn() returns (refused: bool)
      requires queue != [] && (command == Idle || command == Closed)
      modifies this
      ensures Both() == NextHighlights(old(Both()), TurnComes, session.given)
      ensures refused <==> old(command == Closed || (queue[0].AskHide? && showing != Some(queue[0].id)))
    {
      var asked := queue[0];
      queue := queue[1..];
      refused := command == Closed || (asked.AskHide? && showing != Some(asked.id));
      if refused { return; }
      match asked {
        case AskShow(id) => command := Rendering(id);
        case AskHide(id) => showing, command := None, AwaitingHide(id);
      }
    }

    method OnRendered(drawn: bool)
      modifies this
      ensures Both() == NextHighlights(old(Both()), Rendered(drawn), session.given)
    {
      if !command.Rendering? { return; }
      if !drawn { command := Idle; return; }
      if showing.Some? && cardUp {
        command := AwaitingHidden(showing.value, command.id);
      } else {
        command, showing := AwaitingShown(command.id), None;
      }
    }

    method OnHiddenStamped()
      modifies this, session
      ensures Both() == NextHighlights(old(Both()), HiddenStamped, session.given)
    {
      if !command.AwaitingHidden? { return; }
      session.ChatHighlight(Hidden(command.leaving));
      command, showing, cardUp := AwaitingShown(command.id), None, false;
    }

    method OnShownStamped()
      modifies this, session
      ensures Both() == NextHighlights(old(Both()), ShownStamped, session.given)
    {
      if !command.AwaitingShown? { return; }
      session.ChatHighlight(Shown(command.id));
      command, showing, cardUp := Idle, Some(command.id), true;
    }

    method OnHideStamped()
      modifies this, session
      ensures Both() == NextHighlights(old(Both()), HideStamped, session.given)
    {
      if !command.AwaitingHide? { return; }
      session.ChatHighlight(Hidden(command.id));
      command, showing, cardUp := Idle, None, false;
    }
  }
}
