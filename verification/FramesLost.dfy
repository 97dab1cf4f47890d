/**
 * Frames lost in one Recording Session: the losses counted and gathered into
 * spans, and told at once or in a throttled burst. Times are reals, seconds in
 * the file and milliseconds on the clock; the clock never runs backwards and a
 * timer never fires early.
 */
module FramesLost {
  import opened Common

  datatype Picture = Camera | Screen

  /** A loss, or several of one picture merged. */
  datatype Span = Span(picture: Picture, from: real, to: real, frames: nat)

  const MERGE_SECONDS := 1.0
  const PERIOD_MS := 500.0
  const CAMERA_FPS := 30000.0 / 1001.0
  const SCREEN_FPS := 60.0

  /** To the microsecond. */
  function Micros(x: real): real {
    Round(x * 1000000.0) as real / 1000000.0
  }

  function MissingIn(seconds: real, fps: real): nat {
    var n := Round(seconds * fps) - 1;
    if n < 1 then 1 else n
  }

  /** A gap that is `k + 1` frame times long to within half a frame is `k` frames missing, and never none. */
  lemma MissingCountsTheGap(seconds: real, fps: real, k: nat)
    requires -0.5 <= seconds * fps - (k as real + 1.0) < 0.5
    ensures MissingIn(seconds, fps) == if k < 1 then 1 else k
  {
    assert (k as real + 1.0) <= seconds * fps + 0.5 < (k as real + 2.0);
  }

  /** A gap from a time ffmpeg printed, to the microsecond, never ends before it starts. */
  lemma GapRunsForward(n: int, seconds: real)
    requires seconds >= 0.0
    ensures Micros(n as real / 1000000.0 + seconds) >= n as real / 1000000.0
  {
    var x := (n as real / 1000000.0 + seconds) * 1000000.0;
    assert x == n as real + seconds * 1000000.0 >= n as real;
    assert Round(x) >= n;
  }

  // ---- The spans ----------------------------------------------------------------------

  /** The last span of `picture`. */
  function LastOf(spans: seq<Span>, picture: Picture): (last: Option<nat>)
    ensures match last
      case Some(i) => i < |spans| && spans[i].picture == picture && forall j :: i < j < |spans| ==> spans[j].picture != picture
      case None => forall j :: 0 <= j < |spans| ==> spans[j].picture != picture
  {
    if spans == [] then None
    else if spans[|spans| - 1].picture == picture then Some(|spans| - 1)
    else LastOf(spans[..|spans| - 1], picture)
  }

  predicate Near(near: Span, loss: Span) {
    loss.from <= near.to + MERGE_SECONDS && loss.to >= near.from - MERGE_SECONDS
  }

  function Merged(near: Span, loss: Span): Span {
    Span(near.picture, Min(near.from, loss.from), Max(near.to, loss.to), near.frames + loss.frames)
  }

  function AddSpan(spans: seq<Span>, loss: Span): seq<Span> {
    var last := LastOf(spans, loss.picture);
    if last.Some? && Near(spans[last.value], loss) then spans[last.value := Merged(spans[last.value], loss)]
    else spans + [loss]
  }

  /** A loss joins the last span of its picture exactly when no more than a second lies between the two, whichever comes first. */
  lemma MergedExactlyWhen(spans: seq<Span>, loss: Span)
    ensures |AddSpan(spans, loss)| == |spans| <==>
      exists i :: 0 <= i < |spans| && IsLastOf(spans, i, loss.picture)
                  && loss.from - spans[i].to <= 1.0 && spans[i].from - loss.to <= 1.0
  {
    var last := LastOf(spans, loss.picture);
    if last.Some? { assert IsLastOf(spans, last.value, loss.picture); }
  }

  predicate IsLastOf(spans: seq<Span>, i: nat, picture: Picture)
    requires i < |spans|
  {
    spans[i].picture == picture && forall j :: i < j < |spans| ==> spans[j].picture != picture
  }

  function AddAll(losses: seq<Span>): seq<Span> {
    if losses == [] then [] else AddSpan(AddAll(losses[..|losses| - 1]), losses[|losses| - 1])
  }

  function Frames(spans: seq<Span>, picture: Picture): nat {
    if spans == [] then 0
    else
      var last := spans[|spans| - 1];
      Frames(spans[..|spans| - 1], picture) + (if last.picture == picture then last.frames else 0)
  }

  lemma {:induction false} FramesOfOneChanged(spans: seq<Span>, i: nat, s: Span, picture: Picture)
    requires i < |spans| && s.picture == spans[i].picture && s.frames >= spans[i].frames
    ensures Frames(spans[i := s], picture)
         == Frames(spans, picture) + (if s.picture == picture then s.frames - spans[i].frames else 0)
  {
    var n := |spans| - 1;
    if i == n {
      assert spans[i := s][..n] == spans[..n];
    } else {
      assert spans[i := s][..n] == spans[..n][i := s];
      FramesOfOneChanged(spans[..n], i, s, picture);
    }
  }

  lemma AddSpanAddsItsFrames(spans: seq<Span>, loss: Span, picture: Picture)
    ensures Frames(AddSpan(spans, loss), picture)
         == Frames(spans, picture) + (if loss.picture == picture then loss.frames else 0)
  {
    hide LastOf;
    var last := LastOf(spans, loss.picture);
    if last.Some? && Near(spans[last.value], loss) {
      FramesOfOneChanged(spans, last.value, Merged(spans[last.value], loss), picture);
    } else {
      assert (spans + [loss])[..|spans|] == spans;
    }
  }

  predicate Inside(loss: Span, s: Span) {
    loss.picture == s.picture && s.from <= loss.from && loss.to <= s.to
  }

  predicate Covered(loss: Span, spans: seq<Span>) {
    exists i :: 0 <= i < |spans| && Inside(loss, spans[i])
  }

  lemma AddSpanKeepsCovered(spans: seq<Span>, loss: Span, earlier: Span)
    ensures Covered(loss, AddSpan(spans, loss))
    ensures Covered(earlier, spans) ==> Covered(earlier, AddSpan(spans, loss))
  {
    hide LastOf;
    var last := LastOf(spans, loss.picture);
    var after := AddSpan(spans, loss);
    if last.Some? && Near(spans[last.value], loss) {
      assert Inside(loss, after[last.value]);
    } else {
      assert Inside(loss, after[|spans|]);
    }
    if Covered(earlier, spans) {
      var i :| 0 <= i < |spans| && Inside(earlier, spans[i]);
      assert Inside(earlier, after[i]);
    }
  }

  /** The spans of one picture stand in time order, more than the merge distance apart. */
  predicate Apart(spans: seq<Span>, picture: Picture) {
    forall i, j | 0 <= i < j < |spans| && spans[i].picture == picture && spans[j].picture == picture
      :: spans[i].to + MERGE_SECONDS < spans[j].from
  }

  /** The losses of one picture, by where they start; each runs forward. */
  predicate InOrder(losses: seq<Span>, picture: Picture) {
    && (forall i | 0 <= i < |losses| && losses[i].picture == picture :: losses[i].from <= losses[i].to)
    && (forall i, j | 0 <= i < j < |losses| && losses[i].picture == picture && losses[j].picture == picture
         :: losses[i].from <= losses[j].from)
  }

  lemma AddSpanKeepsApart(spans: seq<Span>, loss: Span, picture: Picture)
    requires Apart(spans, picture) && loss.from <= loss.to
    requires forall i :: 0 <= i < |spans| && spans[i].picture == loss.picture ==> spans[i].from <= loss.from
    ensures Apart(AddSpan(spans, loss), picture)
  {
    hide LastOf;
  }

  lemma {:induction false} SpansStartAtLosses(losses: seq<Span>, s: Span)
    requires s in AddAll(losses)
    ensures exists k :: 0 <= k < |losses| && losses[k].picture == s.picture && losses[k].from == s.from
  {
    hide LastOf;
    var n := |losses| - 1;
    var before, loss := AddAll(losses[..n]), losses[n];
    var last := LastOf(before, loss.picture);
    if s in before {
      SpansStartAtLosses(losses[..n], s);
    } else if last.Some? && Near(before[last.value], loss) {
      var near := before[last.value];
      assert s == Merged(near, loss);
      SpansStartAtLosses(losses[..n], near);
      var k :| 0 <= k < n && losses[..n][k].picture == near.picture && losses[..n][k].from == near.from;
      assert losses[k].from == near.from;
      assert losses[n].picture == s.picture;
    } else {
      assert losses[n] == s;
    }
  }

  /** Whatever was lost, and in whatever order: the spans hold every frame of it, and every loss lies inside one. */
  lemma {:induction false} SpansHoldEveryLoss(losses: seq<Span>)
    ensures forall p: Picture :: Frames(AddAll(losses), p) == Frames(losses, p)
    ensures forall k :: 0 <= k < |losses| ==> Covered(losses[k], AddAll(losses))
  {
    hide AddSpan, Covered;
    if losses != [] {
      var n := |losses| - 1;
      SpansHoldEveryLoss(losses[..n]);
      forall p: Picture ensures Frames(AddAll(losses), p) == Frames(losses, p) {
        AddSpanAddsItsFrames(AddAll(losses[..n]), losses[n], p);
      }
      forall k | 0 <= k < |losses| ensures Covered(losses[k], AddAll(losses)) {
        if k < n { assert losses[..n][k] == losses[k]; }
        AddSpanKeepsCovered(AddAll(losses[..n]), losses[n], losses[k]);
      }
    }
  }

  /** Losses in time order make spans in time order, too far apart to be one. */
  lemma {:induction false} OrderedLossesStayApart(losses: seq<Span>, picture: Picture)
    requires InOrder(losses, picture)
    ensures Apart(AddAll(losses), picture)
  {
    hide AddSpan;
    if losses != [] {
      var n := |losses| - 1;
      var before, loss := AddAll(losses[..n]), losses[n];
      OrderedLossesStayApart(losses[..n], picture);
      if loss.picture == picture {
        forall i | 0 <= i < |before| && before[i].picture == picture ensures before[i].from <= loss.from {
          SpansStartAtLosses(losses[..n], before[i]);
        }
        AddSpanKeepsApart(before, loss, picture);
      } else {
        OtherPictureStaysApart(before, loss, picture);
      }
    }
  }

  lemma OtherPictureStaysApart(spans: seq<Span>, loss: Span, picture: Picture)
    requires Apart(spans, picture) && loss.picture != picture
    ensures Apart(AddSpan(spans, loss), picture)
  {
    hide LastOf;
  }

  // ---- Counting and telling -----------------------------------------------------------

  datatype Told = Told(camera: nat, screen: Option<nat>, spans: seq<Span>)

  datatype State = State(
    drops: nat, cameraGap: nat, screenGap: nat, stopped: bool,
    lastTold: Option<real>, later: Option<real>, spans: seq<Span>,
    cameraFrom: Option<real>, screenFrom: Option<real>)

  const FRESH := State(0, 0, 0, false, None, None, [], None, None)

  /** `now` is the clock as the callback runs. */
  datatype Event =
    | Drop(pictureTime: real, now: real)
    | GapStart(picture: Picture, at: real, now: real)
    | Gap(picture: Picture, seconds: real, fileTime: real, now: real)
    | TimerFires(now: real)
    | Stop(now: real)

  function Totals(s: State, screenCaptured: bool): Told {
    Told(s.drops + s.cameraGap, if screenCaptured then Some(s.screenGap) else None, s.spans)
  }

  function GapFrom(s: State, p: Picture): Option<real> {
    if p == Camera then s.cameraFrom else s.screenFrom
  }

  /** The loss an event is, if it is one. */
  function LossOf(s: State, e: Event): (loss: Option<Span>)
    ensures loss.Some? <==> e.Drop? || e.Gap?
  {
    match e
    case Drop(pictureTime, _) =>
      var at := Max(0.0, pictureTime);
      Some(Span(Camera, at, at, 1))
    case Gap(p, seconds, fileTime, _) =>
      var start := if GapFrom(s, p).Some? then GapFrom(s, p).value else Max(0.0, fileTime - seconds);
      Some(Span(p, start, Micros(start + seconds), MissingIn(seconds, if p == Camera then CAMERA_FPS else SCREEN_FPS)))
    case _ => None
  }

  /** `lost()`: told now, or once the period since the last tell is over. */
  function Telling(s: State, now: real): State {
    if s.stopped || s.later.Some? then s
    else if s.lastTold.None? || s.lastTold.value + PERIOD_MS - now <= 0.0 then s.(lastTold := Some(now))
    else s.(later := Some(s.lastTold.value + PERIOD_MS))
  }

  function Counted(s: State, loss: Span, isDrop: bool): State {
    var t := s.(spans := AddSpan(s.spans, loss));
    if isDrop then t.(drops := t.drops + 1)
    else if loss.picture == Camera then t.(cameraGap := t.cameraGap + loss.frames, cameraFrom := None)
    else t.(screenGap := t.screenGap + loss.frames, screenFrom := None)
  }

  predicate Fires(s: State, e: Event) {
    e.TimerFires? && s.later.Some? && s.later.value <= e.now && !s.stopped
  }

  function Next(s: State, e: Event): State {
    match e
    case Drop(_, now) => Telling(Counted(s, LossOf(s, e).value, true), now)
    case Gap(_, _, _, now) => Telling(Counted(s, LossOf(s, e).value, false), now)
    case GapStart(p, at, _) => if p == Camera then s.(cameraFrom := Some(at)) else s.(screenFrom := Some(at))
    case TimerFires(now) => if Fires(s, e) then s.(later := None, lastTold := Some(now)) else s
    case Stop(_) => s.(stopped := true, later := None)
  }

  function After(events: seq<Event>): State {
    if events == [] then FRESH else Next(After(events[..|events| - 1]), events[|events| - 1])
  }

  function Losses(events: seq<Event>): seq<Span> {
    if events == [] then []
    else
      var before := events[..|events| - 1];
      var loss := LossOf(After(before), events[|events| - 1]);
      Losses(before) + (if loss.Some? then [loss.value] else [])
  }

  /** A tell at the moment `e` runs: what it says, and when. */
  function TellOf(s: State, e: Event, screenCaptured: bool): Option<Told> {
    var t := Next(s, e);
    if t.lastTold != s.lastTold then Some(Totals(t, screenCaptured)) else None
  }

  predicate InTime(events: seq<Event>) {
    forall i, j | 0 <= i < j < |events| :: events[i].now <= events[j].now
  }

  lemma StepCountsItsLoss(s: State, e: Event)
    ensures var t, loss := Next(s, e), LossOf(s, e);
      if loss.Some? then
        && t.spans == AddSpan(s.spans, loss.value)
        && t.drops + t.cameraGap == s.drops + s.cameraGap + (if loss.value.picture == Camera then loss.value.frames else 0)
        && t.screenGap == s.screenGap + (if loss.value.picture == Screen then loss.value.frames else 0)
      else t.spans == s.spans && t.drops + t.cameraGap == s.drops + s.cameraGap && t.screenGap == s.screenGap
  {
    hide AddSpan, Micros, MissingIn;
  }

  lemma OneMoreLoss(losses: seq<Span>, loss: Span)
    ensures AddAll(losses + [loss]) == AddSpan(AddAll(losses), loss)
    ensures forall p: Picture ::
      Frames(losses + [loss], p) == Frames(losses, p) + (if loss.picture == p then loss.frames else 0)
  {
    hide AddSpan;
    assert (losses + [loss])[..|losses|] == losses;
  }

  lemma {:induction false} RunCountsLosses(events: seq<Event>)
    ensures var s := After(events);
      && s.spans == AddAll(Losses(events))
      && s.drops + s.cameraGap == Frames(Losses(events), Camera)
      && s.screenGap == Frames(Losses(events), Screen)
  {
    hide AddSpan, AddAll, Frames, Next, LossOf;
    if events == [] {
      NoLosses();
    } else {
      var before, e := events[..|events| - 1], events[|events| - 1];
      RunCountsLosses(before);
      StepCountsItsLoss(After(before), e);
      var loss := LossOf(After(before), e);
      if loss.Some? { OneMoreLoss(Losses(before), loss.value); }
      assert Losses(before) + [] == Losses(before);
    }
  }

  lemma NoLosses()
    ensures AddAll([]) == [] && Frames([], Camera) == 0 && Frames([], Screen) == 0
  {
  }

  /**
   * Under any lines at any times: what `recording-stopped` reports is every
   * frame of every loss, each inside a span of its picture, and the spans add
   * up to the totals; losses in time order give spans in time order, more than
   * a second apart.
   */
  lemma TotalsAreTheSpans(events: seq<Event>)
    ensures var s := After(events); var losses := Losses(events);
      && s.drops + s.cameraGap == Frames(s.spans, Camera) == Frames(losses, Camera)
      && s.screenGap == Frames(s.spans, Screen) == Frames(losses, Screen)
      && (forall k :: 0 <= k < |losses| ==> Covered(losses[k], s.spans))
      && (forall p: Picture :: InOrder(losses, p) ==> Apart(s.spans, p))
  {
    hide AddAll, Covered, InOrder, Apart, Losses, After, Frames;
    RunCountsLosses(events);
    SpansHoldEveryLoss(Losses(events));
    forall p: Picture | InOrder(Losses(events), p) ensures Apart(AddAll(Losses(events)), p) {
      OrderedLossesStayApart(Losses(events), p);
    }
  }

  // ---- What each line counts for --------------------------------------------------------

  /** The start line that waits for its gap. */
  function StartLine(events: seq<Event>, p: Picture): Option<real> {
    if events == [] then None
    else
      var before, last := StartLine(events[..|events| - 1], p), events[|events| - 1];
      match last
      case GapStart(picture, at, _) => if picture == p then Some(at) else before
      case Gap(picture, _, _, _) => if picture == p then None else before
      case _ => before
  }

  lemma {:induction false} RemembersTheStart(events: seq<Event>, p: Picture)
    ensures GapFrom(After(events), p) == StartLine(events, p)
  {
    hide AddSpan, Micros, MissingIn;
    if events != [] { RemembersTheStart(events[..|events| - 1], p); }
  }

  function NotBelowZero(x: real): real { if x < 0.0 then 0.0 else x }

  /** What a line counts for, by the lines before it. */
  function LossOfLine(events: seq<Event>, e: Event): seq<Span> {
    match e
    case Drop(pictureTime, _) => [Span(Camera, NotBelowZero(pictureTime), NotBelowZero(pictureTime), 1)]
    case Gap(p, seconds, fileTime, _) =>
      var line := StartLine(events, p);
      var start := if line.Some? then line.value else NotBelowZero(fileTime - seconds);
      [Span(p, start, Micros(start + seconds), MissingIn(seconds, if p == Screen then 60.0 else 30000.0 / 1001.0))]
    case _ => []
  }

  /**
   * Over every run, the loss a line is counted as: a dshow drop is one frame
   * of the camera as its picture stands; a gap runs from its own start line,
   * or ends about now if it had none, and is that many frames of its own
   * picture's rate.
   */
  lemma EachLineIsItsLoss(events: seq<Event>, e: Event)
    ensures Losses(events + [e]) == Losses(events) + LossOfLine(events, e)
  {
    hide AddSpan, Micros, MissingIn, After;
    assert (events + [e])[..|events + [e]| - 1] == events;
    if e.Gap? { RemembersTheStart(events, e.picture); }
  }

  /** What is told, whenever it is: both pictures' frames lost so far, the screen's only if it was captured, and the spans they lie in. */
  lemma TotalsSayTheLosses(events: seq<Event>, screenCaptured: bool)
    ensures var told, losses := Totals(After(events), screenCaptured), Losses(events);
      && told.camera == Frames(losses, Camera)
      && (told.screen.Some? <==> screenCaptured)
      && (screenCaptured ==> told.screen == Some(Frames(losses, Screen)))
      && told.spans == AddAll(losses)
  {
    RunCountsLosses(events);
  }

  /** A loss is told at once exactly when nothing has been told for half a second and no tell waits. */
  lemma ToldAtOnceExactlyWhen(s: State, e: Event, screenCaptured: bool)
    requires (e.Drop? || e.Gap?) && s.lastTold != Some(e.now)
    ensures TellOf(s, e, screenCaptured).Some? <==>
      !s.stopped && s.later.None? && (s.lastTold.Some? ==> e.now - s.lastTold.value >= 500.0)
  {
    hide AddSpan, LossOf;
  }

  /** A tell that waits is made when its time has come, and not after a stop. */
  lemma WaitingTellIsMade(s: State, now: real, screenCaptured: bool)
    requires s.later.Some? && s.later.value <= now && s.lastTold != Some(now)
    ensures TellOf(s, TimerFires(now), screenCaptured) == if s.stopped then None else Some(Totals(s, screenCaptured))
    ensures !s.stopped ==> Next(s, TimerFires(now)).later == None && Next(s, TimerFires(now)).lastTold == Some(now)
    ensures Next(s, Stop(now)).stopped && Next(s, Stop(now)).later == None
  {
  }

  /** The latest thing told, over a run. */
  function LastSaid(events: seq<Event>, screenCaptured: bool): Option<Told> {
    if events == [] then None
    else
      var before := events[..|events| - 1];
      var tell := TellOf(After(before), events[|events| - 1], screenCaptured);
      if tell.Some? then tell else LastSaid(before, screenCaptured)
  }

  predicate TellInv(s: State, said: Option<Told>, screenCaptured: bool) {
    && (s.lastTold.None? ==> s.later.None?)
    && (s.later.Some? ==> s.lastTold.Some? && s.later.value == s.lastTold.value + PERIOD_MS)
    && (!s.stopped && s.later.None? ==>
          if said.Some? then said.value == Totals(s, screenCaptured) else Totals(s, screenCaptured) == Totals(FRESH, screenCaptured))
  }

  /** `lost()` after anything was counted. */
  lemma TellingKeepsTellInv(s: State, t: State, now: real, said: Option<Told>, screenCaptured: bool)
    requires TellInv(s, said, screenCaptured)
    requires t.stopped == s.stopped && t.lastTold == s.lastTold && t.later == s.later
    requires s.lastTold.Some? ==> s.lastTold.value <= now
    ensures var u := Telling(t, now);
      && TellInv(u, if u.lastTold != s.lastTold then Some(Totals(u, screenCaptured)) else said, screenCaptured)
      && (u.lastTold.Some? ==> u.lastTold.value <= now)
      && (u.lastTold != s.lastTold && s.lastTold.Some? ==> u.lastTold.value >= s.lastTold.value + PERIOD_MS)
  {
  }

  lemma NextKeepsTellInv(s: State, e: Event, said: Option<Told>, screenCaptured: bool)
    requires TellInv(s, said, screenCaptured)
    requires s.lastTold.Some? ==> s.lastTold.value <= e.now
    ensures var tell := TellOf(s, e, screenCaptured);
      TellInv(Next(s, e), if tell.Some? then tell else said, screenCaptured)
    ensures Next(s, e).lastTold.Some? ==> Next(s, e).lastTold.value <= e.now
    ensures Next(s, e).lastTold != s.lastTold && s.lastTold.Some? ==>
      Next(s, e).lastTold.value >= s.lastTold.value + PERIOD_MS
  {
    hide AddSpan, TellInv, Telling, LossOf, Counted, Totals, PERIOD_MS;
    match e {
      case Drop(_, now) =>
        CountingTellsNothing(s, LossOf(s, e).value, true);
        TellingKeepsTellInv(s, Counted(s, LossOf(s, e).value, true), now, said, screenCaptured);
      case Gap(_, _, _, now) =>
        CountingTellsNothing(s, LossOf(s, e).value, false);
        TellingKeepsTellInv(s, Counted(s, LossOf(s, e).value, false), now, said, screenCaptured);
      case _ => QuietKeepsTellInv(s, e, said, screenCaptured);
    }
  }

  lemma CountingTellsNothing(s: State, loss: Span, isDrop: bool)
    ensures var t := Counted(s, loss, isDrop);
      t.stopped == s.stopped && t.lastTold == s.lastTold && t.later == s.later
  {
    hide AddSpan;
  }

  lemma TimerKeepsTellInv(s: State, now: real, said: Option<Told>, screenCaptured: bool)
    requires TellInv(s, said, screenCaptured) && s.later.Some? && s.later.value <= now && !s.stopped
    ensures var t := s.(later := None, lastTold := Some(now));
      TellInv(t, Some(Totals(t, screenCaptured)), screenCaptured) && now >= s.lastTold.value + PERIOD_MS
  {
  }

  lemma UntoldKeepsTellInv(s: State, t: State, said: Option<Told>, screenCaptured: bool)
    requires TellInv(s, said, screenCaptured) && t.lastTold == s.lastTold
    requires (t.stopped && t.later.None?) || (t.stopped == s.stopped && t.later == s.later)
    requires Totals(t, screenCaptured) == Totals(s, screenCaptured)
    ensures TellInv(t, said, screenCaptured)
  {
  }

  lemma QuietKeepsTellInv(s: State, e: Event, said: Option<Told>, screenCaptured: bool)
    requires TellInv(s, said, screenCaptured) && !e.Drop? && !e.Gap?
    requires s.lastTold.Some? ==> s.lastTold.value <= e.now
    ensures var tell := TellOf(s, e, screenCaptured);
      TellInv(Next(s, e), if tell.Some? then tell else said, screenCaptured)
    ensures Next(s, e).lastTold.Some? ==> Next(s, e).lastTold.value <= e.now
    ensures Next(s, e).lastTold != s.lastTold && s.lastTold.Some? ==>
      Next(s, e).lastTold.value >= s.lastTold.value + PERIOD_MS
  {
    hide AddSpan, LossOf, Counted, Telling, TellInv, PERIOD_MS;
    if Fires(s, e) {
      TimerKeepsTellInv(s, e.now, said, screenCaptured);
      LaterIsADifferentTime(s, e.now, said, screenCaptured);
    } else {
      UntoldKeepsTellInv(s, Next(s, e), said, screenCaptured);
    }
  }

  lemma LaterIsADifferentTime(s: State, now: real, said: Option<Told>, screenCaptured: bool)
    requires TellInv(s, said, screenCaptured) && s.later.Some? && s.later.value <= now
    ensures s.lastTold != Some(now)
  {
  }

  lemma {:induction false} RunKeepsTellInv(events: seq<Event>, screenCaptured: bool)
    requires InTime(events)
    ensures TellInv(After(events), LastSaid(events, screenCaptured), screenCaptured)
    ensures After(events).lastTold.Some? ==> events != [] && After(events).lastTold.value <= events[|events| - 1].now
  {
    hide TellInv, Next, TellOf, AddSpan;
    if events == [] {
      FreshTellsNothing(screenCaptured);
    } else {
      var before := events[..|events| - 1];
      RunKeepsTellInv(before, screenCaptured);
      NextKeepsTellInv(After(before), events[|events| - 1], LastSaid(before, screenCaptured), screenCaptured);
    }
  }

  lemma FreshTellsNothing(screenCaptured: bool)
    ensures TellInv(FRESH, None, screenCaptured)
  {
  }

  /**
   * At every moment before the stop, the latest totals and spans have been
   * told, or a tell is waiting for its time; and no tell comes less than
   * `PERIOD_MS` after the one before it.
   */
  lemma ToldOrWaiting(events: seq<Event>, next: Event, screenCaptured: bool)
    requires InTime(events + [next])
    ensures var s := After(events);
      && (!s.stopped && s.later.None? ==>
            match LastSaid(events, screenCaptured)
            case Some(said) => said == Totals(s, screenCaptured)
            case None => Losses(events) == [])
      && (s.later.Some? ==> s.lastTold.Some? && s.later.value == s.lastTold.value + PERIOD_MS)
      && (TellOf(s, next, screenCaptured).Some? && s.lastTold.Some? ==> next.now >= s.lastTold.value + PERIOD_MS)
  {
    hide AddSpan, AddAll, Losses, After, LossOf, InTime, LastSaid, Frames;
    assert InTime(events) && (events != [] ==> events[|events| - 1].now <= next.now) by { InTimeCut(events, next); }
    RunKeepsTellInv(events, screenCaptured);
    if After(events).lastTold.None? && !After(events).stopped { NothingToldNothingLost(events); }
    if LastSaid(events, screenCaptured).None? { SaidOnceTold(events, screenCaptured); }
  }

  lemma InTimeCut(events: seq<Event>, next: Event)
    requires InTime(events + [next])
    ensures InTime(events) && (events != [] ==> events[|events| - 1].now <= next.now)
  {
    var all := events + [next];
    assert forall i :: 0 <= i < |events| ==> all[i] == events[i];
    assert all[|events|] == next;
  }

  lemma {:induction false} NothingToldNothingLost(events: seq<Event>)
    requires After(events).lastTold.None? && !After(events).stopped
    ensures Losses(events) == [] && After(events).later.None?
  {
    hide AddSpan, Micros, MissingIn;
    if events != [] {
      NothingToldNothingLost(events[..|events| - 1]);
    }
  }

  lemma {:induction false} SaidOnceTold(events: seq<Event>, screenCaptured: bool)
    ensures LastSaid(events, screenCaptured).None? ==> After(events).lastTold.None?
  {
    hide AddSpan, Next, Fires;
    if events != [] { SaidOnceTold(events[..|events| - 1], screenCaptured); }
  }

  // ---- The code's own form ------------------------------------------------------------

  class Counter {
    const screenCaptured: bool
    var drops: nat
    var cameraGap: nat
    var screenGap: nat
    var stopped: bool
    var lastTold: Option<real>
    var later: Option<real>
    var spans: seq<Span>
    var cameraFrom: Option<real>
    var screenFrom: Option<real>

    function Abs(): State
      reads this
    {
      State(drops, cameraGap, screenGap, stopped, lastTold, later, spans, cameraFrom, screenFrom)
    }

    constructor (screenCaptured: bool)
      ensures Abs() == FRESH && this.screenCaptured == screenCaptured
    {
      this.screenCaptured := screenCaptured;
      drops, cameraGap, screenGap, stopped := 0, 0, 0, false;
      lastTold, later, spans, cameraFrom, screenFrom := None, None, [], None, None;
    }

    /** Merges into the last span of that picture when it is near enough, else adds one. */
    method Add(loss: Span)
      modifies this`spans
      ensures spans == AddSpan(old(spans), loss)
    {
      var i := |spans|;
      while i > 0 && spans[i - 1].picture != loss.picture
        invariant 0 <= i <= |spans|
        invariant spans == old(spans)
        invariant LastOf(spans, loss.picture) == LastOf(spans[..i], loss.picture)
      {
        assert spans[..i][..i - 1] == spans[..i - 1];
        i := i - 1;
      }
      if i > 0 && Near(spans[i - 1], loss) {
        spans := spans[i - 1 := Merged(spans[i - 1], loss)];
      } else {
        spans := spans + [loss];
      }
    }

    method Lost(now: real) returns (tell: Option<Told>)
      modifies this`lastTold, this`later
      ensures Abs() == Telling(old(Abs()), now)
      ensures tell == if Abs().lastTold != old(lastTold) then Some(Totals(Abs(), screenCaptured)) else None
    {
      tell := None;
      if stopped || later.Some? { return; }
      if lastTold == None || lastTold.value + PERIOD_MS - now <= 0.0 {
        lastTold := Some(now);
        tell := Some(Totals(Abs(), screenCaptured));
      } else {
        later := Some(lastTold.value + PERIOD_MS);
      }
    }

    method OnCaptureDrop(pictureTime: real, now: real) returns (tell: Option<Told>)
      modifies this
      ensures Abs() == Next(old(Abs()), Drop(pictureTime, now))
      ensures tell == TellOf(old(Abs()), Drop(pictureTime, now), screenCaptured)
    {
      drops := drops + 1;
      var at := Max(0.0, pictureTime);
      Add(Span(Camera, at, at, 1));
      tell := Lost(now);
    }

    method OnGapStart(picture: Picture, at: real, now: real)
      modifies this
      ensures Abs() == Next(old(Abs()), GapStart(picture, at, now))
    {
      if picture == Camera { cameraFrom := Some(at); } else { screenFrom := Some(at); }
    }

    method OnGap(picture: Picture, seconds: real, fileTime: real, now: real) returns (tell: Option<Told>)
      modifies this
      ensures Abs() == Next(old(Abs()), Gap(picture, seconds, fileTime, now))
      ensures tell == TellOf(old(Abs()), Gap(picture, seconds, fileTime, now), screenCaptured)
    {
      hide AddSpan, Micros, MissingIn;
      var missing := MissingIn(seconds, if picture == Camera then CAMERA_FPS else SCREEN_FPS);
      var from := if picture == Camera then cameraFrom else screenFrom;
      var start := if from.Some? then from.value else Max(0.0, fileTime - seconds);
      if picture == Camera { cameraFrom := None; } else { screenFrom := None; }
      Add(Span(picture, start, Micros(start + seconds), missing));
      if picture == Camera { cameraGap := cameraGap + missing; } else { screenGap := screenGap + missing; }
      tell := Lost(now);
    }

    method OnTimer(now: real) returns (tell: Told)
      requires later.Some? && later.value <= now && !stopped
      modifies this
      ensures Abs() == Next(old(Abs()), TimerFires(now))
      ensures tell == Totals(Abs(), screenCaptured)
    {
      later, lastTold := None, Some(now);
      tell := Totals(Abs(), screenCaptured);
    }

    method OnStop(now: real)
      modifies this
      ensures Abs() == Next(old(Abs()), Stop(now))
    {
      stopped, later := true, None;
    }
  }
}
