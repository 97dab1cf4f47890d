/**
 * One preview feed: the decoder's config, the frames since the last keyframe,
 * and what each watching browser is sent. A frame is known by its number, its
 * place among all the frames the feed has had; the picture data plays no part.
 * Each step says which watchers' sockets hold too much at that moment.
 */
module PreviewFeeds {
  import opened Common

  type WatcherId = nat

  const MAX_GOP_FRAMES: nat := 150

  datatype Chunk = Config(config: int) | Frame(number: nat, key: bool)

  datatype Watcher = Watcher(skipping: bool, sent: seq<Chunk>)

  /** `frames`: how many frames the feed has had. */
  datatype State = State(
    config: Option<int>, gop: seq<Chunk>, watchers: map<WatcherId, Watcher>, frames: nat)

  datatype Event =
    | OnConfig(config: int, full: set<WatcherId>)
    | OnFrame(key: bool, full: set<WatcherId>)
    | Join(id: WatcherId)
    | Leave(id: WatcherId)

  const INIT := State(None, [], map[], 0)

  function Send(w: Watcher, chunk: Chunk, key: bool, full: bool): Watcher {
    if w.skipping && !key then w
    else if full then w.(skipping := true)
    else Watcher(false, w.sent + [chunk])
  }

  /** What a config does to a watcher: whatever it was doing, it waits for a keyframe if this is refused. */
  function SendConfig(w: Watcher, chunk: Chunk, full: bool): Watcher {
    Send(w.(skipping := true), chunk, true, full)
  }

  function Told(w: Watcher, chunk: Chunk, full: bool): Watcher {
    if chunk.Config? then SendConfig(w, chunk, full) else Send(w, chunk, chunk.key, full)
  }

  function GopAfter(gop: seq<Chunk>, frame: Chunk): seq<Chunk>
    requires frame.Frame?
  {
    var begun := if frame.key then [] else gop;
    var grown := if frame.key || |begun| > 0 then begun + [frame] else begun;
    if |grown| > MAX_GOP_FRAMES then [] else grown
  }

  function Joined(s: State): Watcher {
    Watcher(s.config.None? || s.gop == [], if s.config.None? then [] else [Config(s.config.value)] + s.gop)
  }

  function Next(s: State, e: Event): State {
    match e
    case OnConfig(c, full) =>
      s.(config := Some(c), gop := [],
         watchers := map id | id in s.watchers :: SendConfig(s.watchers[id], Config(c), id in full))
    case OnFrame(key, full) =>
      var frame := Frame(s.frames, key);
      s.(gop := GopAfter(s.gop, frame), frames := s.frames + 1,
         watchers := map id | id in s.watchers :: Send(s.watchers[id], frame, key, id in full))
    case Join(id) => if id in s.watchers then s else s.(watchers := s.watchers[id := Joined(s)])
    case Leave(id) => s.(watchers := s.watchers - {id})
  }

  function After(events: seq<Event>): State {
    if events == [] then INIT else Next(After(events[..|events| - 1]), events[|events| - 1])
  }

  // ---- The GOP buffer -----------------------------------------------------------------

  /** The frames since the last keyframe, in a stream of configs and frames; none once a config came after it. */
  function SinceKey(events: seq<Event>): seq<Chunk> {
    if events == [] then []
    else
      var before, last := SinceKey(events[..|events| - 1]), events[|events| - 1];
      match last
      case OnConfig(_, _) => []
      case OnFrame(key, _) =>
        var frame := Frame(After(events[..|events| - 1]).frames, key);
        if key then [frame] else if before == [] then [] else before + [frame]
      case _ => before
  }

  /** The buffer is those frames, all of them, for as long as they are no more than it may hold; and then nothing. */
  lemma {:induction false} GopIsSinceKey(events: seq<Event>)
    ensures After(events).gop == if |SinceKey(events)| <= MAX_GOP_FRAMES then SinceKey(events) else []
  {
    if events != [] {
      GopIsSinceKey(events[..|events| - 1]);
    }
  }

  // ---- What a watcher is sent ---------------------------------------------------------

  /** The last thing the stream sent was a config: its keyframe is still to come. */
  predicate AwaitsKey(events: seq<Event>) {
    events != [] &&
    var last := events[|events| - 1];
    last.OnConfig? || (!last.OnFrame? && AwaitsKey(events[..|events| - 1]))
  }

  /** Each config is followed by a keyframe before any other frame. */
  predicate KeyAfterConfig(events: seq<Event>) {
    forall i :: 0 <= i < |events| && events[i].OnFrame? && AwaitsKey(events[..i]) ==> events[i].key
  }

  predicate IsDelta(c: Chunk) {
    c.Frame? && !c.key
  }

  /** Each delta comes right after the frame before it. */
  predicate Chained(sent: seq<Chunk>) {
    forall p :: 0 <= p < |sent| && IsDelta(sent[p]) ==> p > 0 && Follows(sent[p - 1], sent[p])
  }

  predicate Follows(a: Chunk, b: Chunk) {
    a.Frame? && b.Frame? && b.number == a.number + 1
  }

  /** The buffer is a keyframe and every frame since, up to the latest. */
  predicate GopWhole(s: State) {
    && |s.gop| <= MAX_GOP_FRAMES && |s.gop| <= s.frames
    && (forall i :: 0 <= i < |s.gop| ==> s.gop[i] == Frame(s.frames - |s.gop| + i, i == 0))
  }

  /** A watcher that is not skipping has just been sent the latest frame, or a config whose keyframe is to come. */
  predicate UpToDate(w: Watcher, frames: nat, awaitsKey: bool) {
    w.skipping || (w.sent != [] && AtTheEnd(w.sent[|w.sent| - 1], frames, awaitsKey))
  }

  predicate AtTheEnd(last: Chunk, frames: nat, awaitsKey: bool) {
    if last.Config? then awaitsKey else last.number + 1 == frames
  }

  predicate Fine(w: Watcher, frames: nat, awaitsKey: bool) {
    Chained(w.sent) && UpToDate(w, frames, awaitsKey)
  }

  predicate Inv(s: State, awaitsKey: bool) {
    && GopWhole(s) && (awaitsKey ==> s.gop == [])
    && forall id :: id in s.watchers ==> Fine(s.watchers[id], s.frames, awaitsKey)
  }

  lemma SentOneMore(sent: seq<Chunk>, c: Chunk)
    requires Chained(sent) && (IsDelta(c) ==> sent != [] && Follows(sent[|sent| - 1], c))
    ensures Chained(sent + [c])
  {
  }

  lemma FrameKeepsFine(w: Watcher, frames: nat, awaitsKey: bool, key: bool, full: bool)
    requires Fine(w, frames, awaitsKey) && (awaitsKey ==> key)
    ensures Fine(Send(w, Frame(frames, key), key, full), frames + 1, false)
  {
    hide Chained;
    if !(w.skipping && !key) && !full { SentOneMore(w.sent, Frame(frames, key)); }
  }

  lemma ConfigKeepsFine(w: Watcher, frames: nat, awaitsKey: bool, c: int, full: bool)
    requires Fine(w, frames, awaitsKey)
    ensures Fine(SendConfig(w, Config(c), full), frames, true)
  {
    hide Chained;
    if !full { SentOneMore(w.sent, Config(c)); }
  }

  lemma JoinedIsFine(s: State, awaitsKey: bool)
    requires GopWhole(s)
    ensures Fine(Joined(s), s.frames, awaitsKey)
  {
    if s.config.Some? {
      var sent := [Config(s.config.value)] + s.gop;
      forall p | 0 <= p < |sent| && IsDelta(sent[p]) ensures p > 0 && Follows(sent[p - 1], sent[p]) {
        assert sent[p] == s.gop[p - 1];
        assert p > 1 ==> sent[p - 1] == s.gop[p - 2];
      }
    }
  }

  lemma FrameKeepsGop(s: State, key: bool)
    requires GopWhole(s)
    ensures GopWhole(s.(gop := GopAfter(s.gop, Frame(s.frames, key)), frames := s.frames + 1))
  {
  }

  lemma NextKeepsInv(s: State, e: Event, awaitsKey: bool)
    requires Inv(s, awaitsKey) && (e.OnFrame? && awaitsKey ==> e.key)
    ensures Inv(Next(s, e), e.OnConfig? || (!e.OnFrame? && awaitsKey))
  {
    hide Fine, GopWhole, GopAfter, Send, SendConfig, Joined;
    match e {
      case OnConfig(c, full) =>
        forall id | id in s.watchers ensures Fine(Next(s, e).watchers[id], s.frames, true) {
          ConfigKeepsFine(s.watchers[id], s.frames, awaitsKey, c, id in full);
        }
        EmptyGopIsWhole(s.frames, Next(s, e));
      case OnFrame(key, full) =>
        forall id | id in s.watchers ensures Fine(Next(s, e).watchers[id], s.frames + 1, false) {
          FrameKeepsFine(s.watchers[id], s.frames, awaitsKey, key, id in full);
        }
        FrameKeepsGop(s, key);
        GopIsOfTheFrames(s.(gop := GopAfter(s.gop, Frame(s.frames, key)), frames := s.frames + 1), Next(s, e));
      case Join(id) =>
        JoinedIsFine(s, awaitsKey);
        GopIsOfTheFrames(s, Next(s, e));
      case Leave(id) => GopIsOfTheFrames(s, Next(s, e));
    }
  }

  lemma EmptyGopIsWhole(frames: nat, s: State)
    requires s.gop == []
    ensures GopWhole(s)
  {
  }

  lemma GopIsOfTheFrames(s: State, t: State)
    requires s.gop == t.gop && s.frames == t.frames && GopWhole(s)
    ensures GopWhole(t)
  {
  }

  lemma {:induction false} RunKeepsInv(events: seq<Event>)
    requires KeyAfterConfig(events)
    ensures Inv(After(events), AwaitsKey(events))
  {
    hide Inv, Next;
    if events == [] {
      InitHolds();
    } else {
      var before := events[..|events| - 1];
      assert events[..|events| - 1] == before;
      assert forall i :: 0 <= i < |before| ==> events[..i] == before[..i];
      RunKeepsInv(before);
      NextKeepsInv(After(before), events[|events| - 1], AwaitsKey(before));
    }
  }

  lemma InitHolds()
    ensures Inv(INIT, false)
  {
  }

  /**
   * Through joins, full sockets, resets of the buffer and new streams, so long
   * as each config is followed by a keyframe: every delta a watcher is sent
   * comes right after the frame before it.
   */
  lemma EveryDeltaFollows(events: seq<Event>)
    requires KeyAfterConfig(events)
    ensures forall id :: id in After(events).watchers ==> Chained(After(events).watchers[id].sent)
  {
    hide After, Chained, KeyAfterConfig, GopWhole;
    RunKeepsInv(events);
  }

  /** The watcher's last chunk is the latest frame. */
  predicate JustSent(w: Watcher, frames: nat) {
    w.sent != [] && w.sent[|w.sent| - 1].Frame? && w.sent[|w.sent| - 1].number + 1 == frames
  }

  /** It was sent no frame still to come; and one that skips, no config being new, has missed the latest. */
  predicate KnowsItMissed(w: Watcher, frames: nat, awaitsKey: bool) {
    && (w.sent != [] && w.sent[|w.sent| - 1].Frame? ==> w.sent[|w.sent| - 1].number < frames)
    && (w.skipping && !awaitsKey ==> !JustSent(w, frames))
  }

  predicate AllKnow(s: State, awaitsKey: bool) {
    forall id :: id in s.watchers ==> KnowsItMissed(s.watchers[id], s.frames, awaitsKey)
  }

  lemma FrameKeepsKnowing(w: Watcher, frames: nat, awaitsKey: bool, key: bool, full: bool)
    requires KnowsItMissed(w, frames, awaitsKey)
    ensures KnowsItMissed(Send(w, Frame(frames, key), key, full), frames + 1, false)
  {
  }

  lemma ConfigKeepsKnowing(w: Watcher, frames: nat, awaitsKey: bool, c: int, full: bool)
    requires KnowsItMissed(w, frames, awaitsKey)
    ensures KnowsItMissed(SendConfig(w, Config(c), full), frames, true)
  {
  }

  lemma JoinedKnows(s: State, awaitsKey: bool)
    requires GopWhole(s)
    ensures KnowsItMissed(Joined(s), s.frames, awaitsKey)
  {
    if s.config.Some? && s.gop != [] {
      assert Joined(s).sent[|s.gop|] == s.gop[|s.gop| - 1];
    }
  }

  lemma NextKeepsKnowing(s: State, e: Event, awaitsKey: bool)
    requires AllKnow(s, awaitsKey) && GopWhole(s)
    ensures AllKnow(Next(s, e), e.OnConfig? || (!e.OnFrame? && awaitsKey))
  {
    hide KnowsItMissed, GopWhole, GopAfter, Send, SendConfig, Joined;
    match e {
      case OnConfig(c, full) =>
        forall id | id in s.watchers ensures KnowsItMissed(Next(s, e).watchers[id], s.frames, true) {
          ConfigKeepsKnowing(s.watchers[id], s.frames, awaitsKey, c, id in full);
        }
      case OnFrame(key, full) =>
        forall id | id in s.watchers ensures KnowsItMissed(Next(s, e).watchers[id], s.frames + 1, false) {
          FrameKeepsKnowing(s.watchers[id], s.frames, awaitsKey, key, id in full);
        }
      case Join(id) => JoinedKnows(s, awaitsKey);
      case Leave(id) =>
    }
  }

  lemma InvHasWholeGop(s: State, awaitsKey: bool)
    requires Inv(s, awaitsKey)
    ensures GopWhole(s)
  {
    hide GopWhole;
  }

  lemma {:induction false} RunKeepsKnowing(events: seq<Event>)
    requires KeyAfterConfig(events)
    ensures AllKnow(After(events), AwaitsKey(events)) && Inv(After(events), AwaitsKey(events))
  {
    hide AllKnow, Next, Inv, GopWhole;
    RunKeepsInv(events);
    if events == [] {
      InitKnows();
    } else {
      var before := events[..|events| - 1];
      assert forall i :: 0 <= i < |before| ==> events[..i] == before[..i];
      RunKeepsKnowing(before);
      InvHasWholeGop(After(before), AwaitsKey(before));
      NextKeepsKnowing(After(before), events[|events| - 1], AwaitsKey(before));
    }
  }

  lemma InitKnows()
    ensures AllKnow(INIT, false)
  {
  }

  /**
   * Exactly what a watcher is sent of the next frame: nothing while its socket
   * holds too much; else any keyframe, and a delta when it was sent the frame
   * before it. So one that fell behind gets no backlog, and is back at the
   * next keyframe there is room for.
   */
  lemma SentExactlyWhen(events: seq<Event>, key: bool, full: set<WatcherId>, id: WatcherId)
    requires KeyAfterConfig(events) && (AwaitsKey(events) ==> key) && id in After(events).watchers
    ensures var s := After(events); var w := s.watchers[id];
      Next(s, OnFrame(key, full)).watchers[id].sent
      == if id !in full && (key || JustSent(w, s.frames)) then w.sent + [Frame(s.frames, key)] else w.sent
  {
    hide After, KeyAfterConfig, AwaitsKey, GopWhole, Chained, GopAfter;
    RunKeepsKnowing(events);
    var s := After(events);
    assert KnowsItMissed(s.watchers[id], s.frames, AwaitsKey(events));
    assert Fine(s.watchers[id], s.frames, AwaitsKey(events));
  }

  /**
   * A browser that joins is sent the config in force and every frame since
   * the last keyframe, while they are kept: then the very next frame follows
   * on, and otherwise it waits for a keyframe. It is sent to from then on and
   * until it leaves, and nobody else notices.
   */
  lemma JoinerIsCaughtUp(events: seq<Event>, id: WatcherId)
    requires KeyAfterConfig(events) && id !in After(events).watchers
    ensures var s, since := After(events), SinceKey(events);
      var joined := Next(s, Join(id));
      var kept := 0 < |since| <= MAX_GOP_FRAMES;
      && joined.watchers.Keys == s.watchers.Keys + {id} && joined == s.(watchers := joined.watchers)
      && joined.watchers[id].sent
         == (if s.config.None? then [] else [Config(s.config.value)] + if kept then since else [])
      && (JustSent(joined.watchers[id], s.frames) <==> s.config.Some? && kept)
      && (joined.watchers[id].skipping <==> !JustSent(joined.watchers[id], s.frames))
      && (forall other :: other in s.watchers ==> joined.watchers[other] == s.watchers[other])
      && Next(joined, Leave(id)) == s
  {
    hide After, KeyAfterConfig, AwaitsKey, SinceKey, Chained;
    GopIsSinceKey(events);
    RunKeepsInv(events);
    var s := After(events);
    assert GopWhole(s);
    if s.config.Some? && s.gop != [] {
      assert Joined(s).sent[|s.gop|] == s.gop[|s.gop| - 1];
    }
    assert Next(Next(s, Join(id)), Leave(id)).watchers == s.watchers;
  }

  /** So each goes back, frame by frame, to a keyframe the watcher was sent. */
  lemma {:induction false} BackToAKey(sent: seq<Chunk>, p: nat) returns (q: nat)
    requires Chained(sent) && p < |sent| && sent[p].Frame?
    ensures q <= p && sent[q].Frame? && sent[q].key
    ensures forall i :: q <= i <= p ==> sent[i].Frame? && sent[i].number == sent[q].number + (i - q)
  {
    if sent[p].key {
      q := p;
    } else {
      assert IsDelta(sent[p]);
      q := BackToAKey(sent, p - 1);
    }
  }

  /** The premise is needed: a delta that follows a config directly is sent to every watcher whose socket has room. */
  lemma DeltaAfterConfigBreaksIt(s: State, id: WatcherId, c: int)
    requires id in s.watchers
    ensures var t := Next(Next(s, OnConfig(c, {})), OnFrame(false, {}));
      id in t.watchers && !Chained(t.watchers[id].sent)
  {
    var sent := s.watchers[id].sent;
    var t := Next(Next(s, OnConfig(c, {})), OnFrame(false, {}));
    assert t.watchers[id].sent == sent + [Config(c)] + [Frame(s.frames, false)];
    assert t.watchers[id].sent[|sent|] == Config(c) && IsDelta(t.watchers[id].sent[|sent| + 1]);
  }

  // ---- The config in force ------------------------------------------------------------

  /** The config a watcher decodes with. */
  function ConfigOf(sent: seq<Chunk>): Option<int> {
    if sent == [] then None
    else if sent[|sent| - 1].Config? then Some(sent[|sent| - 1].config)
    else ConfigOf(sent[..|sent| - 1])
  }

  /** The last config the watcher took: one its socket had room for, or the one in force as it joined. */
  function LastTaken(events: seq<Event>, id: WatcherId): Option<int> {
    if events == [] then None
    else
      var before := events[..|events| - 1];
      match events[|events| - 1]
      case OnConfig(c, full) => if id in full then LastTaken(before, id) else Some(c)
      case Join(joiner) =>
        if joiner == id && id !in After(before).watchers then After(before).config else LastTaken(before, id)
      case _ => LastTaken(before, id)
  }

  /** The latest config since the watcher joined met its full socket. */
  predicate LatestRefused(events: seq<Event>, id: WatcherId) {
    events != [] &&
    var before := events[..|events| - 1];
    match events[|events| - 1]
    case OnConfig(_, full) => id in full
    case Join(joiner) => !(joiner == id && id !in After(before).watchers) && LatestRefused(before, id)
    case _ => LatestRefused(before, id)
  }

  predicate HasConfig(events: seq<Event>, c: int) {
    exists i :: 0 <= i < |events| && events[i].OnConfig? && events[i].config == c
  }

  /** No config is one that came before. */
  predicate ConfigsDiffer(events: seq<Event>) {
    forall i, j :: 0 <= i < j < |events| && events[i].OnConfig? && events[j].OnConfig? ==>
      events[i].config != events[j].config
  }

  lemma ConfigOneMore(sent: seq<Chunk>, c: Chunk)
    ensures ConfigOf(sent + [c]) == if c.Config? then Some(c.config) else ConfigOf(sent)
  {
    assert (sent + [c])[..|sent|] == sent;
  }

  lemma {:induction false} FramesKeepConfig(sent: seq<Chunk>, frames: seq<Chunk>)
    requires forall i :: 0 <= i < |frames| ==> frames[i].Frame?
    ensures ConfigOf(sent + frames) == ConfigOf(sent)
  {
    if frames == [] {
      assert sent + frames == sent;
    } else {
      var front := frames[..|frames| - 1];
      FramesKeepConfig(sent, front);
      assert sent + frames == (sent + front) + [frames[|frames| - 1]];
      ConfigOneMore(sent + front, frames[|frames| - 1]);
    }
  }

  lemma NoConfigYet()
    ensures ConfigOf([]) == None
  {
  }

  lemma JoinersConfig(s: State)
    requires OnlyFrames(s.gop)
    ensures ConfigOf(Joined(s).sent) == s.config
  {
    if s.config.Some? { FramesKeepConfig([Config(s.config.value)], s.gop); } else { NoConfigYet(); }
  }

  predicate OnlyFrames(gop: seq<Chunk>) {
    forall i :: 0 <= i < |gop| ==> gop[i].Frame?
  }

  lemma {:induction false} GopIsOfFrames(events: seq<Event>)
    ensures OnlyFrames(After(events).gop)
  {
    if events != [] { GopIsOfFrames(events[..|events| - 1]); }
  }

  /** What one event does to the config a watcher decodes with. */
  lemma TakesConfig(s: State, e: Event, id: WatcherId)
    requires OnlyFrames(s.gop) && id in Next(s, e).watchers
    ensures ConfigOf(Next(s, e).watchers[id].sent)
         == if id !in s.watchers then s.config
            else if e.OnConfig? && id !in e.full then Some(e.config)
            else ConfigOf(s.watchers[id].sent)
  {
    hide ConfigOf, Joined, GopAfter;
    if id !in s.watchers {
      JoinersConfig(s);
    } else {
      var sent := s.watchers[id].sent;
      if e.OnConfig? { ConfigOneMore(sent, Config(e.config)); }
      if e.OnFrame? { ConfigOneMore(sent, Frame(s.frames, e.key)); }
    }
  }

  /** Over every run, each watcher decodes with the last config it took. */
  lemma {:induction false} DecodesWithLastTaken(events: seq<Event>, id: WatcherId)
    requires id in After(events).watchers
    ensures ConfigOf(After(events).watchers[id].sent) == LastTaken(events, id)
  {
    hide ConfigOf, Joined, GopAfter, Send, SendConfig, OnlyFrames;
    if events != [] {
      var before, last := events[..|events| - 1], events[|events| - 1];
      GopIsOfFrames(before);
      TakesConfig(After(before), last, id);
      if id in After(before).watchers { DecodesWithLastTaken(before, id); }
    }
  }

  /** Unless the latest config since it joined was refused, it took the one in force. */
  lemma {:induction false} UnrefusedIsTaken(events: seq<Event>, id: WatcherId)
    requires id in After(events).watchers && !LatestRefused(events, id)
    ensures LastTaken(events, id) == After(events).config
  {
    hide Joined, GopAfter, Send, SendConfig;
    if events != [] {
      var before := events[..|events| - 1];
      if id in After(before).watchers && !events[|events| - 1].OnConfig? { UnrefusedIsTaken(before, id); }
    }
  }

  lemma HadConfig(events: seq<Event>, c: int)
    requires events != [] && HasConfig(events[..|events| - 1], c)
    ensures HasConfig(events, c)
  {
    var before := events[..|events| - 1];
    var i :| 0 <= i < |before| && before[i].OnConfig? && before[i].config == c;
    assert events[i] == before[i];
  }

  /** What was in force or taken had come. */
  lemma {:induction false} TakenHadCome(events: seq<Event>, id: WatcherId)
    ensures After(events).config.Some? ==> HasConfig(events, After(events).config.value)
    ensures LastTaken(events, id).Some? ==> HasConfig(events, LastTaken(events, id).value)
  {
    hide HasConfig, Joined, GopAfter, Send, SendConfig;
    if events != [] {
      var before, last := events[..|events| - 1], events[|events| - 1];
      TakenHadCome(before, id);
      if After(before).config.Some? { HadConfig(events, After(before).config.value); }
      if LastTaken(before, id).Some? { HadConfig(events, LastTaken(before, id).value); }
      if last.OnConfig? { assert HasConfig(events, last.config) by { JustCame(events); } }
    }
  }

  lemma JustCame(events: seq<Event>)
    requires events != [] && events[|events| - 1].OnConfig?
    ensures HasConfig(events, events[|events| - 1].config)
  {
  }

  lemma {:induction false} RefusedIsNotTaken(events: seq<Event>, id: WatcherId)
    requires ConfigsDiffer(events) && LatestRefused(events, id)
    ensures LastTaken(events, id) != After(events).config
  {
    hide Joined, GopAfter, Send, SendConfig;
    var before, last := events[..|events| - 1], events[|events| - 1];
    if last.OnConfig? {
      TakenHadCome(before, id);
      assert !HasConfig(before, last.config);
    } else {
      RefusedIsNotTaken(before, id);
    }
  }

  /** So a watcher decodes with the config in force, unless the latest since it joined met its full socket. */
  lemma ConfigIsInForce(events: seq<Event>, id: WatcherId)
    requires id in After(events).watchers && !LatestRefused(events, id)
    ensures ConfigOf(After(events).watchers[id].sent) == After(events).config
  {
    DecodesWithLastTaken(events, id);
    UnrefusedIsTaken(events, id);
  }

  /** And, no config being one that came before, exactly then. */
  lemma ConfigInForceExactlyWhen(events: seq<Event>, id: WatcherId)
    requires id in After(events).watchers && ConfigsDiffer(events)
    ensures ConfigOf(After(events).watchers[id].sent) == After(events).config <==> !LatestRefused(events, id)
  {
    hide After, ConfigOf, LastTaken, LatestRefused, ConfigsDiffer;
    DecodesWithLastTaken(events, id);
    if LatestRefused(events, id) { RefusedIsNotTaken(events, id); } else { UnrefusedIsTaken(events, id); }
  }

  /**
   * A config that does meet one is lost to the watcher: it is sent the next
   * keyframe, and decodes it with the config before.
   */
  lemma RefusedConfigIsNeverSent(s: State, id: WatcherId, c: int)
    requires id in s.watchers && ConfigOf(s.watchers[id].sent) != Some(c)
    ensures var t := Next(Next(s, OnConfig(c, {id})), OnFrame(true, {}));
      && id in t.watchers
      && t.watchers[id].sent == s.watchers[id].sent + [Frame(s.frames, true)]
      && ConfigOf(t.watchers[id].sent) != t.config
  {
    ConfigOneMore(s.watchers[id].sent, Frame(s.frames, true));
  }

  // ---- The code's own form ------------------------------------------------------------

  class Feed {
    var config: Option<int>
    var gop: seq<Chunk>
    var watchers: map<WatcherId, Watcher>
    var frames: nat

    function Abs(): State
      reads this
    {
      State(config, gop, watchers, frames)
    }

    constructor ()
      ensures Abs() == INIT
    {
      config, gop, watchers, frames := None, [], map[], 0;
    }

    /** One chunk, to every watcher in turn. */
    method SendToAll(chunk: Chunk, full: set<WatcherId>)
      modifies this`watchers
      ensures watchers == map id | id in old(watchers) :: Told(old(watchers)[id], chunk, id in full)
    {
      hide Told;
      var left := watchers.Keys;
      while |left| > 0
        invariant watchers.Keys == old(watchers).Keys && (forall id :: id in left ==> id in watchers)
        invariant forall id :: id in left ==> watchers[id] == old(watchers)[id]
        invariant forall id :: id in watchers && id !in left ==> watchers[id] == Told(old(watchers)[id], chunk, id in full)
        decreases |left|
      {
        var id := AnyOf(left);
        watchers := watchers[id := Told(watchers[id], chunk, id in full)];
        left := left - {id};
      }
      assert forall id: WatcherId :: id !in left;
    }

    method OnConfigVideo(c: int, full: set<WatcherId>)
      modifies this
      ensures Abs() == Next(old(Abs()), OnConfig(c, full))
    {
      config, gop := Some(c), [];
      SendToAll(Config(c), full);
    }

    method OnFrameVideo(key: bool, full: set<WatcherId>)
      modifies this
      ensures Abs() == Next(old(Abs()), OnFrame(key, full))
    {
      var frame := Frame(frames, key);
      if key { gop := []; }
      if key || |gop| > 0 { gop := gop + [frame]; }
      if |gop| > MAX_GOP_FRAMES { gop := []; }
      frames := frames + 1;
      SendToAll(frame, full);
    }

    method Serve(id: WatcherId)
      requires id !in watchers
      modifies this
      ensures Abs() == Next(old(Abs()), Join(id))
    {
      var sent := [];
      if config.Some? { sent := [Config(config.value)] + gop; }
      watchers := watchers[id := Watcher(config.None? || gop == [], sent)];
    }

    method OnClose(id: WatcherId)
      modifies this
      ensures Abs() == Next(old(Abs()), Leave(id))
    {
      watchers := watchers - {id};
    }
  }
}
