/**
 * The Job Event feed (`makeJobEventFeed`): one poller of an append-only table whose ids commit
 * out of order. The poller is a class; the database it reads, and every way its writers' commits
 * may fall between its reads, is a state machine over which its guarantees are proved.
 */
module JobEventFeed {
  import opened Common

  const GAP_TTL_MS := 600_000

  // ---- The poller ----------------------------------------------------------------------

  /** Every id at or below `cursor` has been seen or is a gap; a gap is kept with when it was first missed. */
  datatype State = State(cursor: Option<int>, gaps: map<int, int>)

  function Larger(a: int, b: int): int { if a < b then b else a }

  function Between(low: int, high: int): (ids: set<int>)
    ensures forall id :: id in ids <==> low < id < high
    decreases high - low
  {
    if low + 1 >= high then {} else Between(low, high - 1) + {high - 1}
  }

  /** The ids strictly between two, each first missed now. */
  function MissedBetween(low: int, high: int, nowMs: int): map<int, int> {
    map id | id in Between(low, high) :: nowMs
  }

  predicate IsNews(s: State, id: int) {
    id in s.gaps || s.cursor.None? || id > s.cursor.value
  }

  function TakeRow(s: State, id: int, nowMs: int): State {
    if id in s.gaps then s.(gaps := s.gaps - {id})
    else if !IsNews(s, id) then s
    else State(Some(id), if s.cursor.None? then s.gaps else s.gaps + MissedBetween(s.cursor.value, id, nowMs))
  }

  function TakeRows(s: State, rows: seq<int>, nowMs: int): State
    decreases |rows|
  {
    if rows == [] then s else TakeRow(TakeRows(s, rows[..|rows| - 1], nowMs), rows[|rows| - 1], nowMs)
  }

  function News(s: State, rows: seq<int>, nowMs: int): seq<int>
    decreases |rows|
  {
    if rows == [] then []
    else
      var front, id := rows[..|rows| - 1], rows[|rows| - 1];
      News(s, front, nowMs) + if IsNews(TakeRows(s, front, nowMs), id) then [id] else []
  }

  /** The gaps still waited for. */
  function Waiting(gaps: map<int, int>, nowMs: int): map<int, int> {
    map id | id in gaps && nowMs - gaps[id] <= GAP_TTL_MS :: gaps[id]
  }

  function TakePage(s: State, rows: seq<int>, nowMs: int): State {
    var read := TakeRows(s, rows, nowMs);
    read.(gaps := Waiting(read.gaps, nowMs))
  }

  /** What a database call of the poll answers. */
  datatype Start = StartFailed | StartsAfter(cursor: Option<int>)
  datatype Answer = ReadFailed | Page(rows: seq<int>, nowMs: int)

  /** The pages of one poll: until one is not full, or a read fails. */
  function Polled(s: State, answers: seq<Answer>, pageSize: nat): (State, seq<seq<int>>)
    decreases |answers|
  {
    if answers == [] || answers[0].ReadFailed? then (s, [])
    else
      var Page(rows, nowMs) := answers[0];
      var news := News(s, rows, nowMs);
      var batch := if news == [] then [] else [news];
      var next := TakePage(s, rows, nowMs);
      if |rows| < pageSize then (next, batch)
      else
        var (last, batches) := Polled(next, answers[1..], pageSize);
        (last, batch + batches)
  }

  lemma PolledNothing(s: State, answers: seq<Answer>, pageSize: nat)
    requires answers == [] || answers[0].ReadFailed?
    ensures Polled(s, answers, pageSize) == (s, [])
  {
  }

  /** One page of a poll, after what was published `before`. */
  lemma PolledTurn(s: State, answers: seq<Answer>, asked: nat, pageSize: nat, before: seq<seq<int>>)
    requires asked < |answers| && answers[asked].Page?
    ensures var Page(rows, nowMs) := answers[asked];
      var news, next := News(s, rows, nowMs), TakePage(s, rows, nowMs);
      var batches := if |news| > 0 then before + [news] else before;
      var rest := if |rows| < pageSize then (next, []) else Polled(next, answers[asked + 1..], pageSize);
      var whole := Polled(s, answers[asked..], pageSize);
      whole.0 == rest.0 && before + whole.1 == batches + rest.1 && batches + [] == batches
  {
    hide News, TakePage;
    assert answers[asked..][1..] == answers[asked + 1..];
    var Page(rows, nowMs) := answers[asked];
    var news := News(s, rows, nowMs);
    var batch := if news == [] then [] else [news];
    var later := Polled(TakePage(s, rows, nowMs), answers[asked + 1..], pageSize).1;
    assert before + (batch + later) == (before + batch) + later;
    assert before + [] == before && batch + [] == batch;
  }

  /**
   * A poll that finds a subscriber: where its pages start from, whether it still has to start
   * over, and whether it reads any. Starting over is forgotten before its read is answered.
   */
  function Begun(s: State, resync: bool, start: Start): (State, bool, bool) {
    if !resync then (s, false, true)
    else if start.StartFailed? then (s, false, false)
    else (State(start.cursor, map[]), false, true)
  }

  /** The poller, and how many subscribe to it. */
  datatype Poller = Poller(feed: State, resync: bool, subscribers: nat)

  /** What is asked of it. A poll brings the answers to its database calls. */
  datatype Call = Subscribed | Left | Polling(start: Start, answers: seq<Answer>)

  const NEW := Poller(State(None, map[]), true, 0)

  /** One call, and the batches it publishes. */
  function Called(p: Poller, c: Call, pageSize: nat): (Poller, seq<seq<int>>) {
    match c
    case Subscribed => (p.(resync := p.resync || p.subscribers == 0, subscribers := p.subscribers + 1), [])
    case Left => (if p.subscribers == 0 then p else p.(subscribers := p.subscribers - 1), [])
    case Polling(start, answers) =>
      if p.subscribers == 0 then (p, [])
      else
        var (from, resync, pages) := Begun(p.feed, p.resync, start);
        var (last, batches) := if pages then Polled(from, answers, pageSize) else (from, []);
        (p.(feed := last, resync := resync), batches)
  }

  /** A run of calls, and all it publishes. */
  function Ran(p: Poller, calls: seq<Call>, pageSize: nat): (Poller, seq<seq<int>>)
    decreases |calls|
  {
    if calls == [] then (p, [])
    else
      var (next, batches) := Called(p, calls[0], pageSize);
      var (last, more) := Ran(next, calls[1..], pageSize);
      (last, batches + more)
  }

  class Feed {
    var cursor: Option<int>
    var gaps: map<int, int>
    var resync: bool
    var subscribers: nat
    const pageSize: nat

    constructor (pageSize: nat)
      ensures this.pageSize == pageSize && Abs() == NEW
    {
      this.pageSize := pageSize;
      cursor, gaps, resync, subscribers := None, map[], true, 0;
    }

    function Abs(): Poller
      reads this
    {
      Poller(State(cursor, gaps), resync, subscribers)
    }

    method Subscribe()
      modifies this
      ensures Abs() == Called(old(Abs()), Subscribed, pageSize).0
    {
      if subscribers == 0 { resync := true; }
      subscribers := subscribers + 1;
    }

    /** A subscriber's scope closes. */
    method Leave()
      requires subscribers > 0
      modifies this
      ensures Abs() == Called(old(Abs()), Left, pageSize).0
    {
      subscribers := subscribers - 1;
    }

    method ReadPage(rows: seq<int>, nowMs: int) returns (news: seq<int>)
      modifies this`cursor, this`gaps
      ensures State(cursor, gaps) == TakePage(State(old(cursor), old(gaps)), rows, nowMs)
      ensures news == News(State(old(cursor), old(gaps)), rows, nowMs)
    {
      ghost var s := State(cursor, gaps);
      news := [];
      for i := 0 to |rows|
        invariant State(cursor, gaps) == TakeRows(s, rows[..i], nowMs)
        invariant news == News(s, rows[..i], nowMs)
      {
        var id := rows[i];
        assert rows[..i + 1][..i] == rows[..i] && rows[..i + 1][i] == id;
        if id in gaps {
          gaps := gaps - {id};
          news := news + [id];
          continue;
        }
        if cursor.Some? && id <= cursor.value { continue; }
        if cursor.Some? { MarkMissed(cursor.value, id, nowMs); }
        cursor := Some(id);
        news := news + [id];
      }
      assert rows[..|rows|] == rows;
      Expire(nowMs);
    }

    /** The loop that notes each id passed over. */
    method MarkMissed(from: int, id: int, nowMs: int)
      modifies this`gaps
      ensures gaps == old(gaps) + MissedBetween(from, id, nowMs)
    {
      var missed := from + 1;
      while missed < id
        invariant missed == from + 1 || from < missed <= id
        invariant gaps == old(gaps) + MissedBetween(from, missed, nowMs)
      {
        gaps := gaps[missed := nowMs];
        missed := missed + 1;
      }
    }

    /** The loop that gives up the gaps waited for too long. */
    method Expire(nowMs: int)
      modifies this`gaps
      ensures gaps == Waiting(old(gaps), nowMs)
    {
      var left: set<int> := gaps.Keys;
      while |left| > 0
        invariant left <= old(gaps).Keys
        invariant gaps.Keys == set id | id in old(gaps) && (id in left || nowMs - old(gaps)[id] <= GAP_TTL_MS)
        invariant forall id :: id in gaps ==> gaps[id] == old(gaps)[id]
        decreases |left|
      {
        var id := AnyOf(left);
        if nowMs - gaps[id] > GAP_TTL_MS { gaps := gaps - {id}; }
        left := left - {id};
      }
      assert forall id: int :: id !in left;
      ghost var waiting := Waiting(old(gaps), nowMs);
      assert forall id :: id in gaps <==> id in waiting;
      assert forall id :: id in gaps ==> gaps[id] == waiting[id];
    }

    /** One poll: `start` answers its start read, should it make one; `answers` its page reads. */
    method Poll(start: Start, answers: seq<Answer>) returns (batches: seq<seq<int>>)
      requires pageSize > 0
      modifies this
      ensures (Abs(), batches) == Called(old(Abs()), Polling(start, answers), pageSize)
    {
      batches := [];
      if subscribers > 0 && resync {
        resync := false;
        if start.StartFailed? { return; }
        cursor := start.cursor;
        gaps := map[];
      }
      if subscribers > 0 { batches := ReadPages(answers); }
    }

    /** The poll's loop: pages, until one is not full or a read fails. */
    method ReadPages(answers: seq<Answer>) returns (batches: seq<seq<int>>)
      requires pageSize > 0
      modifies this`cursor, this`gaps
      ensures (State(cursor, gaps), batches) == Polled(State(old(cursor), old(gaps)), answers, pageSize)
    {
      hide TakePage, News, Polled;
      ghost var whole := Polled(State(cursor, gaps), answers, pageSize);
      batches := [];
      var asked := 0;
      assert answers[0..] == answers && [] + whole.1 == whole.1;
      while asked < |answers| && answers[asked].Page?
        invariant 0 <= asked <= |answers|
        invariant Polled(State(cursor, gaps), answers[asked..], pageSize).0 == whole.0
        invariant batches + Polled(State(cursor, gaps), answers[asked..], pageSize).1 == whole.1
      {
        var rows := answers[asked].rows;
        ghost var before, s := batches, State(cursor, gaps);
        var news := ReadPage(rows, answers[asked].nowMs);
        if |news| > 0 { batches := batches + [news]; }
        PolledTurn(s, answers, asked, pageSize, before);
        if |rows| < pageSize { return; }
        asked := asked + 1;
      }
      PolledNothing(State(cursor, gaps), answers[asked..], pageSize);
      assert batches + [] == batches;
    }
  }

  // ---- One page, in closed form --------------------------------------------------------

  ghost predicate Ascending(rows: seq<int>) {
    forall i, j :: 0 <= i < j < |rows| ==> rows[i] < rows[j]
  }

  /** Ids a read asks for: past the cursor, or missed. */
  predicate Wanted(s: State, id: int) {
    id in s.gaps || id > (if s.cursor.None? then 0 else s.cursor.value)
  }

  ghost predicate GapsBelowCursor(s: State) {
    s.cursor.Some? && forall id :: id in s.gaps ==> id <= s.cursor.value
  }

  function LastOr(rows: seq<int>, c: int): int { if rows == [] then c else Larger(c, rows[|rows| - 1]) }

  /** `r` is what `s` becomes by reading `rows`: they are gaps no more, and what they pass over is. */
  ghost predicate HasRead(s: State, rows: seq<int>, nowMs: int, r: State)
    requires s.cursor.Some?
  {
    var c, c' := s.cursor.value, LastOr(rows, s.cursor.value);
    && r.cursor == Some(c')
    && (forall id :: id in r.gaps <==> id !in rows && (id in s.gaps || c < id <= c'))
    && (forall id :: id in r.gaps ==> r.gaps[id] == if id in s.gaps then s.gaps[id] else nowMs)
  }

  /**
   * Every wanted row, given in order, is news; the cursor moves to the last of them; and what
   * it passes over without seeing becomes a gap.
   */
  lemma {:induction false} RowsInClosedForm(s: State, rows: seq<int>, nowMs: int)
    requires GapsBelowCursor(s) && Ascending(rows) && forall id :: id in rows ==> Wanted(s, id)
    ensures News(s, rows, nowMs) == rows
    ensures HasRead(s, rows, nowMs, TakeRows(s, rows, nowMs))
    decreases |rows|
  {
    if rows != [] {
      var front, id := rows[..|rows| - 1], rows[|rows| - 1];
      assert rows == front + [id];
      RowsInClosedForm(s, front, nowMs);
      OneMoreRow(s, front, id, nowMs, TakeRows(s, front, nowMs));
    }
  }

  lemma OneMoreRow(s: State, front: seq<int>, id: int, nowMs: int, mid: State)
    requires GapsBelowCursor(s) && Ascending(front + [id]) && Wanted(s, id)
    requires HasRead(s, front, nowMs, mid)
    ensures IsNews(mid, id) && HasRead(s, front + [id], nowMs, TakeRow(mid, id, nowMs))
  {
    var rows := front + [id];
    forall x | x in front ensures x < id {
      var i :| 0 <= i < |front| && front[i] == x;
      assert rows[i] == x && rows[|front|] == id;
    }
    if front != [] { assert front[|front| - 1] in front; }
    assert rows[|rows| - 1] == id;
    assert forall x :: x in rows <==> x in front || x == id;
    var c := s.cursor.value;
    var at := LastOr(front, c);
    if id in s.gaps {
      assert at == c == LastOr(rows, c);
    } else {
      forall x | x in front ensures x <= at {
        var i :| 0 <= i < |front| && front[i] == x;
        assert front[i] == rows[i] && front[|front| - 1] == rows[|front| - 1];
      }
      assert id > at && id !in mid.gaps && LastOr(rows, c) == id;
    }
  }

  /** Seen: at or below the cursor, and not waited for. */
  predicate Seen(s: State, id: int) {
    s.cursor.Some? && id <= s.cursor.value && id !in s.gaps
  }

  /** No gap is past the cursor. */
  ghost predicate GapsBehind(s: State) {
    if s.cursor.None? then s.gaps == map[] else GapsBelowCursor(s)
  }

  /**
   * Whatever rows a read brings, in any order and any of them twice: what was
   * seen stays seen and is never news, and each row is news at most once.
   */
  lemma {:induction false} NothingSeenIsNews(s: State, rows: seq<int>, nowMs: int)
    requires GapsBehind(s)
    ensures var news, after := News(s, rows, nowMs), TakeRows(s, rows, nowMs);
      && GapsBehind(after) && Distinct(news)
      && (forall id :: Seen(s, id) ==> Seen(after, id))
      && (forall id :: id in news ==> id in rows && !Seen(s, id))
      && (s.cursor.Some? ==> forall id :: id in rows && !Seen(s, id) ==> id in news)
      && (s.cursor.Some? ==> after.cursor.Some? && forall id :: Seen(after, id) ==> Seen(s, id) || id in rows)
      && (forall id :: id in rows ==> Seen(after, id))
    decreases |rows|
  {
    if rows != [] {
      var front, id := rows[..|rows| - 1], rows[|rows| - 1];
      NothingSeenIsNews(s, front, nowMs);
      RowIsSeen(TakeRows(s, front, nowMs), id, nowMs);
      assert rows == front + [id];
      hide Seen, TakeRow;
    }
  }

  lemma RowIsSeen(s: State, id: int, nowMs: int)
    requires GapsBehind(s)
    ensures var t := TakeRow(s, id, nowMs);
      && GapsBehind(t) && Seen(t, id) && (IsNews(s, id) <==> !Seen(s, id))
      && (forall other :: Seen(s, other) ==> Seen(t, other))
      && (s.cursor.Some? ==> t.cursor.Some? && forall other :: Seen(t, other) ==> Seen(s, other) || other == id)
  {
  }

  /** A feed that starts from nothing starts from just below the first event it reads. */
  lemma NullStartIsFirstId(rows: seq<int>, nowMs: int)
    requires rows != []
    ensures var empty, below := State(None, map[]), State(Some(rows[0] - 1), map[]);
            TakePage(empty, rows, nowMs) == TakePage(below, rows, nowMs) && News(empty, rows, nowMs) == News(below, rows, nowMs)
  {
    NullStartRows(rows, nowMs);
  }

  lemma {:induction false} NullStartRows(rows: seq<int>, nowMs: int)
    requires rows != []
    ensures var empty, below := State(None, map[]), State(Some(rows[0] - 1), map[]);
            TakeRows(empty, rows, nowMs) == TakeRows(below, rows, nowMs) && News(empty, rows, nowMs) == News(below, rows, nowMs)
    decreases |rows|
  {
    var front := rows[..|rows| - 1];
    if front == [] {
      assert MissedBetween(rows[0] - 1, rows[0], nowMs) == map[];
      var none: map<int, int> := map[];
      assert none + none == none;
    } else {
      assert front[0] == rows[0];
      NullStartRows(front, nowMs);
    }
  }

  // ---- The database, and every interleaving --------------------------------------------

  /**
   * The feed and its table. `visibleAt` says when each id's insert committed; `missedAt` and
   * `expired` record when a gap was first missed, and at which read it was given up.
   */
  datatype World = World(
    nowMs: int,
    visibleAt: map<int, int>,
    lastReadMs: int,
    start: int,
    feed: State,
    published: seq<int>,
    missedAt: map<int, int>,
    expired: map<int, int>)

  /** A read's clock is taken first and its rows after it, so commits may fall between the two. */
  datatype Event = Tick(ms: nat) | Commit(id: int) | Read(rows: seq<int>, readMs: int)

  /** What `readJobEventFeed` promises: the first `limit` visible wanted rows, in id order. */
  ghost predicate IsPage(rows: seq<int>, s: State, visible: set<int>, limit: nat) {
    && Ascending(rows) && |rows| <= limit
    && (forall id :: id in rows ==> id in visible && Wanted(s, id))
    && (forall id :: id in visible && Wanted(s, id) && id !in rows ==> |rows| == limit && forall r :: r in rows ==> r < id)
  }

  ghost predicate Enabled(w: World, e: Event, limit: nat) {
    match e
    case Tick(_) => true
    case Commit(id) => id !in w.visibleAt
    case Read(rows, readMs) => w.lastReadMs <= readMs <= w.nowMs && IsPage(rows, w.feed, w.visibleAt.Keys, limit)
  }

  ghost function Next(w: World, e: Event): World {
    match e
    case Tick(ms) => w.(nowMs := w.nowMs + ms)
    case Commit(id) => w.(visibleAt := w.visibleAt[id := w.nowMs])
    case Read(rows, readMs) =>
      var read := TakeRows(w.feed, rows, readMs);
      var after := TakePage(w.feed, rows, readMs);
      w.(lastReadMs := readMs,
         feed := after,
         published := w.published + News(w.feed, rows, readMs),
         missedAt := (map id | id in read.gaps :: readMs) + w.missedAt,
         expired := w.expired + map id | id in read.gaps && id !in after.gaps :: readMs)
  }

  /** The feed just started after id `start`, whatever is visible then. */
  ghost predicate Init(w: World) {
    && w.feed == State(Some(w.start), map[]) && w.published == [] && w.missedAt == map[] && w.expired == map[]
    && w.lastReadMs <= w.nowMs && forall id :: id in w.visibleAt ==> w.visibleAt[id] <= w.nowMs
  }

  /** A run: each world is the one before it after an event that could happen. */
  ghost predicate IsRun(ws: seq<World>, es: seq<Event>, limit: nat) {
    && |ws| == |es| + 1 && Init(ws[0])
    && forall i :: 0 <= i < |es| ==> Enabled(ws[i], es[i], limit) && ws[i + 1] == Next(ws[i], es[i])
  }

  ghost function Last(ws: seq<World>): World
    requires ws != []
  {
    ws[|ws| - 1]
  }

  /** In how many of its three places an id is: published, a gap, given up. */
  ghost function Places(w: World, id: int): nat {
    (if id in w.published then 1 else 0) + (if id in w.feed.gaps then 1 else 0) + (if id in w.expired then 1 else 0)
  }

  /** Between the start and the cursor every id is in exactly one place, and no other id is in any. */
  ghost predicate Partitioned(w: World) {
    w.feed.cursor.Some? && forall id :: Places(w, id) == if w.start < id <= w.feed.cursor.value then 1 else 0
  }

  ghost predicate IdInv(w: World, id: int)
    requires w.feed.cursor.Some?
  {
    && Places(w, id) == (if w.start < id <= w.feed.cursor.value then 1 else 0)
    && (id in w.published ==> id in w.visibleAt)
    && (id in w.visibleAt ==> w.visibleAt[id] <= w.nowMs)
    && (id in w.missedAt ==> w.start < id <= w.feed.cursor.value)
    && (id in w.feed.gaps ==> id in w.missedAt && w.missedAt[id] == w.feed.gaps[id])
    && (id in w.expired ==> id in w.missedAt && w.expired[id] - w.missedAt[id] > GAP_TTL_MS && w.expired[id] <= w.nowMs)
  }

  ghost predicate Inv(w: World) {
    && w.feed.cursor.Some? && w.start <= w.feed.cursor.value && w.lastReadMs <= w.nowMs
    && Distinct(w.published)
    && forall id :: IdInv(w, id)
  }

  /** Ids that were gaps, or that the page passed over, and that it did not bring. */
  ghost predicate Missed(w: World, rows: seq<int>, id: int)
    requires w.feed.cursor.Some?
  {
    id !in rows && (id in w.feed.gaps || w.feed.cursor.value < id <= LastOr(rows, w.feed.cursor.value))
  }

  /** When a missed id was first missed. */
  ghost function MissedSince(w: World, readMs: int, id: int): int {
    if id in w.feed.gaps then w.feed.gaps[id] else readMs
  }

  /** A read publishes its page; a missed id it waits on for as long as the TTL, then gives up. */
  lemma ReadEffect(w: World, rows: seq<int>, readMs: int, limit: nat, id: int)
    requires GapsBelowCursor(w.feed) && Enabled(w, Read(rows, readMs), limit)
    ensures var w' := Next(w, Read(rows, readMs));
            var missed := Missed(w, rows, id);
            var over := readMs - MissedSince(w, readMs, id) > GAP_TTL_MS;
            && w'.published == w.published + rows
            && w'.feed.cursor == Some(LastOr(rows, w.feed.cursor.value))
            && (id in w'.feed.gaps <==> missed && !over)
            && (id in w'.feed.gaps ==> w'.feed.gaps[id] == MissedSince(w, readMs, id))
            && (id in w'.expired <==> id in w.expired || (missed && over))
            && (id in w'.expired ==> w'.expired[id] == if missed && over then readMs else w.expired[id])
            && (id in w'.missedAt <==> id in w.missedAt || missed)
            && (id in w'.missedAt ==> w'.missedAt[id] == if id in w.missedAt then w.missedAt[id] else readMs)
  {
    RowsInClosedForm(w.feed, rows, readMs);
  }

  lemma PageBounds(s: State, rows: seq<int>, visible: set<int>, limit: nat)
    requires GapsBelowCursor(s) && IsPage(rows, s, visible, limit)
    ensures forall id :: id in rows ==> id in visible && id <= LastOr(rows, s.cursor.value) && (id in s.gaps || id > s.cursor.value)
    ensures Distinct(rows)
  {
    forall id | id in rows ensures id <= LastOr(rows, s.cursor.value) {
      var i :| 0 <= i < |rows| && rows[i] == id;
    }
  }

  lemma GapsAreBelow(w: World)
    requires Inv(w)
    ensures GapsBelowCursor(w.feed)
  {
    forall id | id in w.feed.gaps ensures id <= w.feed.cursor.value { assert IdInv(w, id); }
  }

  lemma ReadKeepsInv(w: World, rows: seq<int>, readMs: int, limit: nat)
    requires Inv(w) && Enabled(w, Read(rows, readMs), limit)
    ensures Inv(Next(w, Read(rows, readMs)))
  {
    var w' := Next(w, Read(rows, readMs));
    GapsAreBelow(w);
    PageBounds(w.feed, rows, w.visibleAt.Keys, limit);
    ReadEffect(w, rows, readMs, limit, 0);
    assert w'.visibleAt == w.visibleAt && w'.start == w.start && w'.nowMs == w.nowMs && w'.lastReadMs == readMs;
    hide Next, IsPage;
    forall id ensures IdInv(w', id) {
      assert IdInv(w, id);
      ReadEffect(w, rows, readMs, limit, id);
      assert id in w'.published <==> id in w.published || id in rows;
    }
    forall i, j | 0 <= i < j < |w'.published| ensures w'.published[i] != w'.published[j] {
      if i < |w.published| <= j {
        assert IdInv(w, w.published[i]);
        assert rows[j - |w.published|] in rows;
      }
    }
  }

  lemma EventKeepsInv(w: World, e: Event, limit: nat)
    requires Inv(w) && Enabled(w, e, limit)
    ensures Inv(Next(w, e))
  {
    if e.Read? {
      ReadKeepsInv(w, e.rows, e.readMs, limit);
    } else {
      forall id ensures IdInv(Next(w, e), id) { assert IdInv(w, id); }
    }
  }

  /**
   * However writers' commits fall between the reads: what lies between the start and the cursor
   * is partitioned into published, missed and given up, and nothing is published twice.
   */
  lemma {:induction false} EveryRunKeepsInv(ws: seq<World>, es: seq<Event>, limit: nat)
    requires IsRun(ws, es, limit)
    ensures Inv(Last(ws)) && Partitioned(Last(ws)) && Distinct(Last(ws).published)
    decreases |es|
  {
    if es == [] {
      forall id ensures IdInv(ws[0], id) {}
    } else {
      var n := |es| - 1;
      assert IsRun(ws[..n + 1], es[..n], limit);
      EveryRunKeepsInv(ws[..n + 1], es[..n], limit);
      EventKeepsInv(ws[n], es[n], limit);
    }
    forall id ensures Places(Last(ws), id) == if Last(ws).start < id <= Last(ws).feed.cursor.value then 1 else 0 {
      assert IdInv(Last(ws), id);
    }
  }

  // ---- No visible event is lost --------------------------------------------------------

  ghost function VisibleGaps(w: World): set<int> { set id | id in w.feed.gaps && id in w.visibleAt }

  ghost function VisibleGapsBelow(w: World, id: int): set<int> { set g | g in VisibleGaps(w) && g < id }

  /** A gap whose event is visible is on the page unless a page of smaller ones is visible too. */
  lemma VisibleGapOnPage(w: World, rows: seq<int>, readMs: int, limit: nat, g: int)
    requires GapsBelowCursor(w.feed) && Enabled(w, Read(rows, readMs), limit) && g in VisibleGaps(w)
    ensures g in rows <==> |VisibleGapsBelow(w, g)| < limit
  {
    var below := VisibleGapsBelow(w, g);
    var s := w.feed;
    PageBounds(s, rows, w.visibleAt.Keys, limit);
    DistinctSize(rows);
    if g in rows {
      forall x | x in below ensures x in Elements(rows) - {g} {
        if x !in rows { assert Wanted(s, x); }
      }
      SubsetSize(below, Elements(rows) - {g});
    } else {
      assert Wanted(s, g);
      SubsetSize(Elements(rows), below);
    }
  }

  lemma FittingGapOnPage(w: World, rows: seq<int>, readMs: int, limit: nat, g: int)
    requires GapsBelowCursor(w.feed) && Enabled(w, Read(rows, readMs), limit)
    requires g in VisibleGaps(w) && |VisibleGaps(w)| <= limit
    ensures g in rows
  {
    VisibleGapOnPage(w, rows, readMs, limit, g);
    assert g !in VisibleGapsBelow(w, g);
    SubsetSize(VisibleGapsBelow(w, g) + {g}, VisibleGaps(w));
  }

  /**
   * Exactly which visible events a read gives up: those first missed longer ago than the TTL
   * that a full page of smaller visible gaps kept off it.
   */
  lemma VisibleGapLost(w: World, rows: seq<int>, readMs: int, limit: nat, g: int)
    requires Inv(w) && Enabled(w, Read(rows, readMs), limit) && g in VisibleGaps(w)
    ensures g in Next(w, Read(rows, readMs)).expired <==>
            readMs - w.feed.gaps[g] > GAP_TTL_MS && |VisibleGapsBelow(w, g)| >= limit
  {
    GapsAreBelow(w);
    assert IdInv(w, g);
    VisibleGapOnPage(w, rows, readMs, limit, g);
    ReadEffect(w, rows, readMs, limit, g);
  }

  /** Every read of the run had room for the gaps then visible. */
  ghost predicate GapsFit(ws: seq<World>, es: seq<Event>, limit: nat)
    requires |ws| == |es| + 1
  {
    forall i :: 0 <= i < |es| && es[i].Read? ==> |VisibleGaps(ws[i])| <= limit
  }

  /** An id given up was not visible when it was. */
  ghost predicate GivenUpUnseen(w: World, id: int) {
    id in w.expired && id in w.visibleAt ==> w.visibleAt[id] >= w.expired[id]
  }

  lemma EventKeepsUnseen(w: World, e: Event, limit: nat, id: int)
    requires Inv(w) && Enabled(w, e, limit) && GivenUpUnseen(w, id)
    requires e.Read? ==> |VisibleGaps(w)| <= limit
    ensures GivenUpUnseen(Next(w, e), id)
  {
    assert IdInv(w, id);
    if e.Read? {
      GapsAreBelow(w);
      ReadEffect(w, e.rows, e.readMs, limit, id);
      PageBounds(w.feed, e.rows, w.visibleAt.Keys, limit);
      if id in VisibleGaps(w) {
        FittingGapOnPage(w, e.rows, e.readMs, limit, id);
      }
    }
  }

  lemma {:induction false} EveryRunKeepsUnseen(ws: seq<World>, es: seq<Event>, limit: nat, id: int)
    requires IsRun(ws, es, limit) && GapsFit(ws, es, limit)
    ensures GivenUpUnseen(Last(ws), id)
    decreases |es|
  {
    if es != [] {
      var n := |es| - 1;
      assert IsRun(ws[..n + 1], es[..n], limit);
      EveryRunKeepsInv(ws[..n + 1], es[..n], limit);
      EveryRunKeepsUnseen(ws[..n + 1], es[..n], limit, id);
      EventKeepsUnseen(ws[n], es[n], limit, id);
    }
  }

  /**
   * An event that became visible within the TTL of first being missed is never given up, and the
   * next read publishes it, as long as each read had room for the gaps then visible.
   */
  lemma LateCommitIsPublished(ws: seq<World>, es: seq<Event>, limit: nat, id: int)
    requires IsRun(ws, es, limit) && GapsFit(ws, es, limit)
    requires var w := Last(ws); id in w.missedAt && id in w.visibleAt && w.visibleAt[id] <= w.missedAt[id] + GAP_TTL_MS
    ensures var w := Last(ws);
            && (id in w.published || id in w.feed.gaps)
            && (forall rows, readMs :: Enabled(w, Read(rows, readMs), limit) && |VisibleGaps(w)| <= limit ==>
                 id in Next(w, Read(rows, readMs)).published)
  {
    var w := Last(ws);
    EveryRunKeepsInv(ws, es, limit);
    EveryRunKeepsUnseen(ws, es, limit, id);
    assert IdInv(w, id);
    GapsAreBelow(w);
    forall rows, readMs | Enabled(w, Read(rows, readMs), limit) && |VisibleGaps(w)| <= limit
      ensures id in Next(w, Read(rows, readMs)).published
    {
      ReadEffect(w, rows, readMs, limit, id);
      if id !in w.published {
        FittingGapOnPage(w, rows, readMs, limit, id);
      }
    }
  }

  // ---- A feed that starts from nothing ------------------------------------------------

  /** The feed started on a table with no event in it: it has no cursor. */
  ghost predicate NullInit(w: World) {
    && w.feed == State(None, map[]) && w.published == [] && w.missedAt == map[] && w.expired == map[]
    && w.lastReadMs <= w.nowMs && forall id :: id in w.visibleAt ==> w.visibleAt[id] <= w.nowMs
  }

  ghost predicate IsNullRun(ws: seq<World>, es: seq<Event>, limit: nat) {
    && |ws| == |es| + 1 && NullInit(ws[0])
    && forall i :: 0 <= i < |es| ==> Enabled(ws[i], es[i], limit) && ws[i + 1] == Next(ws[i], es[i])
  }

  /** The world seen as one whose feed was given its start. */
  ghost function FromStart(w: World, start: int): World { w.(start := start) }

  /** The world before the first event is read, with the feed started just below that event. */
  ghost function JustBelow(w: World, first: int): World {
    w.(start := first - 1, feed := State(Some(first - 1), map[]))
  }

  lemma FirstRead(w: World, rows: seq<int>, readMs: int, limit: nat)
    requires NullInit(w) && rows != [] && Enabled(w, Read(rows, readMs), limit)
    ensures var below := JustBelow(w, rows[0]);
      && Init(below) && Enabled(below, Read(rows, readMs), limit)
      && Next(below, Read(rows, readMs)) == FromStart(Next(w, Read(rows, readMs)), rows[0] - 1)
      && Next(w, Read(rows, readMs)).published == rows
      && Next(w, Read(rows, readMs)).feed.cursor.Some?
  {
    var below := JustBelow(w, rows[0]);
    NullStartIsFirstId(rows, readMs);
    NullStartRows(rows, readMs);
    assert rows[0] in rows;
    forall id | id in rows ensures Wanted(below.feed, id) {
      var i :| 0 <= i < |rows| && rows[i] == id;
    }
    assert IsPage(rows, below.feed, below.visibleAt.Keys, limit);
    RowsInClosedForm(below.feed, rows, readMs);
  }

  lemma QuietEvent(w: World, e: Event, limit: nat)
    requires NullInit(w) && Enabled(w, e, limit) && (e.Read? ==> e.rows == [])
    ensures NullInit(Next(w, e))
  {
  }

  lemma StartIsCarried(w: World, e: Event, start: int, limit: nat)
    requires Enabled(w, e, limit)
    ensures Enabled(FromStart(w, start), e, limit)
    ensures Next(FromStart(w, start), e) == FromStart(Next(w, e), start)
  {
  }

  /** `ws'` and `es'` are a run with a given start that ends where the run `ws` and `es` does. */
  ghost predicate SameEnd(ws: seq<World>, es: seq<Event>, ws': seq<World>, es': seq<Event>, limit: nat)
    requires IsNullRun(ws, es, limit)
  {
    && Last(ws).published != []
    && IsRun(ws', es', limit) && Last(ws') == FromStart(Last(ws), Last(ws).published[0] - 1)
    && (GapsFit(ws, es, limit) ==> GapsFit(ws', es', limit))
  }

  /**
   * Every run of a feed that starts from nothing: until an event is read it
   * holds nothing, and from then on it is a run of the feed started just
   * below the first event it published. So all that holds of those runs holds
   * of it.
   */
  lemma {:induction false} NullRunIsARun(ws: seq<World>, es: seq<Event>, limit: nat)
    requires IsNullRun(ws, es, limit)
    ensures if Last(ws).feed.cursor.None? then NullInit(Last(ws)) else exists ws', es' :: SameEnd(ws, es, ws', es', limit)
    decreases |es|
  {
    hide Init, IsRun, IsPage, TakePage, TakeRows, News, GapsFit;
    if es != [] {
      var n := |es| - 1;
      var front, events := ws[..n + 1], es[..n];
      assert IsNullRun(front, events, limit);
      NullRunIsARun(front, events, limit);
      var w, e := ws[n], es[n];
      assert Last(front) == w && Last(ws) == Next(w, e);
      if w.feed.cursor.None? {
        if e.Read? && e.rows != [] {
          RunBegins(ws, es, limit);
        } else {
          QuietEvent(w, e, limit);
        }
      } else {
        var ws', es' :| SameEnd(front, events, ws', es', limit);
        RunGoesOn(ws, es, ws', es', limit);
      }
    }
  }

  lemma RunBegins(ws: seq<World>, es: seq<Event>, limit: nat)
    requires IsNullRun(ws, es, limit) && es != []
    requires var e := es[|es| - 1]; NullInit(ws[|es| - 1]) && e.Read? && e.rows != []
    ensures Last(ws).feed.cursor.Some?
    ensures var e, below := es[|es| - 1], JustBelow(ws[|es| - 1], es[|es| - 1].rows[0]);
      SameEnd(ws, es, [below, Next(below, e)], [e], limit)
  {
    var w, e := ws[|es| - 1], es[|es| - 1];
    assert Last(ws) == Next(w, e);
    FirstRead(w, e.rows, e.readMs, limit);
    var below := JustBelow(w, e.rows[0]);
    assert VisibleGaps(below) == {};
    hide Next, Enabled, Init, NullInit;
  }

  lemma RunGoesOn(ws: seq<World>, es: seq<Event>, ws': seq<World>, es': seq<Event>, limit: nat)
    requires IsNullRun(ws, es, limit) && es != []
    requires IsNullRun(ws[..|es|], es[..|es| - 1], limit)
    requires SameEnd(ws[..|es|], es[..|es| - 1], ws', es', limit)
    ensures Last(ws).feed.cursor.Some?
    ensures SameEnd(ws, es, ws' + [FromStart(Last(ws), Last(ws).published[0] - 1)], es' + [es[|es| - 1]], limit)
  {
    hide Init, NullInit, Inv, IsPage, TakePage, TakeRows, News;
    var n := |es| - 1;
    var w, e, start := ws[n], es[n], ws[n].published[0] - 1;
    assert Last(ws[..n + 1]) == w && Last(ws) == Next(w, e);
    EveryRunKeepsInv(ws', es', limit);
    StartIsCarried(w, e, start, limit);
    OnwardFrom(FromStart(w, start), e, limit);
    var more := ws' + [FromStart(Last(ws), start)];
    RunExtends(ws', es', e, limit);
    GapsFitGoesOn(ws, es, ws', es', more, limit);
  }

  lemma RunExtends(ws: seq<World>, es: seq<Event>, e: Event, limit: nat)
    requires IsRun(ws, es, limit) && Enabled(Last(ws), e, limit)
    ensures IsRun(ws + [Next(Last(ws), e)], es + [e], limit)
  {
    hide Next, Enabled, Init;
    var more, events := ws + [Next(Last(ws), e)], es + [e];
    forall i | 0 <= i < |events| ensures Enabled(more[i], events[i], limit) && more[i + 1] == Next(more[i], events[i]) {
      if i < |es| { assert more[i] == ws[i] && more[i + 1] == ws[i + 1]; }
    }
  }

  lemma OnwardFrom(w: World, e: Event, limit: nat)
    requires Inv(w) && Enabled(w, e, limit)
    ensures w.published <= Next(w, e).published && Next(w, e).feed.cursor.Some?
  {
    GapsAreBelow(w);
    if e.Read? { ReadEffect(w, e.rows, e.readMs, limit, 0); }
  }

  lemma GapsFitGoesOn(
    ws: seq<World>, es: seq<Event>, ws': seq<World>, es': seq<Event>, more: seq<World>, limit: nat)
    requires es != [] && |ws| == |es| + 1 && |ws'| == |es'| + 1
    requires |more| == |ws'| + 1 && more[..|ws'|] == ws'
    requires GapsFit(ws[..|es|], es[..|es| - 1], limit) ==> GapsFit(ws', es', limit)
    requires VisibleGaps(Last(ws')) == VisibleGaps(ws[|es| - 1])
    ensures GapsFit(ws, es, limit) ==> GapsFit(more, es' + [es[|es| - 1]], limit)
  {
    var n, events := |es| - 1, es' + [es[|es| - 1]];
    if GapsFit(ws, es, limit) {
      assert GapsFit(ws[..|es|], es[..n], limit);
      forall i | 0 <= i < |events| && events[i].Read? ensures |VisibleGaps(more[i])| <= limit {
        assert more[i] == ws'[i];
        if i < |es'| { assert es'[i].Read?; }
      }
    }
  }

  /** So over every run: nothing below the first event read is ever published, and no id is lost from there on. */
  lemma NullStartKeepsInv(ws: seq<World>, es: seq<Event>, limit: nat)
    requires IsNullRun(ws, es, limit)
    ensures var w := Last(ws);
      if w.feed.cursor.None? then w.published == [] && w.feed.gaps == map[]
      else
        && w.published != [] && Distinct(w.published)
        && Partitioned(FromStart(w, w.published[0] - 1))
        && forall id :: id < w.published[0] ==> id !in w.published
  {
    NullRunIsARun(ws, es, limit);
    var w := Last(ws);
    if w.feed.cursor.Some? {
      var ws', es' :| SameEnd(ws, es, ws', es', limit);
      EveryRunKeepsInv(ws', es', limit);
      forall id | id < w.published[0] ensures id !in w.published {
        assert Places(Last(ws'), id) == 0;
      }
    }
  }

  /**
   * Starting from nothing is not starting from the first id: the event that
   * commits before one with a smaller id does has that one never published,
   * however soon after it commits.
   */
  lemma NullStartLosesAnEarlierId(id: int, es: seq<Event>, ws: seq<World>, limit: nat)
    requires id > 0 && IsNullRun(ws, es, limit) && |es| >= 3
    requires ws[0].visibleAt == map[]
    requires es[0] == Commit(id + 1) && es[1] == Read([id + 1], ws[0].nowMs) && es[2] == Commit(id)
    ensures id in Last(ws).visibleAt && id !in Last(ws).published
    decreases |es|
  {
    NullStartKeepsInv(ws, es, limit);
    FirstStays(ws, es, limit, id);
  }

  lemma {:induction false} FirstStays(ws: seq<World>, es: seq<Event>, limit: nat, id: int)
    requires id > 0 && IsNullRun(ws, es, limit) && |es| >= 3
    requires ws[0].visibleAt == map[]
    requires es[0] == Commit(id + 1) && es[1] == Read([id + 1], ws[0].nowMs) && es[2] == Commit(id)
    ensures var w := Last(ws);
      w.feed.cursor.Some? && w.published != [] && w.published[0] == id + 1 && id in w.visibleAt
    decreases |es|
  {
    var n := |es| - 1;
    if n == 2 {
      assert ws[1] == Next(ws[0], es[0]) && ws[2] == Next(ws[1], es[1]) && ws[3] == Next(ws[2], es[2]);
      FirstRead(ws[1], [id + 1], ws[0].nowMs, limit);
    } else {
      assert IsNullRun(ws[..n + 1], es[..n], limit);
      FirstStays(ws[..n + 1], es[..n], limit, id);
      NullRunIsARun(ws[..n + 1], es[..n], limit);
      var ws', es' :| SameEnd(ws[..n + 1], es[..n], ws', es', limit);
      RunGoesOn(ws, es, ws', es', limit);
      assert ws[n + 1] == Next(ws[n], es[n]);
    }
  }

  lemma NullStartLateCommitIsPublished(ws: seq<World>, es: seq<Event>, limit: nat, id: int)
    requires IsNullRun(ws, es, limit) && GapsFit(ws, es, limit)
    requires var w := Last(ws); id in w.missedAt && id in w.visibleAt && w.visibleAt[id] <= w.missedAt[id] + GAP_TTL_MS
    ensures var w := Last(ws);
      && (id in w.published || id in w.feed.gaps)
      && (forall rows, readMs :: Enabled(w, Read(rows, readMs), limit) && |VisibleGaps(w)| <= limit ==>
           id in Next(w, Read(rows, readMs)).published)
  {
    NullRunIsARun(ws, es, limit);
    var w := Last(ws);
    var ws', es' :| SameEnd(ws, es, ws', es', limit);
    LateCommitIsPublished(ws', es', limit, id);
    var start := w.published[0] - 1;
    assert VisibleGaps(FromStart(w, start)) == VisibleGaps(w);
    forall rows, readMs | Enabled(w, Read(rows, readMs), limit) && |VisibleGaps(w)| <= limit
      ensures id in Next(w, Read(rows, readMs)).published
    {
      StartIsCarried(w, Read(rows, readMs), start, limit);
    }
  }

  // ---- The page loop ends --------------------------------------------------------------

  /** The visible ids a read would still ask for. */
  ghost function Unread(s: State, visible: set<int>): set<int> { set id | id in visible && Wanted(s, id) }

  /** Each row read is one fewer to read, and reading adds none. */
  lemma PageShrinksUnread(s: State, rows: seq<int>, readMs: int, visible: set<int>, limit: nat)
    requires GapsBelowCursor(s) && IsPage(rows, s, visible, limit)
    ensures var s' := TakePage(s, rows, readMs);
            && GapsBelowCursor(s')
            && Unread(s', visible) <= Unread(s, visible)
            && |Unread(s', visible)| + |rows| <= |Unread(s, visible)|
  {
    var s' := TakePage(s, rows, readMs);
    RowsInClosedForm(s, rows, readMs);
    PageBounds(s, rows, visible, limit);
    DistinctSize(rows);
    var before, after := Unread(s, visible), Unread(s', visible);
    forall id | id in after ensures id in before && id !in rows {
      assert id in s'.gaps || id > LastOr(rows, s.cursor.value);
    }
    assert Elements(rows) <= before;
    assert after !! Elements(rows);
    SubsetSize(after + Elements(rows), before);
  }

  /** A page that is not full leaves nothing visible unread: that is when a poll may stop. */
  lemma ShortPageLeavesNothing(s: State, rows: seq<int>, readMs: int, visible: set<int>, limit: nat)
    requires GapsBelowCursor(s) && IsPage(rows, s, visible, limit) && |rows| < limit
    ensures forall id :: id in visible ==> !Wanted(TakePage(s, rows, readMs), id)
  {
    RowsInClosedForm(s, rows, readMs);
    PageBounds(s, rows, visible, limit);
    forall id | id in visible ensures !Wanted(TakePage(s, rows, readMs), id) {
      assert id in rows <==> Wanted(s, id);
    }
  }

  /** The states a poll passes through, page by page, while nothing new commits. */
  ghost predicate Pages(s: State, pages: seq<(seq<int>, int)>, visible: set<int>, limit: nat)
    decreases |pages|
  {
    pages != [] ==>
      && IsPage(pages[0].0, s, visible, limit) && |pages[0].0| == limit
      && Pages(TakePage(s, pages[0].0, pages[0].1), pages[1..], visible, limit)
  }

  /** A poll goes round again only after a full page: so at most unread / page-size times. */
  lemma {:induction false} FullPagesAreBounded(s: State, pages: seq<(seq<int>, int)>, visible: set<int>, limit: nat)
    requires GapsBelowCursor(s) && Pages(s, pages, visible, limit)
    ensures |pages| * limit <= |Unread(s, visible)|
    decreases |pages|
  {
    if pages != [] {
      var (rows, readMs) := pages[0];
      PageShrinksUnread(s, rows, readMs, visible, limit);
      FullPagesAreBounded(TakePage(s, rows, readMs), pages[1..], visible, limit);
      assert |pages| * limit == |pages[1..]| * limit + limit;
    }
  }

  // ---- Starting over for a first subscriber -------------------------------------------

  /** The same calls, made of a poller that never starts over: its polls only page on. */
  function PagedOn(s: State, subscribers: nat, calls: seq<Call>, pageSize: nat): (State, seq<seq<int>>)
    decreases |calls|
  {
    if calls == [] then (s, [])
    else
      var later := Subscribers(subscribers, calls[..1]);
      var (next, batches) :=
        if calls[0].Polling? && subscribers > 0 then Polled(s, calls[0].answers, pageSize) else (s, []);
      var (last, more) := PagedOn(next, later, calls[1..], pageSize);
      (last, batches + more)
  }

  function Subscribers(subscribers: nat, calls: seq<Call>): nat
    decreases |calls|
  {
    if calls == [] then subscribers
    else
      Subscribers(match calls[0]
                  case Subscribed => subscribers + 1
                  case Left => if subscribers == 0 then 0 else subscribers - 1
                  case Polling(_, _) => subscribers,
                  calls[1..])
  }

  /** Nobody comes while nobody subscribes. */
  predicate NoNewFirst(subscribers: nat, calls: seq<Call>)
    decreases |calls|
  {
    calls == [] ||
    ((calls[0].Subscribed? ==> subscribers > 0) && NoNewFirst(Subscribers(subscribers, calls[..1]), calls[1..]))
  }

  /** No poll of these finds a subscriber. */
  predicate Unpolled(subscribers: nat, calls: seq<Call>)
    decreases |calls|
  {
    calls == [] ||
    ((calls[0].Polling? ==> subscribers == 0) && Unpolled(Subscribers(subscribers, calls[..1]), calls[1..]))
  }

  lemma CountsSubscribers(p: Poller, c: Call, calls: seq<Call>, pageSize: nat)
    requires calls != [] && calls[0] == c
    ensures Called(p, c, pageSize).0.subscribers == Subscribers(p.subscribers, calls[..1])
    ensures Subscribers(p.subscribers, calls) == Subscribers(Subscribers(p.subscribers, calls[..1]), calls[1..])
  {
    hide Polled, Begun;
    assert calls[..1][0] == c && calls[..1][1..] == [];
  }

  lemma {:induction false} OnlyPages(p: Poller, calls: seq<Call>, pageSize: nat)
    requires !p.resync && NoNewFirst(p.subscribers, calls)
    ensures var (last, batches) := Ran(p, calls, pageSize);
      !last.resync && (last.feed, batches) == PagedOn(p.feed, p.subscribers, calls, pageSize)
    decreases |calls|
  {
    hide Polled, Subscribers;
    if calls != [] {
      CountsSubscribers(p, calls[0], calls, pageSize);
      OnlyPages(Called(p, calls[0], pageSize).0, calls[1..], pageSize);
    }
  }

  lemma {:induction false} StaysToStartOver(p: Poller, calls: seq<Call>, pageSize: nat)
    requires p.resync && Unpolled(p.subscribers, calls)
    ensures Ran(p, calls, pageSize) == (p.(subscribers := Subscribers(p.subscribers, calls)), [])
    decreases |calls|
  {
    hide Polled, Begun;
    if calls != [] {
      CountsSubscribers(p, calls[0], calls, pageSize);
      var next := Called(p, calls[0], pageSize).0;
      assert next == p.(subscribers := Subscribers(p.subscribers, calls[..1])) && next.resync;
      StaysToStartOver(next, calls[1..], pageSize);
      assert Called(p, calls[0], pageSize).1 + [] == [];
    }
  }

  lemma {:induction false} RanInTwo(p: Poller, calls: seq<Call>, more: seq<Call>, pageSize: nat)
    ensures var (mid, batches) := Ran(p, calls, pageSize);
      var (last, later) := Ran(mid, more, pageSize);
      Ran(p, calls + more, pageSize) == (last, batches + later)
    decreases |calls|
  {
    hide Called;
    if calls == [] {
      assert calls + more == more;
      assert [] + Ran(p, more, pageSize).1 == Ran(p, more, pageSize).1;
    } else {
      var (next, first) := Called(p, calls[0], pageSize);
      RanInTwo(next, calls[1..], more, pageSize);
      assert (calls + more)[1..] == calls[1..] + more;
      var batches, later := Ran(next, calls[1..], pageSize).1, Ran(Ran(next, calls[1..], pageSize).0, more, pageSize).1;
      assert first + (batches + later) == (first + batches) + later;
    }
  }

  /**
   * A first subscriber comes, and until the next one comes to nobody: the
   * first poll that finds a subscriber decides where everything sent from then
   * on is read from. If its start read is answered, from that start; if it
   * fails, from the cursor and gaps there were before, for as long as anyone
   * subscribes, since no later poll makes that read again.
   */
  lemma StartReadIsNotRetried(
      p: Poller, before: seq<Call>, start: Start, answers: seq<Answer>, after: seq<Call>, pageSize: nat)
    requires p.subscribers == 0 && Unpolled(1, before) && Subscribers(1, before) > 0
    requires NoNewFirst(Subscribers(1, before), after)
    ensures var n, poll := Subscribers(1, before), [Polling(start, answers)];
      var (last, sent) := Ran(p, [Subscribed] + before + poll + after, pageSize);
      && !last.resync
      && (last.feed, sent) == if start.StartFailed? then PagedOn(p.feed, n, after, pageSize)
                              else PagedOn(State(start.cursor, map[]), n, poll + after, pageSize)
  {
    hide Polled, Unpolled, NoNewFirst, Subscribers, PagedOn;
    var n, poll := Subscribers(1, before), [Polling(start, answers)];
    var come := Poller(p.feed, true, 1);
    StaysToStartOver(come, before, pageSize);
    RanInTwo(come, before, poll + after, pageSize);
    assert [Subscribed] + before + poll + after == [Subscribed] + (before + (poll + after));
    RanFirst(p, Subscribed, before + (poll + after), pageSize);
    FirstPoll(p.feed, n, start, answers, after, pageSize);
    var sent := Ran(Poller(p.feed, true, n), poll + after, pageSize).1;
    assert [] + ([] + sent) == sent;
  }

  lemma RanFirst(p: Poller, c: Call, calls: seq<Call>, pageSize: nat)
    ensures var (next, batches) := Called(p, c, pageSize);
      var (last, more) := Ran(next, calls, pageSize);
      Ran(p, [c] + calls, pageSize) == (last, batches + more)
  {
    hide Called;
    assert ([c] + calls)[1..] == calls;
  }

  lemma FirstPoll(s: State, n: nat, start: Start, answers: seq<Answer>, after: seq<Call>, pageSize: nat)
    requires n > 0 && NoNewFirst(n, after)
    ensures var poll := [Polling(start, answers)];
      var (last, sent) := Ran(Poller(s, true, n), poll + after, pageSize);
      && !last.resync
      && (last.feed, sent) == if start.StartFailed? then PagedOn(s, n, after, pageSize)
                              else PagedOn(State(start.cursor, map[]), n, poll + after, pageSize)
  {
    hide Polled, NoNewFirst, PagedOn, Ran;
    var p, poll := Poller(s, true, n), Polling(start, answers);
    RanFirst(p, poll, after, pageSize);
    var next := Called(p, poll, pageSize).0;
    OnlyPages(next, after, pageSize);
    var more := Ran(next, after, pageSize).1;
    assert [] + more == more;
    if !start.StartFailed? { PagedFirst(State(start.cursor, map[]), n, poll, after, pageSize); }
  }

  lemma PagedFirst(s: State, n: nat, poll: Call, after: seq<Call>, pageSize: nat)
    requires n > 0 && poll.Polling?
    ensures var (next, batches) := Polled(s, poll.answers, pageSize);
      var (last, more) := PagedOn(next, n, after, pageSize);
      PagedOn(s, n, [poll] + after, pageSize) == (last, batches + more)
  {
    hide Polled;
    assert ([poll] + after)[1..] == after && ([poll] + after)[..1] == [poll];
    assert [poll][0].Polling? && [poll][1..] == [];
    assert Subscribers(n, [poll]) == Subscribers(n, []) == n;
  }

  // ---- What a subscriber is then sent --------------------------------------------------

  /** The id a read asks past. */
  function Base(s: State): int { if s.cursor.None? then 0 else s.cursor.value }

  /** No gap is visible; with no cursor there is none. */
  ghost predicate NoVisibleGap(s: State, visible: set<int>) {
    if s.cursor.None? then s.gaps == map[] else GapsBelowCursor(s) && forall id :: id in s.gaps ==> id !in visible
  }

  /** The answers a table with these ids gives a poll, page by page. */
  ghost predicate TablesAnswers(s: State, answers: seq<Answer>, visible: set<int>, limit: nat)
    decreases |answers|
  {
    && answers != [] && answers[0].Page? && IsPage(answers[0].rows, s, visible, limit)
    && (|answers[0].rows| == limit ==>
          TablesAnswers(TakePage(s, answers[0].rows, answers[0].nowMs), answers[1..], visible, limit))
  }

  /** Exactly the ids of the table past `base`, in order. */
  ghost predicate AllAfter(ids: seq<int>, base: int, visible: set<int>) {
    Ascending(ids) && forall id :: id in ids <==> id in visible && id > base
  }

  lemma PageIsNews(s: State, rows: seq<int>, readMs: int, visible: set<int>, limit: nat)
    requires NoVisibleGap(s, visible) && IsPage(rows, s, visible, limit)
    ensures News(s, rows, readMs) == rows && NoVisibleGap(TakePage(s, rows, readMs), visible)
    ensures Base(TakePage(s, rows, readMs)) == if rows == [] then Base(s) else rows[|rows| - 1]
  {
    if s.cursor.Some? {
      PageOfCursor(s, rows, readMs, visible, limit);
    } else if rows != [] {
      var below := State(Some(rows[0] - 1), map[]);
      NullStartIsFirstId(rows, readMs);
      assert rows[0] in rows;
      forall id | id in rows ensures Wanted(below, id) {
        var i :| 0 <= i < |rows| && rows[i] == id;
      }
      assert IsPage(rows, below, visible, limit);
      PageOfCursor(below, rows, readMs, visible, limit);
    }
  }

  lemma PageOfCursor(s: State, rows: seq<int>, readMs: int, visible: set<int>, limit: nat)
    requires s.cursor.Some? && NoVisibleGap(s, visible) && IsPage(rows, s, visible, limit)
    ensures News(s, rows, readMs) == rows
    ensures TakePage(s, rows, readMs).cursor.Some? && NoVisibleGap(TakePage(s, rows, readMs), visible)
    ensures Base(TakePage(s, rows, readMs)) == if rows == [] then Base(s) else rows[|rows| - 1]
  {
    RowsInClosedForm(s, rows, readMs);
    PageBounds(s, rows, visible, limit);
    if rows != [] {
      var last := rows[|rows| - 1];
      assert last in rows && Wanted(s, last);
    }
  }

  /** The pages of a table send all of it past the cursor, in order and once. */
  lemma {:induction false} PagesSendAllAfter(s: State, answers: seq<Answer>, visible: set<int>, limit: nat)
    requires limit > 0 && NoVisibleGap(s, visible) && TablesAnswers(s, answers, visible, limit)
    ensures AllAfter(Concat(Polled(s, answers, limit).1), Base(s), visible)
    decreases |answers|
  {
    var Page(rows, readMs) := answers[0];
    var next := TakePage(s, rows, readMs);
    PageIsNews(s, rows, readMs, visible, limit);
    var later := if |rows| < limit then [] else Polled(next, answers[1..], limit).1;
    ConcatLed(if rows == [] then [] else [rows], later);
    if |rows| == limit { PagesSendAllAfter(next, answers[1..], visible, limit); }
    PageAndRest(s, rows, visible, limit, Concat(later));
  }

  lemma ConcatLed(led: seq<seq<int>>, later: seq<seq<int>>)
    requires |led| <= 1
    ensures Concat(led + later) == (if led == [] then [] else led[0]) + Concat(later)
  {
    if led == [] { assert led + later == later; } else { assert (led + later)[1..] == later; }
  }

  lemma PageAndRest(s: State, rows: seq<int>, visible: set<int>, limit: nat, later: seq<int>)
    requires limit > 0 && NoVisibleGap(s, visible) && IsPage(rows, s, visible, limit)
    requires if |rows| < limit then later == [] else AllAfter(later, rows[|rows| - 1], visible)
    ensures AllAfter(rows + later, Base(s), visible)
  {
    var all := rows + later;
    forall id ensures id in all <==> id in visible && id > Base(s) {
      assert id in visible ==> (Wanted(s, id) <==> id > Base(s));
      if id in rows {
        assert Wanted(s, id);
      } else if |rows| == limit {
        LastIsLargest(rows);
        assert rows[|rows| - 1] in rows;
      }
    }
    forall i, j | 0 <= i < j < |all| ensures all[i] < all[j] {
      if i < |rows| <= j {
        LastIsLargest(rows);
        assert later[j - |rows|] in later;
      }
    }
  }

  lemma LastIsLargest(rows: seq<int>)
    requires Ascending(rows)
    ensures forall id :: id in rows ==> id <= rows[|rows| - 1]
  {
  }

  /**
   * So a first subscriber whose start read fails is sent, by the next poll,
   * the whole table past the old cursor; the very first one, with no cursor
   * yet, all of it from its first id on.
   */
  lemma FailedStartSendsTheRest(
      p: Poller, before: seq<Call>, none: seq<Answer>, unread: Start, answers: seq<Answer>, visible: set<int>, pageSize: nat)
    requires pageSize > 0 && p.subscribers == 0 && Unpolled(1, before) && Subscribers(1, before) > 0
    requires NoVisibleGap(p.feed, visible) && TablesAnswers(p.feed, answers, visible, pageSize)
    ensures var calls := [Subscribed] + before + [Polling(StartFailed, none)] + [Polling(unread, answers)];
      var sent := Concat(Ran(p, calls, pageSize).1);
      AllAfter(sent, Base(p.feed), visible) && (p == NEW ==> AllAfter(sent, 0, visible))
  {
    hide Polled, Unpolled, TablesAnswers, AllAfter, Ran, Subscribers;
    var n, poll := Subscribers(1, before), Polling(unread, answers);
    OnePollIsOfOld(n, poll);
    StartReadIsNotRetried(p, before, StartFailed, none, [poll], pageSize);
    OnePage(p.feed, n, poll, pageSize);
    PagesSendAllAfter(p.feed, answers, visible, pageSize);
  }

  /** Had that read been answered, only what comes after its start. */
  lemma AnsweredStartSendsWhatFollows(
      p: Poller, before: seq<Call>, start: int, answers: seq<Answer>, visible: set<int>, pageSize: nat)
    requires pageSize > 0 && p.subscribers == 0 && Unpolled(1, before) && Subscribers(1, before) > 0
    requires TablesAnswers(State(Some(start), map[]), answers, visible, pageSize)
    ensures var calls := [Subscribed] + before + [Polling(StartsAfter(Some(start)), answers)];
      AllAfter(Concat(Ran(p, calls, pageSize).1), start, visible)
  {
    hide Polled, Unpolled, TablesAnswers, AllAfter, Ran, Subscribers;
    var n, poll := Subscribers(1, before), Polling(StartsAfter(Some(start)), answers);
    StartReadIsNotRetried(p, before, StartsAfter(Some(start)), answers, [], pageSize);
    assert [Subscribed] + before + [poll] + [] == [Subscribed] + before + [poll] && [poll] + [] == [poll];
    OnePage(State(Some(start), map[]), n, poll, pageSize);
    PagesSendAllAfter(State(Some(start), map[]), answers, visible, pageSize);
  }

  lemma OnePollIsOfOld(n: nat, poll: Call)
    requires poll.Polling?
    ensures NoNewFirst(n, [poll])
  {
  }

  lemma OnePage(s: State, n: nat, poll: Call, pageSize: nat)
    requires n > 0 && poll.Polling?
    ensures PagedOn(s, n, [poll], pageSize) == Polled(s, poll.answers, pageSize)
  {
    hide Polled;
    var (last, batches) := Polled(s, poll.answers, pageSize);
    assert batches + [] == batches;
  }
}
