/**
 * The card feed's timing: which slot each written frame is, when a card's
 * changes reach the picture, and the stamps that say so. Times are reals, in
 * milliseconds of the recorder's clock. What is drawn on a frame is left at
 * which card, whether it is leaving, and how far into that it is.
 *
 * A step is one callback. How many more frames the socket takes before it
 * holds too much is the step's own `room`.
 */
module CardFeed {
  import opened Common

  const FRAME_MS := 50.0 / 3.0
  const LATE_MS := 100.0
  const EXIT_MS := 150.0

  type Card = int
  type StampId = nat

  datatype Next = Next(card: Card, shown: StampId)

  datatype Phase =
    | Gone
    | Entering(card: Card, startMs: real)
    | Exiting(card: Card, startMs: real, next: Option<Next>)

  datatype Change =
    | Show(notBefore: real, card: Card, hidden: Option<StampId>, shown: StampId)
    | Hide(notBefore: real, gone: StampId)

  /** `number`: which reader this is, in the order they connected. */
  datatype Reader = Reader(number: nat, startMs: real, frame: nat, draining: bool, drainedAt: Option<real>)

  datatype Picture = Blank | Drawn(card: Card, leaving: bool, ms: real)

  /** One frame written: to which reader, as which slot, its time, the clock as it was written, and what it showed. */
  datatype Written = Written(reader: nat, slot: nat, at: real, now: real, onTime: bool, picture: Picture)

  /** What reached the picture, in order: a change asked for, a card entering after an exit, a stamp. */
  datatype Note =
    | Applied(change: Change, at: real)
    | Replaced(exitBegan: real, at: real)
    | Stamped(id: StampId, at: real)

  datatype State = State(
    t0: Option<real>, reader: Option<Reader>, readers: nat, nextStart: real, closed: bool,
    phase: Phase, pending: seq<Change>, stamps: nat, last: Picture,
    written: seq<Written>, notes: seq<Note>)

  datatype Event =
    | Begin(t0: real, now: real, room: nat)
    | Launching(start: real)
    | Connect(now: real, room: nat)
    | ReaderCloses(number: nat)
    | Tick(now: real, room: nat)
    | Drain(clock: Option<real>, now: real, room: nat)
    | AskShow(card: Card, clock: Option<real>)
    | AskHide(clock: Option<real>)
    | Close

  const INIT := State(None, None, 0, 0.0, false, Gone, [], 0, Blank, [], [])

  // ---- One frame's changes ------------------------------------------------------------

  function StampOf(t0: real, r: Reader, i: nat): real {
    t0 + r.startMs + i as real * FRAME_MS
  }

  function Note1(s: State, n: Note): State {
    s.(notes := s.notes + [n])
  }

  /** The phase moved on: an exit over, the next card enters. */
  function Advance(s: State, at: real): State {
    if !s.phase.Exiting? || at - s.phase.startMs < EXIT_MS - 0.5 then s
    else match s.phase.next
      case None => s.(phase := Gone)
      case Some(next) =>
        Note1(Note1(s, Replaced(s.phase.startMs, at)), Stamped(next.shown, at)).(phase := Entering(next.card, at))
  }

  function StampIf(s: State, id: Option<StampId>, at: real): State {
    if id.Some? then Note1(s, Stamped(id.value, at)) else s
  }

  function Apply(s: State, c: Change, at: real): State {
    var t := Note1(s, Applied(c, at));
    match c
    case Show(_, card, hidden, shown) =>
      var u :=
        (match t.phase
         case Entering(up, _) => t.(phase := Exiting(up, at, Some(Next(card, shown))))
         case Exiting(up, start, _) => t.(phase := Exiting(up, start, Some(Next(card, shown))))
         case Gone => Note1(t.(phase := Entering(card, at)), Stamped(shown, at)));
      StampIf(u, hidden, at)
    case Hide(_, gone) =>
      var u :=
        (match t.phase
         case Entering(up, _) => t.(phase := Exiting(up, at, None))
         case Exiting(up, start, _) => t.(phase := Exiting(up, start, None))
         case Gone => t);
      Note1(u, Stamped(gone, at))
  }

  predicate Due(c: Change, at: real) {
    at >= c.notBefore - FRAME_MS / 2.0
  }

  function DueOf(pending: seq<Change>, at: real): seq<Change> {
    if pending == [] then []
    else (if Due(pending[0], at) then [pending[0]] else []) + DueOf(pending[1..], at)
  }

  function StillPending(pending: seq<Change>, at: real): seq<Change> {
    if pending == [] then []
    else (if Due(pending[0], at) then [] else [pending[0]]) + StillPending(pending[1..], at)
  }

  function ApplyAll(s: State, due: seq<Change>, at: real): State
    decreases |due|
  {
    if due == [] then s else ApplyAll(Apply(s, due[0], at), due[1..], at)
  }

  function PictureOf(p: Phase, at: real): Picture {
    match p
    case Gone => Blank
    case Entering(card, start) => Drawn(card, false, at - start + FRAME_MS)
    case Exiting(card, start, _) => Drawn(card, true, at - start + FRAME_MS)
  }

  /** What the slot at `at` changes, and what it shows. */
  function FrameAt(s: State, at: real): State {
    var a := Advance(s, at);
    var b := ApplyAll(a.(pending := StillPending(a.pending, at)), DueOf(a.pending, at), at);
    b.(last := PictureOf(b.phase, at))
  }

  predicate OnTime(now: real, at: real, drainedAt: Option<real>) {
    var could := if drainedAt.Some? && drainedAt.value > at then drainedAt.value else at;
    now - could <= LATE_MS
  }

  /** One slot written: drawn afresh when it is on time, the last frame again when it is late. */
  function WriteSlot(s: State, now: real): State
    requires s.reader.Some? && s.t0.Some?
  {
    var r := s.reader.value;
    var at := StampOf(s.t0.value, r, r.frame);
    var onTime := OnTime(now, at, r.drainedAt);
    var t := if onTime then FrameAt(s, at) else s;
    t.(reader := Some(r.(frame := r.frame + 1)),
       written := t.written + [Written(r.number, r.frame, at, now, onTime, t.last)])
  }

  predicate Running(s: State) {
    !s.closed && s.reader.Some? && s.t0.Some?
  }

  /** Every slot the clock has reached, until the socket holds too much. */
  function Ticked(s: State, now: real, room: nat): State
    decreases room
  {
    if !Running(s) || StampOf(s.t0.value, s.reader.value, s.reader.value.frame) > now then s
    else if room == 0 then s.(reader := Some(s.reader.value.(draining := true)))
    else Ticked(WriteSlot(s, now), now, room - 1)
  }

  function NextState(s: State, e: Event): State {
    match e
    case Begin(t0, now, room) => Ticked(s.(t0 := Some(t0)), now, room)
    case Launching(start) => s.(nextStart := start)
    case Connect(now, room) =>
      if s.closed then s
      else Ticked(s.(reader := Some(Reader(s.readers, s.nextStart, 0, false, None)), readers := s.readers + 1), now, room)
    case ReaderCloses(number) =>
      if s.reader.Some? && s.reader.value.number == number then s.(reader := None) else s
    case Tick(now, room) => Ticked(s, now, room)
    case Drain(clock, now, room) =>
      if s.reader.None? || !s.reader.value.draining then s
      else
        var r := s.reader.value.(draining := false);
        Ticked(s.(reader := Some(if clock.Some? then r.(drainedAt := clock) else r)), now, room)
    case AskShow(card, clock) =>
      var hidden := if s.phase.Entering? then Some(s.stamps) else None;
      var shown := if s.phase.Entering? then s.stamps + 1 else s.stamps;
      s.(pending := s.pending + [Show(if clock.Some? then clock.value else 0.0, card, hidden, shown)], stamps := shown + 1)
    case AskHide(clock) =>
      s.(pending := s.pending + [Hide(if clock.Some? then clock.value else 0.0, s.stamps)], stamps := s.stamps + 1)
    case Close => s.(closed := true)
  }

  function After(events: seq<Event>): State {
    if events == [] then INIT else NextState(After(events[..|events| - 1]), events[|events| - 1])
  }

  // ---- The slots ----------------------------------------------------------------------

  /** How many of the first frames written went to `reader`. */
  function SlotsOf(written: seq<Written>, reader: nat): nat {
    if written == [] then 0
    else SlotsOf(written[..|written| - 1], reader) + (if written[|written| - 1].reader == reader then 1 else 0)
  }

  function LastPicture(written: seq<Written>): Picture {
    if written == [] then Blank else written[|written| - 1].picture
  }

  /** A reader's next slot, not before its time; a late one shows what the frame before it showed. */
  predicate NextInLine(before: seq<Written>, w: Written) {
    && w.slot == SlotsOf(before, w.reader)
    && w.at <= w.now
    && (!w.onTime ==> w.picture == LastPicture(before))
  }

  predicate InSlots(written: seq<Written>) {
    forall i :: 0 <= i < |written| ==> NextInLine(written[..i], written[i])
  }

  predicate SlotInv(s: State) {
    && InSlots(s.written) && s.last == LastPicture(s.written)
    && (forall i :: 0 <= i < |s.written| ==> s.written[i].reader < s.readers)
    && (s.reader.Some? ==> s.reader.value.number < s.readers
                           && s.reader.value.frame == SlotsOf(s.written, s.reader.value.number))
  }

  // ---- The notes ----------------------------------------------------------------------

  predicate GoodNote(n: Note) {
    match n
    case Applied(change, at) => at >= change.notBefore - FRAME_MS / 2.0
    case Replaced(exitBegan, at) => at - exitBegan >= EXIT_MS - 0.5
    case Stamped(_, _) => true
  }

  function StampsGiven(notes: seq<Note>): seq<StampId> {
    if notes == [] then []
    else
      var last := notes[|notes| - 1];
      StampsGiven(notes[..|notes| - 1]) + (if last.Stamped? then [last.id] else [])
  }

  function StampsAsked(c: Change): seq<StampId> {
    match c
    case Show(_, _, hidden, shown) => (if hidden.Some? then [hidden.value] else []) + [shown]
    case Hide(_, gone) => [gone]
  }

  function StampsPending(pending: seq<Change>): seq<StampId> {
    if pending == [] then [] else StampsAsked(pending[0]) + StampsPending(pending[1..])
  }

  function StampNext(p: Phase): seq<StampId> {
    if p.Exiting? && p.next.Some? then [p.next.value.shown] else []
  }

  /** How often a stamp has been given or may still be. */
  function Held(s: State, id: StampId): nat {
    Count(StampsGiven(s.notes), id) + Count(StampNext(s.phase), id) + Count(StampsPending(s.pending), id)
  }

  // ---- The slots, kept ----------------------------------------------------------------

  /** Drawing a frame touches neither the reader nor what was written. */
  predicate SameSlots(s: State, t: State) {
    s.reader == t.reader && s.readers == t.readers && s.written == t.written && s.t0 == t.t0
    && s.closed == t.closed && s.nextStart == t.nextStart && s.stamps == t.stamps
  }

  lemma {:induction false} ApplyAllKeepsSlots(s: State, due: seq<Change>, at: real)
    ensures SameSlots(s, ApplyAll(s, due, at)) && ApplyAll(s, due, at).pending == s.pending
    decreases |due|
  {
    if due != [] { ApplyAllKeepsSlots(Apply(s, due[0], at), due[1..], at); }
  }

  lemma FrameAtKeepsSlots(s: State, at: real)
    ensures SameSlots(s, FrameAt(s, at))
  {
    hide ApplyAll, DueOf, StillPending;
    var a := Advance(s, at);
    ApplyAllKeepsSlots(a.(pending := StillPending(a.pending, at)), DueOf(a.pending, at), at);
  }

  lemma SlotsOneMore(written: seq<Written>, w: Written, reader: nat)
    ensures SlotsOf(written + [w], reader) == SlotsOf(written, reader) + (if w.reader == reader then 1 else 0)
  {
    assert (written + [w])[..|written + [w]| - 1] == written;
  }

  lemma {:induction false} NewReaderHasNone(written: seq<Written>, reader: nat)
    requires forall i :: 0 <= i < |written| ==> written[i].reader < reader
    ensures SlotsOf(written, reader) == 0
  {
    if written != [] { NewReaderHasNone(written[..|written| - 1], reader); }
  }

  lemma WriteSlotKeeps(s: State, now: real)
    requires SlotInv(s) && Running(s) && StampOf(s.t0.value, s.reader.value, s.reader.value.frame) <= now
    ensures SlotInv(WriteSlot(s, now)) && Running(WriteSlot(s, now))
  {
    hide FrameAt, SlotsOf, InSlots;
    var r := s.reader.value;
    var at := StampOf(s.t0.value, r, r.frame);
    FrameAtKeepsSlots(s, at);
    var t := WriteSlot(s, now);
    var w := t.written[|s.written|];
    assert t.written == s.written + [w];
    SlotsOneMore(s.written, w, r.number);
    InSlotsOneMore(s.written, w);
  }

  lemma InSlotsOneMore(written: seq<Written>, w: Written)
    requires InSlots(written) && NextInLine(written, w)
    ensures InSlots(written + [w])
  {
    hide NextInLine;
    var all := written + [w];
    forall i | 0 <= i < |all| ensures NextInLine(all[..i], all[i]) {
      if i < |written| { assert all[..i] == written[..i]; } else { assert all[..i] == written; }
    }
  }

  lemma {:induction false} TickedKeepsSlots(s: State, now: real, room: nat)
    requires SlotInv(s)
    ensures SlotInv(Ticked(s, now, room))
    decreases room
  {
    hide WriteSlot, InSlots;
    if Running(s) && StampOf(s.t0.value, s.reader.value, s.reader.value.frame) <= now && room > 0 {
      WriteSlotKeeps(s, now);
      TickedKeepsSlots(WriteSlot(s, now), now, room - 1);
    }
  }

  lemma NextKeepsSlots(s: State, e: Event)
    requires SlotInv(s)
    ensures SlotInv(NextState(s, e))
  {
    hide Ticked, InSlots;
    match e {
      case Begin(t0, now, room) => TickedKeepsSlots(s.(t0 := Some(t0)), now, room);
      case Connect(now, room) =>
        NewReaderHasNone(s.written, s.readers);
        TickedKeepsSlots(
          s.(reader := Some(Reader(s.readers, s.nextStart, 0, false, None)), readers := s.readers + 1), now, room);
      case Tick(now, room) => TickedKeepsSlots(s, now, room);
      case Drain(clock, now, room) =>
        if s.reader.Some? {
          var r := s.reader.value.(draining := false);
          TickedKeepsSlots(s.(reader := Some(if clock.Some? then r.(drainedAt := clock) else r)), now, room);
        }
      case _ =>
    }
  }

  /**
   * Over every run of ticks, drains, late slots and readers coming and going:
   * the frames each reader is written are its slots 0, 1, 2 and so on, with
   * none skipped, each written no earlier than its time; and a late one
   * repeats the frame before it.
   */
  lemma {:induction false} EveryRunIsInSlots(events: seq<Event>)
    ensures SlotInv(After(events))
  {
    hide NextState, SlotInv;
    if events == [] {
      InitIsInSlots();
    } else {
      EveryRunIsInSlots(events[..|events| - 1]);
      NextKeepsSlots(After(events[..|events| - 1]), events[|events| - 1]);
    }
  }

  lemma InitIsInSlots()
    ensures SlotInv(INIT)
  {
  }

  // ---- The notes, kept ----------------------------------------------------------------

  lemma {:induction false} CountInTwo(a: seq<StampId>, b: seq<StampId>, id: StampId)
    ensures Count(a + b, id) == Count(a, id) + Count(b, id)
  {
    if b == [] {
      assert a + b == a;
    } else {
      CountInTwo(a, b[..|b| - 1], id);
      assert a + b == (a + b[..|b| - 1]) + [b[|b| - 1]];
      CountOneMore(a + b[..|b| - 1], b[|b| - 1], id);
    }
  }

  lemma CountOne(x: StampId, id: StampId)
    ensures Count([x], id) == (if x == id then 1 else 0) && Count([], id) == 0
  {
    assert [] + [x] == [x];
    CountOneMore([], x, id);
  }

  /** What one more note does to the stamps given. */
  lemma NoteCounts(s: State, n: Note, id: StampId)
    ensures Count(StampsGiven(Note1(s, n).notes), id)
         == Count(StampsGiven(s.notes), id) + (if n.Stamped? && n.id == id then 1 else 0)
  {
    hide Count;
    assert (s.notes + [n])[..|s.notes + [n]| - 1] == s.notes;
    if n.Stamped? { CountOneMore(StampsGiven(s.notes), n.id, id); }
    assert StampsGiven(s.notes) + [] == StampsGiven(s.notes);
  }

  lemma NextCounts(p: Phase, id: StampId)
    ensures Count(StampNext(p), id) == if p.Exiting? && p.next.Some? && p.next.value.shown == id then 1 else 0
  {
    hide Count;
    CountOne(if p.Exiting? && p.next.Some? then p.next.value.shown else 0, id);
  }

  lemma AskedCounts(c: Change, id: StampId)
    ensures Count(StampsAsked(c), id) == match c
      case Show(_, _, hidden, shown) => (if hidden == Some(id) then 1 else 0) + (if shown == id then 1 else 0)
      case Hide(_, gone) => if gone == id then 1 else 0
  {
    hide Count;
    match c {
      case Show(_, _, hidden, shown) =>
        CountOne(shown, id);
        if hidden.Some? { CountOneMore([hidden.value], shown, id); CountOne(hidden.value, id); }
        assert StampsAsked(c) == if hidden.Some? then [hidden.value] + [shown] else [shown];
      case Hide(_, gone) => CountOne(gone, id);
    }
  }

  /** Given already, or waiting for an exit to end. */
  function GivenOrNext(s: State, id: StampId): nat {
    Count(StampsGiven(s.notes), id) + Count(StampNext(s.phase), id)
  }

  predicate NotesGood(s: State) {
    forall i :: 0 <= i < |s.notes| ==> GoodNote(s.notes[i])
  }

  lemma AdvanceKeepsNotes(s: State, at: real, id: StampId)
    ensures NotesGood(s) ==> NotesGood(Advance(s, at))
    ensures GivenOrNext(Advance(s, at), id) == GivenOrNext(s, id)
  {
    hide Count, StampsGiven, StampNext;
    NextCounts(s.phase, id);
    NextCounts(Advance(s, at).phase, id);
    if s.phase.Exiting? && s.phase.next.Some? {
      var r := Replaced(s.phase.startMs, at);
      NoteCounts(s, r, id);
      NoteCounts(Note1(s, r), Stamped(s.phase.next.value.shown, at), id);
    }
  }

  lemma ShowKeepsNotes(s: State, c: Change, at: real, id: StampId)
    requires c.Show?
    ensures NotesGood(s) && Due(c, at) ==> NotesGood(Apply(s, c, at))
    ensures GivenOrNext(Apply(s, c, at), id) <= GivenOrNext(s, id) + Count(StampsAsked(c), id)
  {
    hide Count, StampsGiven, StampNext, StampsAsked, Due;
    AskedCounts(c, id);
    NextCounts(s.phase, id);
    NextCounts(Apply(s, c, at).phase, id);
    var t := Note1(s, Applied(c, at));
    NoteCounts(s, Applied(c, at), id);
    DueIsGood(c, at);
    if t.phase.Gone? {
      var entered := t.(phase := Entering(c.card, at));
      NoteCounts(entered, Stamped(c.shown, at), id);
      if c.hidden.Some? { NoteCounts(Note1(entered, Stamped(c.shown, at)), Stamped(c.hidden.value, at), id); }
    } else if c.hidden.Some? {
      NoteCounts(t, Stamped(c.hidden.value, at), id);
    }
  }

  lemma HideKeepsNotes(s: State, c: Change, at: real, id: StampId)
    requires c.Hide?
    ensures NotesGood(s) && Due(c, at) ==> NotesGood(Apply(s, c, at))
    ensures GivenOrNext(Apply(s, c, at), id) <= GivenOrNext(s, id) + Count(StampsAsked(c), id)
  {
    hide Count, StampsGiven, StampNext, StampsAsked, Due;
    AskedCounts(c, id);
    NextCounts(s.phase, id);
    NextCounts(Apply(s, c, at).phase, id);
    var t := Note1(s, Applied(c, at));
    NoteCounts(s, Applied(c, at), id);
    NoteCounts(t, Stamped(c.gone, at), id);
    DueIsGood(c, at);
  }

  lemma DueIsGood(c: Change, at: real)
    ensures Due(c, at) <==> GoodNote(Applied(c, at))
  {
  }

  /** A change gives or hands on no stamp but its own. */
  lemma ApplyKeepsNotes(s: State, c: Change, at: real, id: StampId)
    ensures NotesGood(s) && Due(c, at) ==> NotesGood(Apply(s, c, at))
    ensures GivenOrNext(Apply(s, c, at), id) <= GivenOrNext(s, id) + Count(StampsAsked(c), id)
  {
    hide Count, StampsAsked, Due, Apply, NotesGood, GivenOrNext;
    if c.Show? { ShowKeepsNotes(s, c, at, id); } else { HideKeepsNotes(s, c, at, id); }
  }

  lemma {:induction false} ApplyAllKeepsNotes(s: State, due: seq<Change>, at: real, id: StampId)
    requires forall i :: 0 <= i < |due| ==> Due(due[i], at)
    ensures NotesGood(s) ==> NotesGood(ApplyAll(s, due, at))
    ensures GivenOrNext(ApplyAll(s, due, at), id) <= GivenOrNext(s, id) + Count(StampsPending(due), id)
    decreases |due|
  {
    hide Apply, GivenOrNext, NotesGood, Due, Count, StampsAsked;
    if due != [] {
      ApplyKeepsNotes(s, due[0], at, id);
      ApplyAllKeepsNotes(Apply(s, due[0], at), due[1..], at, id);
      CountInTwo(StampsAsked(due[0]), StampsPending(due[1..]), id);
    }
  }

  lemma {:induction false} PendingSplits(pending: seq<Change>, at: real, id: StampId)
    ensures Count(StampsPending(pending), id)
         == Count(StampsPending(DueOf(pending, at)), id) + Count(StampsPending(StillPending(pending, at)), id)
    ensures forall i :: 0 <= i < |DueOf(pending, at)| ==> Due(DueOf(pending, at)[i], at)
  {
    hide Count, StampsAsked, Due;
    if pending == [] {
      CountOne(0, id);
    } else {
      var first, rest := pending[0], pending[1..];
      PendingSplits(rest, at, id);
      CountInTwo(StampsAsked(first), StampsPending(rest), id);
      if Due(first, at) {
        LedPending(first, DueOf(rest, at), id);
        assert StillPending(pending, at) == StillPending(rest, at);
      } else {
        LedPending(first, StillPending(rest, at), id);
        assert DueOf(pending, at) == DueOf(rest, at);
      }
    }
  }

  lemma LedPending(first: Change, rest: seq<Change>, id: StampId)
    ensures Count(StampsPending([first] + rest), id) == Count(StampsAsked(first), id) + Count(StampsPending(rest), id)
  {
    hide Count, StampsAsked;
    assert ([first] + rest)[1..] == rest;
    CountInTwo(StampsAsked(first), StampsPending(rest), id);
  }

  lemma FrameAtKeepsNotes(s: State, at: real, id: StampId)
    ensures NotesGood(s) ==> NotesGood(FrameAt(s, at))
    ensures Held(FrameAt(s, at), id) <= Held(s, id)
  {
    hide Count, StampsGiven, StampNext, StampsPending, Advance, ApplyAll, DueOf, StillPending, NotesGood;
    var a := Advance(s, at);
    AdvanceKeepsNotes(s, at, id);
    AdvanceKeepsPending(s, at);
    PendingSplits(a.pending, at, id);
    var b := a.(pending := StillPending(a.pending, at));
    NotesAreTheSame(a, b);
    ApplyAllKeepsNotes(b, DueOf(a.pending, at), at, id);
    ApplyAllKeepsSlots(b, DueOf(a.pending, at), at);
    var c := ApplyAll(b, DueOf(a.pending, at), at);
    NotesAreTheSame(c, FrameAt(s, at));
  }

  lemma AdvanceKeepsPending(s: State, at: real)
    ensures Advance(s, at).pending == s.pending
  {
  }

  lemma NotesAreTheSame(s: State, t: State)
    requires s.notes == t.notes
    ensures NotesGood(s) == NotesGood(t)
  {
  }

  lemma {:induction false} TickedKeepsNotes(s: State, now: real, room: nat, id: StampId)
    ensures NotesGood(s) ==> NotesGood(Ticked(s, now, room))
    ensures Held(Ticked(s, now, room), id) <= Held(s, id)
    ensures Ticked(s, now, room).stamps == s.stamps
    decreases room
  {
    hide NotesGood, Held, FrameAt;
    if Running(s) && StampOf(s.t0.value, s.reader.value, s.reader.value.frame) <= now {
      if room > 0 {
        WriteSlotKeepsNotes(s, now, id);
        TickedKeepsNotes(WriteSlot(s, now), now, room - 1, id);
      } else {
        SameNotes(s, Ticked(s, now, room), id);
      }
    }
  }

  lemma SameNotes(s: State, t: State, id: StampId)
    requires s.notes == t.notes && s.phase == t.phase && s.pending == t.pending
    ensures NotesGood(s) == NotesGood(t) && Held(s, id) == Held(t, id)
  {
  }

  lemma WriteSlotKeepsNotes(s: State, now: real, id: StampId)
    requires s.reader.Some? && s.t0.Some?
    ensures NotesGood(s) ==> NotesGood(WriteSlot(s, now))
    ensures Held(WriteSlot(s, now), id) <= Held(s, id) && WriteSlot(s, now).stamps == s.stamps
  {
    hide NotesGood, Held, FrameAt;
    var at := StampOf(s.t0.value, s.reader.value, s.reader.value.frame);
    FrameAtKeepsNotes(s, at, id);
    FrameAtKeepsSlots(s, at);
    SameNotes(if OnTime(now, at, s.reader.value.drainedAt) then FrameAt(s, at) else s, WriteSlot(s, now), id);
  }

  lemma {:induction false} AskedAtTheEnd(pending: seq<Change>, c: Change, id: StampId)
    ensures Count(StampsPending(pending + [c]), id) == Count(StampsPending(pending), id) + Count(StampsAsked(c), id)
  {
    hide Count, StampsAsked;
    if pending == [] {
      assert pending + [c] == [c] + [];
      LedPending(c, [], id);
    } else {
      assert (pending + [c])[1..] == pending[1..] + [c];
      AskedAtTheEnd(pending[1..], c, id);
      CountInTwo(StampsAsked(pending[0]), StampsPending(pending[1..] + [c]), id);
      CountInTwo(StampsAsked(pending[0]), StampsPending(pending[1..]), id);
    }
  }

  predicate AtMostOnce(s: State, id: StampId) {
    Held(s, id) <= if id < s.stamps then 1 else 0
  }

  lemma AskKeepsOnce(s: State, c: Change, stamps: nat, id: StampId)
    requires AtMostOnce(s, id) && stamps >= s.stamps
    requires Count(StampsAsked(c), id) <= if s.stamps <= id < stamps then 1 else 0
    ensures AtMostOnce(s.(pending := s.pending + [c], stamps := stamps), id)
  {
    hide Count, StampsAsked, StampsGiven, StampNext;
    AskedAtTheEnd(s.pending, c, id);
  }

  lemma NextKeepsOnce(s: State, e: Event, id: StampId)
    requires AtMostOnce(s, id)
    ensures AtMostOnce(NextState(s, e), id)
  {
    hide Ticked, Held;
    match e {
      case Begin(t0, now, room) =>
        SameNotes(s, s.(t0 := Some(t0)), id);
        TickedKeepsNotes(s.(t0 := Some(t0)), now, room, id);
      case Connect(now, room) =>
        var t := s.(reader := Some(Reader(s.readers, s.nextStart, 0, false, None)), readers := s.readers + 1);
        SameNotes(s, t, id);
        TickedKeepsNotes(t, now, room, id);
      case Tick(now, room) => TickedKeepsNotes(s, now, room, id);
      case Drain(clock, now, room) =>
        if s.reader.Some? {
          var r := s.reader.value.(draining := false);
          var t := s.(reader := Some(if clock.Some? then r.(drainedAt := clock) else r));
          SameNotes(s, t, id);
          TickedKeepsNotes(t, now, room, id);
        }
      case AskShow(card, clock) => ShowAsksOnce(s, card, clock, id);
      case AskHide(clock) =>
        var c := Hide(if clock.Some? then clock.value else 0.0, s.stamps);
        AskedCounts(c, id);
        AskKeepsOnce(s, c, s.stamps + 1, id);
      case _ => SameNotes(s, NextState(s, e), id);
    }
  }

  lemma ShowAsksOnce(s: State, card: Card, clock: Option<real>, id: StampId)
    requires AtMostOnce(s, id)
    ensures AtMostOnce(NextState(s, AskShow(card, clock)), id)
  {
    hide Held;
    var hidden := if s.phase.Entering? then Some(s.stamps) else None;
    var shown := if s.phase.Entering? then s.stamps + 1 else s.stamps;
    var c := Show(if clock.Some? then clock.value else 0.0, card, hidden, shown);
    AskedCounts(c, id);
    AskKeepsOnce(s, c, shown + 1, id);
  }

  lemma NextKeepsGood(s: State, e: Event)
    requires NotesGood(s)
    ensures NotesGood(NextState(s, e))
  {
    hide Ticked, NotesGood;
    match e {
      case Begin(t0, now, room) =>
        NotesAreTheSame(s, s.(t0 := Some(t0)));
        TickedKeepsNotes(s.(t0 := Some(t0)), now, room, 0);
      case Connect(now, room) =>
        var t := s.(reader := Some(Reader(s.readers, s.nextStart, 0, false, None)), readers := s.readers + 1);
        NotesAreTheSame(s, t);
        TickedKeepsNotes(t, now, room, 0);
      case Tick(now, room) => TickedKeepsNotes(s, now, room, 0);
      case Drain(clock, now, room) =>
        if s.reader.Some? {
          var r := s.reader.value.(draining := false);
          var t := s.(reader := Some(if clock.Some? then r.(drainedAt := clock) else r));
          NotesAreTheSame(s, t);
          TickedKeepsNotes(t, now, room, 0);
        }
      case _ => NotesAreTheSame(s, NextState(s, e));
    }
  }

  lemma {:induction false} EveryRunKeepsNotes(events: seq<Event>, id: StampId)
    ensures NotesGood(After(events)) && AtMostOnce(After(events), id)
  {
    hide NextState, NotesGood, AtMostOnce;
    if events == [] {
      InitKeepsNotes(id);
    } else {
      EveryRunKeepsNotes(events[..|events| - 1], id);
      NextKeepsGood(After(events[..|events| - 1]), events[|events| - 1]);
      NextKeepsOnce(After(events[..|events| - 1]), events[|events| - 1], id);
    }
  }

  lemma InitKeepsNotes(id: StampId)
    ensures NotesGood(INIT) && AtMostOnce(INIT, id)
  {
    CountOne(0, id);
  }

  /**
   * Over every run: no change reaches a slot more than half a frame before it
   * was asked for, a card that replaces another starts an exit's length (less
   * half a millisecond) after that exit began, and each stamp is given at most
   * once.
   */
  lemma ChangesKeepTheirTime(events: seq<Event>)
    ensures var notes := After(events).notes;
      && (forall i :: 0 <= i < |notes| && notes[i].Applied? ==> notes[i].at >= notes[i].change.notBefore - FRAME_MS / 2.0)
      && (forall i :: 0 <= i < |notes| && notes[i].Replaced? ==> notes[i].at - notes[i].exitBegan >= EXIT_MS - 0.5)
      && (forall id: StampId :: Count(StampsGiven(notes), id) <= 1)
  {
    hide After, Count, StampsGiven, StampNext, StampsPending;
    EveryRunKeepsNotes(events, 0);
    assert forall i :: 0 <= i < |After(events).notes| ==> GoodNote(After(events).notes[i]);
    forall id: StampId ensures Count(StampsGiven(After(events).notes), id) <= 1 {
      EveryRunKeepsNotes(events, id);
    }
  }

  /**
   * A slot on time applies every change that is due and keeps the others: a
   * click is on the picture from the first slot on time at or after it.
   */
  lemma {:induction false} OnTimeSlotsLeaveNothingDue(s: State, at: real)
    ensures forall c :: c in FrameAt(s, at).pending <==> c in s.pending && !Due(c, at)
  {
    hide ApplyAll, DueOf;
    var a := Advance(s, at);
    AdvanceKeepsPending(s, at);
    ApplyAllKeepsSlots(a.(pending := StillPending(a.pending, at)), DueOf(a.pending, at), at);
    StillPendingIsNotDue(s.pending, at);
  }

  lemma {:induction false} StillPendingIsNotDue(pending: seq<Change>, at: real)
    ensures forall c :: c in StillPending(pending, at) <==> c in pending && !Due(c, at)
  {
    hide Due;
    if pending != [] {
      StillPendingIsNotDue(pending[1..], at);
      assert forall c :: c in pending <==> c == pending[0] || c in pending[1..];
    }
  }

  lemma {:induction false} ApplyAllStartsExitsNow(s: State, due: seq<Change>, at: real)
    requires s.phase.Exiting? ==> at - s.phase.startMs < EXIT_MS - 0.5
    ensures var p := ApplyAll(s, due, at).phase; p.Exiting? ==> at - p.startMs < EXIT_MS - 0.5
    decreases |due|
  {
    if due != [] { ApplyAllStartsExitsNow(Apply(s, due[0], at), due[1..], at); }
  }

  /** No card outlasts its exit: a slot on time never shows one leaving that has had its exit's length already. */
  lemma NoCardOutlastsItsExit(s: State, at: real)
    ensures var shown := FrameAt(s, at).last;
      shown.Drawn? && shown.leaving ==> shown.ms < EXIT_MS - 0.5 + FRAME_MS
  {
    hide ApplyAll, DueOf, StillPending;
    var a := Advance(s, at);
    ApplyAllStartsExitsNow(a.(pending := StillPending(a.pending, at)), DueOf(a.pending, at), at);
  }

  /** Within one reader the half millisecond is nothing: the exit has had nine whole frames. */
  lemma ReplacedAfterNineFrames(t0: real, r: Reader, i: nat, j: nat)
    requires StampOf(t0, r, j) - StampOf(t0, r, i) >= EXIT_MS - 0.5
    ensures j >= i + 9 && StampOf(t0, r, j) - StampOf(t0, r, i) >= EXIT_MS
  {
    assert StampOf(t0, r, j) - StampOf(t0, r, i) == (j as real - i as real) * FRAME_MS;
    assert (j - i) as real == j as real - i as real;
  }

  // ---- Which card shows -----------------------------------------------------------------

  /** The card the last change applied asked for, if it was not a hide. */
  function CardAsked(notes: seq<Note>): Option<Card> {
    if notes == [] then None
    else
      var last := notes[|notes| - 1];
      if last.Applied? then (if last.change.Show? then Some(last.change.card) else None)
      else CardAsked(notes[..|notes| - 1])
  }

  /** The card that is on the picture to stay, or waits for the one leaving. */
  function Headed(p: Phase): Option<Card> {
    match p
    case Gone => None
    case Entering(card, _) => Some(card)
    case Exiting(_, _, next) => if next.Some? then Some(next.value.card) else None
  }

  function Up(p: Phase): Option<Card> {
    match p
    case Gone => None
    case Entering(card, _) => Some(card)
    case Exiting(card, _, _) => Some(card)
  }

  lemma AskedOneMore(notes: seq<Note>, n: Note)
    ensures CardAsked(notes + [n]) ==
      if n.Applied? then (if n.change.Show? then Some(n.change.card) else None) else CardAsked(notes)
  {
    assert (notes + [n])[..|notes + [n]| - 1] == notes;
  }

  /**
   * One change: what the picture is headed for is what it asked; a card up
   * and not leaving begins to leave now, one leaving goes on leaving, and only
   * with none up does a card enter at once.
   */
  lemma ApplyHeads(s: State, c: Change, at: real)
    ensures var t := Apply(s, c, at);
      && Headed(t.phase) == (if c.Show? then Some(c.card) else None)
      && CardAsked(t.notes) == Headed(t.phase)
      && match s.phase
         case Entering(up, _) => t.phase.Exiting? && t.phase.card == up && t.phase.startMs == at
         case Exiting(up, start, _) => t.phase.Exiting? && t.phase.card == up && t.phase.startMs == start
         case Gone => if c.Show? then t.phase == Entering(c.card, at) else t.phase == Gone
  {
    hide CardAsked;
    AskedOneMore(s.notes, Applied(c, at));
    var t := Note1(s, Applied(c, at));
    if c.Show? {
      AskedOneMore(t.notes, Stamped(c.shown, at));
      if c.hidden.Some? {
        AskedOneMore(t.notes, Stamped(c.hidden.value, at));
        AskedOneMore(t.notes + [Stamped(c.shown, at)], Stamped(c.hidden.value, at));
      }
    } else {
      AskedOneMore(t.notes, Stamped(c.gone, at));
    }
  }

  /** The stamps a change gives: a hide its own; a show its card's entrance, if it enters at once, and the exit of the one it found. */
  function StampsGivenBy(c: Change, enters: bool, at: real): seq<Note> {
    match c
    case Hide(_, gone) => [Stamped(gone, at)]
    case Show(_, _, hidden, shown) =>
      (if enters then [Stamped(shown, at)] else []) + (if hidden.Some? then [Stamped(hidden.value, at)] else [])
  }

  lemma ApplyStamps(s: State, c: Change, at: real)
    ensures var t := Apply(s, c, at); t.notes == s.notes + [Applied(c, at)] + StampsGivenBy(c, t.phase.Entering?, at)
  {
  }

  /** An exit over: the card that waited enters now and is stamped, or none is up. */
  lemma AdvanceHeads(s: State, at: real)
    ensures var t := Advance(s, at);
      && Headed(t.phase) == Headed(s.phase) && CardAsked(t.notes) == CardAsked(s.notes)
      && (t.phase != s.phase <==> s.phase.Exiting? && at - s.phase.startMs >= EXIT_MS - 0.5)
      && (t.phase != s.phase ==> Up(t.phase) == Headed(s.phase))
      && (t.phase != s.phase && t.phase.Entering? ==>
            t.phase.startMs == at && t.notes[|s.notes|..] == [Replaced(s.phase.startMs, at), Stamped(s.phase.next.value.shown, at)])
  {
    hide CardAsked;
    if s.phase.Exiting? && s.phase.next.Some? {
      AskedOneMore(s.notes, Replaced(s.phase.startMs, at));
      AskedOneMore(s.notes + [Replaced(s.phase.startMs, at)], Stamped(s.phase.next.value.shown, at));
    }
  }

  /** What is shown of a card: it alone, leaving or not, and how far it is into that, its first frame being one frame in. */
  lemma ShowsTheCardUp(s: State, at: real)
    ensures var t := FrameAt(s, at);
      && (t.last == Blank <==> Up(t.phase) == None)
      && (t.last.Drawn? ==> Some(t.last.card) == Up(t.phase) && (t.last.leaving <==> t.phase.Exiting?))
      && (t.last.Drawn? ==> t.last.ms == (at - t.phase.startMs) + 50.0 / 3.0)
  {
    hide ApplyAll, Advance, DueOf, StillPending;
  }

  predicate HeadsAsAsked(s: State) {
    Headed(s.phase) == CardAsked(s.notes)
  }

  lemma {:induction false} ApplyAllHeads(s: State, due: seq<Change>, at: real)
    requires HeadsAsAsked(s)
    ensures HeadsAsAsked(ApplyAll(s, due, at))
    decreases |due|
  {
    hide Apply;
    if due != [] {
      ApplyHeads(s, due[0], at);
      ApplyAllHeads(Apply(s, due[0], at), due[1..], at);
    }
  }

  lemma FrameHeads(s: State, at: real)
    requires HeadsAsAsked(s)
    ensures HeadsAsAsked(FrameAt(s, at))
  {
    hide ApplyAll, Advance, DueOf, StillPending, CardAsked;
    AdvanceHeads(s, at);
    var a := Advance(s, at);
    ApplyAllHeads(a.(pending := StillPending(a.pending, at)), DueOf(a.pending, at), at);
  }

  lemma {:induction false} TickedHeads(s: State, now: real, room: nat)
    requires HeadsAsAsked(s)
    ensures HeadsAsAsked(Ticked(s, now, room))
    decreases room
  {
    hide FrameAt, CardAsked;
    if Running(s) && StampOf(s.t0.value, s.reader.value, s.reader.value.frame) <= now && room > 0 {
      FrameHeads(s, StampOf(s.t0.value, s.reader.value, s.reader.value.frame));
      TickedHeads(WriteSlot(s, now), now, room - 1);
    }
  }

  lemma NextHeads(s: State, e: Event)
    requires HeadsAsAsked(s)
    ensures HeadsAsAsked(NextState(s, e))
  {
    hide Ticked, CardAsked;
    match e {
      case Begin(t0, now, room) => TickedHeads(s.(t0 := Some(t0)), now, room);
      case Connect(now, room) =>
        TickedHeads(s.(reader := Some(Reader(s.readers, s.nextStart, 0, false, None)), readers := s.readers + 1), now, room);
      case Tick(now, room) => TickedHeads(s, now, room);
      case Drain(clock, now, room) =>
        if s.reader.Some? {
          var r := s.reader.value.(draining := false);
          TickedHeads(s.(reader := Some(if clock.Some? then r.(drainedAt := clock) else r)), now, room);
        }
      case _ =>
    }
  }

  /**
   * Over every run, the card on the picture to stay, or waiting for the one
   * that is leaving, is the one the last change to reach the picture asked
   * for: none after a hide, whatever waited.
   */
  lemma {:induction false} EveryRunHeadsAsAsked(events: seq<Event>)
    ensures var s := After(events); Headed(s.phase) == CardAsked(s.notes)
  {
    hide NextState, CardAsked;
    if events == [] {
      assert CardAsked(INIT.notes) == None by { NothingAsked(); }
    } else {
      EveryRunHeadsAsAsked(events[..|events| - 1]);
      NextHeads(After(events[..|events| - 1]), events[|events| - 1]);
    }
  }

  lemma NothingAsked()
    ensures CardAsked([]) == None
  {
  }

  // ---- No change is lost ----------------------------------------------------------------

  function AppliedIn(notes: seq<Note>): nat {
    if notes == [] then 0
    else AppliedIn(notes[..|notes| - 1]) + (if notes[|notes| - 1].Applied? then 1 else 0)
  }

  function AsksIn(events: seq<Event>): nat {
    if events == [] then 0
    else
      var last := events[|events| - 1];
      AsksIn(events[..|events| - 1]) + (if last.AskShow? || last.AskHide? then 1 else 0)
  }

  lemma AppliedOneMore(notes: seq<Note>, n: Note)
    ensures AppliedIn(notes + [n]) == AppliedIn(notes) + (if n.Applied? then 1 else 0)
  {
    assert (notes + [n])[..|notes + [n]| - 1] == notes;
  }

  lemma StampsApplyNone(notes: seq<Note>, c: Change, enters: bool, at: real)
    ensures AppliedIn(notes + StampsGivenBy(c, enters, at)) == AppliedIn(notes)
  {
    hide AppliedIn;
    var given := StampsGivenBy(c, enters, at);
    if |given| == 0 { assert notes + given == notes; }
    if |given| >= 1 { AppliedOneMore(notes, given[0]); }
    if |given| == 1 { assert given == [given[0]]; }
    if |given| == 2 {
      AppliedOneMore(notes + [given[0]], given[1]);
      assert notes + given == notes + [given[0]] + [given[1]];
    }
  }

  lemma {:induction false} ApplyAllCounts(s: State, due: seq<Change>, at: real)
    ensures AppliedIn(ApplyAll(s, due, at).notes) == AppliedIn(s.notes) + |due|
    decreases |due|
  {
    hide Apply, AppliedIn, StampsGivenBy;
    if due != [] {
      var t := Apply(s, due[0], at);
      ApplyStamps(s, due[0], at);
      AppliedOneMore(s.notes, Applied(due[0], at));
      StampsApplyNone(s.notes + [Applied(due[0], at)], due[0], t.phase.Entering?, at);
      ApplyAllCounts(t, due[1..], at);
    }
  }

  lemma {:induction false} DueOrPending(pending: seq<Change>, at: real)
    ensures |DueOf(pending, at)| + |StillPending(pending, at)| == |pending|
  {
    hide Due;
    if pending != [] { DueOrPending(pending[1..], at); }
  }

  function ChangesIn(s: State): nat { AppliedIn(s.notes) + |s.pending| }

  lemma FrameLosesNone(s: State, at: real)
    ensures ChangesIn(FrameAt(s, at)) == ChangesIn(s)
  {
    hide ApplyAll, DueOf, StillPending, AppliedIn;
    var a := Advance(s, at);
    if a != s {
      AppliedOneMore(s.notes, Replaced(s.phase.startMs, at));
      if s.phase.next.Some? {
        AppliedOneMore(s.notes + [Replaced(s.phase.startMs, at)], Stamped(s.phase.next.value.shown, at));
      }
    }
    var b := a.(pending := StillPending(a.pending, at));
    ApplyAllCounts(b, DueOf(a.pending, at), at);
    ApplyAllKeepsSlots(b, DueOf(a.pending, at), at);
    DueOrPending(a.pending, at);
  }

  lemma {:induction false} TickedLosesNone(s: State, now: real, room: nat)
    ensures ChangesIn(Ticked(s, now, room)) == ChangesIn(s)
    decreases room
  {
    hide FrameAt, AppliedIn;
    if Running(s) && StampOf(s.t0.value, s.reader.value, s.reader.value.frame) <= now && room > 0 {
      FrameLosesNone(s, StampOf(s.t0.value, s.reader.value, s.reader.value.frame));
      TickedLosesNone(WriteSlot(s, now), now, room - 1);
    }
  }

  lemma NextLosesNone(s: State, e: Event)
    ensures ChangesIn(NextState(s, e)) == ChangesIn(s) + (if e.AskShow? || e.AskHide? then 1 else 0)
  {
    hide Ticked, AppliedIn;
    match e {
      case Begin(t0, now, room) => TickedLosesNone(s.(t0 := Some(t0)), now, room);
      case Connect(now, room) =>
        TickedLosesNone(s.(reader := Some(Reader(s.readers, s.nextStart, 0, false, None)), readers := s.readers + 1), now, room);
      case Tick(now, room) => TickedLosesNone(s, now, room);
      case Drain(clock, now, room) =>
        if s.reader.Some? {
          var r := s.reader.value.(draining := false);
          TickedLosesNone(s.(reader := Some(if clock.Some? then r.(drainedAt := clock) else r)), now, room);
        }
      case _ =>
    }
  }

  /** Over every run: each change asked for has reached the picture once, or still waits. */
  lemma {:induction false} EveryChangeIsAppliedOrWaits(events: seq<Event>)
    ensures AppliedIn(After(events).notes) + |After(events).pending| == AsksIn(events)
  {
    hide NextState, AppliedIn;
    if events == [] {
      assert AppliedIn(INIT.notes) == 0 by { NoneApplied(); }
    } else {
      EveryChangeIsAppliedOrWaits(events[..|events| - 1]);
      NextLosesNone(After(events[..|events| - 1]), events[|events| - 1]);
    }
  }

  lemma NoneApplied()
    ensures AppliedIn([]) == 0
  {
  }

  /** A slot's time is its reader's start and its own number of frames on; it is late only long past that. */
  lemma SlotsAreFramesApart(s: State, now: real)
    requires SlotInv(s) && Running(s)
    ensures var r, t := s.reader.value, WriteSlot(s, now);
      |t.written| == |s.written| + 1
      && var w := t.written[|s.written|];
      && t.written[..|s.written|] == s.written && w.reader == r.number && w.now == now
      && w.at == s.t0.value + r.startMs + SlotsOf(s.written, r.number) as real * 50.0 / 3.0
      && (now - w.at <= 100.0 ==> w.onTime)
      && (!w.onTime <==> now - w.at > 100.0 && (r.drainedAt.Some? ==> now - r.drainedAt.value > 100.0))
  {
    hide FrameAt, SlotsOf;
    FrameAtKeepsSlots(s, StampOf(s.t0.value, s.reader.value, s.reader.value.frame));
  }

  // ---- Who reads, and how far -----------------------------------------------------------

  /** The slots the reader has by a tick at `now` are all those the clock has reached, unless its socket took no more. */
  predicate CaughtUp(s: State, t: State, now: real, room: nat) {
    && Running(s) && Running(t) && |s.written| <= |t.written| <= |s.written| + room
    && t.reader.value == s.reader.value.(frame := s.reader.value.frame + (|t.written| - |s.written|), draining := t.reader.value.draining)
    && t.t0 == s.t0 && t.readers == s.readers && t.nextStart == s.nextStart
    && if StampOf(t.t0.value, t.reader.value, t.reader.value.frame) > now then t.reader.value.draining == s.reader.value.draining
       else |t.written| == |s.written| + room && t.reader.value.draining
  }

  lemma {:induction false} TickCatchesUp(s: State, now: real, room: nat)
    requires Running(s)
    ensures CaughtUp(s, Ticked(s, now, room), now, room)
    decreases room
  {
    hide FrameAt;
    if StampOf(s.t0.value, s.reader.value, s.reader.value.frame) <= now && room > 0 {
      FrameAtKeepsSlots(s, StampOf(s.t0.value, s.reader.value, s.reader.value.frame));
      TickCatchesUp(WriteSlot(s, now), now, room - 1);
    }
  }

  lemma IdleTick(s: State, now: real, room: nat)
    requires !Running(s)
    ensures Ticked(s, now, room) == s
  {
  }

  /**
   * Who reads: the newest to connect, from its launch's start and its first
   * slot on, until it closes; an older one's close, and any connection once
   * the feed has closed, change nothing. And whatever happens to a reader that
   * could be written to, it is brought up to the clock.
   */
  lemma ReadersComeAndGo(s: State, e: Event)
    ensures var t := NextState(s, e);
      match e
      case Launching(start) => t == s.(nextStart := start)
      case Close => t == s.(closed := true)
      case ReaderCloses(number) =>
        t == if s.reader.Some? && s.reader.value.number == number then s.(reader := None) else s
      case Connect(now, room) =>
        if s.closed then t == s
        else
          var met := s.(reader := Some(Reader(s.readers, s.nextStart, 0, false, None)), readers := s.readers + 1);
          if s.t0.None? then t == met else CaughtUp(met, t, now, room)
      case Begin(t0, now, room) =>
        var begun := s.(t0 := Some(t0));
        if s.reader.None? || s.closed then t == begun else CaughtUp(begun, t, now, room)
      case Tick(now, room) => if Running(s) then CaughtUp(s, t, now, room) else t == s
      case Drain(clock, now, room) =>
        if s.reader.None? || !s.reader.value.draining then t == s
        else
          var was := s.reader.value.(draining := false);
          var drained := s.(reader := Some(was.(drainedAt := if clock.Some? then clock else was.drainedAt)));
          if Running(s) then CaughtUp(drained, t, now, room) else t == drained
      case _ => t == s.(pending := t.pending, stamps := t.stamps)
  {
    hide Ticked, CaughtUp;
    match e {
      case Connect(now, room) =>
        var met := s.(reader := Some(Reader(s.readers, s.nextStart, 0, false, None)), readers := s.readers + 1);
        if Running(met) { TickCatchesUp(met, now, room); } else { IdleTick(met, now, room); }
      case Begin(t0, now, room) =>
        var begun := s.(t0 := Some(t0));
        if Running(begun) { TickCatchesUp(begun, now, room); } else { IdleTick(begun, now, room); }
      case Tick(now, room) => if Running(s) { TickCatchesUp(s, now, room); } else { IdleTick(s, now, room); }
      case Drain(clock, now, room) =>
        if s.reader.Some? {
          var was := s.reader.value.(draining := false);
          var drained := s.(reader := Some(if clock.Some? then was.(drainedAt := clock) else was));
          if Running(drained) { TickCatchesUp(drained, now, room); } else { IdleTick(drained, now, room); }
        }
      case _ =>
    }
  }

  // ---- The code's own form ------------------------------------------------------------

  class Feed {
    var t0: Option<real>
    var reader: Option<Reader>
    var readers: nat
    var nextStart: real
    var closed: bool
    var phase: Phase
    var pending: seq<Change>
    var stamps: nat
    var last: Picture
    var written: seq<Written>
    var notes: seq<Note>

    function Abs(): State
      reads this
    {
      State(t0, reader, readers, nextStart, closed, phase, pending, stamps, last, written, notes)
    }

    constructor ()
      ensures Abs() == INIT
    {
      t0, reader, readers, nextStart, closed := None, None, 0, 0.0, false;
      phase, pending, stamps, last, written, notes := Gone, [], 0, Blank, [], [];
    }

    method Give(id: Option<StampId>, at: real)
      modifies this`notes
      ensures Abs() == StampIf(old(Abs()), id, at)
    {
      if id.Some? { notes := notes + [Stamped(id.value, at)]; }
    }

    method AdvanceTo(at: real)
      modifies this`phase, this`notes
      ensures Abs() == Advance(old(Abs()), at)
    {
      if !phase.Exiting? || at - phase.startMs < EXIT_MS - 0.5 { return; }
      var next := phase.next;
      if next.Some? {
        notes := notes + [Replaced(phase.startMs, at)] + [Stamped(next.value.shown, at)];
        phase := Entering(next.value.card, at);
      } else {
        phase := Gone;
      }
    }

    method ApplyOne(c: Change, at: real)
      modifies this`phase, this`notes
      ensures Abs() == Apply(old(Abs()), c, at)
    {
      notes := notes + [Applied(c, at)];
      match c {
        case Show(_, card, hidden, shown) =>
          if phase.Entering? {
            phase := Exiting(phase.card, at, Some(Next(card, shown)));
          } else if phase.Exiting? {
            phase := Exiting(phase.card, phase.startMs, Some(Next(card, shown)));
          } else {
            phase := Entering(card, at);
            Give(Some(shown), at);
          }
          Give(hidden, at);
        case Hide(_, gone) =>
          if phase.Entering? {
            phase := Exiting(phase.card, at, None);
          } else if phase.Exiting? {
            phase := Exiting(phase.card, phase.startMs, None);
          }
          Give(Some(gone), at);
      }
    }

    method Draw(at: real)
      modifies this`phase, this`notes, this`pending, this`last
      ensures Abs() == FrameAt(old(Abs()), at)
    {
      hide Advance, Apply;
      AdvanceTo(at);
      var due := DueOf(pending, at);
      pending := StillPending(pending, at);
      ghost var begun := Abs();
      var i := 0;
      while i < |due|
        invariant 0 <= i <= |due|
        invariant ApplyAll(begun, due, at) == ApplyAll(Abs(), due[i..], at)
        invariant last == begun.last
      {
        assert due[i..][1..] == due[i + 1..];
        ApplyOne(due[i], at);
        i := i + 1;
      }
      last := PictureOf(phase, at);
    }

    /** Every slot the clock has reached, in turn, until the socket holds too much. */
    method OnTick(now: real, room: nat)
      modifies this
      ensures Abs() == NextState(old(Abs()), Tick(now, room))
    {
      hide FrameAt;
      if closed || reader.None? || t0.None? { return; }
      var left := room;
      while StampOf(t0.value, reader.value, reader.value.frame) <= now
        invariant reader.Some? && t0.Some? && !closed
        invariant Ticked(old(Abs()), now, room) == Ticked(Abs(), now, left)
        decreases left
      {
        if left == 0 {
          reader := Some(reader.value.(draining := true));
          return;
        }
        var r := reader.value;
        var at := StampOf(t0.value, r, r.frame);
        var onTime := OnTime(now, at, r.drainedAt);
        FrameAtKeepsSlots(Abs(), at);
        if onTime { Draw(at); }
        written := written + [Written(r.number, r.frame, at, now, onTime, last)];
        reader := Some(r.(frame := r.frame + 1));
        left := left - 1;
      }
    }

    method OnConnect(now: real, room: nat)
      modifies this
      ensures Abs() == NextState(old(Abs()), Connect(now, room))
    {
      if closed { return; }
      reader := Some(Reader(readers, nextStart, 0, false, None));
      readers := readers + 1;
      OnTick(now, room);
    }

    method OnDrain(clock: Option<real>, now: real, room: nat)
      requires reader.Some? && reader.value.draining
      modifies this
      ensures Abs() == NextState(old(Abs()), Drain(clock, now, room))
    {
      reader := Some(reader.value.(draining := false));
      if clock.Some? { reader := Some(reader.value.(drainedAt := clock)); }
      OnTick(now, room);
    }

    /** Asks for a card; the one on the picture, if it is not leaving, is stamped as it leaves. */
    method ShowCard(card: Card, clock: Option<real>) returns (hidden: Option<StampId>, shown: StampId)
      modifies this`pending, this`stamps
      ensures Abs() == NextState(old(Abs()), AskShow(card, clock))
      ensures hidden.Some? <==> phase.Entering?
    {
      hidden := None;
      if phase.Entering? {
        hidden := Some(stamps);
        stamps := stamps + 1;
      }
      shown := stamps;
      stamps := stamps + 1;
      pending := pending + [Show(if clock.Some? then clock.value else 0.0, card, hidden, shown)];
    }

    method HideCard(clock: Option<real>) returns (gone: StampId)
      modifies this`pending, this`stamps
      ensures Abs() == NextState(old(Abs()), AskHide(clock))
    {
      gone := stamps;
      stamps := stamps + 1;
      pending := pending + [Hide(if clock.Some? then clock.value else 0.0, gone)];
    }

    method OnClose()
      modifies this`closed
      ensures Abs() == NextState(old(Abs()), Close)
    {
      closed := true;
    }
  }
}
