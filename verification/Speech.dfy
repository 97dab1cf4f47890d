/**
 * The speech detector: silence reports and file progress in, the marks of
 * speech out. What the marks promise is stated twice, as a reader that accepts
 * or refuses a list of marks, and as what any accepted list says about a
 * speech and its Take.
 *
 * Times are reals, so the tolerance below is there because the code has it.
 */
module Speech {
  import opened Common

  datatype Mark =
    | WarmedUp(at: real)
    | SpeechStarted(at: real)
    | TakeStarted(at: real)
    | SpeechEnded(at: real)

  const MINIMUM_CLIP_LENGTH := 1.0
  const CLIP_LENGTH_TOLERANCE := 0.000001

  predicate LongEnough(start: real, end: real) {
    end - start >= MINIMUM_CLIP_LENGTH - CLIP_LENGTH_TOLERANCE
  }

  function TakeStartsAt(start: real, minSilence: real): real {
    start + MINIMUM_CLIP_LENGTH + minSilence
  }

  // ---- The promise --------------------------------------------------------------------

  /** Where a list of marks stands: between speeches, or in one that is a Take or not yet. */
  datatype Reader = Quiet(warm: bool) | Speaking(since: real, taken: bool)

  function Read(r: Reader, m: Mark): Option<Reader> {
    match m
    case WarmedUp(_) => if r == Quiet(false) then Some(Quiet(true)) else None
    case SpeechStarted(t) => if r.Quiet? then Some(Speaking(t, false)) else None
    case TakeStarted(_) => if r.Speaking? && !r.taken then Some(r.(taken := true)) else None
    case SpeechEnded(t) => if r.Speaking? && (r.taken <==> LongEnough(r.since, t)) then Some(Quiet(true)) else None
  }

  /** Read a whole list; `None` once a mark was out of place. */
  function ReadAll(r: Reader, marks: seq<Mark>): Option<Reader> {
    if marks == [] then Some(r)
    else
      var before := ReadAll(r, marks[..|marks| - 1]);
      if before == None then None else Read(before.value, marks[|marks| - 1])
  }

  lemma {:induction false} ReadsInTwo(r: Reader, a: seq<Mark>, b: seq<Mark>)
    requires ReadAll(r, a).Some?
    ensures ReadAll(r, a + b) == ReadAll(ReadAll(r, a).value, b)
  {
    if b == [] {
      assert a + b == a;
    } else {
      ReadsInTwo(r, a, b[..|b| - 1]);
      assert (a + b)[..|a + b| - 1] == a + b[..|b| - 1];
    }
  }

  lemma ReadsOne(r: Reader, m: Mark)
    ensures ReadAll(r, [m]) == Read(r, m)
  {
    assert [m][..0] == [];
  }

  lemma ReadsPair(r: Reader, a: Mark, b: Mark)
    requires Read(r, a).Some?
    ensures ReadAll(r, [a, b]) == Read(Read(r, a).value, b)
  {
    ReadsOne(r, a);
    assert [a, b][..1] == [a];
  }

  /** Neither start nor end of a speech lies between `i` and `j`. */
  predicate OneSpeech(marks: seq<Mark>, i: nat, j: nat)
    requires i < j < |marks|
  {
    && marks[i].SpeechStarted? && marks[j].SpeechEnded?
    && forall k :: i < k < j ==> !marks[k].SpeechStarted? && !marks[k].SpeechEnded?
  }

  predicate OneTakeAt(marks: seq<Mark>, i: nat, j: nat, t: nat)
    requires i <= t < j <= |marks|
  {
    forall k :: i < k < j ==> (marks[k].TakeStarted? <==> k == t)
  }

  predicate NoTake(marks: seq<Mark>, i: nat, j: nat)
    requires i < j <= |marks|
  {
    forall k :: i < k < j ==> !marks[k].TakeStarted?
  }

  /** Reading on from a speech's start up to `n`, still inside it: it is a Take exactly when one mark so far said so. */
  lemma {:induction false} InsideASpeech(marks: seq<Mark>, i: nat, n: nat) returns (t: nat)
    requires i < n <= |marks| && marks[i].SpeechStarted?
    requires ReadAll(Quiet(false), marks[..n]).Some?
    requires forall k :: i < k < n ==> !marks[k].SpeechStarted? && !marks[k].SpeechEnded?
    ensures i <= t < n
    ensures var r := ReadAll(Quiet(false), marks[..n]).value;
      && r.Speaking? && r.since == marks[i].at
      && (if r.taken then t > i && OneTakeAt(marks, i, n, t) else NoTake(marks, i, n))
  {
    assert marks[..n][..n - 1] == marks[..n - 1];
    t := i;
    if i + 1 < n {
      t := InsideASpeech(marks, i, n - 1);
      if marks[n - 1].TakeStarted? { t := n - 1; }
    }
  }

  /**
   * What an accepted list says of each speech that ends in it: it has one
   * Take mark, and ends Clip-length, or it has none, and does not.
   */
  lemma TakeExactlyWhenClip(marks: seq<Mark>, i: nat, j: nat) returns (t: nat)
    requires ReadAll(Quiet(false), marks).Some?
    requires i < j < |marks| && OneSpeech(marks, i, j)
    ensures i <= t < j
    ensures if marks[j].at - marks[i].at >= 1.0 - 0.000001 then t > i && OneTakeAt(marks, i, j, t) else NoTake(marks, i, j)
  {
    PrefixReads(Quiet(false), marks, j);
    PrefixReads(Quiet(false), marks, j + 1);
    assert marks[..j + 1][..j] == marks[..j];
    t := InsideASpeech(marks, i, j);
  }

  /** What was accepted was accepted all along: any cut of it is accepted too. */
  lemma {:induction false} PrefixReads(r: Reader, marks: seq<Mark>, n: nat)
    requires n <= |marks| && ReadAll(r, marks).Some?
    ensures ReadAll(r, marks[..n]).Some?
  {
    if n < |marks| {
      assert marks[..|marks| - 1][..n] == marks[..n];
      PrefixReads(r, marks[..|marks| - 1], n);
    } else {
      assert marks[..n] == marks;
    }
  }

  // ---- The end of a speech ------------------------------------------------------------

  /** The end of a speech: its Take mark first, if it is one and was not marked yet. */
  function EndSpeech(startedAt: real, takeStarted: bool, fileTime: real): seq<Mark> {
    if !takeStarted && !LongEnough(startedAt, fileTime) then [SpeechEnded(fileTime)]
    else
      var ended := SpeechEnded(Max(fileTime, startedAt + MINIMUM_CLIP_LENGTH));
      if takeStarted then [ended] else [TakeStarted(fileTime), ended]
  }

  /** Wherever the file ends, even before the speech began, its end is one the reader accepts. */
  lemma EndIsAccepted(startedAt: real, takeStarted: bool, fileTime: real)
    ensures ReadAll(Speaking(startedAt, takeStarted), EndSpeech(startedAt, takeStarted, fileTime)) == Some(Quiet(true))
  {
    var r := Speaking(startedAt, takeStarted);
    if !takeStarted && !LongEnough(startedAt, fileTime) {
      ReadsOne(r, SpeechEnded(fileTime));
    } else {
      var ended := SpeechEnded(Max(fileTime, startedAt + MINIMUM_CLIP_LENGTH));
      if takeStarted { ReadsOne(r, ended); } else { ReadsPair(r, TakeStarted(fileTime), ended); }
    }
  }

  // ---- The detector -------------------------------------------------------------------

  datatype State = State(startedAt: Option<real>, takeStarted: bool, stopping: bool, warm: bool)

  datatype Call =
    | StopRequested
    | SilenceStart(at: real)
    | SilenceEnd(at: real)
    | OtherLine
    | Progress(at: real)
    | Stop(at: real)

  const FRESH := State(None, false, false, false)

  function Ended(s: State): State {
    s.(startedAt := None, takeStarted := false)
  }

  function MarksOf(s: State, c: Call, minSilence: real): seq<Mark> {
    match c
    case StopRequested => []
    case OtherLine => []
    case SilenceStart(at) =>
      if s.startedAt.Some? then EndSpeech(s.startedAt.value, s.takeStarted, Max(0.0, at))
      else if !s.warm && !s.stopping then [WarmedUp(Max(0.0, at))]
      else []
    case SilenceEnd(at) =>
      if s.startedAt.None? && !s.stopping then [SpeechStarted(Max(0.0, at))] else []
    case Progress(at) =>
      if s.startedAt.Some? && !s.takeStarted && at >= TakeStartsAt(s.startedAt.value, minSilence)
      then [TakeStarted(at)] else []
    case Stop(at) =>
      if s.startedAt.Some? then EndSpeech(s.startedAt.value, s.takeStarted, at) else []
  }

  function Next(s: State, c: Call, minSilence: real): State {
    match c
    case StopRequested => s.(stopping := true)
    case OtherLine => s
    case SilenceStart(at) =>
      if s.startedAt.Some? then Ended(s)
      else if !s.stopping then s.(warm := true)
      else s
    case SilenceEnd(at) =>
      if s.startedAt.None? && !s.stopping
      then State(Some(Max(0.0, at)), false, s.stopping, true) else s
    case Progress(at) =>
      if s.startedAt.Some? && at >= TakeStartsAt(s.startedAt.value, minSilence) then s.(takeStarted := true) else s
    case Stop(at) => if s.startedAt.Some? then Ended(s) else s
  }

  function After(calls: seq<Call>, minSilence: real): State {
    if calls == [] then FRESH
    else Next(After(calls[..|calls| - 1], minSilence), calls[|calls| - 1], minSilence)
  }

  function Marks(calls: seq<Call>, minSilence: real): seq<Mark> {
    if calls == [] then []
    else
      var before := calls[..|calls| - 1];
      Marks(before, minSilence) + MarksOf(After(before, minSilence), calls[|calls| - 1], minSilence)
  }

  /** What a reader of the detector's marks knows is what the detector knows. */
  function ReaderOf(s: State): Reader {
    if s.startedAt.Some? then Speaking(s.startedAt.value, s.takeStarted) else Quiet(s.warm)
  }

  /** Once a speech has started the take is warm. */
  predicate Fine(s: State) {
    (s.startedAt.Some? ==> s.warm) && (s.startedAt.None? ==> !s.takeStarted)
  }

  lemma CallIsAccepted(s: State, c: Call, minSilence: real)
    requires Fine(s)
    ensures Fine(Next(s, c, minSilence))
    ensures ReadAll(ReaderOf(s), MarksOf(s, c, minSilence)) == Some(ReaderOf(Next(s, c, minSilence)))
  {
    hide EndSpeech, ReadAll, LongEnough;
    if s.startedAt.Some? && (c.SilenceStart? || c.Stop?) {
      EndIsAccepted(s.startedAt.value, s.takeStarted, if c.Stop? then c.at else Max(0.0, c.at));
    } else {
      ReadsNone(ReaderOf(s));
      match c {
        case SilenceStart(at) => ReadsOne(ReaderOf(s), WarmedUp(Max(0.0, at)));
        case SilenceEnd(at) => ReadsOne(ReaderOf(s), SpeechStarted(Max(0.0, at)));
        case Progress(at) => ReadsOne(ReaderOf(s), TakeStarted(at));
        case _ =>
      }
    }
  }

  lemma ReadsNone(r: Reader)
    ensures ReadAll(r, []) == Some(r)
  {
  }

  /**
   * Over every run of detector calls the marks are accepted: the warming up
   * ends once, before any speech; speeches start and end in turn; each is
   * marked a Take at most once, and ends Clip-length exactly when it was.
   */
  lemma {:induction false} EveryRunIsAccepted(calls: seq<Call>, minSilence: real)
    ensures Fine(After(calls, minSilence))
    ensures ReadAll(Quiet(false), Marks(calls, minSilence)) == Some(ReaderOf(After(calls, minSilence)))
  {
    hide Next, MarksOf, ReaderOf;
    if calls == [] {
      FreshReader();
    } else {
      var before := calls[..|calls| - 1];
      EveryRunIsAccepted(before, minSilence);
      CallIsAccepted(After(before, minSilence), calls[|calls| - 1], minSilence);
      ReadsInTwo(Quiet(false), Marks(before, minSilence), MarksOf(After(before, minSilence), calls[|calls| - 1], minSilence));
    }
  }

  lemma FreshReader()
    ensures ReaderOf(FRESH) == Quiet(false)
  {
  }

  // ---- What each call tells -------------------------------------------------------------

  predicate StopAsked(calls: seq<Call>) {
    calls != [] && (calls[|calls| - 1].StopRequested? || StopAsked(calls[..|calls| - 1]))
  }

  /** A speech is going: one began where a silence ended, and no silence or end of the file has come since. */
  predicate Going(calls: seq<Call>) {
    calls != [] &&
    var before := calls[..|calls| - 1];
    match calls[|calls| - 1]
    case SilenceEnd(_) => Going(before) || !StopAsked(before)
    case SilenceStart(_) => false
    case Stop(_) => false
    case _ => Going(before)
  }

  /** A silence has begun or ended before any stop was asked for. */
  predicate HeardAny(calls: seq<Call>) {
    calls != [] &&
    var before, last := calls[..|calls| - 1], calls[|calls| - 1];
    HeardAny(before) || ((last.SilenceEnd? || last.SilenceStart?) && !StopAsked(before))
  }

  lemma {:induction false} KnowsWhatWasHeard(calls: seq<Call>, minSilence: real)
    ensures var s := After(calls, minSilence);
      && (s.startedAt.Some? <==> Going(calls)) && (s.stopping <==> StopAsked(calls)) && (s.warm <==> HeardAny(calls))
      && Fine(s)
  {
    if calls != [] {
      KnowsWhatWasHeard(calls[..|calls| - 1], minSilence);
    }
  }

  /**
   * Over every run, what one more call tells: the end of a silence begins a
   * speech unless one is going or a stop was asked for; a silence, or the
   * file's end, ends the one going; the first silence of all is the end of
   * warming up; and progress makes the speech going a Take, once, when the
   * file has run a Silence Length past the shortest Clip.
   */
  lemma EachCallTells(calls: seq<Call>, c: Call, minSilence: real)
    ensures var s := After(calls, minSilence);
      var told := MarksOf(s, c, minSilence);
      Marks(calls + [c], minSilence) == Marks(calls, minSilence) + told
      && match c
      case SilenceEnd(at) =>
        told == if Going(calls) || StopAsked(calls) then [] else [SpeechStarted(if at < 0.0 then 0.0 else at)]
      case SilenceStart(at) =>
        if Going(calls) then told != [] && told[|told| - 1].SpeechEnded?
        else told == if HeardAny(calls) || StopAsked(calls) then [] else [WarmedUp(if at < 0.0 then 0.0 else at)]
      case Stop(at) => if Going(calls) then told != [] && told[|told| - 1].SpeechEnded? else told == []
      case Progress(at) =>
        (s.startedAt.Some? <==> Going(calls)) &&
        told == if s.startedAt.Some? && !s.takeStarted && at >= s.startedAt.value + MINIMUM_CLIP_LENGTH + minSilence
                then [TakeStarted(at)] else []
      case _ => told == []
  {
    hide Marks, After;
    KnowsWhatWasHeard(calls, minSilence);
    MarksGoOn(calls, c, minSilence);
  }

  lemma MarksGoOn(calls: seq<Call>, c: Call, minSilence: real)
    ensures Marks(calls + [c], minSilence) == Marks(calls, minSilence) + MarksOf(After(calls, minSilence), c, minSilence)
    ensures After(calls + [c], minSilence) == Next(After(calls, minSilence), c, minSilence)
  {
    assert (calls + [c])[..|calls + [c]| - 1] == calls;
  }

  /** A stopped detector that was told to stop says nothing more, whatever ffmpeg's last lines are. */
  lemma {:induction false} SilentOnceStopped(calls: seq<Call>, more: seq<Call>, minSilence: real)
    requires After(calls, minSilence).stopping && After(calls, minSilence).startedAt.None?
    ensures Marks(calls + more, minSilence) == Marks(calls, minSilence)
    ensures After(calls + more, minSilence).stopping && After(calls + more, minSilence).startedAt.None?
  {
    hide Next, MarksOf;
    if more == [] {
      assert calls + more == calls;
    } else {
      var before := calls + more[..|more| - 1];
      SilentOnceStopped(calls, more[..|more| - 1], minSilence);
      assert (calls + more)[..|calls + more| - 1] == before;
      StoppedSaysNothing(After(before, minSilence), more[|more| - 1], minSilence);
    }
  }

  lemma StoppedSaysNothing(s: State, c: Call, minSilence: real)
    requires s.stopping && s.startedAt.None?
    ensures MarksOf(s, c, minSilence) == []
    ensures Next(s, c, minSilence).stopping && Next(s, c, minSilence).startedAt.None?
  {
  }

  /** The furthest the file had run by any progress so far. */
  function Furthest(calls: seq<Call>): Option<real> {
    if calls == [] then None
    else
      var before, last := Furthest(calls[..|calls| - 1]), calls[|calls| - 1];
      if !last.Progress? then before else Some(if before.Some? then Max(before.value, last.at) else last.at)
  }

  lemma {:induction false} TakesAreProvablyLong(calls: seq<Call>, minSilence: real)
    ensures var s := After(calls, minSilence);
      s.takeStarted && s.startedAt.Some? ==>
        Furthest(calls).Some? && Furthest(calls).value >= TakeStartsAt(s.startedAt.value, minSilence)
  {
    if calls != [] { TakesAreProvablyLong(calls[..|calls| - 1], minSilence); }
  }

  /**
   * Over every run in which a silence is reported before the file has run
   * more than a Silence Length past its start: the speech it ends, ends there,
   * give or take the tolerance. No Take is stretched to be a Clip.
   */
  lemma SpeechEndsAtItsSilence(calls: seq<Call>, at: real, minSilence: real)
    requires After(calls, minSilence).startedAt.Some?
    requires Furthest(calls).Some? ==> Furthest(calls).value <= Max(0.0, at) + minSilence
    ensures var marks := MarksOf(After(calls, minSilence), SilenceStart(at), minSilence);
      && marks != [] && marks[|marks| - 1].SpeechEnded?
      && Max(0.0, at) <= marks[|marks| - 1].at <= Max(0.0, at) + CLIP_LENGTH_TOLERANCE
  {
    hide After, Furthest;
    TakesAreProvablyLong(calls, minSilence);
  }

  class SpeechDetector {
    const minSilence: real
    var startedAt: Option<real>
    var takeStarted: bool
    var stopping: bool
    var warm: bool

    function Abs(): State
      reads this
    {
      State(startedAt, takeStarted, stopping, warm)
    }

    constructor (minSilence: real)
      ensures Abs() == FRESH && this.minSilence == minSilence
    {
      this.minSilence := minSilence;
      startedAt, takeStarted, stopping, warm := None, false, false, false;
    }

    method End(fileTime: real) returns (marks: seq<Mark>)
      modifies this
      ensures old(startedAt).None? ==> marks == [] && Abs() == old(Abs())
      ensures old(startedAt).Some? ==>
        marks == EndSpeech(old(startedAt).value, old(takeStarted), fileTime) && Abs() == Ended(old(Abs()))
    {
      if startedAt == None { return []; }
      marks := EndSpeech(startedAt.value, takeStarted, fileTime);
      startedAt, takeStarted := None, false;
    }

    method OnStopRequested()
      modifies this
      ensures Abs() == Next(old(Abs()), StopRequested, minSilence)
    {
      stopping := true;
    }

    /** A `silence_start` or `silence_end` line. */
    method OnLine(isStart: bool, reported: real) returns (marks: seq<Mark>)
      modifies this
      ensures var c := if isStart then SilenceStart(reported) else SilenceEnd(reported);
        Abs() == Next(old(Abs()), c, minSilence) && marks == MarksOf(old(Abs()), c, minSilence)
    {
      var fileTime := Max(0.0, reported);
      var speaking := startedAt.Some?;
      if isStart && !speaking && !warm && !stopping {
        warm := true;
        return [WarmedUp(fileTime)];
      }
      if !isStart && !speaking && !stopping {
        warm, startedAt, takeStarted := true, Some(fileTime), false;
        return [SpeechStarted(fileTime)];
      }
      if isStart && speaking {
        marks := End(fileTime);
        return;
      }
      marks := [];
    }

    method OnProgress(fileTime: real) returns (marks: seq<Mark>)
      modifies this
      ensures Abs() == Next(old(Abs()), Progress(fileTime), minSilence)
      ensures marks == MarksOf(old(Abs()), Progress(fileTime), minSilence)
    {
      if startedAt == None || takeStarted { return []; }
      if fileTime < TakeStartsAt(startedAt.value, minSilence) { return []; }
      takeStarted := true;
      marks := [TakeStarted(fileTime)];
    }

    method OnStop(fileTime: real) returns (marks: seq<Mark>)
      modifies this
      ensures Abs() == Next(old(Abs()), Stop(fileTime), minSilence)
      ensures marks == MarksOf(old(Abs()), Stop(fileTime), minSilence)
    {
      marks := End(fileTime);
    }
  }
}
