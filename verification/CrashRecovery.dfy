/**
 * Crash recovery of a Recording Session's event log: a log with no end gets
 * one, a speech still going at the crash ends where the repaired mic file
 * does, and a log that has its end is left alone. The file is modelled down to
 * its characters, so a crash may cut it anywhere.
 */
module CrashRecovery {
  import opened Common
  import opened Speech
  import opened JsonLines

  /** What one event of the log says. */
  datatype What =
    | RecordingStarted
    | SceneChanged(at: real)
    | Said(mark: Mark)
    | Shown(id: string)
    | Hidden(id: string)
    | Noted
    | RecordingStopped
    | RecordingCrashed

  datatype Entry = Entry(number: int, what: What)

  predicate IsEnd(w: What) {
    w == RecordingStopped || w == RecordingCrashed
  }

  predicate CutOff(log: seq<Entry>) {
    && (exists e :: e in log && e.what == RecordingStarted)
    && (forall e :: e in log ==> !IsEnd(e.what))
  }

  /** The speech the log leaves open, if its last speech start or end is a start; and whether it is a Take by then. */
  function OpenSpeech(log: seq<Entry>): Option<(real, bool)> {
    if log == [] then None
    else
      var front, last := log[..|log| - 1], log[|log| - 1].what;
      if !last.Said? then OpenSpeech(front)
      else match last.mark
        case SpeechStarted(at) => Some((at, false))
        case SpeechEnded(_) => None
        case TakeStarted(_) =>
          (match OpenSpeech(front) case None => None case Some(p) => Some((p.0, true)))
        case WarmedUp(_) => OpenSpeech(front)
  }

  function MaxNumber(log: seq<Entry>): int
    requires log != []
  {
    if |log| == 1 then log[0].number
    else
      var before, last := MaxNumber(log[..|log| - 1]), log[|log| - 1].number;
      if last > before then last else before
  }

  /** `marks` as entries numbered on from `number`, and the crash after them. */
  function Numbered(number: int, marks: seq<Mark>): seq<Entry>
    decreases |marks|
  {
    if marks == [] then [Entry(number + 1, RecordingCrashed)]
    else [Entry(number + 1, Said(marks[0]))] + Numbered(number + 1, marks[1..])
  }

  /** The marks that end the speech left open, where the repaired mic file ends; none if its length is not known. */
  function Ending(log: seq<Entry>, micDuration: Option<real>): seq<Mark> {
    var open := OpenSpeech(log);
    if open.Some? && micDuration.Some? then EndSpeech(open.value.0, open.value.1, micDuration.value) else []
  }

  /** What recovery adds to a cut-off log, the mic file being `micDuration` long once repaired. */
  function Added(log: seq<Entry>, micDuration: Option<real>): seq<Entry>
    requires log != []
  {
    Numbered(MaxNumber(log), Ending(log, micDuration))
  }

  function AppendedAll(json: Json<Entry>, text: string, entries: seq<Entry>): string
    decreases |entries|
  {
    if entries == [] then text
    else AppendedAll(json, Appended(json, text, entries[0]), entries[1..])
  }

  /** The file after recovery. */
  function Recovered(json: Json<Entry>, text: string, micDuration: Option<real>): string {
    var log := Records(json, text);
    if CutOff(log) then AppendedAll(json, text, Added(log, micDuration)) else text
  }

  // ---- What a good log is -------------------------------------------------------------

  function MarksIn(log: seq<Entry>): seq<Mark> {
    if log == [] then []
    else
      var last := log[|log| - 1].what;
      MarksIn(log[..|log| - 1]) + (if last.Said? then [last.mark] else [])
  }

  /** Where the log stands, in the speech detector's own rule. */
  function Standing(log: seq<Entry>): Option<Reader> {
    ReadAll(Quiet(false), MarksIn(log))
  }

  /** No speech is going. */
  predicate IsQuiet(log: seq<Entry>) {
    Standing(log).Some? && Standing(log).value.Quiet?
  }

  /** Numbered 1, 2, 3 and so on, opened by the recording's start, its marks in order, and nothing after an end. */
  ghost predicate Good(log: seq<Entry>) {
    && log != [] && log[0].what == RecordingStarted
    && (forall i :: 0 <= i < |log| ==> log[i].number == i + 1)
    && (forall i :: 0 <= i < |log| - 1 ==> !IsEnd(log[i].what))
    && Standing(log).Some?
  }

  /** A good log that has its end, no speech left open. */
  ghost predicate Complete(log: seq<Entry>) {
    Good(log) && IsEnd(log[|log| - 1].what) && IsQuiet(log)
  }

  // ---- The log, recovered -------------------------------------------------------------

  lemma {:induction false} OpenIsSpeaking(log: seq<Entry>)
    requires Standing(log).Some?
    ensures match OpenSpeech(log)
      case Some(p) => Standing(log).value == Speaking(p.0, p.1)
      case None => Standing(log).value.Quiet?
  {
    hide Standing;
    if log == [] {
      NothingStands();
    } else {
      StandingOneMore(log);
      OpenIsSpeaking(log[..|log| - 1]);
    }
  }

  lemma NothingStands()
    ensures Standing([]) == Some(Quiet(false))
  {
  }

  lemma StandingOneMore(log: seq<Entry>)
    requires log != []
    ensures var before, last := Standing(log[..|log| - 1]), log[|log| - 1].what;
      Standing(log) == if !last.Said? || before.None? then before else Read(before.value, last.mark)
  {
    hide Read;
    var front, last := log[..|log| - 1], log[|log| - 1].what;
    if last.Said? {
      assert MarksIn(log)[..|MarksIn(log)| - 1] == MarksIn(front);
    } else {
      assert MarksIn(log) == MarksIn(front);
    }
  }

  lemma {:induction false} MarksInTwo(a: seq<Entry>, b: seq<Entry>)
    ensures MarksIn(a + b) == MarksIn(a) + MarksIn(b)
  {
    if b == [] {
      assert a + b == a;
    } else {
      MarksInTwo(a, b[..|b| - 1]);
      assert (a + b)[..|a + b| - 1] == a + b[..|b| - 1];
    }
  }

  lemma {:induction false} CutStands(log: seq<Entry>, n: nat)
    requires n <= |log| && Standing(log).Some?
    ensures Standing(log[..n]).Some?
  {
    assert log == log[..n] + log[n..];
    MarksInTwo(log[..n], log[n..]);
    PrefixReads(Quiet(false), MarksIn(log), |MarksIn(log[..n])|);
    assert MarksIn(log)[..|MarksIn(log[..n])|] == MarksIn(log[..n]);
  }

  lemma {:induction false} NumberedSays(number: int, marks: seq<Mark>)
    ensures var more := Numbered(number, marks);
      && |more| == |marks| + 1 && MarksIn(more) == marks
      && (forall i :: 0 <= i < |more| ==> more[i].number == number + 1 + i)
      && (forall i :: 0 <= i < |marks| ==> !IsEnd(more[i].what))
      && more[|marks|].what == RecordingCrashed
    decreases |marks|
  {
    var more := Numbered(number, marks);
    if marks == [] {
      assert more[..0] == [];
    } else {
      NumberedSays(number + 1, marks[1..]);
      var first := Entry(number + 1, Said(marks[0]));
      MarksInTwo([first], Numbered(number + 1, marks[1..]));
      assert [first][..0] == [];
      assert MarksIn([first]) == [marks[0]];
      assert marks == [marks[0]] + marks[1..];
    }
  }

  lemma {:induction false} CountedUpTo(log: seq<Entry>)
    requires log != [] && forall i :: 0 <= i < |log| ==> log[i].number == i + 1
    ensures MaxNumber(log) == |log|
  {
    if |log| > 1 { CountedUpTo(log[..|log| - 1]); }
  }

  /** A good log cut off before its end is still good. */
  lemma CutIsGood(log: seq<Entry>, n: nat)
    requires Good(log) && 1 <= n <= |log|
    ensures Good(log[..n])
  {
    hide Standing;
    CutStands(log, n);
  }

  /** A good log's own end makes it not cut off; without one it is. */
  lemma GoodIsCutOffUnlessEnded(log: seq<Entry>)
    requires Good(log)
    ensures CutOff(log) <==> !IsEnd(log[|log| - 1].what)
  {
    hide Standing;
    var last := log[|log| - 1];
    assert last in log && log[0] in log;
    forall e | e in log && IsEnd(e.what) ensures e == last {
      var i :| 0 <= i < |log| && log[i] == e;
    }
  }

  lemma AddedStands(log: seq<Entry>, micDuration: Option<real>)
    requires Good(log)
    ensures var all := log + Added(log, micDuration);
      && Standing(all).Some?
      && (IsQuiet(all) <==> micDuration.Some? || IsQuiet(log))
  {
    hide Numbered, EndSpeech, MaxNumber, OpenSpeech, ReadAll;
    var ended := Ending(log, micDuration);
    OpenIsSpeaking(log);
    NumberedSays(MaxNumber(log), ended);
    MarksInTwo(log, Added(log, micDuration));
    ReadsInTwo(Quiet(false), MarksIn(log), ended);
    ReadsNone(Standing(log).value);
    var open := OpenSpeech(log);
    if open.Some? && micDuration.Some? { EndIsAccepted(open.value.0, open.value.1, micDuration.value); }
  }

  /**
   * Cut off anywhere after its first event, and recovered, a log is good
   * again, with the numbers running on; and it is complete exactly when the
   * mic file's length is known or no speech was going at the cut.
   */
  lemma RecoveredIsComplete(log: seq<Entry>, micDuration: Option<real>)
    requires Good(log) && CutOff(log)
    ensures Good(log + Added(log, micDuration))
    ensures Complete(log + Added(log, micDuration)) <==> micDuration.Some? || IsQuiet(log)
  {
    hide Standing, Numbered, Ending, MaxNumber;
    var ended := Ending(log, micDuration);
    CountedUpTo(log);
    NumberedSays(|log|, ended);
    AddedStands(log, micDuration);
    GoodIsCutOffUnlessEnded(log);
  }

  // ---- The file, recovered ------------------------------------------------------------

  lemma {:induction false} AllAppendedAreRead(json: Json<Entry>, text: string, entries: seq<Entry>)
    requires forall e :: e in entries ==> WorksOn(json, e)
    ensures Records(json, AppendedAll(json, text, entries)) == Records(json, text) + entries
    decreases |entries|
  {
    hide Records, Appended, WorksOn;
    if entries != [] {
      assert WorksOn(json, entries[0]);
      AppendedIsRead(json, text, entries[0]);
      AllAppendedAreRead(json, Appended(json, text, entries[0]), entries[1..]);
    }
  }

  /** A session's log at any moment: good, and complete once it has its end. */
  ghost predicate OfASession(log: seq<Entry>) {
    Good(log) && (IsEnd(log[|log| - 1].what) ==> Complete(log))
  }

  /**
   * The file of a session, finished or not, is cut off after any number of
   * characters that leave its first event readable, mid-line or not, and
   * recovered: it reads as a good log with an end that begins with all that
   * had been read, and a complete one exactly when the mic file's length is
   * known or no speech was going at the cut. Recovering it again changes
   * nothing. JSON is asked to work on the records of the two files alone.
   */
  lemma CutAnywhereRecovers(json: Json<Entry>, log: seq<Entry>, n: nat, micDuration: Option<real>)
    requires OfASession(log) && forall e :: e in log ==> WorksOn(json, e)
    requires n <= |Written(json, log)| && Records(json, Written(json, log)[..n]) != []
    requires forall e :: e in Added(Records(json, Written(json, log)[..n]), micDuration) ==> WorksOn(json, e)
    ensures var cut := Written(json, log)[..n];
      var read, after := Records(json, cut), Records(json, Recovered(json, cut, micDuration));
      && read <= after && read <= log
      && Good(after) && IsEnd(after[|after| - 1].what)
      && (Complete(after) <==> micDuration.Some? || IsQuiet(read))
      && Recovered(json, Recovered(json, cut, micDuration), micDuration) == Recovered(json, cut, micDuration)
  {
    hide Records, Added, AppendedAll, Standing, WorksOn, Complete, IsQuiet;
    var cut := Written(json, log)[..n];
    var k := CutReadsAPrefix(json, log, n);
    var read := Records(json, cut);
    CutIsGood(log, k);
    GoodIsCutOffUnlessEnded(read);
    if CutOff(read) {
      AllAppendedAreRead(json, cut, Added(read, micDuration));
      RecoveredIsComplete(read, micDuration);
      AddedEndsIt(read, micDuration);
      GoodIsCutOffUnlessEnded(read + Added(read, micDuration));
    } else {
      EndedIsWhole(log, k);
      CompleteIsQuiet(log);
    }
  }

  lemma CompleteIsQuiet(log: seq<Entry>)
    requires Complete(log)
    ensures IsQuiet(log)
  {
    hide Standing;
  }

  lemma AddedEndsIt(log: seq<Entry>, micDuration: Option<real>)
    requires log != []
    ensures Added(log, micDuration) != []
    ensures IsEnd(Added(log, micDuration)[|Added(log, micDuration)| - 1].what)
  {
    hide MaxNumber, Ending;
    var ended := Ending(log, micDuration);
    NumberedSays(MaxNumber(log), ended);
  }

  lemma EndedIsWhole(log: seq<Entry>, k: nat)
    requires Good(log) && 1 <= k <= |log| && IsEnd(log[k - 1].what)
    ensures log[..k] == log
  {
    hide Standing;
  }

  // ---- A log with holes ---------------------------------------------------------------

  predicate Rising(log: seq<Entry>) {
    forall i, j :: 0 <= i < j < |log| ==> log[i].number < log[j].number
  }

  /** As a session's log is even with lines of it missing: its numbers rise, its start comes first, and nothing follows an end. */
  ghost predicate Opened(log: seq<Entry>) {
    && log != [] && log[0].what == RecordingStarted && Rising(log)
    && forall i :: 0 <= i < |log| - 1 ==> !IsEnd(log[i].what)
  }

  lemma {:induction false} LastIsMax(log: seq<Entry>)
    requires log != [] && Rising(log)
    ensures MaxNumber(log) == log[|log| - 1].number
  {
    if |log| > 1 { LastIsMax(log[..|log| - 1]); }
  }

  lemma OpenedIsCutOffUnlessEnded(log: seq<Entry>)
    requires Opened(log)
    ensures CutOff(log) <==> !IsEnd(log[|log| - 1].what)
  {
    var last := log[|log| - 1];
    assert last in log && log[0] in log;
    forall e | e in log && IsEnd(e.what) ensures e == last {
      var i :| 0 <= i < |log| && log[i] == e;
    }
  }

  lemma OpenSpeechOneMore(log: seq<Entry>, e: Entry)
    ensures OpenSpeech(log + [e]) ==
      if !e.what.Said? then OpenSpeech(log)
      else match e.what.mark
        case SpeechStarted(at) => Some((at, false))
        case SpeechEnded(_) => None
        case TakeStarted(_) => if OpenSpeech(log).None? then None else Some((OpenSpeech(log).value.0, true))
        case WarmedUp(_) => OpenSpeech(log)
  {
    assert (log + [e])[..|log + [e]| - 1] == log;
  }

  lemma {:induction false} OpenAfterNumbered(log: seq<Entry>, number: int, marks: seq<Mark>)
    ensures marks != [] && marks[|marks| - 1].SpeechEnded? ==> OpenSpeech(log + Numbered(number, marks)) == None
    ensures marks == [] ==> OpenSpeech(log + Numbered(number, marks)) == OpenSpeech(log)
    decreases |marks|
  {
    hide OpenSpeech;
    if marks == [] {
      OpenSpeechOneMore(log, Entry(number + 1, RecordingCrashed));
    } else {
      var first := Entry(number + 1, Said(marks[0]));
      OpenAfterNumbered(log + [first], number + 1, marks[1..]);
      assert log + Numbered(number, marks) == (log + [first]) + Numbered(number + 1, marks[1..]);
      OpenSpeechOneMore(log, first);
    }
  }

  /** Recovery closes the speech the log leaves open exactly when the mic file's length is known. */
  lemma AddedClosesSpeech(log: seq<Entry>, micDuration: Option<real>)
    requires log != []
    ensures OpenSpeech(log + Added(log, micDuration)).None? <==> micDuration.Some? || OpenSpeech(log).None?
  {
    hide OpenSpeech, MaxNumber, Numbered;
    OpenAfterNumbered(log, MaxNumber(log), Ending(log, micDuration));
  }

  lemma AddedOpens(log: seq<Entry>, micDuration: Option<real>)
    requires Opened(log) && CutOff(log)
    ensures var all := log + Added(log, micDuration);
      && Opened(all) && IsEnd(all[|all| - 1].what)
      && forall i :: |log| <= i < |all| ==> all[i].number == log[|log| - 1].number + 1 + (i - |log|)
  {
    hide Numbered, Ending, MaxNumber;
    LastIsMax(log);
    NumberedSays(MaxNumber(log), Ending(log, micDuration));
    OpenedIsCutOffUnlessEnded(log);
  }

  /**
   * The same for a log with lines missing, of which no more is known than
   * that its numbers rise: recovered, it begins with what was read, its
   * numbers rise still, running on from the last one read, and one end closes
   * it. A file that read to its end is left as it was.
   */
  lemma CutAnywhereRecoversHoles(json: Json<Entry>, log: seq<Entry>, n: nat, micDuration: Option<real>)
    requires Opened(log) && forall e :: e in log ==> WorksOn(json, e)
    requires n <= |Written(json, log)| && Records(json, Written(json, log)[..n]) != []
    requires forall e :: e in Added(Records(json, Written(json, log)[..n]), micDuration) ==> WorksOn(json, e)
    ensures var cut := Written(json, log)[..n];
      var read, after := Records(json, cut), Records(json, Recovered(json, cut, micDuration));
      && read <= after && read <= log
      && Opened(after) && IsEnd(after[|after| - 1].what)
      && (forall i :: |read| <= i < |after| ==> after[i].number == read[|read| - 1].number + 1 + (i - |read|))
      && (if IsEnd(read[|read| - 1].what) then after == read
          else OpenSpeech(after).None? <==> micDuration.Some? || OpenSpeech(read).None?)
      && Recovered(json, Recovered(json, cut, micDuration), micDuration) == Recovered(json, cut, micDuration)
  {
    hide Records, Added, AppendedAll, WorksOn, OpenSpeech;
    var cut := Written(json, log)[..n];
    var k := CutReadsAPrefix(json, log, n);
    var read := Records(json, cut);
    OpenedIsCutOffUnlessEnded(read);
    if CutOff(read) {
      AllAppendedAreRead(json, cut, Added(read, micDuration));
      AddedOpens(read, micDuration);
      AddedClosesSpeech(read, micDuration);
      OpenedIsCutOffUnlessEnded(read + Added(read, micDuration));
    }
  }

  // ---- In the code's form -------------------------------------------------------------

  /** The highest number in the log: one of its numbers, and none is higher. */
  method MaxNumberOf(log: seq<Entry>) returns (m: int)
    requires log != []
    ensures exists e :: e in log && e.number == m
    ensures forall e :: e in log ==> e.number <= m
    ensures m == MaxNumber(log)
  {
    m := log[0].number;
    for i := 1 to |log|
      invariant exists j :: 0 <= j < i && log[j].number == m
      invariant forall j :: 0 <= j < i ==> log[j].number <= m
      invariant m == MaxNumber(log[..i])
    {
      assert log[..i + 1][..i] == log[..i];
      if log[i].number > m { m := log[i].number; }
    }
    assert log[..|log|] == log;
  }

  /** Recovery of one session's file: the ended speech's marks and the crash, appended one by one. */
  method Recover(json: Json<Entry>, text: string, micDuration: Option<real>) returns (after: string)
    ensures after == Recovered(json, text, micDuration)
  {
    hide Appended, MaxNumber, OpenSpeech, EndSpeech, Records;
    after := text;
    var log := Records(json, text);
    if !CutOff(log) { return; }
    var number := MaxNumberOf(log);
    var open := OpenSpeech(log);
    var ended := [];
    if open.Some? && micDuration.Some? {
      ended := EndSpeech(open.value.0, open.value.1, micDuration.value);
    }
    var i := 0;
    while i < |ended|
      invariant 0 <= i <= |ended|
      invariant AppendedAll(json, text, Added(log, micDuration)) == AppendedAll(json, after, Numbered(number, ended[i..]))
    {
      assert ended[i..][1..] == ended[i + 1..];
      number := number + 1;
      OneAppended(json, after, Entry(number, Said(ended[i])), Numbered(number, ended[i + 1..]));
      after := Appended(json, after, Entry(number, Said(ended[i])));
      i := i + 1;
    }
    OneAppended(json, after, Entry(number + 1, RecordingCrashed), []);
    after := Appended(json, after, Entry(number + 1, RecordingCrashed));
  }

  lemma OneAppended(json: Json<Entry>, text: string, entry: Entry, rest: seq<Entry>)
    ensures AppendedAll(json, text, [entry] + rest) == AppendedAll(json, Appended(json, text, entry), rest)
  {
    assert ([entry] + rest)[1..] == rest;
  }
}
