/**
 * The line splitter over a process's output: chunks of text in, complete lines
 * out. A line ends at a line feed, a carriage return, or the two together; a
 * chunk may end between those two.
 */
module LineSplitter {
  import opened Common

  predicate IsBreak(c: char) {
    c == '\n' || c == '\r'
  }

  /** The pieces between the breaks of `text`, as `split(/\r?\n|\r/)` gives them. */
  function Split(text: string): (pieces: seq<string>)
    ensures |pieces| > 0
  {
    if text == [] then [[]]
    else if |text| > 1 && text[0] == '\r' && text[1] == '\n' then [[]] + Split(text[2..])
    else Led(text[0], Split(text[1..]))
  }

  /** One more character in front. */
  function Led(c: char, pieces: seq<string>): (led: seq<string>)
    requires |pieces| > 0
    ensures |led| > 0
  {
    if IsBreak(c) then [[]] + pieces else [[c] + pieces[0]] + pieces[1..]
  }

  /** The complete lines of `text`, and what follows the last of them. */
  function Full(text: string): seq<string> {
    Split(text)[..|Split(text)| - 1]
  }

  function Rest(text: string): string {
    Split(text)[|Split(text)| - 1]
  }

  function NonEmpty(lines: seq<string>): seq<string> {
    if lines == [] then []
    else (if lines[0] == [] then [] else [lines[0]]) + NonEmpty(lines[1..])
  }

  /** The text is cut between a carriage return and its line feed. */
  predicate CutsABreak(before: string, after: string) {
    before != [] && after != [] && before[|before| - 1] == '\r' && after[0] == '\n'
  }

  function Cuts(chunks: seq<string>): nat {
    if chunks == [] then 0
    else
      var n := |chunks| - 1;
      Cuts(chunks[..n]) + (if CutsABreak(Concat(chunks[..n]), chunks[n]) then 1 else 0)
  }

  datatype State = State(buffer: string, lines: seq<string>)

  function Next(s: State, chunk: string): State {
    State(Rest(s.buffer + chunk), s.lines + Full(s.buffer + chunk))
  }

  function After(chunks: seq<string>): State {
    if chunks == [] then State([], []) else Next(After(chunks[..|chunks| - 1]), chunks[|chunks| - 1])
  }

  lemma SplitLed(text: string)
    requires text != [] && !(|text| > 1 && text[0] == '\r' && text[1] == '\n')
    ensures Split(text) == Led(text[0], Split(text[1..]))
  {
  }

  lemma SplitPair(text: string)
    requires |text| > 1 && text[0] == '\r' && text[1] == '\n'
    ensures Split(text) == [[]] + Split(text[2..])
  {
  }

  lemma SplitEmpty()
    ensures Split([]) == [[]] && Full([]) == [] && Rest([]) == []
  {
  }

  lemma BreakJoins(a: seq<string>, b: seq<string>)
    requires |a| > 0 && |b| > 0
    ensures [[]] + Joined(a, b) == Joined([[]] + a, b)
  {
    var e := [[]] + a;
    assert e[..|e| - 1] == [[]] + a[..|a| - 1];
  }

  lemma CharJoinsOne(c: char, line: string, b: seq<string>)
    requires |b| > 0
    ensures [[c] + (line + b[0])] + b[1..] == Joined([[c] + line], b)
  {
    assert [c] + (line + b[0]) == ([c] + line) + b[0];
  }

  lemma CharJoinsMore(c: char, a: seq<string>, b: seq<string>)
    requires |a| > 1 && |b| > 0
    ensures Joined(a, b)[0] == a[0]
    ensures [[c] + a[0]] + Joined(a, b)[1..] == Joined([[c] + a[0]] + a[1..], b)
  {
    var led := [[c] + a[0]] + a[1..];
    assert led[..|led| - 1] == [[c] + a[0]] + a[1..|a| - 1];
    assert Joined(a, b)[1..] == a[1..|a| - 1] + [a[|a| - 1] + b[0]] + b[1..];
  }

  lemma LedJoins(c: char, a: seq<string>, b: seq<string>)
    requires |a| > 0 && |b| > 0
    ensures Led(c, Joined(a, b)) == Joined(Led(c, a), b)
  {
    if IsBreak(c) {
      hide Joined;
      BreakJoins(a, b);
    } else if |a| == 1 {
      CharJoinsOne(c, a[0], b);
      assert Joined(a, b) == [a[0] + b[0]] + b[1..];
    } else {
      hide Joined;
      CharJoinsMore(c, a, b);
    }
  }

  /** Pieces of two texts put together: the last of the first runs on into the first of the second. */
  function Joined(a: seq<string>, b: seq<string>): seq<string>
    requires |a| > 0 && |b| > 0
  {
    a[..|a| - 1] + [a[|a| - 1] + b[0]] + b[1..]
  }

  lemma EmptyJoins(b: seq<string>)
    requires |b| > 0
    ensures Joined([[]], b) == b
  {
    assert [] + b[0] == b[0];
  }

  /** A text cut anywhere but inside a break splits as its two parts, joined. */
  lemma {:induction false} SplitJoins(a: string, b: string)
    requires !CutsABreak(a, b)
    ensures Split(a + b) == Joined(Split(a), Split(b))
    decreases |a|
  {
    hide Split, Led, Joined, CutsABreak;
    if a == [] {
      assert a + b == b;
      SplitEmpty();
      EmptyJoins(Split(b));
    } else if |a| > 1 && a[0] == '\r' && a[1] == '\n' {
      assert (a + b)[2..] == a[2..] + b;
      CutLater(a, b, 2);
      SplitJoins(a[2..], b);
      SplitPair(a);
      SplitPair(a + b);
      BreakJoins(Split(a[2..]), Split(b));
    } else {
      assert (a + b)[1..] == a[1..] + b;
      CutLater(a, b, 1);
      SplitJoins(a[1..], b);
      SplitLed(a);
      NoPairInFront(a, b);
      SplitLed(a + b);
      LedJoins(a[0], Split(a[1..]), Split(b));
    }
  }

  lemma CutLater(a: string, b: string, k: nat)
    requires !CutsABreak(a, b) && k <= |a|
    ensures !CutsABreak(a[k..], b)
  {
  }

  lemma NoPairInFront(a: string, b: string)
    requires a != [] && !CutsABreak(a, b) && !(|a| > 1 && a[0] == '\r' && a[1] == '\n')
    ensures var t := a + b; !(|t| > 1 && t[0] == '\r' && t[1] == '\n')
  {
  }

  predicate NoBreak(line: string) {
    forall i :: 0 <= i < |line| ==> !IsBreak(line[i])
  }

  lemma LastOfLed(c: char, pieces: seq<string>)
    requires |pieces| > 0 && NoBreak(pieces[|pieces| - 1])
    ensures NoBreak(Led(c, pieces)[|Led(c, pieces)| - 1])
  {
  }

  lemma {:induction false} RestHasNoBreak(text: string)
    ensures NoBreak(Rest(text))
    decreases |text|
  {
    hide Split, Led, NoBreak;
    if text == [] {
      SplitEmpty();
      assert NoBreak([]) by { EmptyHasNoBreak(); }
    } else if |text| > 1 && text[0] == '\r' && text[1] == '\n' {
      RestHasNoBreak(text[2..]);
      SplitPair(text);
    } else {
      RestHasNoBreak(text[1..]);
      SplitLed(text);
      LastOfLed(text[0], Split(text[1..]));
    }
  }

  lemma EmptyHasNoBreak()
    ensures NoBreak([])
  {
  }

  lemma {:induction false} SplitLine(line: string)
    requires NoBreak(line)
    ensures Split(line) == [line]
  {
    if line != [] {
      SplitLine(line[1..]);
      assert [line[0]] + line[1..] == line;
    }
  }

  /** What the splitter does with a chunk, given it holds the rest of `text`. */
  lemma ChunkGoesOn(text: string, chunk: string)
    requires !CutsABreak(text, chunk)
    ensures Rest(text + chunk) == Rest(Rest(text) + chunk)
    ensures Full(text + chunk) == Full(text) + Full(Rest(text) + chunk)
  {
    hide Split, CutsABreak;
    SplitJoins(text, chunk);
    RestHasNoBreak(text);
    SplitLine(Rest(text));
    NoCutAfterALine(Rest(text), chunk);
    SplitJoins(Rest(text), chunk);
    var a, b := Split(text), Split(chunk);
    var whole, part := Joined(a, b), Joined([Rest(text)], b);
    assert part == [Rest(text) + b[0]] + b[1..];
    assert whole == a[..|a| - 1] + part;
  }

  lemma NoCutAfterALine(line: string, chunk: string)
    requires NoBreak(line)
    ensures !CutsABreak(line, chunk)
  {
  }

  /** Cut inside a break: the splitter tells one more line than there is, an empty one. */
  lemma CutBreakTellsAnEmptyLine(text: string, chunk: string)
    requires CutsABreak(text, chunk)
    ensures chunk != [] && Rest(text) == [] && Rest(text + chunk) == Rest(chunk)
    ensures Full(chunk) == [[]] + Full(chunk[1..])
    ensures Full(text + chunk) == Full(text) + Full(chunk[1..])
  {
    var front, back := text[..|text| - 1], chunk[1..];
    hide Split, CutsABreak, Joined, Led;
    EndsInReturn(text);
    SplitJoins(front, "\r");
    SplitReturn();
    assert front + "\r" == text;
    SplitFeedLed(chunk);
    assert text + chunk == front + ("\r\n" + back);
    SplitPair("\r\n" + back);
    assert ("\r\n" + back)[2..] == back;
    SplitJoins(front, "\r\n" + back);
    JoinedWithBreak(Split(front), Split(back));
  }

  lemma EndsInReturn(text: string)
    requires text != []
    ensures !CutsABreak(text[..|text| - 1], "\r")
    ensures forall back: string :: !CutsABreak(text[..|text| - 1], "\r\n" + back)
  {
  }

  lemma SplitReturn()
    ensures Split("\r") == [[], []]
  {
    assert "\r"[1..] == [];
  }

  lemma SplitFeedLed(chunk: string)
    requires chunk != [] && chunk[0] == '\n'
    ensures Split(chunk) == [[]] + Split(chunk[1..])
    ensures Rest(chunk) == Rest(chunk[1..]) && Full(chunk) == [[]] + Full(chunk[1..])
  {
    var s := Split(chunk[1..]);
    assert ([[]] + s)[..|s|] == [[]] + s[..|s| - 1];
  }

  lemma JoinedWithBreak(a: seq<string>, b: seq<string>)
    requires |a| > 0 && |b| > 0
    ensures Joined(a, [[], []]) == a + [[]]
    ensures Joined(a, [[]] + b) == a + b
    ensures (a + b)[..|a + b| - 1] == a + b[..|b| - 1]
    ensures (a + [[]])[..|a|] == a
  {
    assert a[|a| - 1] + [] == a[|a| - 1];
    assert a[..|a| - 1] + [a[|a| - 1]] == a;
    assert ([[]] + b)[1..] == b;
  }

  lemma {:induction false} NonEmptyInTwo(a: seq<string>, b: seq<string>)
    ensures NonEmpty(a + b) == NonEmpty(a) + NonEmpty(b)
  {
    if a == [] {
      assert a + b == b;
    } else {
      assert (a + b)[1..] == a[1..] + b;
      NonEmptyInTwo(a[1..], b);
    }
  }

  lemma NonEmptySkips(lines: seq<string>)
    ensures NonEmpty([[]] + lines) == NonEmpty(lines)
  {
    assert ([[]] + lines)[1..] == lines;
  }

  /**
   * However the output is cut into chunks, the lines told that are not empty
   * are the whole text's, in order, and the same text is left over; and each
   * cut inside a break, and nothing else, tells one empty line more.
   */
  lemma {:induction false} AnyChunking(chunks: seq<string>)
    ensures var s, text := After(chunks), Concat(chunks);
      && s.buffer == Rest(text)
      && NonEmpty(s.lines) == NonEmpty(Full(text))
      && |s.lines| == |Full(text)| + Cuts(chunks)
  {
    hide Split, Full, Rest, NonEmpty, CutsABreak;
    if chunks == [] {
      SplitEmpty();
    } else {
      var before, chunk := chunks[..|chunks| - 1], chunks[|chunks| - 1];
      assert chunks == before + [chunk];
      ConcatSnoc(before, chunk);
      var text, was := Concat(before), After(before);
      AnyChunking(before);
      if CutsABreak(text, chunk) {
        CutBreakTellsAnEmptyLine(text, chunk);
        assert [] + chunk == chunk;
        NonEmptySkips(Full(chunk[1..]));
        NonEmptyInTwo(Full(text), Full(chunk[1..]));
        NonEmptyInTwo(was.lines, Full(chunk));
      } else {
        ChunkGoesOn(text, chunk);
        NonEmptyInTwo(Full(text), Full(Rest(text) + chunk));
        NonEmptyInTwo(was.lines, Full(Rest(text) + chunk));
      }
    }
  }

  /** So the lines told are the whole text's, empty ones too, exactly when no chunk ends inside a break. */
  lemma AllLinesUnlessABreakIsCut(chunks: seq<string>)
    ensures After(chunks).lines == Full(Concat(chunks)) <==> Cuts(chunks) == 0
  {
    hide After, Full;
    AnyChunking(chunks);
    if Cuts(chunks) == 0 { UncutTellsAll(chunks); }
  }

  lemma {:induction false} UncutTellsAll(chunks: seq<string>)
    requires Cuts(chunks) == 0
    ensures After(chunks).lines == Full(Concat(chunks)) && After(chunks).buffer == Rest(Concat(chunks))
  {
    hide Split, Full, Rest, CutsABreak;
    if chunks == [] {
      SplitEmpty();
    } else {
      var before := chunks[..|chunks| - 1];
      assert chunks == before + [chunks[|chunks| - 1]];
      ConcatSnoc(before, chunks[|chunks| - 1]);
      UncutTellsAll(before);
      ChunkGoesOn(Concat(before), chunks[|chunks| - 1]);
    }
  }

  // ---- Lines as written -----------------------------------------------------------------

  datatype Break = LineFeed | CarriageReturn | Both

  function Chars(b: Break): string {
    match b
    case LineFeed => "\n"
    case CarriageReturn => "\r"
    case Both => "\r\n"
  }

  /** Lines, each with its own break, and what follows the last. */
  function WrittenLines(lines: seq<string>, breaks: seq<Break>, rest: string): string
    requires |lines| == |breaks|
  {
    if lines == [] then rest else lines[0] + Chars(breaks[0]) + WrittenLines(lines[1..], breaks[1..], rest)
  }

  /** No line holds a break, and no carriage return alone is followed by a line feed, which would make the two one break. */
  predicate Plain(lines: seq<string>, breaks: seq<Break>, rest: string)
    requires |lines| == |breaks|
  {
    if lines == [] then '\n' !in rest && '\r' !in rest
    else
      && '\n' !in lines[0] && '\r' !in lines[0] && Plain(lines[1..], breaks[1..], rest)
      && (breaks[0] == CarriageReturn ==>
            var later := WrittenLines(lines[1..], breaks[1..], rest); later == "" || later[0] != '\n')
  }

  lemma {:induction false} SplitsOffLine(line: string, after: string)
    requires '\n' !in line && '\r' !in line
    ensures Split(line + after) == [line + Split(after)[0]] + Split(after)[1..]
  {
    if line == "" {
      assert line + after == after && line + Split(after)[0] == Split(after)[0];
    } else {
      assert (line + after)[1..] == line[1..] + after;
      SplitLed(line + after);
      SplitsOffLine(line[1..], after);
      assert [line[0]] + (line[1..] + Split(after)[0]) == line + Split(after)[0];
    }
  }

  lemma SplitsAtBreak(b: Break, later: string)
    requires b == CarriageReturn ==> later == "" || later[0] != '\n'
    ensures Split(Chars(b) + later) == [""] + Split(later)
  {
    var text := Chars(b) + later;
    if b == Both {
      assert text[2..] == later;
      SplitPair(text);
    } else {
      assert text[1..] == later;
      SplitLed(text);
    }
  }

  /** Lines are told as they were written, whichever of the three breaks each ends with, and the rest is kept. */
  lemma {:induction false} SplitReadsBack(lines: seq<string>, breaks: seq<Break>, rest: string)
    requires |lines| == |breaks| && Plain(lines, breaks, rest)
    ensures Full(WrittenLines(lines, breaks, rest)) == lines && Rest(WrittenLines(lines, breaks, rest)) == rest
  {
    hide Split;
    if lines == [] {
      SplitsOffLine(rest, "");
      SplitEmpty();
      assert rest + "" == rest;
    } else {
      var later := WrittenLines(lines[1..], breaks[1..], rest);
      SplitReadsBack(lines[1..], breaks[1..], rest);
      SplitsAtBreak(breaks[0], later);
      SplitsOffLine(lines[0], Chars(breaks[0]) + later);
      assert lines[0] + Chars(breaks[0]) + later == lines[0] + (Chars(breaks[0]) + later);
      assert lines[0] + "" == lines[0];
      var whole := Split(WrittenLines(lines, breaks, rest));
      assert whole == [lines[0]] + Split(later);
      assert whole[..|whole| - 1] == [lines[0]] + Split(later)[..|Split(later)| - 1];
    }
  }

  class Splitter {
    var buffer: string
    /** Every line the listener was called with. */
    var lines: seq<string>

    function Abs(): State
      reads this
    {
      State(buffer, lines)
    }

    constructor ()
      ensures Abs() == After([])
    {
      buffer, lines := [], [];
    }

    method OnChunk(chunk: string)
      modifies this
      ensures Abs() == Next(old(Abs()), chunk)
    {
      buffer := buffer + chunk;
      var pieces := Split(buffer);
      buffer := pieces[|pieces| - 1];
      var complete := pieces[..|pieces| - 1];
      for i := 0 to |complete|
        invariant lines == old(lines) + complete[..i]
        invariant buffer == pieces[|pieces| - 1]
      {
        lines := lines + [complete[i]];
      }
    }
  }
}
