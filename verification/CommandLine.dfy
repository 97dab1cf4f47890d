/**
 * The launcher's argument quoting (`Quote` and the argument join of `idle-launch`), proved
 * against the rules by which a Windows program splits its command line again.
 */
module CommandLine {

  const BACKSLASH := '\\'
  const QUOTE := '"'

  predicate IsBlank(c: char) { c == ' ' || c == '\t' }

  function Backslashes(n: nat): string { seq(n, _ => BACKSLASH) }

  // ---- What the launcher writes --------------------------------------------------------

  /** Whether `a` may go on the command line as it is. */
  predicate IsPlain(a: string) {
    a != "" && forall i :: 0 <= i < |a| ==> !IsBlank(a[i]) && a[i] != QUOTE
  }

  /** What is still to be written of a quoted argument, `slashes` backslashes being held back. */
  function Escaped(a: string, slashes: nat): string {
    if a == "" then Backslashes(2 * slashes)
    else if a[0] == BACKSLASH then Escaped(a[1..], slashes + 1)
    else if a[0] == QUOTE then Backslashes(2 * slashes + 1) + [QUOTE] + Escaped(a[1..], 0)
    else Backslashes(slashes) + [a[0]] + Escaped(a[1..], 0)
  }

  function Quoted(a: string): string {
    if IsPlain(a) then a else [QUOTE] + Escaped(a, 0) + [QUOTE]
  }

  function Joined(args: seq<string>): string {
    if args == [] then ""
    else if |args| == 1 then Quoted(args[0])
    else Quoted(args[0]) + " " + Joined(args[1..])
  }

  method Quote(a: string) returns (r: string)
    ensures r == Quoted(a)
  {
    var special := |a| == 0;
    var j := 0;
    while j < |a| && !special
      invariant 0 <= j <= |a|
      invariant !special ==> forall i :: 0 <= i < j ==> !IsBlank(a[i]) && a[i] != QUOTE
      invariant !special ==> |a| > 0
      invariant special ==> !IsPlain(a)
    {
      special := IsBlank(a[j]) || a[j] == QUOTE;
      j := j + 1;
    }
    if !special { return a; }
    var sb := [QUOTE];
    var slashes := 0;
    for k := 0 to |a|
      invariant slashes >= 0
      invariant sb + Escaped(a[k..], slashes) == [QUOTE] + Escaped(a, 0)
    {
      var c := a[k];
      ghost var before := sb;
      assert a[k..] != "" && a[k..][0] == c && a[k..][1..] == a[k + 1..];
      if c == BACKSLASH {
        slashes := slashes + 1;
      } else {
        ghost var rest := Escaped(a[k + 1..], 0);
        if c == QUOTE {
          sb := sb + Backslashes(slashes * 2 + 1);
          assert before + (Backslashes(2 * slashes + 1) + [QUOTE] + rest) == (sb + [c]) + rest;
        } else {
          sb := sb + Backslashes(slashes);
          assert before + (Backslashes(slashes) + [c] + rest) == (sb + [c]) + rest;
        }
        slashes := 0;
        sb := sb + [c];
      }
    }
    assert a[|a|..] == "";
    r := sb + Backslashes(slashes * 2) + [QUOTE];
  }

  method JoinArguments(args: seq<string>) returns (rest: string)
    ensures rest == Joined(args)
  {
    hide Joined, Quoted;
    rest := "";
    JoinedNone();
    for i := 0 to |args|
      invariant rest == Joined(args[..i])
    {
      var q := Quote(args[i]);
      JoinedSnoc(args[..i], args[i]);
      JoinedNone();
      assert args[..i + 1] == args[..i] + [args[i]];
      if i > 0 { rest := rest + " "; }
      rest := rest + q;
    }
    assert args[..|args|] == args;
  }

  lemma JoinedNone()
    ensures Joined([]) == ""
  {
  }

  lemma {:induction false} JoinedSnoc(args: seq<string>, a: string)
    ensures Joined(args + [a]) == (if args == [] then "" else Joined(args) + " ") + Quoted(a)
  {
    if args == [] {
      assert args + [a] == [a];
    } else {
      var rest := args[1..];
      assert args + [a] == [args[0]] + (rest + [a]);
      JoinedCons(args[0], rest + [a]);
      JoinedSnoc(rest, a);
      assert args == [args[0]] + rest;
      JoinedCons(args[0], rest);
    }
  }

  lemma JoinedCons(a: string, rest: seq<string>)
    ensures Joined([a] + rest) == if rest == [] then Quoted(a) else Quoted(a) + " " + Joined(rest)
  {
    assert ([a] + rest)[1..] == rest;
  }

  // ---- How a Windows program reads it --------------------------------------------------

  /**
   * What two quotes in a row mean inside quotes, where Windows' own parsers differ: nothing
   * special, a literal quote after which the quotes stay open, or one that closes them.
   */
  datatype DoubledQuote = TwoToggles | LiteralStays | LiteralCloses

  function LeadingBackslashes(s: string): (n: nat)
    ensures n <= |s|
    ensures forall i :: 0 <= i < n ==> s[i] == BACKSLASH
    ensures n < |s| ==> s[n] != BACKSLASH
  {
    if s != "" && s[0] == BACKSLASH then 1 + LeadingBackslashes(s[1..]) else 0
  }

  /** An argument being read: none begun yet, or its characters so far. */
  datatype Argument = NotBegun | Begun(text: string) {
    function Text(): string { if NotBegun? then "" else text }
    function Done(): seq<string> { if NotBegun? then [] else [text] }
  }

  /**
   * The documented rules of CommandLineToArgvW (after the program's own name): blanks outside
   * quotes end an argument; 2n backslashes and a quote are n backslashes and a delimiter, 2n+1
   * are n backslashes and a literal quote; any other backslash is itself.
   */
  function Arguments(s: string, current: Argument, inQuotes: bool, rule: DoubledQuote): seq<string>
    decreases |s|
  {
    if s == "" then current.Done()
    else if IsBlank(s[0]) && !inQuotes then current.Done() + Arguments(s[1..], NotBegun, false, rule)
    else if s[0] == BACKSLASH then
      var n := LeadingBackslashes(s);
      if n < |s| && s[n] == QUOTE then
        var half := Begun(current.Text() + Backslashes(n / 2));
        if n % 2 == 0 then Arguments(s[n..], half, inQuotes, rule)
        else Arguments(s[n + 1..], Begun(half.text + [QUOTE]), inQuotes, rule)
      else Arguments(s[n..], Begun(current.Text() + Backslashes(n)), inQuotes, rule)
    else if s[0] == QUOTE then
      if inQuotes && !rule.TwoToggles? && |s| > 1 && s[1] == QUOTE then
        Arguments(s[2..], Begun(current.Text() + [QUOTE]), rule.LiteralStays?, rule)
      else Arguments(s[1..], Begun(current.Text()), !inQuotes, rule)
    else Arguments(s[1..], Begun(current.Text() + [s[0]]), inQuotes, rule)
  }

  function ArgvOf(s: string, rule: DoubledQuote): seq<string> { Arguments(s, NotBegun, false, rule) }

  // ---- The round trip ------------------------------------------------------------------

  /** What may follow an argument the launcher wrote: nothing, or the space before the next. */
  predicate EndsArgument(tail: string) { tail == "" || tail[0] == ' ' }

  lemma {:induction false} LeadingBackslashesOf(n: nat, rest: string)
    requires rest == "" || rest[0] != BACKSLASH
    ensures LeadingBackslashes(Backslashes(n) + rest) == n
  {
    if n == 0 {
      assert Backslashes(0) + rest == rest;
    } else {
      assert (Backslashes(n) + rest)[1..] == Backslashes(n - 1) + rest;
      LeadingBackslashesOf(n - 1, rest);
    }
  }

  /** A run of backslashes before `rest` is read in one step. */
  lemma ReadsBackslashes(n: nat, rest: string, current: Argument, inQuotes: bool, rule: DoubledQuote)
    requires n > 0 && (rest == "" || rest[0] != BACKSLASH)
    ensures var s := Backslashes(n) + rest; var text := current.Text();
            Arguments(s, current, inQuotes, rule) ==
            if rest == "" || rest[0] != QUOTE then Arguments(rest, Begun(text + Backslashes(n)), inQuotes, rule)
            else if n % 2 == 0 then Arguments(rest, Begun(text + Backslashes(n / 2)), inQuotes, rule)
            else Arguments(rest[1..], Begun(text + Backslashes(n / 2) + [QUOTE]), inQuotes, rule)
  {
    var s := Backslashes(n) + rest;
    LeadingBackslashesOf(n, rest);
    assert s[0] == BACKSLASH;
    assert s[n..] == rest;
    if rest != "" {
      assert s[n] == rest[0];
      assert s[n + 1..] == rest[1..];
    }
  }

  lemma ReadsClosingQuote(slashes: nat, tail: string, text: string, rule: DoubledQuote)
    requires EndsArgument(tail)
    ensures Arguments(Backslashes(2 * slashes) + ([QUOTE] + tail), Begun(text), true, rule)
         == Arguments(tail, Begun(text + Backslashes(slashes)), false, rule)
  {
    hide Arguments;
    var close := [QUOTE] + tail;
    if slashes > 0 {
      ReadsBackslashes(2 * slashes, close, Begun(text), true, rule);
    } else {
      assert Backslashes(0) + close == close && text + Backslashes(0) == text;
    }
    assert 2 * slashes / 2 == slashes;
    ReadsQuoteThatEnds(tail, text + Backslashes(slashes), rule);
  }

  lemma ReadsQuoteThatEnds(tail: string, text: string, rule: DoubledQuote)
    requires EndsArgument(tail)
    ensures Arguments([QUOTE] + tail, Begun(text), true, rule) == Arguments(tail, Begun(text), false, rule)
  {
    var close := [QUOTE] + tail;
    assert close[1..] == tail;
    assert |close| > 1 ==> close[1] == tail[0];
  }

  lemma ReadsOneOther(c: char, rest: string, current: Argument, inQuotes: bool, rule: DoubledQuote)
    requires c != BACKSLASH && c != QUOTE && (IsBlank(c) ==> inQuotes)
    ensures Arguments([c] + rest, current, inQuotes, rule) == Arguments(rest, Begun(current.Text() + [c]), inQuotes, rule)
  {
    var here := [c] + rest;
    assert here[0] == c && here[1..] == rest;
  }

  lemma ReadsEscapedQuote(slashes: nat, rest: string, text: string, rule: DoubledQuote)
    ensures Arguments(Backslashes(2 * slashes + 1) + ([QUOTE] + rest), Begun(text), true, rule)
         == Arguments(rest, Begun(text + Backslashes(slashes) + [QUOTE]), true, rule)
  {
    hide Arguments;
    var n := 2 * slashes + 1;
    var here := [QUOTE] + rest;
    assert n / 2 == slashes && n % 2 == 1;
    assert here[0] == QUOTE && here[1..] == rest;
    ReadsBackslashes(n, here, Begun(text), true, rule);
    assert Begun(text).Text() == text;
  }

  /** Any other character, after the backslashes before it, is itself. */
  lemma ReadsOther(slashes: nat, c: char, rest: string, current: Argument, inQuotes: bool, rule: DoubledQuote)
    requires c != BACKSLASH && c != QUOTE && (IsBlank(c) ==> inQuotes)
    ensures Arguments(Backslashes(slashes) + ([c] + rest), current, inQuotes, rule)
         == Arguments(rest, Begun(current.Text() + Backslashes(slashes) + [c]), inQuotes, rule)
  {
    hide Arguments;
    var here := [c] + rest;
    assert here[0] == c && here[1..] == rest;
    if slashes > 0 {
      ReadsBackslashes(slashes, here, current, inQuotes, rule);
      ReadsOneOther(c, rest, Begun(current.Text() + Backslashes(slashes)), inQuotes, rule);
    } else {
      assert Backslashes(0) + here == here && current.Text() + Backslashes(0) == current.Text();
      ReadsOneOther(c, rest, current, inQuotes, rule);
    }
  }

  /** Reading what was escaped inside quotes gives the characters back, and closes the quotes. */
  lemma {:induction false} ReadsEscaped(a: string, slashes: nat, tail: string, text: string, rule: DoubledQuote)
    requires EndsArgument(tail)
    ensures Arguments(Escaped(a, slashes) + ([QUOTE] + tail), Begun(text), true, rule)
         == Arguments(tail, Begun(text + Backslashes(slashes) + a), false, rule)
    decreases |a|
  {
    hide Arguments;
    var so := text + Backslashes(slashes);
    if a == "" {
      ReadsClosingQuote(slashes, tail, text, rule);
      assert so + a == so;
    } else if a[0] == BACKSLASH {
      ReadsEscaped(a[1..], slashes + 1, tail, text, rule);
      assert text + Backslashes(slashes + 1) + a[1..] == so + a;
    } else {
      var rest := Escaped(a[1..], 0) + ([QUOTE] + tail);
      var lead := if a[0] == QUOTE then Backslashes(2 * slashes + 1) else Backslashes(slashes);
      assert Escaped(a, slashes) + ([QUOTE] + tail) == lead + ([a[0]] + rest);
      if a[0] == QUOTE {
        ReadsEscapedQuote(slashes, rest, text, rule);
      } else {
        ReadsOther(slashes, a[0], rest, Begun(text), true, rule);
      }
      ReadsEscaped(a[1..], 0, tail, so + [a[0]], rule);
      assert so + [a[0]] + Backslashes(0) + a[1..] == so + a;
    }
  }

  /** An argument that needed no quotes reads as itself, its backslashes included. */
  lemma {:induction false} ReadsPlain(a: string, tail: string, current: Argument, rule: DoubledQuote)
    requires forall i :: 0 <= i < |a| ==> !IsBlank(a[i]) && a[i] != QUOTE
    requires EndsArgument(tail) && (a == "" ==> current.Begun?)
    ensures Arguments(a + tail, current, false, rule) == Arguments(tail, Begun(current.Text() + a), false, rule)
    decreases |a|
  {
    hide Arguments;
    var text := current.Text();
    if a == "" {
      assert a + tail == tail && text + a == text;
    } else if a[0] == BACKSLASH {
      var n := LeadingBackslashes(a);
      var rest := a[n..];
      assert a == Backslashes(n) + rest;
      assert a + tail == Backslashes(n) + (rest + tail);
      ReadsBackslashes(n, rest + tail, current, false, rule);
      ReadsPlain(rest, tail, Begun(text + Backslashes(n)), rule);
      assert text + Backslashes(n) + rest == text + a;
    } else {
      assert a + tail == Backslashes(0) + ([a[0]] + (a[1..] + tail));
      ReadsOther(0, a[0], a[1..] + tail, current, false, rule);
      assert text + Backslashes(0) + [a[0]] == text + [a[0]];
      ReadsPlain(a[1..], tail, Begun(text + [a[0]]), rule);
      assert text + [a[0]] + a[1..] == text + a;
    }
  }

  lemma ReadsQuoted(a: string, tail: string, rule: DoubledQuote)
    requires EndsArgument(tail)
    ensures ArgvOf(Quoted(a) + tail, rule) == Arguments(tail, Begun(a), false, rule)
  {
    if IsPlain(a) {
      ReadsPlain(a, tail, NotBegun, rule);
      assert "" + a == a;
    } else {
      var body := Escaped(a, 0) + ([QUOTE] + tail);
      assert Quoted(a) + tail == [QUOTE] + body;
      assert ([QUOTE] + body)[1..] == body;
      ReadsEscaped(a, 0, tail, "", rule);
      assert "" + Backslashes(0) + a == a;
    }
  }

  /** Whatever the arguments, the program launched is given exactly them. */
  lemma {:induction false} ArgumentsRoundTrip(args: seq<string>, rule: DoubledQuote)
    ensures ArgvOf(Joined(args), rule) == args
  {
    if |args| == 1 {
      ReadsQuoted(args[0], "", rule);
      assert Quoted(args[0]) + "" == Quoted(args[0]);
    } else if |args| > 1 {
      var tail := " " + Joined(args[1..]);
      assert Joined(args) == Quoted(args[0]) + tail;
      ReadsQuoted(args[0], tail, rule);
      assert tail[1..] == Joined(args[1..]);
      ArgumentsRoundTrip(args[1..], rule);
    }
  }

  /** So no two argument lists share a command line. */
  lemma JoinedIsInjective(xs: seq<string>, ys: seq<string>)
    requires Joined(xs) == Joined(ys)
    ensures xs == ys
  {
    ArgumentsRoundTrip(xs, TwoToggles);
    ArgumentsRoundTrip(ys, TwoToggles);
  }
}
