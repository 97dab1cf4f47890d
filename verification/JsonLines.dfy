/**
 * Files of one JSON record a line: reading every record that can be read, and
 * appending one on a line of its own. The JSON itself is a parameter: a record
 * is written without a line break, reads back, and no part of a record that
 * stops short of its end reads as one.
 */
module JsonLines {
  import opened Common

  /** How records are written and read. */
  datatype Json<!T> = Json(write: T -> string, read: string -> Option<T>)

  /** A record is written on one line, reads back, and no part of it that stops short reads as one. */
  ghost predicate WorksOn<T>(json: Json<T>, r: T) {
    var line := json.write(r);
    && line != [] && '\n' !in line && json.read(line) == Some(r)
    && forall n :: 0 <= n < |line| ==> json.read(line[..n]) == None
  }

  /** The pieces of `text` between its line breaks, as `split("\n")` gives them. */
  function Split(text: string): (lines: seq<string>)
    ensures |lines| > 0
  {
    if text == [] then [[]]
    else
      var rest := Split(text[1..]);
      if text[0] == '\n' then [[]] + rest else [[text[0]] + rest[0]] + rest[1..]
  }

  /** The records of the lines that can be read, in order; empty and unreadable lines are skipped. */
  function Readable<T>(json: Json<T>, lines: seq<string>): seq<T> {
    if lines == [] then []
    else ReadLine(json, lines[0]) + Readable(json, lines[1..])
  }

  function Records<T>(json: Json<T>, text: string): seq<T> {
    Readable(json, Split(text))
  }

  /** The file with one more record. */
  function Appended<T>(json: Json<T>, text: string, record: T): string {
    var sep := if text == [] || text[|text| - 1] == '\n' then "" else "\n";
    text + (sep + json.write(record) + "\n")
  }

  function Written<T>(json: Json<T>, records: seq<T>): string {
    if records == [] then "" else json.write(records[0]) + "\n" + Written(json, records[1..])
  }

  /** How a first character changes the lines after it. */
  function Led(c: char, lines: seq<string>): seq<string>
    requires |lines| > 0
  {
    if c == '\n' then [[]] + lines else [[c] + lines[0]] + lines[1..]
  }

  lemma SplitLed(text: string)
    requires text != []
    ensures Split(text) == Led(text[0], Split(text[1..]))
  {
  }

  lemma LedInTwo(c: char, a: seq<string>, b: seq<string>)
    requires |a| > 0
    ensures Led(c, a + b) == Led(c, a) + b
  {
    if c != '\n' { assert (a + b)[1..] == a[1..] + b; }
  }

  lemma {:induction false} SplitAtBreak(a: string, b: string)
    ensures Split(a + "\n" + b) == Split(a) + Split(b)
  {
    hide Split, Led;
    var whole := a + "\n" + b;
    SplitLed(whole);
    if a == [] {
      assert whole[1..] == b;
      SplitEmpty();
      LedByBreak(Split(b));
    } else {
      SplitAtBreak(a[1..], b);
      assert whole[1..] == a[1..] + "\n" + b;
      LedInTwo(a[0], Split(a[1..]), Split(b));
      SplitLed(a);
    }
  }

  lemma SplitEmpty()
    ensures Split("") == [[]]
  {
  }

  lemma LedByBreak(lines: seq<string>)
    requires |lines| > 0
    ensures Led('\n', lines) == [[]] + lines
  {
  }

  lemma {:induction false} SplitOneLine(line: string)
    requires '\n' !in line
    ensures Split(line) == [line]
  {
    if line != [] {
      SplitOneLine(line[1..]);
      assert [line[0]] + line[1..] == line;
    }
  }

  /** What one line adds to what is read. */
  function ReadLine<T>(json: Json<T>, line: string): seq<T> {
    var r := json.read(line);
    if line == [] || r == None then [] else [r.value]
  }

  lemma {:induction false} ReadableInTwo<T>(json: Json<T>, a: seq<string>, b: seq<string>)
    ensures Readable(json, a + b) == Readable(json, a) + Readable(json, b)
  {
    hide ReadLine;
    if a == [] {
      assert a + b == b;
    } else {
      ReadableInTwo(json, a[1..], b);
      assert (a + b)[1..] == a[1..] + b;
    }
  }

  lemma RecordsInTwo<T>(json: Json<T>, a: string, b: string)
    ensures Records(json, a + "\n" + b) == Records(json, a) + Records(json, b)
  {
    SplitAtBreak(a, b);
    ReadableInTwo(json, Split(a), Split(b));
  }

  lemma ReadsEmpty<T>(json: Json<T>)
    ensures Records(json, "") == []
  {
    SplitEmpty();
    ReadableOne(json, "");
  }

  lemma ReadableOne<T>(json: Json<T>, line: string)
    ensures Readable(json, [line]) == ReadLine(json, line)
  {
    assert [line][1..] == [];
  }

  lemma ReadsOneRecord<T>(json: Json<T>, r: T)
    requires WorksOn(json, r)
    ensures Records(json, json.write(r)) == [r]
  {
    SplitOneLine(json.write(r));
    ReadableOne(json, json.write(r));
  }

  lemma ReadsLine<T>(json: Json<T>, r: T)
    requires WorksOn(json, r)
    ensures Records(json, json.write(r) + "\n") == [r]
  {
    hide Records, WorksOn;
    RecordsInTwo(json, json.write(r), "");
    assert json.write(r) + "\n" + "" == json.write(r) + "\n";
    ReadsOneRecord(json, r);
    ReadsEmpty(json);
  }

  /** A record appended to ANY file, even one whose last line is torn, is read after all that was read before. */
  lemma AppendedIsRead<T>(json: Json<T>, text: string, record: T)
    requires WorksOn(json, record)
    ensures Records(json, Appended(json, text, record)) == Records(json, text) + [record]
  {
    hide Records, WorksOn;
    var line := json.write(record) + "\n";
    ReadsLine(json, record);
    if text == [] {
      ReadsEmpty(json);
      assert Appended(json, text, record) == line;
    } else if text[|text| - 1] == '\n' {
      var front := text[..|text| - 1];
      assert text == front + "\n" + "";
      assert Appended(json, text, record) == front + "\n" + line;
      RecordsInTwo(json, front, "");
      RecordsInTwo(json, front, line);
      ReadsEmpty(json);
    } else {
      assert Appended(json, text, record) == text + "\n" + line;
      RecordsInTwo(json, text, line);
    }
  }

  /** A file cut off after any number of characters reads as its first records: a torn line never reads as one. */
  lemma {:induction false} CutReadsAPrefix<T>(json: Json<T>, records: seq<T>, n: nat) returns (k: nat)
    requires forall r :: r in records ==> WorksOn(json, r)
    requires n <= |Written(json, records)|
    ensures k <= |records| && Records(json, Written(json, records)[..n]) == records[..k]
    ensures n == |Written(json, records)| ==> k == |records|
  {
    hide Records, WorksOn;
    var text := Written(json, records);
    if records == [] {
      assert text[..n] == "";
      ReadsEmpty(json);
      return 0;
    }
    var line := json.write(records[0]);
    assert WorksOn(json, records[0]);
    if n <= |line| {
      assert text[..n] == line[..n];
      k := CutOneLine(json, records[0], n);
      WrittenIsLonger(json, records);
    } else {
      var rest := Written(json, records[1..]);
      k := CutReadsAPrefix(json, records[1..], n - |line| - 1);
      assert text == line + "\n" + rest;
      assert text[..n] == line + "\n" + rest[..n - |line| - 1];
      RecordsInTwo(json, line, rest[..n - |line| - 1]);
      ReadsOneRecord(json, records[0]);
      k := k + 1;
      assert [records[0]] + records[1..][..k - 1] == records[..k];
    }
  }

  lemma WrittenIsLonger<T>(json: Json<T>, records: seq<T>)
    requires records != []
    ensures |Written(json, records)| > |json.write(records[0])|
  {
  }

  /** One line cut short reads as nothing; whole, as its record. */
  lemma CutOneLine<T>(json: Json<T>, r: T, n: nat) returns (k: nat)
    requires WorksOn(json, r) && n <= |json.write(r)|
    ensures k <= 1 && Records(json, json.write(r)[..n]) == [r][..k]
  {
    var line := json.write(r);
    SplitOneLine(line[..n]);
    ReadableOne(json, line[..n]);
    if n == |line| {
      assert line[..n] == line;
      ReadsOneRecord(json, r);
      k := 1;
    } else {
      k := 0;
    }
  }
}
