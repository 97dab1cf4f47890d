/**
 * The incremental FLV parser (`flvVideoParser`): its loop as a class, what it makes of a whole
 * stream as a function, and the two theorems it is for. However the socket cuts the stream it
 * emits the same, and a stream written by Annex E of the FLV specification gives back its AVC
 * records in order.
 */
module FlvVideo {
  import opened Common
  import opened Bytes

  datatype Video = Config(avcC: bytes) | Frame(key: bool, data: bytes)

  const FLV_HEADER := 9
  const PREVIOUS_TAG_SIZE := 4
  const TAG_HEADER := 11
  const AUDIO_TAG: byte := 8
  const VIDEO_TAG: byte := 9
  const SCRIPT_TAG: byte := 18
  const AVC_CODEC := 7
  const KEY_FRAME := 1
  const AVC_HEADER := 5

  // ---- One turn of the loop ------------------------------------------------------------

  /** "FLV" stands at `i`. */
  predicate MagicAt(s: bytes, i: int) {
    0 <= i && i + 3 <= |s| && s[i] == 0x46 && s[i + 1] == 0x4C && s[i + 2] == 0x56
  }

  /** The first "FLV" at or after `from`, or -1. */
  function FindMagic(s: bytes, from: nat): (i: int)
    ensures i == -1 || (from <= i && MagicAt(s, i))
    ensures forall j :: from <= j && (i == -1 || j < i) ==> !MagicAt(s, j)
    decreases |s| - from
  {
    if from >= |s| then -1 else if MagicAt(s, from) then from else FindMagic(s, from + 1)
  }

  /** The AVC record in a tag's body, if it holds one. */
  function VideoIn(kind: int, body: bytes): seq<Video> {
    if kind != VIDEO_TAG || |body| < AVC_HEADER then []
    else if body[0] as int % 16 != AVC_CODEC then []
    else
      var payload := body[AVC_HEADER..];
      if body[1] == 0 then [Config(payload)]
      else if body[1] == 1 && |payload| > 0 then [Frame(body[0] as int / 16 == KEY_FRAME, payload)]
      else []
  }

  /** What one turn does: waits for more bytes, keeping `rest`, or emits and goes round again. */
  datatype Turn = Wait(rest: bytes) | Again(emitted: seq<Video>, rest: bytes, headerRead: bool)

  function TakeTurn(buffer: bytes, headerRead: bool): (t: Turn)
    ensures t.Again? ==> |t.rest| < |buffer| || (t.rest == buffer && headerRead && !t.headerRead)
  {
    if !headerRead then
      if |buffer| < FLV_HEADER + PREVIOUS_TAG_SIZE then Wait(buffer)
      else if !MagicAt(buffer, 0) then
        var next := FindMagic(buffer, 1);
        if next < 0 then Wait(buffer[|buffer| - 2..]) else Again([], buffer[next..], false)
      else Again([], Drop(buffer, ReadU32(buffer, 5) + PREVIOUS_TAG_SIZE), true)
    else if MagicAt(buffer, 0) then Again([], buffer, false)
    else if |buffer| < TAG_HEADER then Wait(buffer)
    else
      var size := ReadU24(buffer, 1);
      var end := TAG_HEADER + size + PREVIOUS_TAG_SIZE;
      if |buffer| < end then Wait(buffer)
      else Again(VideoIn(buffer[0] as int % 32, buffer[TAG_HEADER..TAG_HEADER + size]), buffer[end..], true)
  }

  datatype Parsed = Parsed(videos: seq<Video>, rest: bytes, headerRead: bool)

  /** Every turn the bytes in hand allow. */
  function Parse(buffer: bytes, headerRead: bool): Parsed
    decreases |buffer|, if headerRead then 1 else 0
  {
    match TakeTurn(buffer, headerRead)
    case Wait(rest) => Parsed([], rest, headerRead)
    case Again(emitted, rest, read) =>
      var later := Parse(rest, read);
      later.(videos := emitted + later.videos)
  }

  function Emitted(stream: bytes, headerRead: bool): seq<Video> { Parse(stream, headerRead).videos }

  /** `p`, with `videos` emitted before it. */
  function After(videos: seq<Video>, p: Parsed): Parsed { p.(videos := videos + p.videos) }

  lemma ParseTakesTurn(videos: seq<Video>, buffer: bytes, headerRead: bool)
    ensures var t := TakeTurn(buffer, headerRead);
            After(videos, Parse(buffer, headerRead)) ==
            if t.Wait? then Parsed(videos, t.rest, headerRead)
            else After(videos + t.emitted, Parse(t.rest, t.headerRead))
  {
    hide TakeTurn;
    var t := TakeTurn(buffer, headerRead);
    if t.Again? {
      var later := Parse(t.rest, t.headerRead).videos;
      assert videos + (t.emitted + later) == (videos + t.emitted) + later;
    }
  }

  /** The closure `flvVideoParser` returns. */
  class Parser {
    var buffer: bytes
    var headerRead: bool

    constructor ()
      ensures buffer == [] && !headerRead
    {
      buffer, headerRead := [], false;
    }

    method OnChunk(chunk: bytes) returns (videos: seq<Video>)
      modifies this
      ensures Parsed(videos, buffer, headerRead) == Parse(old(buffer) + chunk, old(headerRead))
    {
      hide Parse;
      ghost var whole := Parse(buffer + chunk, headerRead);
      buffer := if |buffer| > 0 then buffer + chunk else chunk;
      assert buffer == old(buffer) + chunk;
      videos := [];
      assert After(videos, whole) == whole;
      while true
        invariant After(videos, Parse(buffer, headerRead)) == whole
        decreases |buffer|, if headerRead then 1 else 0
      {
        ParseTakesTurn(videos, buffer, headerRead);
        if !headerRead {
          if |buffer| < FLV_HEADER + PREVIOUS_TAG_SIZE { break; }
          if !MagicAt(buffer, 0) {
            var next := FindMagic(buffer, 1);
            if next < 0 {
              buffer := buffer[|buffer| - 2..];
              break;
            }
            buffer := buffer[next..];
            assert videos + [] == videos;
            continue;
          }
          buffer := Drop(buffer, ReadU32(buffer, 5) + PREVIOUS_TAG_SIZE);
          headerRead := true;
          assert videos + [] == videos;
          continue;
        }
        if MagicAt(buffer, 0) {
          headerRead := false;
          assert videos + [] == videos;
          continue;
        }
        if |buffer| < TAG_HEADER { break; }
        var kind := buffer[0] as int % 32;
        var size := ReadU24(buffer, 1);
        var end := TAG_HEADER + size + PREVIOUS_TAG_SIZE;
        if |buffer| < end { break; }
        var body := buffer[TAG_HEADER..TAG_HEADER + size];
        buffer := buffer[end..];
        assert videos + [] == videos;
        if kind != VIDEO_TAG || |body| < AVC_HEADER { continue; }
        if body[0] as int % 16 != AVC_CODEC { continue; }
        var payload := body[AVC_HEADER..];
        if body[1] == 0 {
          videos := videos + [Config(payload)];
        } else if body[1] == 1 && |payload| > 0 {
          videos := videos + [Frame(body[0] as int / 16 == KEY_FRAME, payload)];
        }
      }
    }
  }

  // ---- Any chunking --------------------------------------------------------------------

  /**
   * No header the parser reads in the stream is longer than the nine bytes Annex E gives it
   * (its DataOffset). A longer one is skipped only as far as its bytes have come.
   */
  ghost predicate ShortHeaders(stream: bytes, headerRead: bool)
    decreases |stream|, if headerRead then 1 else 0
  {
    match TakeTurn(stream, headerRead)
    case Wait(_) => true
    case Again(_, rest, read) =>
      && (!headerRead && MagicAt(stream, 0) ==> ReadU32(stream, 5) <= FLV_HEADER)
      && ShortHeaders(rest, read)
  }

  /** Of a tag's type byte only the low five bits are its type: the flags above them change nothing. */
  lemma TypeFlagsDoNotMatter(a: byte, b: byte, more: bytes)
    requires a as int % 32 == b as int % 32 && !MagicAt([a] + more, 0) && !MagicAt([b] + more, 0)
    ensures var t, u := TakeTurn([a] + more, true), TakeTurn([b] + more, true);
            if t.Wait? then t == Wait([a] + more) && u == Wait([b] + more) else t == u
  {
    var x, y := [a] + more, [b] + more;
    assert x[1..] == more && y[1..] == more;
    assert forall i :: 1 <= i < |x| ==> x[i] == y[i];
    if |x| >= TAG_HEADER {
      var size := ReadU24(x, 1);
      assert ReadU24(y, 1) == size;
      var end := TAG_HEADER + size + PREVIOUS_TAG_SIZE;
      if |x| >= end {
        assert x[TAG_HEADER..TAG_HEADER + size] == y[TAG_HEADER..TAG_HEADER + size];
        assert x[end..] == y[end..];
      }
    }
  }

  /** A turn that could be taken is the same turn once more bytes have come. */
  lemma TurnIsStable(buffer: bytes, headerRead: bool, more: bytes)
    requires TakeTurn(buffer, headerRead).Again?
    requires !headerRead && MagicAt(buffer, 0) ==> ReadU32(buffer, 5) <= FLV_HEADER
    ensures var t := TakeTurn(buffer, headerRead);
            TakeTurn(buffer + more, headerRead) == Again(t.emitted, t.rest + more, t.headerRead)
  {
    hide TakeTurn;
    if headerRead {
      TagIsStable(buffer, more);
    } else {
      SearchIsStable(buffer, more);
    }
  }

  lemma SearchIsStable(buffer: bytes, more: bytes)
    requires TakeTurn(buffer, false).Again?
    requires MagicAt(buffer, 0) ==> ReadU32(buffer, 5) <= FLV_HEADER
    ensures var t := TakeTurn(buffer, false);
            TakeTurn(buffer + more, false) == Again(t.emitted, t.rest + more, t.headerRead)
  {
    var all := buffer + more;
    assert forall i :: 0 <= i < |buffer| ==> all[i] == buffer[i];
    if !MagicAt(buffer, 0) {
      var next := FindMagic(buffer, 1);
      assert MagicAt(all, next);
      assert forall j :: 1 <= j < next ==> MagicAt(all, j) == MagicAt(buffer, j);
      assert FindMagic(all, 1) == next;
      assert all[next..] == buffer[next..] + more;
    } else {
      var n := ReadU32(buffer, 5) + PREVIOUS_TAG_SIZE;
      assert Drop(all, n) == Drop(buffer, n) + more;
    }
  }

  lemma TagIsStable(buffer: bytes, more: bytes)
    requires TakeTurn(buffer, true).Again?
    ensures var t := TakeTurn(buffer, true);
            TakeTurn(buffer + more, true) == Again(t.emitted, t.rest + more, t.headerRead)
  {
    var all := buffer + more;
    assert forall i :: 0 <= i < |buffer| ==> all[i] == buffer[i];
    if !MagicAt(buffer, 0) {
      var size := ReadU24(buffer, 1);
      var end := TAG_HEADER + size + PREVIOUS_TAG_SIZE;
      assert ReadU24(all, 1) == size;
      CutAlike(buffer, more, TAG_HEADER, TAG_HEADER + size);
      CutAlike(buffer, more, end, end);
    }
  }

  lemma CutAlike(buffer: bytes, more: bytes, from: nat, upTo: nat)
    requires from <= upTo <= |buffer|
    ensures (buffer + more)[from..upTo] == buffer[from..upTo] && (buffer + more)[upTo..] == buffer[upTo..] + more
  {
  }

  /** Looking for a header, everything before the first "FLV" is skipped, however it came. */
  lemma SkipsToMagic(s: bytes)
    ensures var i := FindMagic(s, 0);
            if i < 0 then Emitted(s, false) == [] && ShortHeaders(s, false)
            else Emitted(s, false) == Emitted(s[i..], false) && ShortHeaders(s, false) == ShortHeaders(s[i..], false)
  {
    var i := FindMagic(s, 0);
    if i == 0 {
      assert s[0..] == s;
    } else if |s| >= FLV_HEADER + PREVIOUS_TAG_SIZE {
      var next := FindMagic(s, 1);
      assert next == i;
    }
  }

  lemma FindMagicInSuffix(s: bytes, k: nat)
    requires k <= |s| && forall j :: 0 <= j < k ==> !MagicAt(s, j)
    ensures FindMagic(s[k..], 0) == if FindMagic(s, 0) < 0 then -1 else FindMagic(s, 0) - k
  {
    var i := FindMagic(s, 0);
    var suffix := s[k..];
    forall j: int ensures MagicAt(suffix, j) == (j >= 0 && MagicAt(s, k + j)) {}
    if i >= 0 { assert MagicAt(suffix, i - k); }
    var at := FindMagic(suffix, 0);
    if at >= 0 { assert MagicAt(s, k + at); }
  }

  /** So bytes before which no "FLV" starts may be thrown away. */
  lemma GarbageDropped(s: bytes, k: nat)
    requires k <= |s| && forall j :: 0 <= j < k ==> !MagicAt(s, j)
    ensures Emitted(s[k..], false) == Emitted(s, false)
    ensures ShortHeaders(s[k..], false) == ShortHeaders(s, false)
  {
    FindMagicInSuffix(s, k);
    SkipsToMagic(s);
    SkipsToMagic(s[k..]);
    var i := FindMagic(s, 0);
    if i >= 0 { assert s[k..][i - k..] == s[i..]; }
  }

  lemma WaitingKeepsWhatMatters(buffer: bytes, headerRead: bool, future: bytes)
    requires TakeTurn(buffer, headerRead).Wait?
    ensures var rest := TakeTurn(buffer, headerRead).rest;
            && Emitted(buffer + future, headerRead) == Emitted(rest + future, headerRead)
            && ShortHeaders(buffer + future, headerRead) == ShortHeaders(rest + future, headerRead)
  {
    var all := buffer + future;
    if TakeTurn(buffer, headerRead).rest != buffer {
      var k := |buffer| - 2;
      forall j | 0 <= j < k ensures !MagicAt(all, j) {
        assert !MagicAt(buffer, j);
      }
      GarbageDropped(all, k);
      assert all[k..] == buffer[k..] + future;
    }
  }

  lemma EmittedTakesTurn(s: bytes, headerRead: bool)
    requires TakeTurn(s, headerRead).Again?
    ensures var t := TakeTurn(s, headerRead);
            && Emitted(s, headerRead) == t.emitted + Emitted(t.rest, t.headerRead)
            && (ShortHeaders(s, headerRead) ==> ShortHeaders(t.rest, t.headerRead))
  {
  }

  /** What the parser kept of a chunk says of the rest of the stream what the chunk did. */
  lemma {:induction false} KeepsWhatMatters(buffer: bytes, headerRead: bool, future: bytes)
    requires ShortHeaders(buffer + future, headerRead)
    ensures var p := Parse(buffer, headerRead);
            && Emitted(buffer + future, headerRead) == p.videos + Emitted(p.rest + future, p.headerRead)
            && ShortHeaders(p.rest + future, p.headerRead)
    decreases |buffer|, if headerRead then 1 else 0
  {
    hide Parse, ShortHeaders, TakeTurn, Emitted;
    var t := TakeTurn(buffer, headerRead);
    ParseSplits(buffer, headerRead);
    if t.Wait? {
      WaitingKeepsWhatMatters(buffer, headerRead, future);
      var e := Emitted(buffer + future, headerRead);
      assert [] + e == e;
    } else {
      if !headerRead && MagicAt(buffer, 0) {
        HeaderInHand(buffer, future);
      }
      TurnIsStable(buffer, headerRead, future);
      EmittedTakesTurn(buffer + future, headerRead);
      KeepsWhatMatters(t.rest, t.headerRead, future);
      var q := Parse(t.rest, t.headerRead);
      var e := Emitted(q.rest + future, q.headerRead);
      assert t.emitted + (q.videos + e) == (t.emitted + q.videos) + e;
    }
  }

  lemma ParseSplits(buffer: bytes, headerRead: bool)
    ensures var t := TakeTurn(buffer, headerRead);
            Parse(buffer, headerRead) ==
            if t.Wait? then Parsed([], t.rest, headerRead) else After(t.emitted, Parse(t.rest, t.headerRead))
  {
  }

  lemma HeaderInHand(buffer: bytes, future: bytes)
    requires TakeTurn(buffer, false).Again? && MagicAt(buffer, 0)
    requires ShortHeaders(buffer + future, false)
    ensures ReadU32(buffer, 5) <= FLV_HEADER
  {
    var all := buffer + future;
    assert MagicAt(all, 0);
    assert ReadU32(all, 5) == ReadU32(buffer, 5);
  }

  /** Everything a parser emits, fed these chunks one after another. */
  function Fed(chunks: seq<bytes>, buffer: bytes, headerRead: bool): seq<Video>
    decreases |chunks|
  {
    if chunks == [] then []
    else
      var p := Parse(buffer + chunks[0], headerRead);
      p.videos + Fed(chunks[1..], p.rest, p.headerRead)
  }

  /** From any state of the parser, what it emits depends on the bytes, not on their chunks. */
  lemma {:induction false} FedAsWhole(chunks: seq<bytes>, buffer: bytes, headerRead: bool)
    requires Parse(buffer, headerRead) == Parsed([], buffer, headerRead)
    requires ShortHeaders(buffer + Concat(chunks), headerRead)
    ensures Fed(chunks, buffer, headerRead) == Emitted(buffer + Concat(chunks), headerRead)
    decreases |chunks|
  {
    if chunks == [] {
      assert buffer + Concat(chunks) == buffer;
    } else {
      var later := Concat(chunks[1..]);
      var now := buffer + chunks[0];
      assert buffer + Concat(chunks) == now + later;
      KeepsWhatMatters(now, headerRead, later);
      var p := Parse(now, headerRead);
      ParseStops(now, headerRead);
      FedAsWhole(chunks[1..], p.rest, p.headerRead);
    }
  }

  /** What is left after a chunk yields nothing more by itself. */
  lemma {:induction false} ParseStops(buffer: bytes, headerRead: bool)
    ensures var p := Parse(buffer, headerRead); Parse(p.rest, p.headerRead) == Parsed([], p.rest, p.headerRead)
    decreases |buffer|, if headerRead then 1 else 0
  {
    match TakeTurn(buffer, headerRead)
    case Wait(rest) =>
    case Again(_, rest, read) => ParseStops(rest, read);
  }

  /** Two ways of cutting one stream emit the same, when its headers are short. */
  lemma AnyChunking(chunks: seq<bytes>, others: seq<bytes>)
    requires Concat(chunks) == Concat(others) && ShortHeaders(Concat(chunks), false)
    ensures Fed(chunks, [], false) == Fed(others, [], false) == Emitted(Concat(chunks), false)
  {
    assert [] + Concat(chunks) == Concat(chunks);
    FedAsWhole(chunks, [], false);
    FedAsWhole(others, [], false);
  }

  // ---- Exactly which headers -----------------------------------------------------------

  /** An AVC configuration with nothing in it: the shortest tag that says anything. */
  const EMPTY_CONFIG_TAG: bytes := [9, 0, 0, 5, 0, 0, 0, 0, 0, 0, 0, 0x17, 0, 0, 0, 0, 0, 0, 0, 16]

  ghost predicate IsHeader(header: bytes) {
    |header| == FLV_HEADER + PREVIOUS_TAG_SIZE && MagicAt(header, 0)
  }

  /** Whatever comes after a header, with short headers from there on, may be cut off it. */
  ghost predicate MayBeCutAfter(header: bytes)
    requires IsHeader(header)
  {
    forall rest: bytes {:trigger header + rest} ::
      ShortHeaders(Drop(header + rest, ReadU32(header, 5) + PREVIOUS_TAG_SIZE), true) ==>
        Fed([header, rest], [], false) == Fed([header + rest], [], false)
  }

  lemma FedTwo(x: bytes, y: bytes)
    ensures var p := Parse(x, false);
            && Fed([x, y], [], false) == p.videos + Emitted(p.rest + y, p.headerRead)
            && Fed([x + y], [], false) == Emitted(x + y, false)
  {
    hide Parse;
    var p := Parse(x, false);
    var none: seq<bytes> := [];
    assert [] + x == x && [] + (x + y) == x + y;
    assert [x, y][1..] == [y] && [y][1..] == none && [x + y][1..] == none;
    var q := Parse(p.rest + y, p.headerRead);
    assert Fed([y], p.rest, p.headerRead) == Emitted(p.rest + y, p.headerRead) + Fed(none, q.rest, q.headerRead);
    assert Fed([x + y], [], false) == Emitted(x + y, false) + [];
  }

  lemma WaitingSaysNothing(s: bytes, headerRead: bool)
    requires TakeTurn(s, headerRead).Wait?
    ensures Emitted(s, headerRead) == [] && ShortHeaders(s, headerRead)
  {
  }

  /** Any end of that tag, but the whole of it, says nothing. */
  lemma TailSaysNothing(k: nat)
    requires k > 0
    ensures var s := Drop(EMPTY_CONFIG_TAG, k); Emitted(s, true) == [] && ShortHeaders(s, true)
  {
    hide Parse, ShortHeaders;
    var s := Drop(EMPTY_CONFIG_TAG, k);
    assert !MagicAt(s, 0) && (|s| >= TAG_HEADER ==> s[0] as int % 32 != VIDEO_TAG) by {
      assert forall i :: 0 <= i < |s| ==> s[i] == EMPTY_CONFIG_TAG[k + i];
    }
    var t := TakeTurn(s, true);
    if t.Wait? {
      WaitingSaysNothing(s, true);
    } else {
      assert t.emitted == [] && t.headerRead && |t.rest| <= 4;
      assert !MagicAt(t.rest, 0) by {
        assert forall i :: 0 <= i < |t.rest| ==> t.rest[i] == EMPTY_CONFIG_TAG[20 - |t.rest| + i];
      }
      WaitingSaysNothing(t.rest, true);
      QuietTurn(s);
    }
  }

  lemma QuietTurn(s: bytes)
    requires var t := TakeTurn(s, true); t.Again? && t.emitted == [] && t.headerRead && ShortHeaders(t.rest, true)
    ensures Emitted(s, true) == Emitted(TakeTurn(s, true).rest, true) && ShortHeaders(s, true)
  {
    var later := Emitted(TakeTurn(s, true).rest, true);
    assert [] + later == later;
  }

  lemma WholeTagSaysConfig()
    ensures Emitted(EMPTY_CONFIG_TAG, true) == [Config([])]
  {
    var s := EMPTY_CONFIG_TAG;
    ConfigTagTurn();
    assert Emitted([], true) == [] && [Config([])] + [] == [Config([])];
  }

  lemma ConfigTagTurn()
    ensures TakeTurn(EMPTY_CONFIG_TAG, true) == Again([Config([])], [], true)
  {
    var s := EMPTY_CONFIG_TAG;
    assert |s| == 20 && !MagicAt(s, 0) && ReadU24(s, 1) == 5 && s[0] as int % 32 == VIDEO_TAG;
    var body := s[TAG_HEADER..TAG_HEADER + 5];
    assert body == [0x17, 0, 0, 0, 0];
    assert VideoIn(VIDEO_TAG, body) == [Config([])] by { assert body[5..] == []; }
    assert s[TAG_HEADER + 5 + PREVIOUS_TAG_SIZE..] == [];
  }

  lemma LongHeaderLosesATag(header: bytes)
    requires IsHeader(header) && ReadU32(header, 5) > FLV_HEADER
    ensures Fed([header, EMPTY_CONFIG_TAG], [], false) == [Config([])]
    ensures Fed([header + EMPTY_CONFIG_TAG], [], false) == []
    ensures ShortHeaders(Drop(header + EMPTY_CONFIG_TAG, ReadU32(header, 5) + PREVIOUS_TAG_SIZE), true)
  {
    hide Parse, ShortHeaders, Fed, TakeTurn;
    var n := ReadU32(header, 5) + PREVIOUS_TAG_SIZE;
    var all := header + EMPTY_CONFIG_TAG;
    FedTwo(header, EMPTY_CONFIG_TAG);
    LongHeaderTurns(header);
    ParseTakesTurn([], header, false);
    ParseTakesTurn([], [], true);
    assert forall v: seq<Video> :: [] + v == v;
    assert [] + EMPTY_CONFIG_TAG == EMPTY_CONFIG_TAG;
    WholeTagSaysConfig();
    TailSaysNothing(n - |header|);
    EmittedTakesTurn(all, false);
  }

  lemma LongHeaderTurns(header: bytes)
    requires IsHeader(header) && ReadU32(header, 5) > FLV_HEADER
    ensures TakeTurn(header, false) == Again([], [], true) && TakeTurn([], true) == Wait([])
    ensures var all, n := header + EMPTY_CONFIG_TAG, ReadU32(header, 5) + PREVIOUS_TAG_SIZE;
      && Drop(all, n) == Drop(EMPTY_CONFIG_TAG, n - |header|)
      && TakeTurn(all, false) == Again([], Drop(all, n), true)
  {
    var all, n := header + EMPTY_CONFIG_TAG, ReadU32(header, 5) + PREVIOUS_TAG_SIZE;
    assert forall i :: 0 <= i < |header| ==> all[i] == header[i];
    assert Drop(all, n) == Drop(EMPTY_CONFIG_TAG, n - |header|);
  }

  /**
   * A header whose DataOffset is at most nine may be cut off anywhere; a longer one may not: a
   * tag after it is emitted when it came in a later chunk, and lost when it came in the same.
   */
  lemma CutAfterShortHeadersOnly(header: bytes)
    requires IsHeader(header)
    ensures MayBeCutAfter(header) <==> ReadU32(header, 5) <= FLV_HEADER
  {
    if ReadU32(header, 5) <= FLV_HEADER {
      forall rest: bytes | ShortHeaders(Drop(header + rest, ReadU32(header, 5) + PREVIOUS_TAG_SIZE), true)
        ensures Fed([header, rest], [], false) == Fed([header + rest], [], false)
      {
        var all := header + rest;
        assert MagicAt(all, 0) && ReadU32(all, 5) == ReadU32(header, 5);
        assert ShortHeaders(all, false);
        assert [header, rest][1..] == [rest] && Concat([rest]) == rest + [] == rest;
        assert Concat([all]) == all + [] == all;
        AnyChunking([header, rest], [all]);
      }
    } else {
      LongHeaderLosesATag(header);
      var all := header + EMPTY_CONFIG_TAG;
    }
  }

  // ---- What Annex E writes -------------------------------------------------------------

  /** A tag, by what its body holds. `head` is the rest of a video body's first five bytes. */
  datatype Tag =
    | AvcConfig(frameType: nat, head: bytes, avcC: bytes)
    | AvcFrame(frameType: nat, head: bytes, data: bytes)
    | AvcOther(frameType: nat, packetType: byte, head: bytes, data: bytes)
    | OtherCodec(first: byte, data: bytes)
    | Audio(data: bytes)
    | Script(data: bytes)
  {
    /** Its body's fields are in their ranges: a packet type past 1 carries no picture. */
    predicate Valid() {
      && |Body()| < 0x100_0000
      && (AvcConfig? || AvcFrame? || AvcOther? ==> frameType < 16 && |head| == 3)
      && (AvcOther? ==> packetType > 1)
      && (OtherCodec? ==> first as int % 16 != AVC_CODEC)
    }
    function TypeByte(): byte {
      if Audio? then AUDIO_TAG else if Script? then SCRIPT_TAG else VIDEO_TAG
    }
    function FirstByte(): byte
      requires AvcConfig? || AvcFrame? || AvcOther?
    {
      if frameType < 16 then frameType * 16 + AVC_CODEC else AVC_CODEC
    }
    function Body(): bytes {
      match this
      case AvcConfig(_, head, avcC) => [FirstByte(), 0] + head + avcC
      case AvcFrame(_, head, data) => [FirstByte(), 1] + head + data
      case AvcOther(_, packetType, head, data) => [FirstByte(), packetType] + head + data
      case OtherCodec(first, data) => [first] + data
      case Audio(data) => data
      case Script(data) => data
    }
    /** What a decoder is to be given of it. */
    function Picture(): seq<Video> {
      match this
      case AvcConfig(_, _, avcC) => [Config(avcC)]
      case AvcFrame(frameType, _, data) => if data == [] then [] else [Frame(frameType == KEY_FRAME, data)]
      case _ => []
    }
    /** The tag and the PreviousTagSize after it; `stamp` is its timestamp and stream id. */
    function Written(stamp: bytes): bytes
      requires Valid() && |stamp| == 7
    {
      [TypeByte()] + U24(|Body()|) + stamp + Body() + U32(TAG_HEADER + |Body()|)
    }
  }

  /** A file: its header's version and flags, then its tags, each with its stamp. */
  datatype File = File(version: byte, flags: byte, tags: seq<(Tag, bytes)>) {
    predicate Valid() { forall i :: 0 <= i < |tags| ==> tags[i].0.Valid() && |tags[i].1| == 7 }
  }

  function WrittenTags(tags: seq<(Tag, bytes)>): bytes
    requires forall i :: 0 <= i < |tags| ==> tags[i].0.Valid() && |tags[i].1| == 7
  {
    if tags == [] then [] else tags[0].0.Written(tags[0].1) + WrittenTags(tags[1..])
  }

  function Written(file: File): bytes
    requires file.Valid()
  {
    HeaderOf(file) + WrittenTags(file.tags)
  }

  function HeaderOf(file: File): (h: bytes) {
    [0x46, 0x4C, 0x56, file.version, file.flags] + U32(FLV_HEADER) + U32(0)
  }

  function Pictures(tags: seq<(Tag, bytes)>): seq<Video> {
    if tags == [] then [] else tags[0].0.Picture() + Pictures(tags[1..])
  }

  lemma BodyGivesPicture(tag: Tag)
    requires tag.Valid()
    ensures VideoIn(tag.TypeByte(), tag.Body()) == tag.Picture()
  {
    var body := tag.Body();
    if tag.AvcConfig? {
      assert body[AVC_HEADER..] == tag.avcC;
    } else if tag.AvcFrame? {
      assert body[AVC_HEADER..] == tag.data;
    }
  }

  /** Where a tag's fields stand once it is written. */
  lemma TagLayout(kind: byte, size: bytes, stamp: bytes, body: bytes, trailer: bytes, rest: bytes)
    requires |size| == 3 && |stamp| == 7 && |trailer| == PREVIOUS_TAG_SIZE
    ensures var s := [kind] + size + stamp + body + trailer + rest;
            && |s| == TAG_HEADER + |body| + PREVIOUS_TAG_SIZE + |rest|
            && s[0] == kind && s[1] == size[0] && s[2] == size[1] && s[3] == size[2]
            && s[TAG_HEADER..TAG_HEADER + |body|] == body
            && s[TAG_HEADER + |body| + PREVIOUS_TAG_SIZE..] == rest
  {
  }

  lemma ReadsTag(tag: Tag, stamp: bytes, rest: bytes)
    requires tag.Valid() && |stamp| == 7
    ensures TakeTurn(tag.Written(stamp) + rest, true) == Again(tag.Picture(), rest, true)
  {
    var body := tag.Body();
    BodyGivesPicture(tag);
    hide VideoIn;
    TagLayout(tag.TypeByte(), U24(|body|), stamp, body, U32(TAG_HEADER + |body|), rest);
    var s := tag.Written(stamp) + rest;
    assert ReadU24(s, 1) == ReadU24(U24(|body|), 0) == |body|;
  }

  lemma ReadsFirstTag(tag: Tag, stamp: bytes, rest: bytes)
    requires tag.Valid() && |stamp| == 7
    ensures var s := tag.Written(stamp) + rest;
            && Emitted(s, true) == tag.Picture() + Emitted(rest, true)
            && ShortHeaders(s, true) == ShortHeaders(rest, true)
  {
    ReadsTag(tag, stamp, rest);
    hide TakeTurn;
    var s := tag.Written(stamp) + rest;
    EmittedTakesTurn(s, true);
    HeadersAfterTurn(s);
  }

  lemma ReadsHeader(file: File, rest: bytes)
    ensures TakeTurn(HeaderOf(file) + rest, false) == Again([], rest, true)
    ensures TakeTurn(HeaderOf(file) + rest, true) == Again([], HeaderOf(file) + rest, false)
    ensures ReadU32(HeaderOf(file) + rest, 5) == FLV_HEADER && MagicAt(HeaderOf(file) + rest, 0)
  {
    var h := HeaderOf(file);
    var s := h + rest;
    assert |h| == 13;
    assert forall i :: 0 <= i < 13 ==> s[i] == h[i];
    assert s[5..9] == U32(FLV_HEADER);
    assert s[5] == 0 && s[6] == 0 && s[7] == 0 && s[8] == 9;
    assert Drop(s, 13) == rest;
  }

  lemma {:induction false} ReadsTags(tags: seq<(Tag, bytes)>, rest: bytes)
    requires forall i :: 0 <= i < |tags| ==> tags[i].0.Valid() && |tags[i].1| == 7
    ensures Emitted(WrittenTags(tags) + rest, true) == Pictures(tags) + Emitted(rest, true)
    ensures ShortHeaders(rest, true) ==> ShortHeaders(WrittenTags(tags) + rest, true)
    decreases |tags|
  {
    hide Emitted, ShortHeaders;
    if tags == [] {
      assert WrittenTags(tags) + rest == rest;
      assert Pictures(tags) + Emitted(rest, true) == Emitted(rest, true);
    } else {
      var first := tags[0].0.Written(tags[0].1);
      var later := WrittenTags(tags[1..]) + rest;
      assert WrittenTags(tags) + rest == first + later;
      ReadsFirstTag(tags[0].0, tags[0].1, later);
      ReadsTags(tags[1..], rest);
    }
  }

  lemma HeadersAfterTurn(s: bytes)
    requires TakeTurn(s, true).Again?
    ensures var t := TakeTurn(s, true); ShortHeaders(s, true) == ShortHeaders(t.rest, t.headerRead)
  {
  }

  /** A stream of whole files, one after another (ffmpeg started again on one connection). */
  function Stream(files: seq<File>): bytes
    requires forall i :: 0 <= i < |files| ==> files[i].Valid()
  {
    if files == [] then [] else Written(files[0]) + Stream(files[1..])
  }

  function AllPictures(files: seq<File>): seq<Video> {
    if files == [] then [] else Pictures(files[0].tags) + AllPictures(files[1..])
  }

  lemma {:induction false} ReadsStream(files: seq<File>)
    requires forall i :: 0 <= i < |files| ==> files[i].Valid()
    ensures Emitted(Stream(files), true) == Emitted(Stream(files), false) == AllPictures(files)
    ensures ShortHeaders(Stream(files), true) && ShortHeaders(Stream(files), false)
    decreases |files|
  {
    if files != [] {
      var later := Stream(files[1..]);
      var tags := WrittenTags(files[0].tags) + later;
      assert Stream(files) == HeaderOf(files[0]) + tags;
      ReadsHeader(files[0], tags);
      ReadsTags(files[0].tags, later);
      ReadsStream(files[1..]);
      assert Emitted(Stream(files), false) == [] + Emitted(tags, true);
      assert Emitted(Stream(files), true) == [] + Emitted(Stream(files), false);
    }
  }

  /**
   * The parser gives back exactly the AVC records written, in order, whatever was on the wire
   * before the first header and wherever the chunks were cut.
   */
  lemma StreamRoundTrip(garbage: bytes, files: seq<File>, chunks: seq<bytes>)
    requires forall i :: 0 <= i < |files| ==> files[i].Valid()
    requires Concat(chunks) == garbage + Stream(files)
    requires forall j :: 0 <= j < |garbage| ==> !MagicAt(garbage + Stream(files), j)
    ensures Fed(chunks, [], false) == AllPictures(files)
  {
    var all := garbage + Stream(files);
    ReadsStream(files);
    GarbageDropped(all, |garbage|);
    assert all[|garbage|..] == Stream(files);
    AnyChunking(chunks, chunks);
  }
}
