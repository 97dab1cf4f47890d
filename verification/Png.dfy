/**
 * The card still's PNG decoder (`decodePngRgba`): its chunk walk and its unfiltering as loops over
 * buffers, and the theorem that filtering by section 9 of the PNG Specification, whatever filter
 * each row was given and however the data was split into chunks, is undone exactly.
 * Inflating is a function the decoder is given.
 */
module Png {
  import opened Common
  import opened Bytes

  datatype Error = NotPng | NotRgba8 | UnknownFilter | PastTheEnd | NotInflated
  datatype Result<+T> = Ok(value: T) | Err(error: Error)

  datatype Image = Image(width: nat, height: nat, rgba: bytes)
  datatype Chunks = Chunks(width: nat, height: nat, data: bytes)

  const IHDR: bytes := [0x49, 0x48, 0x44, 0x52]
  const IDAT: bytes := [0x49, 0x44, 0x41, 0x54]
  const IEND: bytes := [0x49, 0x45, 0x4E, 0x44]
  const SIGNATURE: bytes := [0x89, 0x50, 0x4E, 0x47, 0x0D, 0x0A, 0x1A, 0x0A]

  /** `Buffer.subarray`: as much of the range as there is. */
  function Sub(s: bytes, from: nat, to: nat): bytes
    requires from <= to
  {
    if from >= |s| then [] else if to >= |s| then s[from..] else s[from..to]
  }

  // ---- The chunk walk ------------------------------------------------------------------

  /** What an IHDR chunk's body says, if it is one the decoder draws. */
  function SizeIn(body: bytes): Result<(nat, nat)> {
    if |body| < 8 then Err(PastTheEnd)
    else if |body| < 13 || body[8] != 8 || body[9] != 6 || body[12] != 0 then Err(NotRgba8)
    else Ok((ReadU32(body, 0), ReadU32(body, 4)))
  }

  /** One turn of the walk: it ends, or goes on past a chunk. */
  datatype Turn = Ends(r: Result<Chunks>) | GoesOn(at: nat, sofar: Chunks)

  function TakeTurn(png: bytes, at: nat, sofar: Chunks): (t: Turn)
    ensures t.GoesOn? ==> at < t.at && at < |png|
  {
    if at >= |png| then Ends(Ok(sofar))
    else if at + 4 > |png| then Ends(Err(PastTheEnd))
    else
      var length := ReadU32(png, at);
      var kind := Sub(png, at + 4, at + 8);
      TakeChunk(kind, Sub(png, at + 8, at + 8 + length), at + 12 + length, sofar)
  }

  function TakeChunk(kind: bytes, body: bytes, next: nat, sofar: Chunks): (t: Turn)
    ensures t.GoesOn? ==> t.at == next
  {
    if kind == IHDR then
      var size := SizeIn(body);
      if size.Err? then Ends(Err(size.error))
      else GoesOn(next, sofar.(width := size.value.0, height := size.value.1))
    else if kind == IDAT then GoesOn(next, sofar.(data := sofar.data + body))
    else if kind == IEND then Ends(Ok(sofar))
    else GoesOn(next, sofar)
  }

  function Walk(png: bytes, at: nat, sofar: Chunks): Result<Chunks>
    decreases |png| - at
  {
    match TakeTurn(png, at, sofar)
    case Ends(r) => r
    case GoesOn(next, sofar') => Walk(png, next, sofar')
  }

  function ChunksIn(png: bytes): Result<Chunks> {
    if |png| < 4 then Err(PastTheEnd)
    else if ReadU32(png, 0) != 0x8950_4E47 then Err(NotPng)
    else Walk(png, 8, Chunks(0, 0, []))
  }

  method ChunksOf(png: bytes) returns (r: Result<Chunks>)
    ensures r == ChunksIn(png)
  {
    hide ReadU32, SizeIn, Sub;
    if |png| < 4 { return Err(PastTheEnd); }
    if ReadU32(png, 0) != 0x8950_4E47 { return Err(NotPng); }
    var width: nat, height: nat := 0, 0;
    var data: seq<bytes> := [];
    var at := 8;
    while at < |png|
      invariant at >= 8
      invariant ChunksIn(png) == Walk(png, at, Chunks(width, height, Concat(data)))
      decreases |png| - at
    {
      ghost var sofar := Chunks(width, height, Concat(data));
      ghost var turn := TakeTurn(png, at, sofar);
      assert Walk(png, at, sofar) == if turn.Ends? then turn.r else Walk(png, turn.at, turn.sofar);
      hide Walk;
      if at + 4 > |png| { return Err(PastTheEnd); }
      var length := ReadU32(png, at);
      var kind := Sub(png, at + 4, at + 8);
      var body := Sub(png, at + 8, at + 8 + length);
      if kind == IHDR {
        var size := SizeIn(body);
        if size.Err? { return Err(size.error); }
        width, height := size.value.0, size.value.1;
      } else if kind == IDAT {
        ConcatSnoc(data, body);
        data := data + [body];
      } else if kind == IEND {
        break;
      }
      at := at + 12 + length;
    }
    r := Ok(Chunks(width, height, Concat(data)));
  }

  // ---- Unfiltering ---------------------------------------------------------------------

  function Abs(n: int): nat { if n < 0 then -n else n }

  /** Of left, up and up-left, the one nearest left + up - up-left; ties go in that order. */
  function Paeth(a: int, b: int, c: int): (nearest: int)
    ensures nearest == a || nearest == b || nearest == c
    ensures var p := a + b - c; Abs(p - nearest) <= Abs(p - a) && Abs(p - nearest) <= Abs(p - b) && Abs(p - nearest) <= Abs(p - c)
    ensures var p := a + b - c;
            (nearest != a ==> Abs(p - nearest) < Abs(p - a)) && (nearest != a && nearest != b ==> Abs(p - nearest) < Abs(p - b))
  {
    var p := a + b - c;
    if Abs(p - a) <= Abs(p - b) && Abs(p - a) <= Abs(p - c) then a
    else if Abs(p - b) <= Abs(p - c) then b
    else c
  }

  /** What filter type `filter` predicts from the bytes to the left, above and above left. */
  function Predicted(filter: int, a: byte, b: byte, c: byte): byte {
    match filter
    case 1 => a
    case 2 => b
    case 3 => (a as int + b as int) / 2
    case 4 => Paeth(a, b, c)
    case _ => 0
  }

  /** The byte a pixel (four bytes) back, or 0. */
  function Left(row: bytes, x: nat): byte
    requires x <= |row| + 3
  {
    if x >= 4 then row[x - 4] else 0
  }

  /** The first `n` bytes of a row, from its filtered bytes and the row above; missing bytes read as 0. */
  function Unfiltered(filter: int, row: bytes, above: bytes, n: nat): (out: bytes)
    requires n <= |above|
    ensures |out| == n
  {
    if n == 0 then []
    else
      var out := Unfiltered(filter, row, above, n - 1);
      var x := n - 1;
      out + [if x < |row| then (row[x] as int + Predicted(filter, Left(out, x), above[x], Left(above, x))) % 256 else 0]
  }

  function Zeros(n: nat): (zeros: bytes)
    ensures |zeros| == n
  {
    seq(n, _ => 0)
  }

  /** A row's filter type as its buffer gives it: -1 past the end. */
  function FilterOf(raw: bytes): int { if raw == [] then -1 else raw[0] }

  /** Every row below `above`, one after another, each from its filter type and its filtered bytes. */
  function DecodedRows(raw: bytes, above: bytes, height: nat): Result<bytes>
    decreases height
  {
    if height == 0 then Ok([])
    else
      var stride := |above|;
      var filter := FilterOf(raw);
      if stride > 0 && !(0 <= filter <= 4) then Err(UnknownFilter)
      else
        var row := Unfiltered(filter, Sub(raw, 1, stride + 1), above, stride);
        var below := DecodedRows(Drop(raw, stride + 1), row, height - 1);
        if below.Err? then below else Ok(row + below.value)
  }

  function Decoded(png: bytes, inflate: bytes -> Option<bytes>): Result<Image> {
    var chunks := ChunksIn(png);
    if chunks.Err? then Err(chunks.error)
    else
      var Chunks(width, height, data) := chunks.value;
      var raw := inflate(data);
      if raw.None? then Err(NotInflated)
      else
        var rgba := DecodedRows(raw.value, Zeros(width * 4), height);
        if rgba.Err? then Err(rgba.error) else Ok(Image(width, height, rgba.value))
  }

  /** One row of the inner loop, written in place after the row above it. */
  method UnfilterRow(rgba: array<byte>, out: nat, stride: nat, first: bool, filter: int, row: bytes) returns (known: bool)
    requires out + stride <= rgba.Length && (first || stride <= out)
    modifies rgba
    ensures known == (stride == 0 || 0 <= filter <= 4)
    ensures rgba[..out] == old(rgba[..out])
    ensures var above := if first then Zeros(stride) else old(rgba[out - stride..out]);
            known ==> rgba[out..out + stride] == Unfiltered(filter, row, above, stride)
  {
    hide Unfiltered, Predicted;
    ghost var above := if first then Zeros(stride) else rgba[out - stride..out];
    ghost var before := rgba[..out];
    NoBytes(filter, row, above);
    for x := 0 to stride
      invariant x > 0 ==> 0 <= filter <= 4
      invariant rgba[..out] == before
      invariant rgba[out..out + x] == Unfiltered(filter, row, above, x)
    {
      ghost var done := rgba[out..out + x];
      var a := if x >= 4 then rgba[out + x - 4] else 0;
      var b := if !first then rgba[out - stride + x] else 0;
      var c := if x >= 4 && !first then rgba[out - stride + x - 4] else 0;
      assert x >= 4 ==> a == done[x - 4];
      assert !first ==> b == before[out - stride + x] && (x >= 4 ==> c == before[out - stride + x - 4]);
      if !(0 <= filter <= 4) { return false; }
      var v: byte := if x < |row| then (row[x] as int + Predicted(filter, a, b, c)) % 256 else 0;
      rgba[out + x] := v;
      assert rgba[out..out + x] == done;
      assert rgba[out..out + x + 1] == done + [v];
      OneMoreByte(filter, row, above, x, v);
    }
    known := true;
  }

  lemma NoBytes(filter: int, row: bytes, above: bytes)
    ensures Unfiltered(filter, row, above, 0) == []
  {
  }

  lemma OneMoreByte(filter: int, row: bytes, above: bytes, x: nat, v: byte)
    requires x < |above|
    requires var out := Unfiltered(filter, row, above, x);
             v == if x < |row| then (row[x] as int + Predicted(filter, Left(out, x), above[x], Left(above, x))) % 256 else 0
    ensures Unfiltered(filter, row, above, x + 1) == Unfiltered(filter, row, above, x) + [v]
  {
  }

  /** The outer loop: every row, each in place below the one before it. */
  method DecodeRows(raw: bytes, rgba: array<byte>, stride: nat, height: nat) returns (known: bool)
    requires rgba.Length == height * stride
    modifies rgba
    ensures DecodedRows(raw, Zeros(stride), height) == if known then Ok(rgba[..]) else Err(UnknownFilter)
  {
    ghost var whole := DecodedRows(raw, Zeros(stride), height);
    ghost var above, start', out' := Zeros(stride), 0, 0;
    hide DecodedRows, Unfiltered, Sub, Drop, Zeros, FilterOf, Left, Predicted;
    NothingDropped(raw);
    var y := 0;
    assert rgba[..0] == [];
    JoinedNothing(whole);
    hide Joined;
    while y < height
      invariant 0 <= y <= height
      invariant out' == y * stride && start' == y * (stride + 1) && 0 <= out' <= rgba.Length
      invariant |above| == stride && if y == 0 then above == Zeros(stride) else stride <= out' && above == rgba[out' - stride..out']
      invariant whole == Joined(rgba[..out'], DecodedRows(Drop(raw, start'), above, height - y))
    {
      RowFits(y, height, stride);
      var start := y * (stride + 1);
      var filter := if start < |raw| then raw[start] as int else -1;
      var row := Sub(raw, start + 1, start + 1 + stride);
      RowOfRaw(raw, start, stride);
      DecodesFirstRow(Drop(raw, start), above, height - y);
      var out := y * stride;
      assert start == start' && out == out';
      ghost var done := rgba[..out];
      known := UnfilterRow(rgba, out, stride, y == 0, filter, row);
      if !known {
        JoinedError(done);
        return;
      }
      above := rgba[out..out + stride];
      assert rgba[..out + stride] == done + above;
      JoinedJoined(done, above, DecodedRows(Drop(raw, start + (stride + 1)), above, height - y - 1));
      y := y + 1;
      start', out' := start + (stride + 1), out + stride;
    }
    DecodesNothing(Drop(raw, start'), above);
    JoinedDone(rgba[..out']);
    assert rgba[..out'] == rgba[..];
    known := true;
  }

  method DecodePngRgba(png: bytes, inflate: bytes -> Option<bytes>) returns (r: Result<Image>)
    ensures r == Decoded(png, inflate)
  {
    var chunks := ChunksOf(png);
    if chunks.Err? { return Err(chunks.error); }
    var Chunks(width, height, data) := chunks.value;
    var inflated := inflate(data);
    if inflated.None? { return Err(NotInflated); }
    var stride := width * 4;
    var rgba := new byte[height * stride](_ => 0);
    var known := DecodeRows(inflated.value, rgba, stride, height);
    r := if known then Ok(Image(width, height, rgba[..])) else Err(UnknownFilter);
  }

  lemma JoinedDone(done: bytes)
    ensures Joined(done, Ok([])) == Ok(done)
  {
    assert done + [] == done;
  }

  lemma JoinedError(done: bytes)
    ensures Joined(done, Err(UnknownFilter)) == Err(UnknownFilter)
  {
  }

  lemma DecodesFirstRow(raw: bytes, above: bytes, height: nat)
    requires height > 0
    ensures var stride, filter := |above|, FilterOf(raw);
            var row := Unfiltered(filter, Sub(raw, 1, stride + 1), above, stride);
            DecodedRows(raw, above, height) ==
            if stride > 0 && !(0 <= filter <= 4) then Err(UnknownFilter)
            else Joined(row, DecodedRows(Drop(raw, stride + 1), row, height - 1))
  {
  }

  lemma DecodesNothing(raw: bytes, above: bytes)
    ensures DecodedRows(raw, above, 0) == Ok([])
  {
  }

  lemma NothingDropped(raw: bytes)
    ensures Drop(raw, 0) == raw
  {
  }

  lemma JoinedNothing(r: Result<bytes>)
    ensures Joined([], r) == r
  {
    if r.Ok? { assert [] + r.value == r.value; }
  }

  /** `after`, with `before` in front of it when it is there. */
  ghost function Joined(before: bytes, after: Result<bytes>): Result<bytes> {
    if after.Err? then after else Ok(before + after.value)
  }

  lemma JoinedJoined(a: bytes, b: bytes, c: Result<bytes>)
    ensures Joined(a, Joined(b, c)) == Joined(a + b, c)
  {
    if c.Ok? { assert a + (b + c.value) == (a + b) + c.value; }
  }

  lemma RowFits(y: nat, height: nat, stride: nat)
    requires y < height
    ensures y * stride + stride == (y + 1) * stride <= height * stride
    ensures y * (stride + 1) + (stride + 1) == (y + 1) * (stride + 1)
  {
  }

  lemma RowOfRaw(raw: bytes, start: nat, stride: nat)
    ensures Sub(raw, start + 1, start + 1 + stride) == Sub(Drop(raw, start), 1, stride + 1)
    ensures Drop(raw, start + (stride + 1)) == Drop(Drop(raw, start), stride + 1)
    ensures FilterOf(Drop(raw, start)) == if start < |raw| then raw[start] as int else -1
  {
    var dropped := Drop(raw, start);
    if start + 1 < |raw| { assert dropped[1..] == raw[start + 1..]; }
    if start + 1 + stride < |raw| { assert dropped[1..stride + 1] == raw[start + 1..start + 1 + stride]; }
  }

  // ---- The filters undone --------------------------------------------------------------

  /** A byte of a row, none standing left of it. */
  function At(row: bytes, x: int): byte {
    if 0 <= x < |row| then row[x] else 0
  }

  /** The nearest of left, up and up-left to left + up - up-left, told by the three's own distances. */
  function Nearest(left: int, up: int, corner: int): int {
    var toLeft, toUp, toCorner := Abs(up - corner), Abs(left - corner), Abs(left + up - 2 * corner);
    if toLeft <= toUp && toLeft <= toCorner then left else if toUp <= toCorner then up else corner
  }

  /** One byte as the specification filters it: None, Sub, Up, Average or Paeth (section 9.2). */
  function FilteredByte(filter: int, row: bytes, above: bytes, x: nat): byte
    requires x < |row| == |above|
  {
    var left, up, corner := At(row, x - 4), At(above, x), At(above, x - 4);
    match filter
    case 1 => (row[x] as int - left) % 256
    case 2 => (row[x] as int - up) % 256
    case 3 => (row[x] as int - (left as int + up as int) / 2) % 256
    case 4 => (row[x] as int - Nearest(left, up, corner)) % 256
    case _ => row[x]
  }

  function Filtered(filter: int, row: bytes, above: bytes): (out: bytes)
    requires |row| == |above|
    ensures |out| == |row|
  {
    seq(|row|, x requires 0 <= x < |row| => FilteredByte(filter, row, above, x))
  }

  lemma NearestIsPaeth(left: byte, up: byte, corner: byte)
    ensures Nearest(left, up, corner) == Paeth(left, up, corner)
  {
    var p: int := left as int + up as int - corner as int;
    assert Abs(p - left) == Abs(up - corner) && Abs(p - up) == Abs(left - corner);
    assert Abs(p - corner) == Abs(left + up - 2 * corner);
  }

  lemma TakesThePrediction(filter: int, row: bytes, above: bytes, x: nat)
    requires x < |row| == |above| && 0 <= filter <= 4
    ensures FilteredByte(filter, row, above, x)
         == (row[x] as int - Predicted(filter, At(row, x - 4), At(above, x), At(above, x - 4)) as int) % 256
  {
    hide Paeth, Nearest;
    NearestIsPaeth(At(row, x - 4), At(above, x), At(above, x - 4));
  }

  lemma TakenAndPutBack(v: byte, p: int)
    ensures ((v as int - p) % 256 + p) % 256 == v as int
  {
  }

  /** What the decoder adds to a byte is what the specification's filter took from it. */
  lemma AddsWhatWasTaken(filter: int, row: bytes, above: bytes, x: nat)
    requires x < |row| == |above| && 0 <= filter <= 4
    ensures (FilteredByte(filter, row, above, x) as int + Predicted(filter, Left(row[..x], x), above[x], Left(above, x))) % 256
         == row[x] as int
  {
    hide Predicted, FilteredByte;
    assert Left(row[..x], x) == At(row, x - 4) && Left(above, x) == At(above, x - 4);
    TakesThePrediction(filter, row, above, x);
    TakenAndPutBack(row[x], Predicted(filter, At(row, x - 4), At(above, x), At(above, x - 4)));
  }

  lemma {:induction false} RowRoundTrip(filter: int, row: bytes, above: bytes, n: nat)
    requires n <= |row| == |above| && 0 <= filter <= 4
    ensures Unfiltered(filter, Filtered(filter, row, above), above, n) == row[..n]
    decreases n
  {
    hide Predicted, FilteredByte;
    if n > 0 {
      RowRoundTrip(filter, row, above, n - 1);
      AddsWhatWasTaken(filter, row, above, n - 1);
      assert row[..n] == row[..n - 1] + [row[n - 1]];
    }
  }

  /** An image as an encoder filters it: each row's filter type, then its filtered bytes. */
  function FilteredRows(rows: seq<bytes>, filters: seq<byte>, above: bytes): bytes
    requires |rows| == |filters| && forall i :: 0 <= i < |rows| ==> |rows[i]| == |above|
    decreases |rows|
  {
    if rows == [] then []
    else [filters[0]] + Filtered(filters[0], rows[0], above) + FilteredRows(rows[1..], filters[1..], rows[0])
  }

  lemma {:induction false} RowsRoundTrip(rows: seq<bytes>, filters: seq<byte>, above: bytes)
    requires |rows| == |filters| && forall i :: 0 <= i < |rows| ==> |rows[i]| == |above| && filters[i] <= 4
    ensures DecodedRows(FilteredRows(rows, filters, above), above, |rows|) == Ok(Concat(rows))
    decreases |rows|
  {
    if rows != [] {
      var stride := |above|;
      var filtered := Filtered(filters[0], rows[0], above);
      var below := FilteredRows(rows[1..], filters[1..], rows[0]);
      var raw := [filters[0]] + filtered + below;
      assert raw == FilteredRows(rows, filters, above);
      assert Sub(raw, 1, stride + 1) == filtered;
      assert Drop(raw, stride + 1) == below;
      RowRoundTrip(filters[0], rows[0], above, stride);
      assert rows[0][..stride] == rows[0];
      RowsRoundTrip(rows[1..], filters[1..], rows[0]);
    }
  }

  // ---- The file -------------------------------------------------------------------------

  /** A chunk: the length of its body, its type, the body and the CRC (which nothing here reads). */
  function ChunkBytes(kind: bytes, body: bytes, crc: bytes): (s: bytes)
    requires |kind| == 4 && |body| < 0x1_0000_0000 && |crc| == 4
    ensures |s| == 12 + |body|
  {
    U32(|body|) + kind + body + crc
  }

  /** A chunk after the header: a piece of the compressed data, or one the decoder has no use for. */
  datatype Chunk = Data(body: bytes, crc: bytes) | Other(kind: bytes, body: bytes, crc: bytes) {
    predicate Valid() {
      && |body| < 0x1_0000_0000 && |crc| == 4
      && (Other? ==> |kind| == 4 && kind != IHDR && kind != IDAT && kind != IEND)
    }
    function Kind(): bytes { if Data? then IDAT else kind }
    function Piece(): bytes { if Data? then body else [] }
    function Written(): bytes
      requires Valid()
    {
      ChunkBytes(Kind(), body, crc)
    }
  }

  /** The chunks after the header, up to the end of the file. */
  function Rest(chunks: seq<Chunk>, crc: bytes, trailer: bytes): bytes
    requires |crc| == 4 && forall i :: 0 <= i < |chunks| ==> chunks[i].Valid()
  {
    if chunks == [] then ChunkBytes(IEND, [], crc) + trailer else chunks[0].Written() + Rest(chunks[1..], crc, trailer)
  }

  function DataIn(chunks: seq<Chunk>): bytes {
    if chunks == [] then [] else chunks[0].Piece() + DataIn(chunks[1..])
  }

  /** The header chunk's body for an 8-bit RGBA image, not interlaced. */
  function Header(width: nat, height: nat, methods: bytes): (body: bytes)
    requires width < 0x1_0000_0000 && height < 0x1_0000_0000 && |methods| == 2
    ensures |body| == 13
  {
    U32(width) + U32(height) + [8, 6] + methods + [0]
  }

  function Written(width: nat, height: nat, methods: bytes, crc: bytes, chunks: seq<Chunk>, trailer: bytes): bytes
    requires width < 0x1_0000_0000 && height < 0x1_0000_0000 && |methods| == 2 && |crc| == 4
    requires forall i :: 0 <= i < |chunks| ==> chunks[i].Valid()
  {
    SIGNATURE + (ChunkBytes(IHDR, Header(width, height, methods), crc) + Rest(chunks, crc, trailer))
  }

  /** What the walk reads where a chunk stands. */
  lemma ReadsChunk(before: bytes, kind: bytes, body: bytes, crc: bytes, after: bytes)
    requires |kind| == 4 && |body| < 0x1_0000_0000 && |crc| == 4
    ensures var png := before + (ChunkBytes(kind, body, crc) + after); var at := |before|;
            && at + 8 + |body| <= |png| && ReadU32(png, at) == |body|
            && Sub(png, at + 4, at + 8) == kind && Sub(png, at + 8, at + 8 + |body|) == body
  {
    var png := before + (ChunkBytes(kind, body, crc) + after);
    var at := |before|;
    var length := U32(|body|);
    assert png[at] == length[0] && png[at + 1] == length[1] && png[at + 2] == length[2] && png[at + 3] == length[3];
    hide U32;
    assert ReadU32(png, at) == ReadU32(length, 0);
    assert png[at + 4..at + 8] == kind;
    assert png[at + 8..at + 8 + |body|] == body;
  }

  /** A turn of the walk where a chunk stands. */
  lemma TurnAtChunk(before: bytes, kind: bytes, body: bytes, crc: bytes, after: bytes, sofar: Chunks)
    requires |kind| == 4 && |body| < 0x1_0000_0000 && |crc| == 4
    ensures var at := |before|;
            TakeTurn(before + (ChunkBytes(kind, body, crc) + after), at, sofar) == TakeChunk(kind, body, at + 12 + |body|, sofar)
  {
    ReadsChunk(before, kind, body, crc, after);
    hide ReadU32, Sub, ChunkBytes;
  }

  lemma WalkTakesTurn(png: bytes, at: nat, sofar: Chunks)
    ensures var t := TakeTurn(png, at, sofar);
            Walk(png, at, sofar) == if t.Ends? then t.r else Walk(png, t.at, t.sofar)
  {
  }

  lemma {:induction false} WalksChunks(before: bytes, chunks: seq<Chunk>, crc: bytes, trailer: bytes, sofar: Chunks)
    requires |crc| == 4 && forall i :: 0 <= i < |chunks| ==> chunks[i].Valid()
    ensures Walk(before + Rest(chunks, crc, trailer), |before|, sofar)
         == Ok(sofar.(data := sofar.data + DataIn(chunks)))
    decreases |chunks|
  {
    hide TakeTurn, Walk, ChunkBytes, SizeIn, Rest, DataIn;
    var png := before + Rest(chunks, crc, trailer);
    WalkTakesTurn(png, |before|, sofar);
    FirstOfRest(chunks, crc, trailer);
    if chunks == [] {
      TurnAtChunk(before, IEND, [], crc, trailer, sofar);
      assert sofar.data + DataIn(chunks) == sofar.data;
    } else {
      var chunk := chunks[0];
      var later := Rest(chunks[1..], crc, trailer);
      var next := sofar.(data := sofar.data + chunk.Piece());
      assert sofar.data + (chunk.Piece() + DataIn(chunks[1..])) == next.data + DataIn(chunks[1..]);
      TurnAtChunk(before, chunk.Kind(), chunk.body, chunk.crc, later, sofar);
      assert chunk.Other? ==> next.data == sofar.data;
      WalksChunks(before + chunk.Written(), chunks[1..], crc, trailer, next);
      assert png == (before + chunk.Written()) + later;
    }
  }

  lemma FirstOfRest(chunks: seq<Chunk>, crc: bytes, trailer: bytes)
    requires |crc| == 4 && forall i :: 0 <= i < |chunks| ==> chunks[i].Valid()
    ensures Rest(chunks, crc, trailer) ==
      if chunks == [] then ChunkBytes(IEND, [], crc) + trailer else chunks[0].Written() + Rest(chunks[1..], crc, trailer)
    ensures DataIn(chunks) == if chunks == [] then [] else chunks[0].Piece() + DataIn(chunks[1..])
  {
  }

  lemma ReadsHeader(width: nat, height: nat, methods: bytes)
    requires width < 0x1_0000_0000 && height < 0x1_0000_0000 && |methods| == 2
    ensures SizeIn(Header(width, height, methods)) == Ok((width, height))
  {
    var body := Header(width, height, methods);
    assert forall i :: 0 <= i < 4 ==> body[i] == U32(width)[i] && body[4 + i] == U32(height)[i];
    assert body[0] == U32(width)[0] && body[4] == U32(height)[0];
  }

  lemma StartsWalk(signature: bytes, rest: bytes)
    requires |signature| == 8 && ReadU32(signature, 0) == 0x8950_4E47
    ensures var png := signature + rest; ChunksIn(png) == Walk(png, 8, Chunks(0, 0, []))
  {
    hide Walk;
    assert ReadU32(signature + rest, 0) == ReadU32(signature, 0);
  }

  lemma WalksFile(signature: bytes, body: bytes, crc: bytes, size: (nat, nat), chunks: seq<Chunk>, trailer: bytes)
    requires |signature| == 8 && ReadU32(signature, 0) == 0x8950_4E47
    requires |body| == 13 && SizeIn(body) == Ok(size) && |crc| == 4
    requires forall i :: 0 <= i < |chunks| ==> chunks[i].Valid()
    ensures ChunksIn(signature + (ChunkBytes(IHDR, body, crc) + Rest(chunks, crc, trailer)))
         == Ok(Chunks(size.0, size.1, DataIn(chunks)))
  {
    hide TakeTurn, Walk, ChunkBytes, Rest, ChunksIn, SizeIn, DataIn, ReadU32;
    var first, later := ChunkBytes(IHDR, body, crc), Rest(chunks, crc, trailer);
    var png := signature + (first + later);
    var sized := Chunks(size.0, size.1, []);
    StartsWalk(signature, first + later);
    TurnAtChunk(signature, IHDR, body, crc, later, Chunks(0, 0, []));
    WalkTakesTurn(png, 8, Chunks(0, 0, []));
    WalksChunks(signature + first, chunks, crc, trailer, sized);
    assert png == (signature + first) + later;
    assert [] + DataIn(chunks) == DataIn(chunks);
  }

  lemma ReadsSignature()
    ensures |SIGNATURE| == 8 && ReadU32(SIGNATURE, 0) == 0x8950_4E47
  {
  }

  lemma ReadsChunks(width: nat, height: nat, methods: bytes, crc: bytes, chunks: seq<Chunk>, trailer: bytes)
    requires width < 0x1_0000_0000 && height < 0x1_0000_0000 && |methods| == 2 && |crc| == 4
    requires forall i :: 0 <= i < |chunks| ==> chunks[i].Valid()
    ensures ChunksIn(Written(width, height, methods, crc, chunks, trailer)) == Ok(Chunks(width, height, DataIn(chunks)))
  {
    ReadsHeader(width, height, methods);
    ReadsSignature();
    hide Header, SizeIn, Rest, ChunksIn, DataIn, ChunkBytes, U32, ReadU32;
    WalksFile(SIGNATURE, Header(width, height, methods), crc, (width, height), chunks, trailer);
  }

  /**
   * Whatever filter each row was given, and however its compressed data was split over chunks
   * with others between, the decoder gives back exactly the pixels encoded.
   */
  lemma ImageRoundTrip(width: nat, rows: seq<bytes>, filters: seq<byte>, methods: bytes, crc: bytes,
                       chunks: seq<Chunk>, trailer: bytes, inflate: bytes -> Option<bytes>)
    requires width < 0x1_0000_0000 && |rows| < 0x1_0000_0000 && |methods| == 2 && |crc| == 4
    requires forall i :: 0 <= i < |chunks| ==> chunks[i].Valid()
    requires |rows| == |filters| && forall i :: 0 <= i < |rows| ==> |rows[i]| == width * 4 && filters[i] <= 4
    requires inflate(DataIn(chunks)) == Some(FilteredRows(rows, filters, Zeros(width * 4)))
    ensures Decoded(Written(width, |rows|, methods, crc, chunks, trailer), inflate) == Ok(Image(width, |rows|, Concat(rows)))
  {
    ReadsChunks(width, |rows|, methods, crc, chunks, trailer);
    RowsRoundTrip(rows, filters, Zeros(width * 4));
  }

  // ---- What is refused ------------------------------------------------------------------

  /** A file is a PNG by its first four bytes alone. */
  lemma AnythingElseIsRefused(png: bytes)
    ensures |png| < 4 ==> ChunksIn(png) == Err(PastTheEnd)
    ensures |png| >= 4 && png[..4] != SIGNATURE[..4] ==> ChunksIn(png) == Err(NotPng)
  {
    if |png| >= 4 && ReadU32(png, 0) == 0x8950_4E47 {
      assert png[0] == 0x89 && png[1] == 0x50 && png[2] == 0x4E && png[3] == 0x47;
      assert png[..4] == SIGNATURE[..4];
    }
  }

  /** Whatever its header chunk holds, and whatever follows: it is refused exactly unless it is 8-bit RGBA, not interlaced. */
  lemma HeaderIsRefusedUnlessRgba8(body: bytes, crc: bytes, after: bytes)
    requires |body| < 0x1_0000_0000 && |crc| == 4
    ensures var png := SIGNATURE + (ChunkBytes(IHDR, body, crc) + after);
      if |body| < 8 then ChunksIn(png) == Err(PastTheEnd)
      else if |body| < 13 || body[8..10] != [8, 6] || body[12] != 0 then ChunksIn(png) == Err(NotRgba8)
      else ChunksIn(png) == Walk(png, 20 + |body|, Chunks(ReadU32(body, 0), ReadU32(body, 4), []))
  {
    ReadsSignature();
    hide ChunkBytes, U32, ReadU32, Walk, SizeIn, TakeTurn, ChunksIn;
    SizesRefused(body);
    StartsWalk(SIGNATURE, ChunkBytes(IHDR, body, crc) + after);
    TurnAtChunk(SIGNATURE, IHDR, body, crc, after, Chunks(0, 0, []));
    WalkTakesTurn(SIGNATURE + (ChunkBytes(IHDR, body, crc) + after), 8, Chunks(0, 0, []));
  }

  lemma SizesRefused(body: bytes)
    ensures if |body| < 8 then SizeIn(body) == Err(PastTheEnd)
            else if |body| < 13 || body[8..10] != [8, 6] || body[12] != 0 then SizeIn(body) == Err(NotRgba8)
            else SizeIn(body) == Ok((ReadU32(body, 0), ReadU32(body, 4)))
  {
    hide ReadU32;
    if |body| >= 10 { assert body[8..10] == [body[8], body[9]]; }
  }

  function ChunksWritten(chunks: seq<Chunk>): bytes
    requires forall i :: 0 <= i < |chunks| ==> chunks[i].Valid()
  {
    if chunks == [] then [] else chunks[0].Written() + ChunksWritten(chunks[1..])
  }

  /** A file that stops after whole chunks, or inside the next one's type, needs no end chunk; one that stops inside its length is refused. */
  lemma {:induction false} StopsAfterChunks(before: bytes, chunks: seq<Chunk>, tail: bytes, sofar: Chunks)
    requires |tail| < 8 && forall i :: 0 <= i < |chunks| ==> chunks[i].Valid()
    ensures Walk(before + (ChunksWritten(chunks) + tail), |before|, sofar)
         == if 1 <= |tail| <= 3 then Err(PastTheEnd) else Ok(sofar.(data := sofar.data + DataIn(chunks)))
    decreases |chunks|
  {
    hide Walk, ChunkBytes, TakeTurn, SizeIn, DataIn, ChunksWritten;
    var png := before + (ChunksWritten(chunks) + tail);
    WalkTakesTurn(png, |before|, sofar);
    if chunks == [] {
      NoChunks();
      assert ChunksWritten(chunks) + tail == tail;
      TurnAtTail(before, tail, sofar);
      if |tail| >= 4 { WalkTakesTurn(png, TakeTurn(png, |before|, sofar).at, sofar); }
      assert sofar.data + [] == sofar.data;
    } else {
      var first, later := chunks[0], ChunksWritten(chunks[1..]) + tail;
      FirstChunk(chunks);
      assert ChunksWritten(chunks) + tail == first.Written() + later;
      TurnAtChunk(before, first.Kind(), first.body, first.crc, later, sofar);
      var next := sofar.(data := sofar.data + first.Piece());
      assert png == (before + first.Written()) + later;
      assert sofar.data + [] == sofar.data;
      StopsAfterChunks(before + first.Written(), chunks[1..], tail, next);
      assert (sofar.data + first.Piece()) + DataIn(chunks[1..]) == sofar.data + DataIn(chunks);
    }
  }

  lemma NoChunks()
    ensures ChunksWritten([]) == [] && DataIn([]) == []
  {
  }

  lemma FirstChunk(chunks: seq<Chunk>)
    requires chunks != [] && forall i :: 0 <= i < |chunks| ==> chunks[i].Valid()
    ensures ChunksWritten(chunks) == chunks[0].Written() + ChunksWritten(chunks[1..])
    ensures DataIn(chunks) == chunks[0].Piece() + DataIn(chunks[1..])
  {
  }

  lemma TurnAtTail(before: bytes, tail: bytes, sofar: Chunks)
    requires |tail| < 8
    ensures var png := before + tail;
      var turn := TakeTurn(png, |before|, sofar);
      if tail == [] then turn == Ends(Ok(sofar))
      else if |tail| < 4 then turn == Ends(Err(PastTheEnd))
      else turn.GoesOn? && turn.sofar == sofar && TakeTurn(png, turn.at, sofar) == Ends(Ok(sofar))
  {
    hide ReadU32;
  }

  /** Rows are decoded until one has a filter there is not, or is not there at all: then the image is refused. */
  lemma {:induction false} UnknownFilterIsRefused(
      rows: seq<bytes>, filters: seq<byte>, above: bytes, raw: bytes, height: nat)
    requires |rows| == |filters| && forall i :: 0 <= i < |rows| ==> |rows[i]| == |above| && filters[i] <= 4
    requires |above| > 0 && height > |rows| && (raw == [] || raw[0] > 4)
    ensures DecodedRows(FilteredRows(rows, filters, above) + raw, above, height) == Err(UnknownFilter)
    decreases |rows|
  {
    hide DecodedRows, Unfiltered, Filtered;
    var all, stride := FilteredRows(rows, filters, above) + raw, |above|;
    DecodesFirstRow(all, above, height);
    if rows == [] {
      assert all == raw;
    } else {
      var filtered := Filtered(filters[0], rows[0], above);
      var below := FilteredRows(rows[1..], filters[1..], rows[0]) + raw;
      assert all == [filters[0]] + filtered + below;
      assert Sub(all, 1, stride + 1) == filtered;
      assert Drop(all, stride + 1) == below;
      RowRoundTrip(filters[0], rows[0], above, stride);
      assert rows[0][..stride] == rows[0];
      assert FilterOf(all) == filters[0];
      UnknownFilterIsRefused(rows[1..], filters[1..], rows[0], raw, height - 1);
    }
  }

  /** And the image as a whole fails as its chunks, its compressed data or its rows do. */
  lemma FailsAsItsPartsDo(png: bytes, inflate: bytes -> Option<bytes>)
    ensures ChunksIn(png).Err? ==> Decoded(png, inflate) == Err(ChunksIn(png).error)
    ensures ChunksIn(png).Ok? ==>
      var Chunks(width, height, data) := ChunksIn(png).value;
      match inflate(data)
      case None => Decoded(png, inflate) == Err(NotInflated)
      case Some(raw) =>
        match DecodedRows(raw, Zeros(width * 4), height)
        case Err(error) => Decoded(png, inflate) == Err(error)
        case Ok(rgba) => Decoded(png, inflate) == Ok(Image(width, height, rgba)) && |rgba| == height * (width * 4)
  {
    hide ChunksIn, DecodedRows;
    if ChunksIn(png).Ok? {
      var Chunks(width, height, data) := ChunksIn(png).value;
      if inflate(data).Some? { RowsFill(inflate(data).value, Zeros(width * 4), height); }
    }
  }

  lemma {:induction false} RowsFill(raw: bytes, above: bytes, height: nat)
    ensures DecodedRows(raw, above, height).Ok? ==> |DecodedRows(raw, above, height).value| == height * |above|
    decreases height
  {
    if height > 0 {
      var stride := |above|;
      RowsFill(Drop(raw, stride + 1), Unfiltered(FilterOf(raw), Sub(raw, 1, stride + 1), above, stride), height - 1);
      assert height * stride == (height - 1) * stride + stride;
    }
  }
}
