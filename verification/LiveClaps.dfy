/**
 * Reading a WAV while it is still being written: where its samples start, and
 * the mono mix of the frames it has gained. Samples are reals: rounding to
 * single precision is not modelled.
 */
module LiveClaps {
  import opened Common
  import opened Bytes

  // ---- The layout ---------------------------------------------------------------------

  datatype Fmt = Fmt(channels: nat, sampleRate: nat)

  datatype Layout = Layout(fmt: Fmt, dataOffset: nat)

  const RIFF: bytes := [0x52, 0x49, 0x46, 0x46]
  const FMT: bytes := [0x66, 0x6D, 0x74, 0x20]
  const DATA: bytes := [0x64, 0x61, 0x74, 0x61]

  function ReadU16LE(s: bytes, at: nat): (n: nat)
    requires at + 2 <= |s|
  {
    s[at] as int + s[at + 1] as int * 0x100
  }

  function ReadU32LE(s: bytes, at: nat): (n: nat)
    requires at + 4 <= |s|
  {
    s[at] as int + s[at + 1] as int * 0x100 + s[at + 2] as int * 0x1_0000 + s[at + 3] as int * 0x100_0000
  }

  function Padded(size: nat): nat {
    size + size % 2
  }

  /** What one chunk's header, at `at`, tells of the layout: the answer, or the format to go on with. */
  datatype Step = Answer(layout: Option<Layout>) | GoOn(fmt: Option<Fmt>)

  function Look(head: bytes, at: nat, fmt: Option<Fmt>): Step
    requires at + 8 <= |head|
  {
    var id := head[at..at + 4];
    if id == DATA then Answer(if fmt.Some? then Some(Layout(fmt.value, at + 8)) else None)
    else if id != FMT then GoOn(fmt)
    else if at + 24 > |head| || ReadU16LE(head, at + 22) != 16 then Answer(None)
    else GoOn(Some(Fmt(ReadU16LE(head, at + 10), ReadU32LE(head, at + 12))))
  }

  function Walk(head: bytes, at: nat, fmt: Option<Fmt>): Option<Layout>
    requires at <= |head| + Padded(0x1_0000_0000) + 8
    decreases |head| - at
  {
    if at + 8 > |head| then None
    else match Look(head, at, fmt)
      case Answer(layout) => layout
      case GoOn(next) => Walk(head, at + 8 + Padded(ReadU32LE(head, at + 4)), next)
  }

  function LayoutOf(head: bytes): Option<Layout> {
    if |head| < 12 || head[..4] != RIFF then None else Walk(head, 12, None)
  }

  method ReadWavLayout(head: bytes) returns (layout: Option<Layout>)
    ensures layout == LayoutOf(head)
  {
    hide Look;
    if |head| < 12 || head[..4] != RIFF { return None; }
    var at := 12;
    var fmt := None;
    while at + 8 <= |head|
      invariant at <= |head| + Padded(0x1_0000_0000) + 8
      invariant Walk(head, 12, None) == Walk(head, at, fmt)
      decreases |head| - at
    {
      var step := Look(head, at, fmt);
      if step.Answer? { return step.layout; }
      fmt := step.fmt;
      at := at + 8 + Padded(ReadU32LE(head, at + 4));
    }
    return None;
  }

  // ---- A header as written ------------------------------------------------------------

  function U32LE(n: nat): (s: bytes)
    requires n < 0x1_0000_0000
    ensures |s| == 4 && ReadU32LE(s, 0) == n
  {
    var s := U32(n);
    [s[3], s[2], s[1], s[0]]
  }

  datatype Chunk = Chunk(id: bytes, body: bytes) {
    /** Not the samples; and a format is of 16-bit samples. */
    predicate Valid() {
      && |id| == 4 && id != DATA && |body| < 0x1_0000_0000
      && (id == FMT ==> |body| >= 16 && ReadU16LE(body, 14) == 16)
    }
    function Written(): (s: bytes)
      requires Valid()
      ensures |s| == 8 + Padded(|body|)
    {
      id + U32LE(|body|) + body + (if |body| % 2 == 1 then [0] else [])
    }
    function Format(before: Option<Fmt>): Option<Fmt>
      requires Valid()
    {
      if id == FMT then Some(Fmt(ReadU16LE(body, 2), ReadU32LE(body, 4))) else before
    }
  }

  ghost predicate AllValid(chunks: seq<Chunk>) {
    forall i :: 0 <= i < |chunks| ==> chunks[i].Valid()
  }

  function ChunksWritten(chunks: seq<Chunk>): bytes
    requires forall i :: 0 <= i < |chunks| ==> chunks[i].Valid()
  {
    if chunks == [] then [] else chunks[0].Written() + ChunksWritten(chunks[1..])
  }

  /** The last format among the chunks. */
  function FormatIn(chunks: seq<Chunk>, before: Option<Fmt>): Option<Fmt>
    requires forall i :: 0 <= i < |chunks| ==> chunks[i].Valid()
    decreases |chunks|
  {
    if chunks == [] then before else FormatIn(chunks[1..], chunks[0].Format(before))
  }

  lemma ByteInside(before: bytes, w: bytes, rest: bytes, k: nat)
    requires k < |w|
    ensures (before + w + rest)[|before| + k] == w[k]
  {
  }

  /** Reading inside a part of a file is reading the file further on. */
  lemma ReadsInside(before: bytes, w: bytes, rest: bytes, k: nat)
    requires k + 4 <= |w|
    ensures var head := before + w + rest;
      && head[|before| + k..|before| + k + 4] == w[k..k + 4]
      && ReadU32LE(head, |before| + k) == ReadU32LE(w, k)
      && ReadU16LE(head, |before| + k) == ReadU16LE(w, k)
  {
    var head := before + w + rest;
    assert head[|before| + k..|before| + k + 4] == w[k..k + 4];
    ByteInside(before, w, rest, k);
    ByteInside(before, w, rest, k + 1);
    ByteInside(before, w, rest, k + 2);
    ByteInside(before, w, rest, k + 3);
  }

  /** A chunk's own bytes, looked at from its start. */
  lemma ChunkReads(c: Chunk)
    requires c.Valid()
    ensures c.Written()[0..4] == c.id && ReadU32LE(c.Written(), 4) == |c.body|
  {
    hide U32LE, ReadU32LE, ReadU16LE;
    var size, pad := U32LE(|c.body|), if |c.body| % 2 == 1 then [0] else [];
    assert c.Written() == c.id + size + (c.body + pad);
    FrontReads(c.id, size, c.body + pad);
  }

  lemma FrontReads(id: bytes, size: bytes, rest: bytes)
    requires |id| == 4 && |size| == 4
    ensures (id + size + rest)[0..4] == id && ReadU32LE(id + size + rest, 4) == ReadU32LE(size, 0)
  {
    hide ReadU32LE;
    ReadsInside(id, size, rest, 0);
  }

  lemma BodyReads(c: Chunk)
    requires c.Valid() && |c.body| >= 16
    ensures var w := c.Written();
      && ReadU16LE(w, 10) == ReadU16LE(c.body, 2) && ReadU32LE(w, 12) == ReadU32LE(c.body, 4)
      && ReadU16LE(w, 22) == ReadU16LE(c.body, 14)
  {
    hide U32LE, ReadU32LE, ReadU16LE;
    var front, pad := c.id + U32LE(|c.body|), if |c.body| % 2 == 1 then [0] else [];
    assert c.Written() == front + c.body + pad;
    ReadsInside(front, c.body, pad, 2);
    ReadsInside(front, c.body, pad, 4);
    ReadsTwoInside(front, c.body, pad, 14);
  }

  /** Looking at a chunk wherever it stands in the file. */
  lemma LooksAtChunk(before: bytes, c: Chunk, rest: bytes, fmt: Option<Fmt>)
    requires c.Valid()
    ensures var head := before + c.Written() + rest;
      && Look(head, |before|, fmt) == GoOn(c.Format(fmt))
      && ReadU32LE(head, |before| + 4) == |c.body|
  {
    hide ReadU16LE, ReadU32LE;
    var w := c.Written();
    ChunkReads(c);
    ReadsInside(before, w, rest, 0);
    ReadsInside(before, w, rest, 4);
    if c.id == FMT {
      BodyReads(c);
      ReadsInside(before, w, rest, 10);
      ReadsInside(before, w, rest, 12);
      ReadsTwoInside(before, w, rest, 22);
    }
  }

  lemma ReadsTwoInside(before: bytes, w: bytes, rest: bytes, k: nat)
    requires k + 2 <= |w|
    ensures ReadU16LE(before + w + rest, |before| + k) == ReadU16LE(w, k)
  {
    ByteInside(before, w, rest, k);
    ByteInside(before, w, rest, k + 1);
  }

  /** Walking over chunks that are all there brings the walk past them, with the last format among them. */
  lemma {:induction false} WalksChunks(before: bytes, chunks: seq<Chunk>, rest: bytes, fmt: Option<Fmt>)
    requires AllValid(chunks)
    ensures var head := before + ChunksWritten(chunks) + rest;
      Walk(head, |before|, fmt) == Walk(head, |before| + |ChunksWritten(chunks)|, FormatIn(chunks, fmt))
    decreases |chunks|
  {
    hide Look, ReadU32LE;
    var head := before + ChunksWritten(chunks) + rest;
    if chunks != [] {
      var c := chunks[0];
      assert c.Valid();
      var tail := ChunksWritten(chunks[1..]);
      assert head == before + c.Written() + (tail + rest);
      LooksAtChunk(before, c, tail + rest, fmt);
      assert head == (before + c.Written()) + tail + rest;
      WalksChunks(before + c.Written(), chunks[1..], rest, c.Format(fmt));
    }
  }

  function Header(chunks: seq<Chunk>, riffSize: bytes, wave: bytes, dataSize: bytes): bytes
    requires |riffSize| == |wave| == |dataSize| == 4
    requires forall i :: 0 <= i < |chunks| ==> chunks[i].Valid()
  {
    RIFF + riffSize + wave + ChunksWritten(chunks) + (DATA + dataSize)
  }

  lemma LooksAtData(before: bytes, dataSize: bytes, rest: bytes, fmt: Option<Fmt>)
    requires |dataSize| == 4
    ensures Look(before + (DATA + dataSize) + rest, |before|, fmt)
         == Answer(if fmt.Some? then Some(Layout(fmt.value, |before| + 8)) else None)
  {
    var head := before + (DATA + dataSize) + rest;
    assert head[|before|..|before| + 4] == DATA;
  }

  /**
   * Whatever chunks come before the samples, odd-sized ones padded, and
   * whatever sizes are filled in only at the end: a whole header gives the
   * last format among them and the place right after it.
   */
  lemma ReadsWrittenHeader(chunks: seq<Chunk>, riffSize: bytes, wave: bytes, dataSize: bytes, samples: bytes)
    requires AllValid(chunks) && |riffSize| == |wave| == |dataSize| == 4
    ensures var header := Header(chunks, riffSize, wave, dataSize);
      LayoutOf(header + samples) == match FormatIn(chunks, None)
        case Some(fmt) => Some(Layout(fmt, |header|))
        case None => None
  {
    hide Look, ReadU32LE, FormatIn, ChunksWritten;
    var start := RIFF + riffSize + wave;
    var head := Header(chunks, riffSize, wave, dataSize) + samples;
    var body := ChunksWritten(chunks);
    assert head == start + body + ((DATA + dataSize) + samples);
    assert head[..4] == RIFF;
    WalksChunks(start, chunks, (DATA + dataSize) + samples, None);
    assert head == (start + body) + (DATA + dataSize) + samples;
    LooksAtData(start + body, dataSize, samples, FormatIn(chunks, None));
  }

  // ---- What is refused ------------------------------------------------------------------

  /** No layout without a whole RIFF header, from samples of another size, or from a format cut short. */
  lemma AnythingElseHasNoLayout(head: bytes)
    requires |head| < 12 || head[..4] != [0x52, 0x49, 0x46, 0x46]
    ensures LayoutOf(head) == None
  {
  }

  lemma OtherSamplesHaveNoLayout(
      chunks: seq<Chunk>, riffSize: bytes, wave: bytes, size: bytes, body: bytes)
    requires AllValid(chunks) && |riffSize| == |wave| == |size| == 4
    requires |body| < 16 || Number([body[15], body[14]]) != 16
    ensures LayoutOf(RIFF + riffSize + wave + ChunksWritten(chunks) + (FMT + size + body)) == None
  {
    hide Look, ReadU32LE, FormatIn, ChunksWritten, ReadU16LE, Walk;
    var start, written := RIFF + riffSize + wave, ChunksWritten(chunks);
    var head := start + written + (FMT + size + body);
    assert head[..4] == RIFF;
    WalksChunks(start, chunks, FMT + size + body, None);
    assert head == (start + written) + (FMT + size + body);
    LooksAtOtherFormat(start + written, size, body, FormatIn(chunks, None));
  }

  lemma LooksAtOtherFormat(before: bytes, size: bytes, body: bytes, fmt: Option<Fmt>)
    requires |size| == 4 && |before| + 8 <= |before + (FMT + size + body)| + Padded(0x1_0000_0000)
    requires |body| < 16 || Number([body[15], body[14]]) != 16
    ensures Walk(before + (FMT + size + body), |before|, fmt) == None
  {
    var head, at := before + (FMT + size + body), |before|;
    assert head[at..at + 4] == FMT;
    if |body| >= 16 {
      assert head[at + 22] == body[14] && head[at + 23] == body[15];
      ReadsSmallestFirst(head, at + 22);
    }
    hide ReadU32LE, ReadU16LE, Number;
  }

  // ---- The samples --------------------------------------------------------------------

  /** A 16-bit sample, as `readInt16LE` reads it. */
  function ReadS16LE(s: bytes, at: nat): int
    requires at + 2 <= |s|
  {
    var n := ReadU16LE(s, at);
    if n >= 0x8000 then n - 0x1_0000 else n
  }

  /** A sample as two's complement has it, little end first. */
  function S16LE(v: int): bytes
    requires -0x8000 <= v < 0x8000
  {
    [v % 0x100, v / 0x100 % 0x100]
  }

  /** Samples are signed: each reads back as it was written. */
  lemma SampleReadsBack(v: int)
    requires -0x8000 <= v < 0x8000
    ensures ReadS16LE(S16LE(v), 0) == v
  {
  }

  /** Little-endian: the last byte is the largest. */
  lemma ReadsSmallestFirst(s: bytes, at: nat)
    requires at + 2 <= |s|
    ensures ReadU16LE(s, at) == Number([s[at + 1], s[at]])
    ensures at + 4 <= |s| ==> ReadU32LE(s, at) == Number([s[at + 3], s[at + 2], s[at + 1], s[at]])
  {
    hide Number;
    NumberOfThree(0, s[at + 1], s[at]);
    NumberOneMore([], s[at + 1]);
    NumberOneMore([s[at + 1]], s[at]);
    NumberOfNone();
    assert [] + [s[at + 1]] == [s[at + 1]] && [s[at + 1]] + [s[at]] == [s[at + 1], s[at]];
    if at + 4 <= |s| {
      NumberOfThree(s[at + 3], s[at + 2], s[at + 1]);
      NumberOneMore([s[at + 3], s[at + 2], s[at + 1]], s[at]);
      assert [s[at + 3], s[at + 2], s[at + 1]] + [s[at]] == [s[at + 3], s[at + 2], s[at + 1], s[at]];
    }
  }

  type Channels = n: nat | n > 0 witness 1

  /** How many whole frames `size` bytes hold. */
  function Whole(size: nat, frameBytes: nat): (n: nat)
    requires frameBytes > 0
  {
    size / frameBytes
  }

  function FramesIn(data: bytes, channels: Channels): nat {
    Whole(|data|, 2 * channels)
  }

  lemma FrameIsThere(data: bytes, channels: Channels, frame: nat)
    requires frame < FramesIn(data, channels)
    ensures frame * (2 * channels) + 2 * channels <= |data|
  {
    var frames := FramesIn(data, channels);
    assert (frame + 1) * (2 * channels) <= frames * (2 * channels) <= |data| by {
      Products(frame + 1, frames, 2 * channels);
      WholeFrames(|data|, 2 * channels);
    }
    assert (frame + 1) * (2 * channels) == frame * (2 * channels) + 2 * channels;
  }

  lemma Products(a: nat, b: nat, c: nat)
    requires a <= b
    ensures a * c <= b * c
  {
  }

  lemma WholeFrames(size: nat, frameBytes: nat)
    requires frameBytes > 0
    ensures Whole(size, frameBytes) * frameBytes <= size < Whole(size, frameBytes) * frameBytes + frameBytes
  {
  }

  /** The sum of the first `n` channels of the frame at `at`. */
  function SumOf(data: bytes, at: nat, n: nat): int
    requires at + 2 * n <= |data|
  {
    if n == 0 then 0 else SumOf(data, at, n - 1) + ReadS16LE(data, at + 2 * (n - 1))
  }

  function Mono(data: bytes, channels: Channels, frame: nat): real
    requires frame < FramesIn(data, channels)
  {
    FrameIsThere(data, channels, frame);
    SumOf(data, frame * (2 * channels), channels) as real / channels as real / 32768.0
  }

  /** How many samples of a window from `first`, `length` long, `frames` frames fill. */
  function FilledBy(frames: nat, first: nat, length: nat): nat {
    if frames <= first then 0 else if frames - first >= length then length else frames - first
  }

  /** Everything read at once: the window's samples that the data holds. */
  function ReadAtOnce(data: bytes, channels: Channels, first: nat, length: nat): seq<real> {
    seq(FilledBy(FramesIn(data, channels), first, length),
        n requires 0 <= n < FilledBy(FramesIn(data, channels), first, length) => Mono(data, channels, first + n))
  }

  lemma {:induction false} SumStays(data: bytes, more: bytes, at: nat, n: nat)
    requires at + 2 * n <= |data| && data <= more
    ensures SumOf(data, at, n) == SumOf(more, at, n)
  {
    if n > 0 { SumStays(data, more, at, n - 1); }
  }

  lemma FramesGrow(data: bytes, more: bytes, channels: Channels)
    requires data <= more
    ensures FramesIn(data, channels) <= FramesIn(more, channels)
  {
    WholeFrames(|data|, 2 * channels);
    WholeFrames(|more|, 2 * channels);
    QuotientsGrow(|data|, |more|, 2 * channels);
  }

  lemma QuotientsGrow(a: nat, b: nat, c: nat)
    requires a <= b && c > 0
    ensures Whole(a, c) <= Whole(b, c)
  {
    hide Whole;
    WholeFrames(a, c);
    WholeFrames(b, c);
    if Whole(a, c) > Whole(b, c) { Products(Whole(b, c) + 1, Whole(a, c), c); }
  }

  lemma MonoStays(data: bytes, more: bytes, channels: Channels, frame: nat)
    requires data <= more && frame < FramesIn(data, channels)
    ensures frame < FramesIn(more, channels) && Mono(data, channels, frame) == Mono(more, channels, frame)
  {
    hide SumOf, FramesIn;
    FramesGrow(data, more, channels);
    FrameIsThere(data, channels, frame);
    SumStays(data, more, frame * (2 * channels), channels);
  }

  lemma ReadStays(data: bytes, more: bytes, channels: Channels, first: nat, length: nat)
    requires data <= more
    ensures ReadAtOnce(data, channels, first, length) <= ReadAtOnce(more, channels, first, length)
  {
    hide Mono, FramesIn;
    FramesGrow(data, more, channels);
    var a, b := ReadAtOnce(data, channels, first, length), ReadAtOnce(more, channels, first, length);
    forall n | 0 <= n < |a| ensures a[n] == b[n] { MonoStays(data, more, channels, first + n); }
  }

  // ---- A recording as written -----------------------------------------------------------

  /** One frame: a sample of each channel. */
  type Frame = seq<int>

  ghost predicate IsFrame(frame: Frame, channels: Channels) {
    |frame| == channels && forall c :: 0 <= c < |frame| ==> -0x8000 <= frame[c] < 0x8000
  }

  ghost predicate AreFrames(frames: seq<Frame>, channels: Channels) {
    forall f :: 0 <= f < |frames| ==> IsFrame(frames[f], channels)
  }

  function WrittenFrame(frame: Frame): (s: bytes)
    requires forall c :: 0 <= c < |frame| ==> -0x8000 <= frame[c] < 0x8000
    ensures |s| == 2 * |frame|
  {
    if frame == [] then [] else WrittenFrame(frame[..|frame| - 1]) + S16LE(frame[|frame| - 1])
  }

  ghost function Recorded(frames: seq<Frame>, channels: Channels): (s: bytes)
    requires AreFrames(frames, channels)
    ensures |s| == |frames| * (2 * channels)
  {
    if frames == [] then []
    else
      var n := |frames| - 1;
      assert IsFrame(frames[n], channels);
      assert |frames| * (2 * channels) == n * (2 * channels) + 2 * channels;
      Recorded(frames[..n], channels) + WrittenFrame(frames[n])
  }

  function Total(samples: seq<int>): int {
    if samples == [] then 0 else Total(samples[..|samples| - 1]) + samples[|samples| - 1]
  }

  lemma {:induction false} SampleOfFrame(frame: Frame, c: nat)
    requires c < |frame| && forall c :: 0 <= c < |frame| ==> -0x8000 <= frame[c] < 0x8000
    ensures WrittenFrame(frame)[2 * c..2 * c + 2] == S16LE(frame[c])
  {
    hide S16LE;
    var n := |frame| - 1;
    if c < n {
      SampleOfFrame(frame[..n], c);
      assert WrittenFrame(frame)[2 * c..2 * c + 2] == WrittenFrame(frame[..n])[2 * c..2 * c + 2];
    }
  }

  lemma {:induction false} FrameOfRecording(frames: seq<Frame>, channels: Channels, f: nat)
    requires AreFrames(frames, channels) && f < |frames|
    ensures var at := f * (2 * channels);
      IsFrame(frames[f], channels) && at + 2 * channels <= |Recorded(frames, channels)|
      && Recorded(frames, channels)[at..at + 2 * channels] == WrittenFrame(frames[f])
  {
    hide WrittenFrame;
    var n, at := |frames| - 1, f * (2 * channels);
    assert IsFrame(frames[f], channels) && IsFrame(frames[n], channels);
    assert (f + 1) * (2 * channels) == at + 2 * channels;
    Products(f + 1, |frames|, 2 * channels);
    if f < n {
      FrameOfRecording(frames[..n], channels, f);
      var front := Recorded(frames[..n], channels);
      assert Recorded(frames, channels)[at..at + 2 * channels] == front[at..at + 2 * channels];
    } else {
      assert Recorded(frames, channels) == Recorded(frames[..n], channels) + WrittenFrame(frames[n]);
    }
  }

  lemma PartOfPart(data: bytes, at: nat, length: nat, k: nat)
    requires at + length <= |data| && k + 2 <= length
    ensures data[at..at + length][k..k + 2] == data[at + k..at + k + 2]
  {
    var part := data[at..at + length];
    assert part[k] == data[at + k] && part[k + 1] == data[at + k + 1];
    assert part[k..k + 2] == [part[k], part[k + 1]];
    assert data[at + k..at + k + 2] == [data[at + k], data[at + k + 1]];
  }

  lemma {:induction false} SumsTheFrame(data: bytes, at: nat, frame: Frame, n: nat)
    requires n <= |frame| && at + 2 * |frame| <= |data|
    requires forall c :: 0 <= c < |frame| ==> -0x8000 <= frame[c] < 0x8000
    requires data[at..at + 2 * |frame|] == WrittenFrame(frame)
    ensures SumOf(data, at, n) == Total(frame[..n])
  {
    hide ReadS16LE, S16LE, WrittenFrame;
    if n > 0 {
      var c := n - 1;
      SumsTheFrame(data, at, frame, c);
      assert frame[..n][..c] == frame[..c];
      SampleOfFrame(frame, c);
      PartOfPart(data, at, 2 * |frame|, 2 * c);
      SampleAt(data, at + 2 * c, frame[c]);
    }
  }

  lemma SampleAt(data: bytes, at: nat, v: int)
    requires -0x8000 <= v < 0x8000 && at + 2 <= |data| && data[at..at + 2] == S16LE(v)
    ensures ReadS16LE(data, at) == v
  {
    SampleReadsBack(v);
    assert data[at] == data[at..at + 2][0] && data[at + 1] == data[at..at + 2][1];
  }

  lemma FramesRecorded(frames: seq<Frame>, channels: Channels, tail: bytes)
    requires AreFrames(frames, channels) && |tail| < 2 * channels
    ensures FramesIn(Recorded(frames, channels) + tail, channels) == |frames|
  {
    hide Whole;
    WholeOf(|frames|, 2 * channels, |tail|);
  }

  lemma WholeOf(n: nat, c: nat, tail: nat)
    requires tail < c
    ensures Whole(n * c + tail, c) == n
  {
    hide Whole;
    var q := Whole(n * c + tail, c);
    WholeFrames(n * c + tail, c);
    if q < n { Products(q + 1, n, c); }
    if q > n { Products(n + 1, q, c); }
  }

  lemma MixesTheFrame(frames: seq<Frame>, channels: Channels, tail: bytes, f: nat)
    requires AreFrames(frames, channels) && f < |frames|
    requires f < FramesIn(Recorded(frames, channels) + tail, channels)
    ensures Mono(Recorded(frames, channels) + tail, channels, f) == Total(frames[f]) as real / channels as real / 32768.0
  {
    hide SumOf, Total, FramesIn, Recorded, WrittenFrame;
    var recorded, at := Recorded(frames, channels), f * (2 * channels);
    var data := recorded + tail;
    FrameOfRecording(frames, channels, f);
    assert data[at..at + 2 * channels] == recorded[at..at + 2 * channels];
    SumsTheFrame(data, at, frames[f], channels);
    assert frames[f][..channels] == frames[f];
  }

  /**
   * What is filled of the window is the mix of a recording's own frames, each
   * the mean of its channels' samples as a part of full scale, from the
   * window's first on, for as many as there are and fit; and a frame only
   * partly written yet is not among them.
   */
  lemma ReadsTheRecording(frames: seq<Frame>, channels: Channels, tail: bytes, first: nat, length: nat)
    requires AreFrames(frames, channels) && |tail| < 2 * channels
    ensures var filled := ReadAtOnce(Recorded(frames, channels) + tail, channels, first, length);
      && (|filled| == if |frames| <= first then 0 else if |frames| - first >= length then length else |frames| - first)
      && forall n :: 0 <= n < |filled| ==>
           filled[n] == Total(frames[first + n]) as real / channels as real / 32768.0
  {
    hide Mono, Total, FramesIn, Recorded;
    var data := Recorded(frames, channels) + tail;
    FramesRecorded(frames, channels, tail);
    var filled := ReadAtOnce(data, channels, first, length);
    forall n | 0 <= n < |filled|
      ensures filled[n] == Total(frames[first + n]) as real / channels as real / 32768.0
    {
      MixesTheFrame(frames, channels, tail, first + n);
    }
  }

  class Mic {
    const channels: Channels
    const first: nat
    const samples: array<real>
    var read: nat
    var filled: nat
    /** The samples' bytes as the file last held them. */
    ghost var seen: bytes

    ghost predicate Valid()
      reads this, samples
    {
      && read == FramesIn(seen, channels) * (2 * channels)
      && filled <= samples.Length
      && samples[..filled] == ReadAtOnce(seen, channels, first, samples.Length)
    }

    constructor (channels: Channels, first: nat, length: nat)
      ensures Valid() && seen == [] && this.channels == channels && this.first == first
      ensures samples.Length == length && fresh(samples)
    {
      this.channels, this.first := channels, first;
      samples := new real[length];
      read, filled, seen := 0, 0, [];
    }

    method Mix(data: bytes, frame: nat) returns (mono: real)
      requires frame < FramesIn(data, channels)
      ensures mono == Mono(data, channels, frame)
    {
      FrameIsThere(data, channels, frame);
      var at := frame * (2 * channels);
      var sum := 0;
      for c := 0 to channels
        invariant sum == SumOf(data, at, c)
      {
        sum := sum + ReadS16LE(data, at + 2 * c);
      }
      mono := sum as real / channels as real / 32768.0;
    }

    /**
     * Appends the new whole frames of a file that has grown to `data`: after
     * any number of updates the samples are what reading it all at once gives.
     */
    method Update(data: bytes)
      requires Valid() && seen <= data
      modifies this, samples
      ensures Valid() && seen == data
    {
      hide Mono, FramesIn;
      var total := FramesIn(data, channels);
      var at := FramesRead();
      FramesGrow(seen, data, channels);
      ReadStays(seen, data, channels, first, samples.Length);
      ghost var all := ReadAtOnce(data, channels, first, samples.Length);
      read := total * (2 * channels);
      ghost var was := seen;
      seen := data;
      while at < total
        invariant at <= total
        invariant read == total * (2 * channels) && seen == data
        invariant filled == FilledBy(at, first, samples.Length)
        invariant filled <= |all| <= samples.Length && samples[..filled] == all[..filled]
      {
        if at >= first {
          var n := at - first;
          if n >= samples.Length { break; }
          samples[n] := Mix(data, at);
          filled := n + 1;
          assert samples[..n] == all[..n];
        }
        at := at + 1;
      }
      assert filled == |all|;
    }

    method FramesRead() returns (frames: nat)
      requires Valid()
      ensures frames == FramesIn(seen, channels)
    {
      DividesBack(FramesIn(seen, channels), 2 * channels);
      frames := Whole(read, 2 * channels);
    }
  }

  lemma DividesBack(n: nat, c: nat)
    requires c > 0
    ensures Whole(n * c, c) == n
  {
    hide Whole;
    WholeFrames(n * c, c);
    var q := Whole(n * c, c);
    Products(q + 1, if q < n then n else q + 1, c);
    Products(n + 1, if q > n then q else n + 1, c);
  }
}
