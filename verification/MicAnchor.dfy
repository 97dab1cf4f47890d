/**
 * The mic's clock: the expression ffmpeg evaluates on each mic buffer, with its
 * four registers, against what it computes in closed form. Times are reals, in
 * seconds; a buffer has its wall-time stamp and the samples before it.
 */
module MicAnchor {
  import opened Common

  datatype Buffer = Buffer(stamp: real, samples: nat)

  const RISE := 0.0005
  const STALL_LOGGED := 0.05

  type Rate = n: nat | n > 0 witness 1

  /** Seconds of mic audio before the buffer. */
  function Secs(samples: nat, rate: Rate): real {
    samples as real / rate as real
  }

  /** When the mic started, by this buffer's own word. */
  function StartedAt(b: Buffer, rate: Rate): real {
    b.stamp - Secs(b.samples, rate)
  }

  /** Registers 0 to 3: the anchor, the last buffer's samples, how late it was, how late the one before was. */
  datatype Registers = Registers(anchor: real, samples: nat, late: real, lateBefore: real)

  const INIT := Registers(0.0, 0, 0.0, 0.0)

  function Next(r: Registers, b: Buffer, rate: Rate): Registers {
    var started := StartedAt(b, rate);
    var anchor :=
      if b.samples == 0 then started
      else Min(r.anchor + RISE * (b.samples - r.samples) as real / rate as real, started);
    Registers(anchor, b.samples, started - anchor, r.late)
  }

  function After(bs: seq<Buffer>, rate: Rate): Registers {
    if bs == [] then INIT else Next(After(bs[..|bs| - 1], rate), bs[|bs| - 1], rate)
  }

  /** The time the buffer is given. */
  function Output(bs: seq<Buffer>, rate: Rate): real
    requires bs != []
  {
    After(bs, rate).anchor + Secs(bs[|bs| - 1].samples, rate)
  }

  /** The stall line: this buffer is late, and the one before was not. */
  predicate LogsStall(bs: seq<Buffer>, rate: Rate) {
    bs != [] && After(bs, rate).late > STALL_LOGGED && After(bs, rate).lateBefore <= STALL_LOGGED
  }

  /** The mic's buffers from its opening: the first has no samples before it, each later one has more. */
  predicate FromTheStart(bs: seq<Buffer>) {
    && (bs != [] ==> bs[0].samples == 0)
    && (forall i :: 0 < i < |bs| ==> bs[i].samples > 0)
    && (forall i, j :: 0 <= i < j < |bs| ==> bs[i].samples <= bs[j].samples)
  }

  // ---- The closed form ----------------------------------------------------------------

  /** What buffer `i` allows the anchor to be by the time `samples` have been read. */
  function Allows(b: Buffer, samples: nat, rate: Rate): real {
    StartedAt(b, rate) + RISE * (Secs(samples, rate) - Secs(b.samples, rate))
  }

  function Earliest(bs: seq<Buffer>, samples: nat, rate: Rate): (e: real)
    requires bs != []
    ensures forall i :: 0 <= i < |bs| ==> e <= Allows(bs[i], samples, rate)
    ensures exists i :: 0 <= i < |bs| && e == Allows(bs[i], samples, rate)
  {
    var last := Allows(bs[|bs| - 1], samples, rate);
    if |bs| == 1 then last
    else
      var before := Earliest(bs[..|bs| - 1], samples, rate);
      assert forall i :: 0 <= i < |bs| - 1 ==> bs[..|bs| - 1][i] == bs[i];
      Min(before, last)
  }

  lemma SecsApart(a: nat, b: nat, rate: Rate)
    requires a <= b
    ensures RISE * (b - a) as real / rate as real == RISE * (Secs(b, rate) - Secs(a, rate))
    ensures Secs(a, rate) <= Secs(b, rate)
  {
    assert (b - a) as real == b as real - a as real;
    assert (b - a) as real / rate as real == Secs(b, rate) - Secs(a, rate);
    assert (b - a) as real / rate as real >= 0.0;
  }

  lemma {:induction false} EarliestMoves(bs: seq<Buffer>, a: nat, b: nat, rate: Rate)
    requires bs != [] && a <= b
    ensures Earliest(bs, b, rate) == Earliest(bs, a, rate) + RISE * (Secs(b, rate) - Secs(a, rate))
  {
    hide Secs;
    if |bs| > 1 { EarliestMoves(bs[..|bs| - 1], a, b, rate); }
  }

  lemma OneMore(bs: seq<Buffer>, next: Buffer, rate: Rate)
    ensures After(bs + [next], rate) == Next(After(bs, rate), next, rate)
  {
    assert (bs + [next])[..|bs + [next]| - 1] == bs;
  }

  /** One later buffer: the anchor creeps, unless the buffer says earlier. */
  lemma OneStep(r: Registers, b: Buffer, rate: Rate)
    requires 0 < b.samples && r.samples <= b.samples
    ensures var crept := r.anchor + RISE * (Secs(b.samples, rate) - Secs(r.samples, rate));
      Next(r, b, rate).anchor == Min(crept, StartedAt(b, rate)) && crept >= r.anchor
  {
    SecsApart(r.samples, b.samples, rate);
  }

  lemma EarliestOneMore(bs: seq<Buffer>, next: Buffer, samples: nat, rate: Rate)
    requires bs != []
    ensures Earliest(bs + [next], samples, rate) == Min(Earliest(bs, samples, rate), Allows(next, samples, rate))
  {
    hide Allows;
    assert (bs + [next])[..|bs + [next]| - 1] == bs;
  }

  /** The recurrence keeps the least, over every buffer so far, of when it says the mic started plus the creep since. */
  lemma {:induction false} AnchorIsTheEarliest(bs: seq<Buffer>, rate: Rate)
    requires bs != [] && FromTheStart(bs)
    ensures var last := bs[|bs| - 1];
      && After(bs, rate).samples == last.samples
      && After(bs, rate).anchor == Earliest(bs, last.samples, rate)
  {
    hide Secs, Next, Earliest, After;
    var before, last := bs[..|bs| - 1], bs[|bs| - 1];
    assert bs == before + [last];
    if before == [] {
      FirstAnchor(last, rate);
    } else {
      AnchorIsTheEarliest(before, rate);
      OneMore(before, last, rate);
      var was := before[|before| - 1].samples;
      assert was == bs[|bs| - 2].samples <= last.samples;
      OneStep(After(before, rate), last, rate);
      EarliestMoves(before, was, last.samples, rate);
      EarliestOneMore(before, last, last.samples, rate);
      NextCountsSamples(After(before, rate), last, rate);
    }
  }

  lemma FirstAnchor(b: Buffer, rate: Rate)
    requires b.samples == 0
    ensures After([b], rate).samples == b.samples && After([b], rate).anchor == Earliest([b], b.samples, rate)
  {
    hide Secs;
    assert Allows(b, b.samples, rate) == StartedAt(b, rate);
  }

  lemma NextCountsSamples(r: Registers, b: Buffer, rate: Rate)
    ensures Next(r, b, rate).samples == b.samples
    ensures Next(r, b, rate).late == StartedAt(b, rate) - Next(r, b, rate).anchor
  {
    hide Secs;
  }

  // ---- What it means ------------------------------------------------------------------

  /** A buffer is never given a time after its stamp, and its lateness is how much earlier. */
  lemma NeverAfterTheStamp(bs: seq<Buffer>, rate: Rate)
    requires bs != [] && FromTheStart(bs)
    ensures var last := bs[|bs| - 1];
      && Output(bs, rate) <= last.stamp
      && After(bs, rate).late == last.stamp - Output(bs, rate) >= 0.0
  {
    hide Secs;
  }

  /** What is known of one more buffer. */
  lemma AnotherBuffer(bs: seq<Buffer>, next: Buffer, rate: Rate)
    requires bs != [] && FromTheStart(bs + [next])
    ensures FromTheStart(bs) && After(bs, rate).samples == bs[|bs| - 1].samples <= next.samples && 0 < next.samples
    ensures After(bs + [next], rate) == Next(After(bs, rate), next, rate)
  {
    var all := bs + [next];
    assert all[|bs| - 1] == bs[|bs| - 1] && all[|bs|] == next;
    FrontFromTheStart(bs, next);
    AnchorIsTheEarliest(bs, rate);
    OneMore(bs, next, rate);
  }

  /** Stamps that never run backwards give times that never run backwards. */
  lemma TimesNeverRunBack(bs: seq<Buffer>, next: Buffer, rate: Rate)
    requires bs != [] && FromTheStart(bs + [next]) && next.stamp >= bs[|bs| - 1].stamp
    ensures Output(bs + [next], rate) >= Output(bs, rate)
  {
    hide Secs, After, Next;
    AnotherBuffer(bs, next, rate);
    OneStep(After(bs, rate), next, rate);
    SecsApart(bs[|bs| - 1].samples, next.samples, rate);
    NeverAfterTheStamp(bs, rate);
  }

  lemma FrontFromTheStart(bs: seq<Buffer>, next: Buffer)
    requires FromTheStart(bs + [next])
    ensures FromTheStart(bs)
  {
    assert forall i :: 0 <= i < |bs| ==> (bs + [next])[i] == bs[i];
  }

  /** However late a buffer is read, it moves the anchor later by no more than the creep. */
  lemma AStallHardlyMovesIt(bs: seq<Buffer>, next: Buffer, rate: Rate)
    requires bs != [] && FromTheStart(bs + [next])
    ensures After(bs + [next], rate).anchor - After(bs, rate).anchor
         <= RISE * (Secs(next.samples, rate) - Secs(bs[|bs| - 1].samples, rate))
  {
    hide Secs, After, Next;
    AnotherBuffer(bs, next, rate);
    OneStep(After(bs, rate), next, rate);
  }

  /**
   * A mic that really started at `start`, on a sound card slow against Windows
   * by `drift` seconds a second, each buffer read `late[i]` late.
   */
  ghost predicate ReadFrom(bs: seq<Buffer>, start: real, drift: real, late: seq<real>, rate: Rate) {
    |late| == |bs|
    && forall i :: 0 <= i < |bs| ==> IsRead(bs[i], start, drift, late[i], rate)
  }

  predicate IsRead(b: Buffer, start: real, drift: real, late: real, rate: Rate) {
    b.stamp == start + (1.0 + drift) * Secs(b.samples, rate) + late
  }

  /** How far the given time of the last buffer is from the time its sound was made. */
  function Error(bs: seq<Buffer>, start: real, drift: real, rate: Rate): real
    requires bs != []
  {
    Output(bs, rate) - (start + (1.0 + drift) * Secs(bs[|bs| - 1].samples, rate))
  }

  /** What buffer `i` bounds that error by. */
  function Bound(bs: seq<Buffer>, i: nat, drift: real, late: real, rate: Rate): real
    requires i < |bs|
  {
    late + (RISE - drift) * (Secs(bs[|bs| - 1].samples, rate) - Secs(bs[i].samples, rate))
  }

  lemma AllowsInTermsOfLateness(b: Buffer, samples: nat, start: real, drift: real, late: real, rate: Rate)
    requires IsRead(b, start, drift, late, rate)
    ensures Allows(b, samples, rate) + Secs(samples, rate) - (start + (1.0 + drift) * Secs(samples, rate))
         == late + (RISE - drift) * (Secs(samples, rate) - Secs(b.samples, rate))
  {
    hide Secs;
    var s, n := Secs(b.samples, rate), Secs(samples, rate);
    assert (1.0 + drift) * s == s + drift * s;
    assert (1.0 + drift) * n == n + drift * n;
    assert (RISE - drift) * (n - s) == RISE * (n - s) - drift * n + drift * s;
  }

  /** Buffer `i`'s bound is to the error as what it allows is to the anchor. */
  lemma OneBound(bs: seq<Buffer>, i: nat, start: real, drift: real, late: real, rate: Rate)
    requires i < |bs| && FromTheStart(bs) && IsRead(bs[i], start, drift, late, rate)
    ensures Error(bs, start, drift, rate) - Bound(bs, i, drift, late, rate)
         == Earliest(bs, bs[|bs| - 1].samples, rate) - Allows(bs[i], bs[|bs| - 1].samples, rate)
  {
    hide Secs, Allows, Earliest, After, IsRead, RISE;
    AnchorIsTheEarliest(bs, rate);
    AllowsInTermsOfLateness(bs[i], bs[|bs| - 1].samples, start, drift, late, rate);
  }

  /** The error is exactly the least of the buffers' bounds: each one's lateness and the creep since, less the drift since. */
  lemma ErrorIsTheLeastBound(bs: seq<Buffer>, start: real, drift: real, late: seq<real>, rate: Rate)
    requires bs != [] && FromTheStart(bs) && ReadFrom(bs, start, drift, late, rate)
    ensures forall i :: 0 <= i < |bs| ==> Error(bs, start, drift, rate) <= Bound(bs, i, drift, late[i], rate)
    ensures exists i :: 0 <= i < |bs| && Error(bs, start, drift, rate) == Bound(bs, i, drift, late[i], rate)
  {
    hide Error, Bound, Allows, IsRead, FromTheStart;
    forall i | 0 <= i < |bs|
      ensures Error(bs, start, drift, rate) - Bound(bs, i, drift, late[i], rate)
           == Earliest(bs, bs[|bs| - 1].samples, rate) - Allows(bs[i], bs[|bs| - 1].samples, rate)
    {
      OneBound(bs, i, start, drift, late[i], rate);
    }
    var n := bs[|bs| - 1].samples;
    var k :| 0 <= k < |bs| && Earliest(bs, n, rate) == Allows(bs[k], n, rate);
    assert Error(bs, start, drift, rate) == Bound(bs, k, drift, late[k], rate);
  }

  /** No buffer read early: with a card no slower than the creep, sound is never placed before it was made. */
  lemma NeverBeforeItsSound(bs: seq<Buffer>, start: real, drift: real, late: seq<real>, rate: Rate)
    requires bs != [] && FromTheStart(bs) && ReadFrom(bs, start, drift, late, rate)
    requires drift <= RISE && forall i :: 0 <= i < |late| ==> late[i] >= 0.0
    ensures Error(bs, start, drift, rate) >= 0.0
  {
    hide Error, Bound, RISE;
    ErrorIsTheLeastBound(bs, start, drift, late, rate);
    var k :| 0 <= k < |bs| && Error(bs, start, drift, rate) == Bound(bs, k, drift, late[k], rate);
    BoundNotNegative(bs, k, drift, late[k], rate);
  }

  lemma BoundNotNegative(bs: seq<Buffer>, i: nat, drift: real, late: real, rate: Rate)
    requires i < |bs| && FromTheStart(bs) && drift <= RISE && late >= 0.0
    ensures Bound(bs, i, drift, late, rate) >= 0.0
  {
    hide Secs, RISE;
    var last := bs[|bs| - 1];
    assert bs[i].samples <= last.samples;
    SecsOrdered(bs[i].samples, last.samples, rate);
    BoundIsNotNegative(drift, late, Secs(last.samples, rate) - Secs(bs[i].samples, rate));
  }

  lemma BoundIsNotNegative(drift: real, late: real, secs: real)
    requires drift <= RISE && late >= 0.0 && secs >= 0.0
    ensures late + (RISE - drift) * secs >= 0.0
  {
    ProductNotNegative(RISE - drift, secs);
  }

  lemma SecsOrdered(a: nat, b: nat, rate: Rate)
    requires a <= b
    ensures Secs(a, rate) <= Secs(b, rate)
  {
    SecsApart(a, b, rate);
  }

  lemma ProductNotNegative(a: real, b: real)
    requires a >= 0.0 && b >= 0.0
    ensures a * b >= 0.0
  {
  }

  /** With a slower card it always is, once there is more sound after a buffer read on time. */
  lemma SlowerCardsFallBehind(bs: seq<Buffer>, i: nat, start: real, drift: real, late: seq<real>, rate: Rate)
    requires i < |bs| && FromTheStart(bs) && ReadFrom(bs, start, drift, late, rate)
    requires drift > RISE && late[i] == 0.0 && bs[i].samples < bs[|bs| - 1].samples
    ensures Error(bs, start, drift, rate) < 0.0
  {
    hide Error, RISE, Secs, IsRead, FromTheStart;
    ErrorIsTheLeastBound(bs, start, drift, late, rate);
    var n := Secs(bs[|bs| - 1].samples, rate) - Secs(bs[i].samples, rate);
    SecsRise(bs[i].samples, bs[|bs| - 1].samples, rate);
    ProductNegative(RISE - drift, n);
  }

  lemma SecsRise(a: nat, b: nat, rate: Rate)
    requires a < b
    ensures Secs(a, rate) < Secs(b, rate)
  {
    SecsApart(a, b, rate);
  }

  lemma ProductNegative(a: real, b: real)
    requires a < 0.0 && b > 0.0
    ensures a * b < 0.0
  {
  }

  lemma LateBeforeIsLate(bs: seq<Buffer>, rate: Rate)
    requires |bs| > 1
    ensures After(bs, rate).lateBefore == After(bs[..|bs| - 1], rate).late
  {
    hide Secs;
  }

  /** A stall is logged once: between two stall lines lies a buffer that was not late. */
  lemma {:induction false} AStallIsLoggedOnce(bs: seq<Buffer>, i: nat, j: nat, rate: Rate) returns (k: nat)
    requires 0 < i < j <= |bs| && LogsStall(bs[..i], rate) && LogsStall(bs[..j], rate)
    ensures i < k < j && After(bs[..k], rate).late <= STALL_LOGGED
  {
    hide After;
    k := j - 1;
    assert bs[..j][..j - 1] == bs[..j - 1];
    LateBeforeIsLate(bs[..j], rate);
  }

  /** The registers as the expression updates them, in its order. */
  class Expression {
    const rate: Rate
    var st0: real
    var st1: nat
    var st2: real
    var st3: real

    function Abs(): Registers
      reads this
    {
      Registers(st0, st1, st2, st3)
    }

    constructor (rate: Rate)
      ensures Abs() == INIT && this.rate == rate
    {
      this.rate := rate;
      st0, st1, st2, st3 := 0.0, 0, 0.0, 0.0;
    }

    method Evaluate(b: Buffer) returns (time: real, logged: bool)
      modifies this
      ensures Abs() == Next(old(Abs()), b, rate)
      ensures time == Abs().anchor + Secs(b.samples, rate)
      ensures logged <==> Abs().late > STALL_LOGGED && Abs().lateBefore <= STALL_LOGGED
    {
      var started := b.stamp - Secs(b.samples, rate);
      if b.samples != 0 {
        st0 := Min(st0 + RISE * (b.samples - st1) as real / rate as real, started);
      } else {
        st0 := started;
      }
      st3 := st2;
      st2 := started - st0;
      logged := st2 > STALL_LOGGED && st3 <= STALL_LOGGED;
      st1 := b.samples;
      time := st0 + Secs(b.samples, rate);
    }
  }
}
