/** Bytes, and the big-endian numbers read from them. */
module Bytes {
  type byte = b: int | 0 <= b < 256
  type bytes = seq<byte>

  function ReadU32(s: bytes, at: nat): (n: nat)
    requires at + 4 <= |s|
  {
    s[at] as int * 0x100_0000 + s[at + 1] as int * 0x1_0000 + s[at + 2] as int * 0x100 + s[at + 3] as int
  }

  function ReadU24(s: bytes, at: nat): (n: nat)
    requires at + 3 <= |s|
  {
    s[at] as int * 0x1_0000 + s[at + 1] as int * 0x100 + s[at + 2] as int
  }

  /** The number these bytes are the digits of, largest first. */
  function Number(s: bytes): nat {
    if s == [] then 0 else 256 * Number(s[..|s| - 1]) + s[|s| - 1]
  }

  lemma NumberOneMore(s: bytes, b: byte)
    ensures Number(s + [b]) == 256 * Number(s) + b
  {
    assert (s + [b])[..|s + [b]| - 1] == s;
  }

  lemma NumberOfThree(a: byte, b: byte, c: byte)
    ensures Number([a, b, c]) == a as int * 0x1_0000 + b as int * 0x100 + c as int
  {
    hide Number;
    NumberOfNone();
    NumberOneMore([], a);
    NumberOneMore([a], b);
    NumberOneMore([a, b], c);
    assert [] + [a] == [a] && [a] + [b] == [a, b] && [a, b] + [c] == [a, b, c];
  }

  lemma NumberOfNone()
    ensures Number([]) == 0
  {
  }

  /** Numbers are read largest byte first. */
  lemma ReadsLargestFirst(s: bytes, at: nat)
    requires at + 3 <= |s|
    ensures ReadU24(s, at) == Number(s[at..at + 3])
    ensures at + 4 <= |s| ==> ReadU32(s, at) == Number(s[at..at + 4])
  {
    hide Number;
    assert s[at..at + 3] == [s[at], s[at + 1], s[at + 2]];
    NumberOfThree(s[at], s[at + 1], s[at + 2]);
    if at + 4 <= |s| {
      assert s[at..at + 4] == s[at..at + 3] + [s[at + 3]];
      NumberOneMore(s[at..at + 3], s[at + 3]);
    }
  }

  function U24(n: nat): (s: bytes)
    requires n < 0x100_0000
    ensures |s| == 3 && ReadU24(s, 0) == n
  {
    [n / 0x1_0000, n / 0x100 % 0x100, n % 0x100]
  }

  function U32(n: nat): (s: bytes)
    requires n < 0x1_0000_0000
    ensures |s| == 4 && ReadU32(s, 0) == n
  {
    assert n / 0x1_0000 / 0x100 == n / 0x100_0000 && n / 0x100 / 0x100 == n / 0x1_0000;
    [n / 0x100_0000, n / 0x1_0000 % 0x100, n / 0x100 % 0x100, n % 0x100]
  }

  /** What is left after `n` bytes, as `Buffer.subarray` gives it: nothing, past the end. */
  function Drop(s: bytes, n: nat): bytes {
    if n >= |s| then [] else s[n..]
  }
}
